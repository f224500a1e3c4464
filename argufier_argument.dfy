/** Argument-descriptor inference of the older revision (argufier/argument.py;
    argufier/argufier.py carries an identical copy of the class). Names are
    not hyphenated, an option has one `--name` flag under a `flags` key, and
    there is no `metavar`. */
module ArgufierArgument {
  import opened Python
  import opened Argparse
  import ArgufyArgument

  /** The attribute dict (`self.attributes`). */
  type Attributes = map<Keyword, Value>

  /** Every key `__init__` can write. */
  const InferredKeys: set<Keyword> := {NameKey, FlagsKey, DefaultKey, TypeKey, ActionKey, NargsKey, ChoicesKey, HelpKey}

  /** Lines 38-42: a positional name when there is no default, else a `--name` flag and the default. */
  function Started(p: Param): Attributes {
    if p.default.None? then map[NameKey := ListV([StrV(p.name)])]
    else map[FlagsKey := ListV([StrV("--" + p.name)]), DefaultKey := p.default.value]
  }

  /** The `action` helper (lines 55-60): the flag stores the negation of the stored default's truth value. */
  function Toggled(attrs: Attributes): Attributes {
    attrs[ActionKey := StrV(if Truthy(Get(attrs, DefaultKey)) then "store_false" else "store_true")]
  }

  /** The `annotation` helper (lines 62-67): the `list` class gives `nargs='*'`, the `bool` class a toggle. */
  function Annotated(attrs: Attributes, annotation: Option<Value>): Attributes {
    var listed := if annotation == Some(TypeV(ListType)) then attrs[NargsKey := StrV("*")] else attrs;
    if annotation == Some(TypeV(BoolType)) then Toggled(listed) else listed
  }

  /** The `type` helper (lines 69-80): a declared annotation verbatim, else the
      evaluated docstring hint, split into type and choices when it is a tuple. */
  function Typed(attrs: Attributes, annotation: Option<Value>, doc: Option<DocParam>): Result<Attributes> {
    if annotation.Some? then Ok(attrs[TypeKey := annotation.value])
    else if doc.Some? && doc.value.typeHint.Some? then
      var hint := doc.value.typeHint.value;
      if hint.TupleV? then
        if |hint.items| < 2 then Err(IndexError)
        else
          var typed := attrs[TypeKey := hint.items[0]];
          Ok(if hint.items[1].SetV? then typed[ChoicesKey := hint.items[1]] else typed)
      else Ok(attrs[TypeKey := hint])
    else Ok(attrs)
  }

  /** The `help` helper (lines 82-85). */
  function Helped(attrs: Attributes, doc: Option<DocParam>): Attributes {
    if doc.Some? then attrs[HelpKey := Text(doc.value.description)] else attrs
  }

  /** The evaluated docstring hint consulted when nothing is declared. */
  function Hint(doc: Option<DocParam>): Option<Value> {
    if doc.Some? then doc.value.typeHint else None
  }

  /** A tuple hint too short for `type_name[0]` and `type_name[1]`. */
  predicate ShortTupleHint(doc: Option<DocParam>) {
    Hint(doc).Some? && Hint(doc).value.TupleV? && |Hint(doc).value.items| < 2
  }

  /** The attribute dict `Argument(parameters, docstring)` ends with, or the exception it raises. */
  function Inferred(p: Param, doc: Option<DocParam>): (r: Result<Attributes>)
    // Only an undeclared parameter with a tuple hint shorter than two elements fails.
    ensures r.Err? <==> p.annotation.None? && ShortTupleHint(doc)
    ensures r.Err? ==> r.error == IndexError
    ensures r.Ok? ==> r.value.Keys <= InferredKeys
    // Exactly one of `name` and `flags`; `default` exactly alongside `flags`.
    ensures r.Ok? ==> (NameKey in r.value <==> p.default.None?) && (FlagsKey in r.value <==> p.default.Some?)
    ensures r.Ok? ==> (DefaultKey in r.value <==> p.default.Some?)
    ensures r.Ok? && p.default.None? ==> r.value[NameKey] == ListV([StrV(p.name)])
    ensures r.Ok? && p.default.Some? ==>
              r.value[FlagsKey] == ListV([StrV("--" + p.name)]) && r.value[DefaultKey] == p.default.value
    // `help` is present exactly when a docstring entry was given, and is its description.
    ensures r.Ok? ==> (HelpKey in r.value <==> doc.Some?)
    ensures r.Ok? && doc.Some? ==> r.value[HelpKey] == Text(doc.value.description)
  {
    var typed :- Typed(Annotated(Started(p), p.annotation), p.annotation, doc);
    Ok(Helped(typed, doc))
  }

  /** What the declared annotation and the docstring hint contribute. */
  lemma InferredFollowsAnnotation(p: Param, doc: Option<DocParam>)
    requires Inferred(p, doc).Ok?
    ensures var attrs := Inferred(p, doc).value;
      && (NargsKey in attrs <==> p.annotation == Some(TypeV(ListType)))
      && (ActionKey in attrs <==> p.annotation == Some(TypeV(BoolType)))
      && (TypeKey in attrs <==> p.annotation.Some? || Hint(doc).Some?)
      && (ChoicesKey in attrs <==> p.annotation.None? && Hint(doc).Some? && Hint(doc).value.TupleV? && Hint(doc).value.items[1].SetV?)
    ensures var attrs := Inferred(p, doc).value;
      && (p.annotation == Some(TypeV(ListType)) ==> attrs[NargsKey] == StrV("*"))
      && (p.annotation == Some(TypeV(BoolType)) ==>
            attrs[ActionKey] == StrV(if p.default.Some? && Truthy(p.default.value) then "store_false" else "store_true"))
      // A declared annotation is stored as it is; the hint is not consulted.
      && (p.annotation.Some? ==> attrs[TypeKey] == p.annotation.value)
      && (p.annotation.None? && Hint(doc).Some? && Hint(doc).value.TupleV? ==>
            attrs[TypeKey] == Hint(doc).value.items[0] &&
            (ChoicesKey in attrs ==> attrs[ChoicesKey] == Hint(doc).value.items[1]))
      && (p.annotation.None? && Hint(doc).Some? && !Hint(doc).value.TupleV? ==> attrs[TypeKey] == Hint(doc).value)
  {
  }

  /** With a declared annotation the docstring entry contributes only its description. */
  lemma AnnotationShadowsHint(p: Param, d1: DocParam, d2: DocParam)
    requires p.annotation.Some? && d1.description == d2.description
    ensures Inferred(p, Some(d1)) == Inferred(p, Some(d2))
  {
  }

  /** The two revisions disagree on the same parameter: a declared `bool` class
      is a toggle here but a typed option in the current revision, and a
      `list` takes `*` values here but `+` there. */
  lemma RevisionsDiverge(p: Param, doc: Option<DocParam>)
    requires p.annotation == Some(TypeV(BoolType)) || p.annotation == Some(TypeV(ListType))
    ensures Inferred(p, doc).Ok? && ArgufyArgument.Inferred(p, doc).Ok?
    ensures p.annotation == Some(TypeV(BoolType)) ==>
              ActionKey in Inferred(p, doc).value && ActionKey !in ArgufyArgument.Inferred(p, doc).value
    ensures p.annotation == Some(TypeV(ListType)) ==>
              Inferred(p, doc).value[NargsKey] == StrV("*") && ArgufyArgument.Inferred(p, doc).value[NargsKey] == StrV("+")
  {
  }

  /** `bool_check: bool = False`: a `--bool_check` toggle that stores `True`,
      whatever its docstring type says, with the default kept as `False`. */
  lemma ExampleBoolArgument(hint: Option<Value>)
    ensures var p := Param("bool_check", Some(BoolV(false)), Some(TypeV(BoolType)));
            var d := DocParam("bool_check", hint, Some("list packages and version"));
            Inferred(p, Some(d)) == Ok(map[FlagsKey := ListV([StrV("--bool_check")]), DefaultKey := BoolV(false),
                                           ActionKey := StrV("store_true"), TypeKey := TypeV(BoolType),
                                           HelpKey := StrV("list packages and version")])
  {
    var p := Param("bool_check", Some(BoolV(false)), Some(TypeV(BoolType)));
    var d := DocParam("bool_check", hint, Some("list packages and version"));
    var started := map[FlagsKey := ListV([StrV("--bool_check")]), DefaultKey := BoolV(false)];
    assert "--" + p.name == "--bool_check";
    assert Started(p) == started;
    assert Get(started, DefaultKey) == BoolV(false);
    var toggled := started[ActionKey := StrV("store_true")];
    assert Annotated(started, p.annotation) == toggled;
    assert Typed(toggled, p.annotation, Some(d)) == Ok(toggled[TypeKey := TypeV(BoolType)]);
  }

  /** `choice_check: str = 'A'` documented as `str, {'A', 'B', 'C'}`: the declared
      `str` wins, so the documented choices are not used. */
  lemma ExampleChoiceArgument()
    ensures var choices := SetV({StrV("A"), StrV("B"), StrV("C")});
            var p := Param("choice_check", Some(StrV("A")), Some(TypeV(StrType)));
            var d := DocParam("choice_check", Some(TupleV([TypeV(StrType), choices])), Some("example choice"));
            Inferred(p, Some(d)) == Ok(map[FlagsKey := ListV([StrV("--choice_check")]), DefaultKey := StrV("A"),
                                           TypeKey := TypeV(StrType), HelpKey := StrV("example choice")])
  {
    var p := Param("choice_check", Some(StrV("A")), Some(TypeV(StrType)));
    var started := map[FlagsKey := ListV([StrV("--choice_check")]), DefaultKey := StrV("A")];
    assert "--" + p.name == "--choice_check";
    assert Started(p) == started;
    assert Annotated(started, p.annotation) == started;
  }

  /** One argparse argument in the making, as this revision builds it. */
  class Argument {
    var attributes: Attributes
    /** `self.__doc`: the docstring entry the constructor was given. */
    var doc: Option<DocParam>

    /** A freshly allocated object, before `__init__` runs. */
    constructor ()
      ensures attributes == map[] && doc.None?
    {
      attributes := map[];
      doc := None;
    }

    /** `action`: a toggle storing the negation of the stored default's truth value. */
    method Action()
      modifies this`attributes
      ensures attributes == Toggled(old(attributes))
      ensures attributes[ActionKey] == StrV(if Truthy(Get(old(attributes), DefaultKey)) then "store_false" else "store_true")
    {
      if Truthy(Get(attributes, DefaultKey)) {
        attributes := attributes[ActionKey := StrV("store_false")];
      } else {
        attributes := attributes[ActionKey := StrV("store_true")];
      }
    }

    /** `annotation`: `nargs='*'` for the `list` class, then the toggle for the `bool` class. */
    method Annotation(annotation: Option<Value>)
      modifies this`attributes
      ensures attributes == Annotated(old(attributes), annotation)
    {
      if annotation == Some(TypeV(ListType)) {
        attributes := attributes[NargsKey := StrV("*")];
      }
      if annotation == Some(TypeV(BoolType)) {
        Action();
      }
    }

    /** `type`: on a one-element tuple hint the type is written before `type_name[1]` raises. */
    method Type(annotation: Option<Value>) returns (raised: Option<PyError>)
      modifies this`attributes
      ensures raised.None? <==> Typed(old(attributes), annotation, doc).Ok?
      ensures raised.None? ==> attributes == Typed(old(attributes), annotation, doc).value
      ensures raised.Some? ==> raised.value == IndexError
      ensures raised.Some? && |Hint(doc).value.items| == 1 ==> attributes == old(attributes)[TypeKey := Hint(doc).value.items[0]]
      ensures raised.Some? && |Hint(doc).value.items| != 1 ==> attributes == old(attributes)
    {
      raised := None;
      if annotation.Some? {
        attributes := attributes[TypeKey := annotation.value];
      } else if doc.Some? && doc.value.typeHint.Some? {
        var hint := doc.value.typeHint.value;
        if hint.TupleV? {
          if |hint.items| == 0 {
            return Some(IndexError);
          }
          attributes := attributes[TypeKey := hint.items[0]];
          if |hint.items| == 1 {
            return Some(IndexError);
          }
          if hint.items[1].SetV? {
            attributes := attributes[ChoicesKey := hint.items[1]];
          }
        } else {
          attributes := attributes[TypeKey := hint];
        }
      }
    }

    /** `help`: the description, only when a docstring entry was given. */
    method Help()
      modifies this`attributes
      ensures attributes == Helped(old(attributes), doc)
    {
      if doc.Some? {
        attributes := attributes[HelpKey := Text(doc.value.description)];
      }
    }

    /** `__init__`: the attributes of lines 38-42, then the `annotation`, `type` and `help` helpers. */
    method Initialize(p: Param, description: Option<DocParam>) returns (raised: Option<PyError>)
      modifies this
      ensures doc == description
      ensures raised.None? <==> Inferred(p, description).Ok?
      ensures raised.Some? ==> raised.value == Inferred(p, description).error
      ensures raised.None? ==> attributes == Inferred(p, description).value
    {
      if p.default.None? {
        attributes := map[NameKey := ListV([StrV(p.name)])];
      } else {
        attributes := map[FlagsKey := ListV([StrV("--" + p.name)])];
        attributes := attributes[DefaultKey := p.default.value];
      }
      assert attributes == Started(p);
      doc := description;
      Annotation(p.annotation);
      raised := Type(p.annotation);
      if raised.Some? {
        return;
      }
      Help();
    }
  }

  /** `Argument(parameters, docstring)`: allocation followed by `__init__`; an exception leaves no object. */
  method NewArgument(p: Param, doc: Option<DocParam>) returns (r: Result<Argument>)
    ensures r.Err? <==> Inferred(p, doc).Err?
    ensures r.Err? ==> r.error == Inferred(p, doc).error
    ensures r.Ok? ==> fresh(r.value) && r.value.attributes == Inferred(p, doc).value
  {
    var argument := new Argument();
    var raised := argument.Initialize(p, doc);
    if raised.Some? {
      return Err(raised.value);
    }
    return Ok(argument);
  }
}

/** Argument-descriptor inference of the current revision (argufy/argument.py):
    one signature parameter and its optional docstring entry become the
    keyword set handed to `add_argument`. */
module ArgufyArgument {
  import opened Python
  import opened Argparse

  /** The attribute dict (`self.attributes`), keyed by `add_argument` keyword. */
  type Attributes = map<Argparse.Keyword, Value>

  /** Every key `__init__` can write. */
  const InferredKeys: set<Argparse.Keyword> := {NameKey, DefaultKey, TypeKey, ActionKey, NargsKey, ChoicesKey, MetavarKey, HelpKey}

  /** `parameters.name.replace('_', '-')`. */
  function DisplayName(name: string): (r: string)
    ensures |r| == |name| && '_' !in r
    ensures forall i :: 0 <= i < |name| ==> (r[i] == '-' <==> name[i] == '_' || name[i] == '-')
    ensures forall i :: 0 <= i < |name| ==> r[i] == if name[i] == '_' then '-' else name[i]
  {
    Replace(name, '_', '-')
  }

  /** The option strings the `name` setter stores: the bare name when no
      default was stored, else `--name` followed, for a name without `-`, by
      the one-character short form `-n` (no other flag is consulted). */
  function OptionStrings(name: string, hasDefault: bool): (r: seq<Value>)
    ensures 1 <= |r| <= 2 && Argparse.AllStrings(r)
    ensures !hasDefault ==> r == [StrV(name)]
    ensures hasDefault ==> r[0] == StrV("--" + name) && (|r| == 2 <==> '-' !in name)
    ensures hasDefault && '-' !in name ==> r[1] == StrV("-" + Head(name))
  {
    if !hasDefault then [StrV(name)]
    else if '-' !in name then [StrV("--" + name), StrV("-" + Head(name))]
    else [StrV("--" + name)]
  }

  /** Lines 26-32: the declared annotation, else the evaluated docstring type hint, else `None`. */
  function Resolved(p: Param, doc: Option<DocParam>): Value {
    if p.annotation.Some? then p.annotation.value
    else if doc.Some? && doc.value.typeHint.Some? then doc.value.typeHint.value
    else NoneV
  }

  /** The keys the chain of lines 35-52 can write. */
  const BranchKeys: set<Argparse.Keyword> := {TypeKey, ActionKey, NargsKey, ChoicesKey}

  /** The `if`/`elif` chain of lines 35-52 applied to the attributes stored so far. */
  function Shaped(attrs: Attributes, annotation: Value): (r: Result<Attributes>)
    ensures r.Err? <==> annotation.TupleV? && |annotation.items| < 2
    ensures r.Err? ==> r.error == IndexError
    // Keys outside the chain's own are left as they were.
    ensures r.Ok? ==> forall k :: k !in BranchKeys ==> (k in r.value <==> k in attrs) && (k in attrs ==> r.value[k] == attrs[k])
    // On attributes that hold none of its keys yet, the chain writes exactly these.
    ensures r.Ok? && attrs.Keys !! BranchKeys ==>
      && (TypeKey in r.value <==> !annotation.BoolV?)
      && (ActionKey in r.value <==> annotation.BoolV? || annotation == TypeV(IntType))
      && (NargsKey in r.value <==> annotation == TypeV(ListType))
      && (ChoicesKey in r.value <==> annotation.TupleV? && annotation.items[1].SetV?)
    ensures r.Ok? && annotation.BoolV? ==>
      ActionKey in r.value && r.value[ActionKey] == StrV(if Truthy(Get(attrs, DefaultKey)) then "store_false" else "store_true")
    ensures r.Ok? && annotation == TypeV(IntType) ==>
      ActionKey in r.value && r.value[ActionKey] == StrV("append")
    ensures r.Ok? && annotation == TypeV(ListType) ==> NargsKey in r.value && r.value[NargsKey] == StrV("+")
    ensures r.Ok? && annotation.TupleV? ==>
      TypeKey in r.value && r.value[TypeKey] == annotation.items[0] &&
      (annotation.items[1].SetV? ==> ChoicesKey in r.value && r.value[ChoicesKey] == annotation.items[1])
    ensures r.Ok? && !annotation.BoolV? && !annotation.TupleV? ==> TypeKey in r.value && r.value[TypeKey] == annotation
  {
    if annotation.BoolV? then
      Ok(attrs[ActionKey := StrV(if Truthy(Get(attrs, DefaultKey)) then "store_false" else "store_true")])
    else if annotation == TypeV(IntType) then
      Ok(attrs[TypeKey := annotation][ActionKey := StrV("append")])
    else if annotation == TypeV(ListType) then
      Ok(attrs[TypeKey := annotation][NargsKey := StrV("+")])
    else if annotation.TupleV? then
      if |annotation.items| < 2 then Err(IndexError)
      else
        var typed := attrs[TypeKey := annotation.items[0]];
        Ok(if annotation.items[1].SetV? then typed[ChoicesKey := annotation.items[1]] else typed)
    else
      Ok(attrs[TypeKey := annotation])
  }

  /** Lines 23-24: the attributes after the `default` setter and the `name` setter. */
  function Named(p: Param): Attributes {
    var withDefault: Attributes := if p.default.Some? then map[DefaultKey := p.default.value] else map[];
    withDefault[NameKey := ListV(OptionStrings(DisplayName(p.name), DefaultKey in withDefault))]
  }

  /** The attribute dict `Argument(parameters, docstring)` ends with, or the
      exception its constructor raises. */
  function Inferred(p: Param, doc: Option<DocParam>): (r: Result<Attributes>)
    // Only a tuple hint shorter than two elements makes construction fail.
    ensures r.Err? <==> Resolved(p, doc).TupleV? && |Resolved(p, doc).items| < 2
    ensures r.Err? ==> r.error == IndexError
    ensures r.Ok? ==> r.value.Keys <= InferredKeys
    // `default` is stored exactly when the parameter has one, unchanged.
    ensures r.Ok? ==> (DefaultKey in r.value <==> p.default.Some?)
    ensures r.Ok? && p.default.Some? ==> DefaultKey in r.value && r.value[DefaultKey] == p.default.value
    ensures r.Ok? ==> NameKey in r.value && r.value[NameKey] == ListV(OptionStrings(DisplayName(p.name), p.default.Some?))
    // `metavar` is always the underscored name, upper-cased.
    ensures r.Ok? ==> MetavarKey in r.value && r.value[MetavarKey] == StrV(Upper(p.name))
    // `help` is present exactly when a docstring entry was given, and is its description.
    ensures r.Ok? ==> (HelpKey in r.value <==> doc.Some?)
    ensures r.Ok? && doc.Some? ==> HelpKey in r.value && r.value[HelpKey] == Text(doc.value.description)
  {
    var shaped :- Shaped(Named(p), Resolved(p, doc));
    var withMetavar := shaped[MetavarKey := StrV(Upper(p.name))];
    Ok(if doc.Some? then withMetavar[HelpKey := Text(doc.value.description)] else withMetavar)
  }
  /** What the resolved annotation contributes: which of `type`, `action`,
      `nargs` and `choices` are present, and their values. */
  lemma InferredFollowsAnnotation(p: Param, doc: Option<DocParam>)
    requires Inferred(p, doc).Ok?
    ensures var attrs, hint := Inferred(p, doc).value, Resolved(p, doc);
      // A boolean *value* is the only annotation that writes no `type`.
      && (TypeKey in attrs <==> !hint.BoolV?)
      && (ActionKey in attrs <==> hint.BoolV? || hint == TypeV(IntType))
      && (NargsKey in attrs <==> hint == TypeV(ListType))
      // `choices` comes only from a tuple hint whose second element is a set.
      && (ChoicesKey in attrs <==> hint.TupleV? && hint.items[1].SetV?)
    ensures var attrs, hint := Inferred(p, doc).value, Resolved(p, doc);
      && (hint.BoolV? ==>
            attrs[ActionKey] == StrV(if p.default.Some? && Truthy(p.default.value) then "store_false" else "store_true"))
      && (hint == TypeV(IntType) ==> attrs[TypeKey] == hint && attrs[ActionKey] == StrV("append"))
      && (hint == TypeV(ListType) ==> attrs[TypeKey] == hint && attrs[NargsKey] == StrV("+"))
      && (hint.TupleV? ==>
            attrs[TypeKey] == hint.items[0] && (ChoicesKey in attrs ==> attrs[ChoicesKey] == hint.items[1]))
      && (!hint.BoolV? && !hint.TupleV? ==> attrs[TypeKey] == hint)
  {
  }


  /** A name with no `-` of its own has a `-` after hyphenation exactly when it had a `_`. */
  lemma {:induction false} HyphenIffUnderscore(name: string)
    requires '-' !in name
    ensures '-' in DisplayName(name) <==> '_' in name
  {
    var h := DisplayName(name);
    if '_' in name {
      var i :| 0 <= i < |name| && name[i] == '_';
      assert h[i] == '-';
    }
    if '-' in h {
      var i :| 0 <= i < |h| && h[i] == '-';
      assert name[i] == '_';
    }
  }

  /** `s.lstrip('-')` of `--` followed by a name that does not start with `-` is that name. */
  lemma StripLongPrefix(h: string)
    requires h == [] || h[0] != '-'
    ensures Argparse.LStripDashes("--" + h) == h
  {
    assert "--" + h == "-" + ("-" + h);
    Argparse.LStripDashesCons("-" + h);
    Argparse.LStripDashesCons(h);
  }

  /** With a default, `--name` always comes first, and the short flag `-n` (the
      first character of the name) is added exactly when the name had no `_`. */
  lemma ShortFlagIffNoUnderscore(name: string)
    requires '-' !in name
    ensures OptionStrings(DisplayName(name), true)[0] == StrV("--" + DisplayName(name))
    ensures |OptionStrings(DisplayName(name), true)| == 2 <==> '_' !in name
    ensures '_' !in name ==> OptionStrings(DisplayName(name), true)[1] == StrV("-" + Head(name))
  {
    HyphenIffUnderscore(name);
    if '_' !in name {
      assert DisplayName(name) == name;
    }
  }

  /** A parameter without a default, whose name does not start with `_`, is
      registered as a positional argument; with a default it never is. */
  lemma PositionalIffNoDefault(name: string, hasDefault: bool)
    requires name != [] && name[0] != '_' && name[0] != '-'
    ensures Argparse.IsPositional(OptionStrings(DisplayName(name), hasDefault)) <==> !hasDefault
  {
    assert DisplayName(name)[0] == name[0];
  }

  /** A positional parameter is stored under its hyphenated name, so argparse's
      namespace key equals the parameter name only when the name has no `_`. */
  lemma PositionalDestIsHyphenated(name: string)
    requires '-' !in name && name != [] && name[0] != '_'
    ensures Argparse.Dest(OptionStrings(DisplayName(name), false)) == DisplayName(name)
    ensures Argparse.Dest(OptionStrings(DisplayName(name), false)) == name <==> '_' !in name
  {
    assert DisplayName(name)[0] == name[0];
    HyphenIffUnderscore(name);
    if '_' in name {
      var i :| 0 <= i < |name| && name[i] == '_';
      assert DisplayName(name)[i] != name[i];
    } else {
      assert DisplayName(name) == name;
    }
  }

  /** For a parameter with a default the namespace key argparse derives from
      the registered flags is the parameter name again (hyphens go back to
      underscores), provided the name does not start with `_`. */
  lemma {:induction false} FlagDestIsParameterName(name: string)
    requires '-' !in name && name != [] && name[0] != '_'
    ensures Argparse.Dest(OptionStrings(DisplayName(name), true)) == name
  {
    var h := DisplayName(name);
    assert h[0] == name[0];
    var names := OptionStrings(h, true);
    assert names[0] == StrV("--" + h);
    assert Argparse.LongOption(names) == "--" + h;
    StripLongPrefix(h);
    ReplaceRoundTrip(name);
  }

  /** A parameter without a default whose name starts with `_` is not
      positional: `_x` is registered as the option `-x` and parsed into `x`. */
  lemma {:induction false} LeadingUnderscorePositionalIsAnOption(rest: string)
    requires '-' !in rest && rest != [] && rest[0] != '_'
    ensures OptionStrings(DisplayName("_" + rest), false) == [StrV("-" + DisplayName(rest))]
    ensures !Argparse.IsPositional(OptionStrings(DisplayName("_" + rest), false))
    ensures Argparse.Dest(OptionStrings(DisplayName("_" + rest), false)) == rest
  {
    var h := DisplayName(rest);
    assert h[0] == rest[0];
    var underscored := "_" + rest;
    assert underscored[0] == '_' && underscored[1..] == rest;
    assert DisplayName(underscored) == "-" + h;
    Argparse.LStripDashesCons(h);
    ReplaceRoundTrip(rest);
  }

  /** A flag parameter whose name starts with `_` loses that underscore in its
      namespace key: `_x = 1` is registered as `---x` and parsed into `x`. */
  lemma {:induction false} LeadingUnderscoreFlagDest(rest: string)
    requires '-' !in rest && rest != [] && rest[0] != '_'
    ensures Argparse.Dest(OptionStrings(DisplayName("_" + rest), true)) == rest
  {
    var h := DisplayName(rest);
    assert h[0] == rest[0];
    var underscored := "_" + rest;
    assert underscored[0] == '_' && underscored[1..] == rest;
    assert DisplayName(underscored) == "-" + h;
    var flag := "--" + ("-" + h);
    assert ("-" + h)[0] == '-';
    assert OptionStrings("-" + h, true) == [StrV(flag)];
    assert flag[0] == '-' && flag[1..] == "--" + h;
    assert Argparse.LStripDashes(flag) == Argparse.LStripDashes("--" + h);
    StripLongPrefix(h);
    ReplaceRoundTrip(rest);
  }


  /** A boolean-valued hint makes a flag whose presence stores the negation of
      the default's truth value (a missing default counts as false). */
  lemma ToggleNegatesDefault(p: Param, doc: Option<DocParam>)
    requires Resolved(p, doc).BoolV?
    ensures Inferred(p, doc).Ok?
    ensures Inferred(p, doc).value[ActionKey].StrV?
    ensures Argparse.StoredWhenPresent(Inferred(p, doc).value[ActionKey].s) ==
            Some(!(p.default.Some? && Truthy(p.default.value)))
  {
    InferredFollowsAnnotation(p, doc);
  }

  /** Line 35 tests the annotation's runtime type, so a declared `bool` *class*
      is not a flag: it is stored as `type=bool` with no `action`. */
  lemma DeclaredBoolClassIsNotAFlag(p: Param, doc: Option<DocParam>)
    requires p.annotation == Some(TypeV(BoolType))
    ensures Inferred(p, doc).Ok?
    ensures Inferred(p, doc).value[TypeKey] == TypeV(BoolType) && ActionKey !in Inferred(p, doc).value
  {
    InferredFollowsAnnotation(p, doc);
  }

  /** Without a declared annotation, a docstring type hint is inferred from
      exactly as if it had been declared. */
  lemma HintActsAsAnnotation(p: Param, d: DocParam)
    requires p.annotation.None? && d.typeHint.Some?
    ensures Inferred(p, Some(d)) == Inferred(p.(annotation := d.typeHint), Some(d))
  {
  }

  /** With a declared annotation, the docstring entry contributes only its description. */
  lemma AnnotationShadowsHint(p: Param, d1: DocParam, d2: DocParam)
    requires p.annotation.Some? && d1.description == d2.description
    ensures Inferred(p, Some(d1)) == Inferred(p, Some(d2))
  {
  }

  /** `choice_check: str = 'A'` documented as `str, {'A', 'B', 'C'}`: the
      declared `str` wins, so no `choices` are registered and any string is accepted. */
  lemma DeclaredTypeDropsDocumentedChoices()
    ensures var p := Param("choice_check", Some(StrV("A")), Some(TypeV(StrType)));
            var d := DocParam("choice_check", Some(TupleV([TypeV(StrType), SetV({StrV("A"), StrV("B"), StrV("C")})])), Some("argument choice"));
            && Inferred(p, Some(d)).Ok?
            && Inferred(p, Some(d)).value[TypeKey] == TypeV(StrType)
            && ChoicesKey !in Inferred(p, Some(d)).value
            && Inferred(p, Some(d)).value[DefaultKey] == StrV("A")
            && Inferred(p, Some(d)).value[HelpKey] == StrV("argument choice")
  {
    var p := Param("choice_check", Some(StrV("A")), Some(TypeV(StrType)));
    var d := DocParam("choice_check", Some(TupleV([TypeV(StrType), SetV({StrV("A"), StrV("B"), StrV("C")})])), Some("argument choice"));
    assert Resolved(p, Some(d)) == TypeV(StrType);
    InferredFollowsAnnotation(p, Some(d));
  }

  /** One argparse argument in the making: the attribute dict plus the private
      field behind each property (`None` while the property was never set). */
  class Argument {
    var attributes: Attributes
    var storedName: Option<seq<Value>>
    var storedDefault: Option<Value>
    var storedMetavar: Option<string>
    var storedType: Option<Value>
    var storedAction: Option<string>
    var storedChoices: Option<Value>
    var storedNargs: Option<string>
    var storedHelp: Option<Value>

    /** No property has been set yet. */
    ghost predicate Blank()
      reads this
    {
      storedName.None? && storedDefault.None? && storedMetavar.None? && storedType.None? &&
      storedAction.None? && storedChoices.None? && storedNargs.None? && storedHelp.None?
    }

    /** Every property's private field agrees with its entry in the attribute dict. */
    ghost predicate Consistent()
      reads this
    {
      && (storedName.Some? <==> NameKey in attributes)
      && (storedName.Some? ==> attributes[NameKey] == ListV(storedName.value))
      && (DefaultKey in attributes ==> storedDefault == Some(attributes[DefaultKey]))
      && (storedMetavar.Some? <==> MetavarKey in attributes)
      && (storedMetavar.Some? ==> attributes[MetavarKey] == StrV(storedMetavar.value))
      && (storedType.Some? <==> TypeKey in attributes)
      && (storedType.Some? ==> attributes[TypeKey] == storedType.value)
      && (storedAction.Some? <==> ActionKey in attributes)
      && (storedAction.Some? ==> attributes[ActionKey] == StrV(storedAction.value))
      && (storedChoices.Some? <==> ChoicesKey in attributes)
      && (storedChoices.Some? ==> attributes[ChoicesKey] == storedChoices.value)
      && (storedNargs.Some? <==> NargsKey in attributes)
      && (storedNargs.Some? ==> attributes[NargsKey] == StrV(storedNargs.value))
      && (storedHelp.Some? <==> HelpKey in attributes)
      && (storedHelp.Some? ==> attributes[HelpKey] == storedHelp.value)
    }

    /** A freshly allocated object, before `__init__` runs. */
    constructor ()
      ensures attributes == map[] && Blank() && Consistent()
    {
      attributes := map[];
      storedName, storedDefault, storedMetavar, storedType := None, None, None, None;
      storedAction, storedChoices, storedNargs, storedHelp := None, None, None, None;
    }

    /** The `default` setter: stores a real default, and reads as `None` for the empty sentinel. */
    method SetDefault(default: Option<Value>)
      requires Consistent()
      modifies this`attributes, this`storedDefault
      ensures default.Some? || DefaultKey !in old(attributes) ==> Consistent()
      ensures default.Some? ==> attributes == old(attributes)[DefaultKey := default.value] && storedDefault == default
      ensures default.None? ==> attributes == old(attributes) && storedDefault == Some(NoneV)
    {
      if default.Some? {
        attributes := attributes[DefaultKey := default.value];
        storedDefault := default;
      } else {
        storedDefault := Some(NoneV);
      }
    }

    /** The `name` setter: positional name or flags, depending on whether a default is already stored. */
    method SetName(name: string)
      requires Consistent()
      modifies this`attributes, this`storedName
      ensures Consistent()
      ensures attributes == old(attributes)[NameKey := ListV(OptionStrings(name, DefaultKey in old(attributes)))]
      ensures storedName == Some(OptionStrings(name, DefaultKey in old(attributes)))
    {
      var names: seq<Value>;
      if DefaultKey !in attributes {
        names := [StrV(name)];
      } else {
        names := [StrV("--" + name)];
        if '-' !in name {
          names := names + [StrV("-" + Head(name))];
        }
      }
      assert names == OptionStrings(name, DefaultKey in attributes);
      attributes := attributes[NameKey := ListV(names)];
      storedName := Some(names);
    }

    method SetMetavar(metavar: string)
      requires Consistent()
      modifies this`attributes, this`storedMetavar
      ensures Consistent()
      ensures attributes == old(attributes)[MetavarKey := StrV(metavar)] && storedMetavar == Some(metavar)
    {
      attributes := attributes[MetavarKey := StrV(metavar)];
      storedMetavar := Some(metavar);
    }

    method SetType(kind: Value)
      requires Consistent()
      modifies this`attributes, this`storedType
      ensures Consistent()
      ensures attributes == old(attributes)[TypeKey := kind] && storedType == Some(kind)
    {
      attributes := attributes[TypeKey := kind];
      storedType := Some(kind);
    }

    method SetAction(action: string)
      requires Consistent()
      modifies this`attributes, this`storedAction
      ensures Consistent()
      ensures attributes == old(attributes)[ActionKey := StrV(action)] && storedAction == Some(action)
    {
      attributes := attributes[ActionKey := StrV(action)];
      storedAction := Some(action);
    }

    method SetChoices(choices: Value)
      requires Consistent()
      modifies this`attributes, this`storedChoices
      ensures Consistent()
      ensures attributes == old(attributes)[ChoicesKey := choices] && storedChoices == Some(choices)
    {
      attributes := attributes[ChoicesKey := choices];
      storedChoices := Some(choices);
    }

    method SetNargs(nargs: string)
      requires Consistent()
      modifies this`attributes, this`storedNargs
      ensures Consistent()
      ensures attributes == old(attributes)[NargsKey := StrV(nargs)] && storedNargs == Some(nargs)
    {
      attributes := attributes[NargsKey := StrV(nargs)];
      storedNargs := Some(nargs);
    }

    method SetHelp(description: Value)
      requires Consistent()
      modifies this`attributes, this`storedHelp
      ensures Consistent()
      ensures attributes == old(attributes)[HelpKey := description] && storedHelp == Some(description)
    {
      attributes := attributes[HelpKey := description];
      storedHelp := Some(description);
    }

    /** Lines 35-52: the branch chosen by the resolved annotation. */
    method Shape(annotation: Value) returns (raised: Option<PyError>)
      requires Consistent()
      modifies this`attributes, this`storedType, this`storedAction, this`storedNargs, this`storedChoices
      ensures raised.None? <==> Shaped(old(attributes), annotation).Ok?
      ensures raised.Some? ==> raised.value == Shaped(old(attributes), annotation).error
      ensures raised.None? ==> Consistent() && attributes == Shaped(old(attributes), annotation).value
    {
      if annotation.BoolV? {
        if Truthy(Get(attributes, DefaultKey)) {
          SetAction("store_false");
        } else {
          SetAction("store_true");
        }
      } else if annotation == TypeV(IntType) {
        SetType(annotation);
        SetAction("append");
      } else if annotation == TypeV(ListType) {
        SetType(annotation);
        SetNargs("+");
      } else if annotation.TupleV? {
        if |annotation.items| == 0 {
          return Some(IndexError);
        }
        SetType(annotation.items[0]);
        if |annotation.items| == 1 {
          return Some(IndexError);
        }
        if annotation.items[1].SetV? {
          SetChoices(annotation.items[1]);
        }
      } else {
        SetType(annotation);
      }
      raised := None;
    }

    /** Lines 22-24: an empty dict, then the `default` and `name` setters. */
    method Prepare(p: Param)
      requires Blank()
      modifies this
      ensures Consistent() && attributes == Named(p)
      ensures storedDefault == Some(if p.default.Some? then p.default.value else NoneV)
    {
      attributes := map[];
      SetDefault(p.default);
      SetName(DisplayName(p.name));
    }

    /** `__init__`: the property setters in source order. `raised` is the exception that escapes, if any. */
    method Initialize(p: Param, doc: Option<DocParam>) returns (raised: Option<PyError>)
      requires Blank()
      modifies this
      ensures raised.None? <==> Inferred(p, doc).Ok?
      ensures raised.Some? ==> raised.value == Inferred(p, doc).error
      ensures raised.None? ==> Consistent() && attributes == Inferred(p, doc).value
      ensures raised.None? ==> storedDefault == Some(if p.default.Some? then p.default.value else NoneV)
    {
      Prepare(p);
      raised := Shape(Resolved(p, doc));
      if raised.Some? {
        return;
      }
      SetMetavar(Upper(p.name));
      if doc.Some? {
        SetHelp(Text(doc.value.description));
      }
    }
  }

  /** `Argument(parameters, docstring)`: allocation followed by `__init__`; an exception leaves no object. */
  method NewArgument(p: Param, doc: Option<DocParam>) returns (r: Result<Argument>)
    ensures r.Err? <==> Inferred(p, doc).Err?
    ensures r.Err? ==> r.error == Inferred(p, doc).error
    ensures r.Ok? ==> fresh(r.value) && r.value.Consistent() && r.value.attributes == Inferred(p, doc).value
  {
    var argument := new Argument();
    var raised := argument.Initialize(p, doc);
    if raised.Some? {
      r := Err(raised.value);
    } else {
      r := Ok(argument);
    }
  }
}

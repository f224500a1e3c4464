/** The current revision's `Parser` (argufy/parser.py). It walks a module's
    members and a function's signature, records the `argparse` calls that walk
    makes, and afterwards recovers the chosen function and its keyword
    arguments from a parse. */
module ArgufyParser {
  import opened Python
  import opened Argparse
  import ArgufyArgument

  /** `__exclude_prefixes__`: module attributes starting with one of these are not promoted to options. */
  const ExcludePrefixes: seq<string> := ["@", "_"]

  /** `isinstance(value, (float, int, str, list, dict, tuple))`; `bool` is a subclass of `int`. */
  predicate IsSettingValue(v: Value) {
    v.FloatV? || v.IntV? || v.BoolV? || v.StrV? || v.ListV? || v.DictV? || v.TupleV?
  }

  /** The module members `add_parser_arguments` turns into `--name` options. */
  predicate Promoted(m: Member) {
    !StartsWithAny(m.name, ExcludePrefixes) &&
    !IsModule(m.value) && !IsClass(m.value) && !IsFunction(m.value) &&
    IsSettingValue(m.value)
  }

  /** The docstring text documented for `name`, as the object passed as `help`. */
  function HelpFor(doc: Docstring, name: string): Value {
    match FindDocParam(doc.params, name)
    case None => NoneV
    case Some(d) => Text(d.description)
  }

  /** `add_argument('--' + name, help=description)` for a promoted member. */
  function ModuleOption(m: Member, doc: Docstring): Registration {
    Registration([StrV("--" + m.name)], map[HelpKey := HelpFor(doc, m.name)])
  }

  /** The options registered for `members`, in the order they are listed. */
  function ModuleOptions(members: seq<Member>, doc: Docstring): seq<Registration>
    decreases |members|
  {
    if members == [] then []
    else
      var m := members[|members| - 1];
      ModuleOptions(members[..|members| - 1], doc) + (if Promoted(m) then [ModuleOption(m, doc)] else [])
  }

  /** The promoted members, in the order they are listed. */
  function PromotedMembers(members: seq<Member>): (r: seq<Member>)
    ensures |r| <= |members|
    ensures forall m :: m in r <==> m in members && Promoted(m)
    decreases |members|
  {
    if members == [] then []
    else
      var init := members[..|members| - 1];
      var m := members[|members| - 1];
      assert members == init + [m];
      PromotedMembers(init) + (if Promoted(m) then [m] else [])
  }

  /** Exactly the promoted members get an option, one each, in their order, and no excluded name does. */
  lemma {:induction false} ModuleOptionsArePromotedMembers(members: seq<Member>, doc: Docstring)
    ensures |ModuleOptions(members, doc)| == |PromotedMembers(members)| <= |members|
    ensures forall k :: 0 <= k < |PromotedMembers(members)| ==>
              ModuleOptions(members, doc)[k] == ModuleOption(PromotedMembers(members)[k], doc)
    ensures forall r :: r in ModuleOptions(members, doc) ==>
              exists m :: m in members && Promoted(m) && r == ModuleOption(m, doc)
    ensures forall m :: m in members && Promoted(m) ==> ModuleOption(m, doc) in ModuleOptions(members, doc)
    decreases |members|
  {
    if members != [] {
      var init := members[..|members| - 1];
      ModuleOptionsArePromotedMembers(init, doc);
      assert members == init + [members[|members| - 1]];
    }
  }

  /** The key one parse call's namespace entry for a parameter can have: the parameter names of `f`. */
  function ParamNames(f: Function): set<string> {
    set i | 0 <= i < |f.params| :: f.params[i].name
  }

  /** One pass of the loop in `add_arguments`: the `Argument` inferred for `p`,
      with its `name` entry popped off as the names and the rest as keywords. */
  function Registered(p: Param, doc: Docstring): Result<Registration> {
    var attributes :- ArgufyArgument.Inferred(p, FindDocParam(doc.params, p.name));
    Ok(Registration(attributes[NameKey].items, attributes - {NameKey}))
  }

  /** The outcome of each pass of that loop, one per parameter. */
  function Registrations(params: seq<Param>, doc: Docstring): seq<Result<Registration>> {
    seq(|params|, i requires 0 <= i < |params| => Registered(params[i], doc))
  }

  /** The registrations `add_arguments` makes for `params`, up to the first parameter whose inference raises. */
  function SignatureOptions(params: seq<Param>, doc: Docstring): Partial<Registration> {
    UpToFailure(Registrations(params, doc))
  }

  /** Registration `i` belongs to parameter `i`; all parameters are registered
      unless one raises, and then it is the first unregistered one that raised. */
  lemma SignatureOptionsFollowParameters(params: seq<Param>, doc: Docstring)
    ensures |SignatureOptions(params, doc).done| <= |params|
    ensures forall i :: 0 <= i < |SignatureOptions(params, doc).done| ==>
              Registered(params[i], doc) == Ok(SignatureOptions(params, doc).done[i])
    ensures SignatureOptions(params, doc).raised.None? ==> |SignatureOptions(params, doc).done| == |params|
    ensures SignatureOptions(params, doc).raised.Some? ==>
              |SignatureOptions(params, doc).done| < |params| &&
              Registered(params[|SignatureOptions(params, doc).done|], doc) == Err(SignatureOptions(params, doc).raised.value)
  {
    UpToFailureSteps(Registrations(params, doc));
  }

  /** The loop of `add_arguments` (lines 113-122), returning the registrations it made and the exception that stopped it. */
  method ArgumentsFor(f: Function) returns (added: seq<Registration>, raised: Option<PyError>)
    ensures Partial(added, raised) == SignatureOptions(f.params, f.doc)
  {
    ghost var steps := Registrations(f.params, f.doc);
    added, raised := [], None;
    var i := 0;
    while i < |f.params|
      invariant 0 <= i <= |f.params|
      invariant UpToFailure(steps[..i]) == Partial(added, None)
    {
      var p := f.params[i];
      assert steps[..i + 1][..i] == steps[..i];
      var description := FindDocParam(f.doc.params, p.name);
      var argument := ArgufyArgument.NewArgument(p, description);
      if argument.Err? {
        raised := Some(argument.error);
        assert steps[i] == Err(argument.error);
        UpToFailureStop(steps, i + 1);
        return;
      }
      var attributes := argument.value.attributes;
      var name := attributes[NameKey];
      attributes := attributes - {NameKey};
      assert steps[i] == Ok(Registration(name.items, attributes));
      added := added + [Registration(name.items, attributes)];
      i := i + 1;
    }
    assert steps[..i] == steps;
  }

  /** The members `__add_commands` walks: modules under a class, functions under anything else. */
  predicate Walked(container: Namespace, v: Value) {
    if container.kind == ClassKind then IsModule(v) else IsFunction(v)
  }

  /** A walked function that gets a command: defined in the walked module itself,
      and not starting with the exclude prefixes joined by `', '`. */
  predicate Selected(container: Namespace, m: Member, exclude: seq<string>) {
    container.kind == ModuleKind && m.value.FunctionV? &&
    m.value.f.moduleName == container.name &&
    !StartsWith(m.name, Join(", ", exclude))
  }

  /** The sub-parser `add_parser` creates for a function, with `fn` set as its default. */
  function CommandFor(m: Member): Command
    requires m.value.FunctionV?
  {
    var f := m.value.f;
    Command(m.name, f.doc.shortDescription, map["fn" := m.value], SignatureOptions(f.params, f.doc).done)
  }

  /** The commands `__add_commands` registers for `members`, up to the first exception. */
  function CommandsFrom(container: Namespace, members: seq<Member>, exclude: seq<string>): Partial<Command>
    decreases |members|
  {
    if members == [] then Partial([], None)
    else
      var before := CommandsFrom(container, members[..|members| - 1], exclude);
      var m := members[|members| - 1];
      if before.raised.Some? || !Walked(container, m.value) then before
      else if !m.value.FunctionV? then
        // Only a module listed under a class reaches here, and a module has no `__module__`.
        Partial(before.done, Some(ModuleOf(m.value).error))
      else if m.value.f.moduleName == container.name && !StartsWith(m.name, Join(", ", exclude)) then
        Partial(before.done + [CommandFor(m)], SignatureOptions(m.value.f.params, m.value.f.doc).raised)
      else before
  }

  lemma {:induction false} CommandsFromStop(container: Namespace, members: seq<Member>, k: nat, exclude: seq<string>)
    requires k <= |members| && CommandsFrom(container, members[..k], exclude).raised.Some?
    ensures CommandsFrom(container, members, exclude) == CommandsFrom(container, members[..k], exclude)
    decreases |members|
  {
    if k < |members| {
      var init := members[..|members| - 1];
      assert init[..k] == members[..k];
      CommandsFromStop(container, init, k, exclude);
    } else {
      assert members[..k] == members;
    }
  }

  /** Every command belongs to a selected function; when nothing raised, every selected function has its command. */
  lemma {:induction false} CommandsAreSelectedFunctions(container: Namespace, members: seq<Member>, exclude: seq<string>)
    ensures forall c :: c in CommandsFrom(container, members, exclude).done ==>
              exists m :: m in members && Selected(container, m, exclude) && c == CommandFor(m)
    ensures CommandsFrom(container, members, exclude).raised.None? ==>
              forall m :: m in members && Selected(container, m, exclude) ==> CommandFor(m) in CommandsFrom(container, members, exclude).done
    decreases |members|
  {
    if members != [] {
      var init := members[..|members| - 1];
      CommandsAreSelectedFunctions(container, init, exclude);
      assert members == init + [members[|members| - 1]];
    }
  }

  /** Walking a class registers nothing, and raises `AttributeError` exactly when the class holds a module. */
  lemma {:induction false} ClassWalkRaises(container: Namespace, members: seq<Member>, exclude: seq<string>)
    requires container.kind == ClassKind
    ensures CommandsFrom(container, members, exclude).done == []
    ensures CommandsFrom(container, members, exclude).raised.Some? <==> exists m :: m in members && IsModule(m.value)
    ensures CommandsFrom(container, members, exclude).raised.Some? ==>
              CommandsFrom(container, members, exclude).raised.value == AttributeError("__module__")
    decreases |members|
  {
    if members != [] {
      var init := members[..|members| - 1];
      ClassWalkRaises(container, init, exclude);
      assert members == init + [members[|members| - 1]];
    }
  }

  /** With the default list the joined prefix is the single string `"@, _"`, so a
      function whose name starts with `_` is not excluded. */
  lemma DefaultExcludeKeepsUnderscoreNames(rest: string)
    ensures Join(", ", ExcludePrefixes) == "@, _"
    ensures !StartsWith("_" + rest, Join(", ", ExcludePrefixes))
  {
    assert Join(", ", ["_"]) == "_";
    assert Join(", ", ExcludePrefixes) == "@" + ", " + "_";
    assert ("_" + rest)[0] != "@, _"[0];
  }

  /** The loop of `__add_commands` (lines 132-145), returning the `add_parser`
      calls it made and the exception that stopped it. */
  method AddCommandsTo(container: Namespace, exclude: seq<string>) returns (added: seq<Command>, raised: Option<PyError>)
    ensures Partial(added, raised) == CommandsFrom(container, container.members, exclude)
  {
    var members := container.members;
    added, raised := [], None;
    var i := 0;
    while i < |members|
      invariant 0 <= i <= |members|
      invariant CommandsFrom(container, members[..i], exclude) == Partial(added, None)
    {
      var m := members[i];
      assert members[..i + 1][..i] == members[..i];
      if Walked(container, m.value) {
        var owner := ModuleOf(m.value);
        if owner.Err? {
          raised := Some(owner.error);
          CommandsFromStop(container, members, i + 1, exclude);
          return;
        }
        if container.name == owner.value && !StartsWith(m.name, Join(", ", exclude)) {
          var f := m.value.f;
          var registrations, failure := ArgumentsFor(f);
          added := added + [Command(m.name, f.doc.shortDescription, map["fn" := m.value], registrations)];
          if failure.Some? {
            raised := failure;
            CommandsFromStop(container, members, i + 1, exclude);
            return;
          }
        }
      }
      i := i + 1;
    }
    assert members[..i] == members;
  }

  /** The namespace and leftover tokens that retrieval continues with. */
  datatype Selection = Selection(namespace: map<string, Value>, arguments: seq<string>)

  /** What `retrieve` returns: the chosen function, the leftover tokens and its keyword arguments. */
  datatype Retrieval = Retrieval(fn: Function, arguments: seq<string>, namespace: map<string, Value>)

  /** The tokens parsed: `--help` when neither explicit arguments nor command-line ones exist. */
  function EffectiveArgs(args: Option<seq<string>>, argv: seq<string>): seq<string> {
    if args.None? && argv == [] then ["--help"]
    else if args.Some? then args.value
    else argv
  }

  /** Lines 183-195: the main parser parses; leftover tokens go to the parser stored under `example.example`. */
  function Select(hasExample: bool, args: Option<seq<string>>, argv: seq<string>,
                  parse: (ParserRef, seq<string>) -> ParseOutcome): Result<Selection>
  {
    match parse(MainParser, EffectiveArgs(args, argv))
    case Failed(e) => Err(e)
    case Parsed(ns, rest) =>
      if rest == [] then Ok(Selection(ns, rest))
      else if !hasExample then Err(KeyError("example.example"))
      else match parse(SubParser("example.example"), rest)
        case Failed(e) => Err(e)
        case Parsed(subNs, subRest) => Ok(Selection(subNs, subRest))
  }

  /** The namespace entries that name a parameter of `f`. */
  function KeywordArguments(ns: map<string, Value>, f: Function): map<string, Value> {
    map k | k in ns && k in ParamNames(f) :: ns[k]
  }

  /** Lines 196-198 after the selection: pop `fn`, then keep only its parameters. */
  function Retrieved(selection: Result<Selection>): Result<Retrieval> {
    var s :- selection;
    if "fn" !in s.namespace then Err(KeyError("fn"))
    else if !s.namespace["fn"].FunctionV? then Err(TypeError)
    else
      var fn := s.namespace["fn"].f;
      Ok(Retrieval(fn, s.arguments, KeywordArguments(s.namespace - {"fn"}, fn)))
  }

  /** `__set_module_arguments`: pop every namespace entry that is not a parameter
      of `fn`. The popped values are collected and then dropped. */
  method SetModuleArguments(fn: Function, ns: map<string, Value>) returns (kept: map<string, Value>)
    ensures kept == KeywordArguments(ns, fn)
  {
    var names := ParamNames(fn);
    var popped: seq<Value> := [];
    kept := ns;
    var keys := ns.Keys;
    while keys != {}
      invariant keys <= ns.Keys
      invariant kept.Keys == keys + (ns.Keys - keys) * names
      invariant forall k :: k in kept ==> kept[k] == ns[k]
      decreases keys
    {
      var k :| k in keys;
      if k !in names {
        popped := popped + [kept[k]];
        kept := kept - {k};
      }
      keys := keys - {k};
    }
    assert kept.Keys == KeywordArguments(ns, fn).Keys;
  }

  /** A positional parameter with `_` in its name is stored under its hyphenated
      name, which is no parameter name, so its value never reaches the function. */
  lemma PositionalWithUnderscoreIsDropped(f: Function, p: Param, ns: map<string, Value>)
    requires p in f.params && p.default.None?
    requires forall q :: q in f.params ==> '-' !in q.name
    requires p.name != [] && p.name[0] != '_' && '_' in p.name
    ensures Dest(ArgufyArgument.OptionStrings(ArgufyArgument.DisplayName(p.name), false)) !in KeywordArguments(ns, f)
  {
    ArgufyArgument.PositionalDestIsHyphenated(p.name);
    ArgufyArgument.HyphenIffUnderscore(p.name);
  }

  /** A parameter without a default whose name starts with `_` is parsed
      under its name without the underscore, so its value never reaches the
      function unless another parameter has that name. */
  lemma LeadingUnderscorePositionalIsDropped(f: Function, rest: string, ns: map<string, Value>)
    requires '-' !in rest && rest != [] && rest[0] != '_' && rest !in ParamNames(f)
    ensures Dest(ArgufyArgument.OptionStrings(ArgufyArgument.DisplayName("_" + rest), false)) == rest
    ensures Dest(ArgufyArgument.OptionStrings(ArgufyArgument.DisplayName("_" + rest), false)) !in KeywordArguments(ns, f)
  {
    ArgufyArgument.LeadingUnderscorePositionalIsAnOption(rest);
  }

  /** An option parameter (one with a default) is stored under its own name and so reaches the function. */
  lemma FlagReachesParameter(f: Function, p: Param, ns: map<string, Value>)
    requires p in f.params && p.default.Some? && p.name != "fn"
    requires '-' !in p.name && p.name != [] && p.name[0] != '_'
    requires Dest(ArgufyArgument.OptionStrings(ArgufyArgument.DisplayName(p.name), true)) in ns
    ensures p.name in KeywordArguments(ns - {"fn"}, f)
    ensures KeywordArguments(ns - {"fn"}, f)[p.name] ==
            ns[Dest(ArgufyArgument.OptionStrings(ArgufyArgument.DisplayName(p.name), true))]
  {
    ArgufyArgument.FlagDestIsParameterName(p.name);
    var i :| 0 <= i < |f.params| && f.params[i] == p;
    assert p.name in ParamNames(f);
  }

  /** A module option is stored under the member's own name; unless a parameter
      shares it, retrieval drops its value instead of applying it. */
  lemma ModuleOptionIsDropped(f: Function, m: Member, doc: Docstring, ns: map<string, Value>)
    requires '-' !in m.name && m.name !in ParamNames(f)
    ensures Dest(ModuleOption(m, doc).names) == m.name
    ensures Dest(ModuleOption(m, doc).names) !in KeywordArguments(ns, f)
  {
    var names := ModuleOption(m, doc).names;
    assert names == [StrV("--" + m.name)];
    assert !IsPositional(names);
    assert Argparse.LongOption(names) == "--" + m.name;
    if m.name != [] {
      assert m.name[0] in m.name;
    }
    ArgufyArgument.StripLongPrefix(m.name);
    Python.ReplaceAbsent(m.name, '-', '_');
  }

  class Parser {
    /** `add_argument` calls made on this parser. */
    var arguments: seq<Registration>
    /** The `add_parser` calls on the sub-parsers action `add_commands` created, once it has. */
    var commands: Option<seq<Command>>
    /** `_subcommands`: module name to the commands of the parser stored under it. */
    var subcommands: map<string, seq<Command>>

    /** A parser built for `add_parser` or without a calling module: nothing registered. */
    constructor ()
      ensures arguments == [] && commands.None? && subcommands == map[]
    {
      arguments := [];
      commands := None;
      subcommands := map[];
    }

    /** `add_parser_arguments`: one `--name` option per promoted member, in order. */
    method AddParserArguments(source: Namespace, doc: Docstring)
      modifies this`arguments
      ensures arguments == old(arguments) + ModuleOptions(source.members, doc)
    {
      var members := source.members;
      var i := 0;
      while i < |members|
        invariant 0 <= i <= |members|
        invariant arguments == old(arguments) + ModuleOptions(members[..i], doc)
      {
        var m := members[i];
        assert members[..i + 1][..i] == members[..i];
        if !StartsWithAny(m.name, ExcludePrefixes) {
          if IsModule(m.value) || IsClass(m.value) || IsFunction(m.value) {
          } else if IsSettingValue(m.value) {
            var description := HelpFor(doc, m.name);
            arguments := arguments + [Registration([StrV("--" + m.name)], map[HelpKey := description])];
          }
        }
        i := i + 1;
      }
      assert members[..i] == members;
    }

    /** `add_arguments(fn)` on this parser: the registrations made before any exception stay. */
    method AddArguments(fn: Function) returns (raised: Option<PyError>)
      modifies this`arguments
      ensures arguments == old(arguments) + SignatureOptions(fn.params, fn.doc).done
      ensures raised == SignatureOptions(fn.params, fn.doc).raised
    {
      var added;
      added, raised := ArgumentsFor(fn);
      arguments := arguments + added;
    }

    /** `add_commands`: a second call fails in `add_subparsers` with a usage error (exit status 2). */
    method AddCommands(source: Namespace, exclude: seq<string>) returns (raised: Option<PyError>)
      modifies this`commands
      ensures old(commands).Some? ==> commands == old(commands) && raised == Some(SystemExit(2))
      ensures old(commands).None? ==>
                commands == Some(CommandsFrom(source, source.members, exclude).done) &&
                raised == CommandsFrom(source, source.members, exclude).raised
    {
      if commands.Some? {
        return Some(SystemExit(2));
      }
      var added;
      added, raised := AddCommandsTo(source, exclude);
      commands := Some(added);
    }

    /** `add_subcommands`: a fresh parser stored under the module's name, replacing any earlier one. */
    method AddSubcommands(source: Namespace, exclude: seq<string>) returns (raised: Option<PyError>)
      modifies this`subcommands
      ensures subcommands == old(subcommands)[source.name := CommandsFrom(source, source.members, exclude).done]
      ensures raised == CommandsFrom(source, source.members, exclude).raised
    {
      var added;
      added, raised := AddCommandsTo(source, exclude);
      subcommands := subcommands[source.name := added];
    }

    /** `retrieve`: `argv` is `sys.argv[1:]` and `parse` stands for `parse_known_args` on the given parser. */
    method Retrieve(args: Option<seq<string>>, argv: seq<string>, parse: (ParserRef, seq<string>) -> ParseOutcome)
      returns (r: Result<Retrieval>)
      ensures r == Retrieved(Select("example.example" in subcommands, args, argv, parse))
    {
      var tokens := if args.None? && argv == [] then ["--help"] else if args.Some? then args.value else argv;
      var main := parse(MainParser, tokens);
      if main.Failed? {
        return Err(main.error);
      }
      var namespace, arguments := main.namespace, main.rest;
      if main.rest != [] {
        if "example.example" !in subcommands {
          return Err(KeyError("example.example"));
        }
        var sub := parse(SubParser("example.example"), main.rest);
        if sub.Failed? {
          return Err(sub.error);
        }
        namespace, arguments := sub.namespace, sub.rest;
      }
      if "fn" !in namespace {
        return Err(KeyError("fn"));
      }
      var fn := namespace["fn"];
      namespace := namespace - {"fn"};
      if !fn.FunctionV? {
        return Err(TypeError);
      }
      namespace := SetModuleArguments(fn.f, namespace);
      return Ok(Retrieval(fn.f, arguments, namespace));
    }

    /** `dispatch`: the call `fn(**namespace)` retrieval ends in. */
    method Dispatch(args: Option<seq<string>>, argv: seq<string>, parse: (ParserRef, seq<string>) -> ParseOutcome)
      returns (r: Result<Invocation>)
      ensures var retrieved := Retrieved(Select("example.example" in subcommands, args, argv, parse));
              r == if retrieved.Err? then Err(retrieved.error)
                   else Ok(Invocation(FunctionV(retrieved.value.fn), retrieved.value.namespace))
    {
      var retrieved := Retrieve(args, argv, parse);
      if retrieved.Err? {
        return Err(retrieved.error);
      }
      return Ok(Invocation(FunctionV(retrieved.value.fn), retrieved.value.namespace));
    }
  }

  /** A dispatched call passes only parameters of the function it calls, never `fn` itself. */
  lemma DispatchPassesOnlyParameters(selection: Result<Selection>)
    requires Retrieved(selection).Ok?
    ensures Retrieved(selection).value.namespace.Keys <= ParamNames(Retrieved(selection).value.fn)
    ensures "fn" !in Retrieved(selection).value.namespace
    ensures forall k :: k in Retrieved(selection).value.namespace ==>
              Retrieved(selection).value.namespace[k] == selection.value.namespace[k]
  {
  }

  /** With no explicit and no command-line arguments, retrieval parses `--help`. */
  lemma HelpWhenNothingGiven(hasExample: bool, argv: seq<string>, parse: (ParserRef, seq<string>) -> ParseOutcome)
    ensures Select(hasExample, None, [], parse) == Select(hasExample, Some(["--help"]), argv, parse)
  {
  }
}

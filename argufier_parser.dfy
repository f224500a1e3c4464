/** The parser of the older revision (argufier/parser.py; argufier/argufier.py
    carries the same methods). It registers one sub-parser per function of a
    module, builds the `Argument` descriptors of each function without
    registering them, renders a sub-command menu, and dispatches the parsed
    namespace to the chosen function. */
module ArgufierParser {
  import opened Python
  import opened Argparse
  import ArgufierArgument
  import ArgufyParser

  // ---------------------------------------------------------------- menu

  /** The `textwrap.dedent` of the usage literal: the common twelve-space margin
      removed and the whitespace-only lines emptied. */
  const UsageHeader: string := "command [OPTIONS] [SUB-COMMAND] [ARGUMENTS]\n\nSub-Commands to manage the setup of lunar:\n"

  /** One `{'cmd': ..., 'desc': ...}` menu entry. */
  datatype MenuEntry = MenuEntry(cmd: string, desc: string)

  /** `"  {c}\t{d}\n".format(c=msg['cmd'], d=msg['desc'])`. */
  function MenuLine(e: MenuEntry): string {
    "  " + e.cmd + "\t" + e.desc + "\n"
  }

  /** The menu lines of `msgs`, in order. */
  function MenuLines(msgs: seq<MenuEntry>): string {
    if msgs == [] then "" else MenuLine(msgs[0]) + MenuLines(msgs[1..])
  }

  lemma {:induction false} MenuLinesAppend(msgs: seq<MenuEntry>, e: MenuEntry)
    ensures MenuLines(msgs + [e]) == MenuLines(msgs) + MenuLine(e)
    decreases |msgs|
  {
    if msgs == [] {
      assert msgs + [e] == [e];
    } else {
      assert (msgs + [e])[1..] == msgs[1..] + [e];
      MenuLinesAppend(msgs[1..], e);
    }
  }

  /** An entry the menu can be read back from: no tab in the command, no newline in the description. */
  predicate Readable(e: MenuEntry) {
    '\t' !in e.cmd && '\n' !in e.desc
  }

  /** The position of the first `c` in `s`. */
  function Find(s: string, c: char): (r: Option<nat>)
    ensures r.None? <==> c !in s
    ensures r.Some? ==> r.value < |s| && s[r.value] == c && c !in s[..r.value]
  {
    if s == [] then None
    else if s[0] == c then Some(0)
    else
      var r := Find(s[1..], c);
      if r.None? then None
      else
        assert s[..r.value + 1] == [s[0]] + s[1..][..r.value];
        Some(r.value + 1)
  }

  lemma {:induction false} FindAfter(a: string, c: char, b: string)
    requires c !in a
    ensures Find(a + [c] + b, c) == Some(|a|)
    decreases |a|
  {
    var s := a + [c] + b;
    if a != [] {
      assert s[0] == a[0] && s[1..] == a[1..] + [c] + b;
      FindAfter(a[1..], c, b);
    }
  }

  /** Reads menu lines back into entries. */
  function ParseMenu(s: string): Option<seq<MenuEntry>>
    decreases |s|
  {
    if s == [] then Some([])
    else if !StartsWith(s, "  ") then None
    else
      var body := s[2..];
      match Find(body, '\t')
      case None => None
      case Some(t) =>
        var rest := body[t + 1..];
        match Find(rest, '\n')
        case None => None
        case Some(n) =>
          match ParseMenu(rest[n + 1..])
          case None => None
          case Some(tail) => Some([MenuEntry(body[..t], rest[..n])] + tail)
  }

  /** Reads a whole menu message back: the header, then the entries. */
  function ParseMessage(s: string): Option<seq<MenuEntry>> {
    if StartsWith(s, UsageHeader) then ParseMenu(s[|UsageHeader|..]) else None
  }

  lemma {:induction false} MenuRoundTrip(msgs: seq<MenuEntry>)
    requires forall i :: 0 <= i < |msgs| ==> Readable(msgs[i])
    ensures ParseMenu(MenuLines(msgs)) == Some(msgs)
    decreases |msgs|
  {
    if msgs != [] {
      var e, tail := msgs[0], MenuLines(msgs[1..]);
      var s := MenuLine(e) + tail;
      assert s == "  " + (e.cmd + ['\t'] + (e.desc + ['\n'] + tail));
      var body := s[2..];
      assert body == e.cmd + ['\t'] + (e.desc + ['\n'] + tail);
      FindAfter(e.cmd, '\t', e.desc + ['\n'] + tail);
      assert body[..|e.cmd|] == e.cmd;
      var rest := body[|e.cmd| + 1..];
      assert rest == e.desc + ['\n'] + tail;
      FindAfter(e.desc, '\n', tail);
      assert rest[..|e.desc|] == e.desc;
      assert rest[|e.desc| + 1..] == tail;
      assert Readable(msgs[0]);
      MenuRoundTrip(msgs[1..]);
      assert [MenuEntry(e.cmd, e.desc)] + msgs[1..] == msgs;
    }
  }

  /** The menu message determines its readable entries: reading it back gives them all, in order. */
  lemma MessageRoundTrip(msgs: seq<MenuEntry>)
    requires forall i :: 0 <= i < |msgs| ==> Readable(msgs[i])
    ensures ParseMessage(UsageHeader + MenuLines(msgs)) == Some(msgs)
  {
    var s := UsageHeader + MenuLines(msgs);
    assert s[|UsageHeader|..] == MenuLines(msgs);
    MenuRoundTrip(msgs);
  }

  // ---------------------------------------------------------------- arguments

  /** Building the `Argument` of each parameter of `f`, in signature order, with its docstring entry. */
  function ArgumentSteps(f: Function): seq<Result<ArgufierArgument.Attributes>> {
    seq(|f.params|, i requires 0 <= i < |f.params| =>
      ArgufierArgument.Inferred(f.params[i], FindDocParam(f.doc.params, f.params[i].name)))
  }

  /** The exception `add_arguments` lets through, if any. */
  function ArgumentsRaised(f: Function): Option<PyError> {
    UpToFailure(ArgumentSteps(f)).raised
  }

  /** `add_arguments` raises exactly when some undeclared parameter has a tuple hint
      shorter than two elements, and then raises `IndexError`. */
  lemma ArgumentsRaiseOnShortTuple(f: Function)
    ensures ArgumentsRaised(f).Some? <==>
              exists i :: 0 <= i < |f.params| && f.params[i].annotation.None? &&
                          ArgufierArgument.ShortTupleHint(FindDocParam(f.doc.params, f.params[i].name))
    ensures ArgumentsRaised(f).Some? ==> ArgumentsRaised(f).value == IndexError
  {
    var steps := ArgumentSteps(f);
    UpToFailureSteps(steps);
    var done := UpToFailure(steps).done;
    if ArgumentsRaised(f).Some? {
      var i := |done|;
      assert steps[i].Err?;
      assert f.params[i].annotation.None? && ArgufierArgument.ShortTupleHint(FindDocParam(f.doc.params, f.params[i].name));
    } else {
      forall i | 0 <= i < |f.params|
        ensures !(f.params[i].annotation.None? && ArgufierArgument.ShortTupleHint(FindDocParam(f.doc.params, f.params[i].name)))
      {
        assert steps[i] == Ok(done[i]);
      }
    }
  }

  // ---------------------------------------------------------------- sub-commands

  /** A walked function that gets a sub-parser: defined in the module itself and not starting with the prefix. */
  predicate Selected(container: Namespace, m: Member, exclude: string) {
    m.value.FunctionV? && m.value.f.moduleName == container.name && !StartsWith(m.name, exclude)
  }

  /** The sub-parser `add_parser(name, help=short_description)` creates, with `fn` set as its default and no arguments. */
  function SubcommandFor(m: Member): Command
    requires m.value.FunctionV?
  {
    Command(m.name, m.value.f.doc.shortDescription, map["fn" := m.value], [])
  }

  /** The sub-parsers the loop of `add_subcommands` creates for `members`, up to the first exception.
      The sub-parser of a function is created before its arguments are built. */
  function Subcommands(container: Namespace, members: seq<Member>, exclude: string): Partial<Command>
    decreases |members|
  {
    if members == [] then Partial([], None)
    else
      var before := Subcommands(container, members[..|members| - 1], exclude);
      var m := members[|members| - 1];
      if before.raised.Some? || !Selected(container, m, exclude) then before
      else Partial(before.done + [SubcommandFor(m)], ArgumentsRaised(m.value.f))
  }

  lemma {:induction false} SubcommandsStop(container: Namespace, members: seq<Member>, k: nat, exclude: string)
    requires k <= |members| && Subcommands(container, members[..k], exclude).raised.Some?
    ensures Subcommands(container, members, exclude) == Subcommands(container, members[..k], exclude)
    decreases |members|
  {
    if k < |members| {
      var init := members[..|members| - 1];
      assert init[..k] == members[..k];
      SubcommandsStop(container, init, k, exclude);
    } else {
      assert members[..k] == members;
    }
  }

  /** Every sub-parser belongs to a selected function; when nothing raised every
      selected function has one; an exception comes from the last function given a
      sub-parser, and is `IndexError`. */
  lemma {:induction false} SubcommandsAreSelectedFunctions(container: Namespace, members: seq<Member>, exclude: string)
    ensures forall c :: c in Subcommands(container, members, exclude).done ==>
              exists m :: m in members && Selected(container, m, exclude) && c == SubcommandFor(m)
    ensures Subcommands(container, members, exclude).raised.None? ==>
              forall m :: m in members && Selected(container, m, exclude) ==> SubcommandFor(m) in Subcommands(container, members, exclude).done
    ensures Subcommands(container, members, exclude).raised.Some? ==>
              var r := Subcommands(container, members, exclude);
              r.done != [] && r.raised.value == IndexError &&
              exists m :: m in members && Selected(container, m, exclude) &&
                          r.done[|r.done| - 1] == SubcommandFor(m) && ArgumentsRaised(m.value.f) == r.raised
    decreases |members|
  {
    if members != [] {
      var init := members[..|members| - 1];
      SubcommandsAreSelectedFunctions(container, init, exclude);
      assert members == init + [members[|members| - 1]];
      var m := members[|members| - 1];
      if Selected(container, m, exclude) {
        ArgumentsRaiseOnShortTuple(m.value.f);
      }
    }
  }

  /** No sub-parser gets an argument: the descriptors are built but never registered. */
  lemma {:induction false} SubcommandsTakeNoArguments(container: Namespace, members: seq<Member>, exclude: string)
    ensures forall c :: c in Subcommands(container, members, exclude).done ==> c.arguments == [] && "fn" in c.defaults
    decreases |members|
  {
    if members != [] {
      SubcommandsTakeNoArguments(container, members[..|members| - 1], exclude);
    }
  }

  // ---------------------------------------------------------------- dispatch

  /** `parse_args(args)`: `argv` is `sys.argv[1:]`, `parse` stands for `parse_known_args`,
      and leftover tokens are a usage error. */
  function Parsed(args: Option<seq<string>>, argv: seq<string>, parse: (ParserRef, seq<string>) -> ParseOutcome): Result<map<string, Value>> {
    match parse(MainParser, if args.Some? then args.value else argv)
    case Failed(e) => Err(e)
    case Parsed(ns, rest) => if rest == [] then Ok(ns) else Err(SystemExit(2))
  }

  /** `dispatch`: pop `fn` from the parsed namespace and call it with everything else. */
  function Dispatched(args: Option<seq<string>>, argv: seq<string>, parse: (ParserRef, seq<string>) -> ParseOutcome): Result<Invocation> {
    var ns :- Parsed(args, argv, parse);
    if "fn" in ns then Ok(Invocation(ns["fn"], ns - {"fn"})) else Err(KeyError("fn"))
  }

  /** A dispatched call receives every parsed entry except `fn`, under its own name;
      it happens exactly when parsing left no token over and chose a function. */
  lemma DispatchPassesEverythingButFn(args: Option<seq<string>>, argv: seq<string>, parse: (ParserRef, seq<string>) -> ParseOutcome)
    ensures var outcome := parse(MainParser, if args.Some? then args.value else argv);
            Dispatched(args, argv, parse).Ok? <==> outcome.Parsed? && outcome.rest == [] && "fn" in outcome.namespace
    ensures var outcome := parse(MainParser, if args.Some? then args.value else argv);
            Dispatched(args, argv, parse).Ok? ==>
              Dispatched(args, argv, parse).value.target == outcome.namespace["fn"] &&
              Dispatched(args, argv, parse).value.kwargs.Keys == outcome.namespace.Keys - {"fn"} &&
              forall k :: k in Dispatched(args, argv, parse).value.kwargs ==> Dispatched(args, argv, parse).value.kwargs[k] == outcome.namespace[k]
    ensures var outcome := parse(MainParser, if args.Some? then args.value else argv);
            outcome.Parsed? && outcome.rest != [] ==> Dispatched(args, argv, parse) == Err(SystemExit(2))
  {
  }

  /** Unlike the current revision, this one passes on namespace entries that name
      no parameter of the chosen function. */
  lemma DispatchKeepsWhatRetrievalDrops(ns: map<string, Value>, f: Function, k: string)
    requires "fn" in ns && ns["fn"] == FunctionV(f)
    requires k in ns && k != "fn" && k !in ArgufyParser.ParamNames(f)
    ensures var parse := (_: ParserRef, _: seq<string>) => Argparse.Parsed(ns, []);
            && Dispatched(None, [], parse).Ok? && k in Dispatched(None, [], parse).value.kwargs
            && ArgufyParser.Retrieved(Ok(ArgufyParser.Selection(ns, []))).Ok?
            && k !in ArgufyParser.Retrieved(Ok(ArgufyParser.Selection(ns, []))).value.namespace
  {
  }

  /** The parser: the `subparsers` action once `add_subcommands` has run, with the sub-parsers it holds. */
  class Parser {
    var subparsers: Option<seq<Command>>

    constructor ()
      ensures subparsers.None?
    {
      subparsers := None;
    }

    /** `message`: the usage header followed by one line per menu entry. */
    static method Message(msgs: seq<MenuEntry>) returns (usg: string)
      ensures usg == UsageHeader + MenuLines(msgs)
    {
      usg := UsageHeader;
      var i := 0;
      while i < |msgs|
        invariant 0 <= i <= |msgs|
        invariant usg == UsageHeader + MenuLines(msgs[..i])
      {
        MenuLinesAppend(msgs[..i], msgs[i]);
        assert msgs[..i + 1] == msgs[..i] + [msgs[i]];
        usg := usg + "  " + msgs[i].cmd + "\t" + msgs[i].desc + "\n";
        i := i + 1;
      }
      assert msgs[..i] == msgs;
    }

    /** `add_arguments`: an `Argument` per parameter, each discarded; nothing is registered. */
    method AddArguments(fn: Function) returns (raised: Option<PyError>)
      ensures raised == ArgumentsRaised(fn)
    {
      ghost var steps := ArgumentSteps(fn);
      ghost var built: seq<ArgufierArgument.Attributes> := [];
      var i := 0;
      while i < |fn.params|
        invariant 0 <= i <= |fn.params|
        invariant UpToFailure(steps[..i]) == Partial(built, None)
      {
        var p := fn.params[i];
        var description := FindDocParam(fn.doc.params, p.name);
        var argument := ArgufierArgument.NewArgument(p, description);
        assert steps[..i + 1][..i] == steps[..i];
        if argument.Err? {
          UpToFailureStop(steps, i + 1);
          return Some(argument.error);
        }
        built := built + [argument.value.attributes];
        i := i + 1;
      }
      assert steps[..i] == steps;
      return None;
    }

    /** The loop of `add_subcommands`: a sub-parser per selected function, then its arguments. */
    method SubcommandsOf(source: Namespace, exclude: string) returns (added: seq<Command>, raised: Option<PyError>)
      ensures Partial(added, raised) == Subcommands(source, source.members, exclude)
    {
      var members := source.members;
      added, raised := [], None;
      var i := 0;
      while i < |members|
        invariant 0 <= i <= |members|
        invariant Subcommands(source, members[..i], exclude) == Partial(added, None)
        invariant raised.None?
      {
        var m := members[i];
        assert members[..i + 1][..i] == members[..i];
        if m.value.FunctionV? && m.value.f.moduleName == source.name && !StartsWith(m.name, exclude) {
          added := added + [Command(m.name, m.value.f.doc.shortDescription, map["fn" := m.value], [])];
          raised := AddArguments(m.value.f);
          if raised.Some? {
            SubcommandsStop(source, members, i + 1, exclude);
            return;
          }
        }
        i := i + 1;
      }
      assert members[..i] == members;
    }

    /** `add_subcommands`: a second call is an argparse usage error and changes nothing. */
    method AddSubcommands(source: Namespace, exclude: string) returns (raised: Option<PyError>)
      modifies this
      ensures old(subparsers).Some? ==> subparsers == old(subparsers) && raised == Some(SystemExit(2))
      ensures old(subparsers).None? ==>
                subparsers.Some? && Partial(subparsers.value, raised) == Subcommands(source, source.members, exclude)
    {
      if subparsers.Some? {
        return Some(SystemExit(2));
      }
      var added;
      added, raised := SubcommandsOf(source, exclude);
      subparsers := Some(added);
    }

    /** `dispatch`: `argv` is `sys.argv[1:]`; `parse` stands for `parse_known_args`. */
    method Dispatch(args: Option<seq<string>>, argv: seq<string>, parse: (ParserRef, seq<string>) -> ParseOutcome)
      returns (r: Result<Invocation>)
      ensures r == Dispatched(args, argv, parse)
    {
      var tokens := if args.Some? then args.value else argv;
      var result := parse(MainParser, tokens);
      if result.Failed? {
        return Err(result.error);
      }
      if result.rest != [] {
        return Err(SystemExit(2));
      }
      var namespace := result.namespace;
      if "fn" !in namespace {
        return Err(KeyError("fn"));
      }
      var fn := namespace["fn"];
      namespace := namespace - {"fn"};
      return Ok(Invocation(fn, namespace));
    }
  }
}

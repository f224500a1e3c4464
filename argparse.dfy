/** What the binder hands to, and gets back from, the standard `argparse`
    library. The library itself (tokenising, prefix matching, conversion,
    help printing) is not modelled: a parser is the record of the calls made
    on it, and parsing is a function supplied by the caller. */
module Argparse {
  import opened Python

  /** The keys of an argument's attribute dict: `name` (the positional names,
      or the option strings in the current revision), `flags` (the option
      strings in the older revision) and the `add_argument` keywords set. */
  datatype Keyword = NameKey | FlagsKey | DefaultKey | TypeKey | ActionKey | NargsKey | ChoicesKey | MetavarKey | HelpKey

  /** One `parser.add_argument(*names, **kwargs)` call. */
  datatype Registration = Registration(names: seq<Value>, kwargs: map<Keyword, Value>)

  /** One `subparsers.add_parser(name, help=help)` call, together with the
      `set_defaults` given to the new sub-parser and the arguments registered on it. */
  datatype Command = Command(name: string, help: Option<string>, defaults: map<string, Value>, arguments: seq<Registration>)

  /** The parser a parse call is made on: the top-level one, or the one stored under a key of `_subcommands`. */
  datatype ParserRef = MainParser | SubParser(key: string)

  /** What `parse_known_args` / `parse_args` produce: a namespace and the
      tokens left over, or an exception (`SystemExit` for help and usage errors). */
  datatype ParseOutcome = Parsed(namespace: map<string, Value>, rest: seq<string>) | Failed(error: PyError)

  /** `fn(**kwargs)`: the call a dispatcher ends with. The callee is foreign code. */
  datatype Invocation = Invocation(target: Value, kwargs: map<string, Value>)

  predicate IsOptionString(s: string) {
    s != [] && s[0] == '-'
  }

  predicate AllStrings(names: seq<Value>) {
    forall i :: 0 <= i < |names| ==> names[i].StrV?
  }

  /** `add_argument` treats a call with one name that does not start with `-` as a positional argument. */
  predicate IsPositional(names: seq<Value>)
    requires AllStrings(names)
  {
    |names| == 1 && !IsOptionString(names[0].s)
  }

  /** `s.lstrip('-')`. */
  function LStripDashes(s: string): (r: string)
    ensures |r| <= |s| && r == s[|s| - |r|..]
    ensures r == [] || r[0] != '-'
    ensures forall i :: 0 <= i < |s| - |r| ==> s[i] == '-'
  {
    if s != [] && s[0] == '-' then
      var r := LStripDashes(s[1..]);
      assert forall i :: 1 <= i < |s| - |r| ==> s[i] == s[1..][i - 1];
      r
    else s
  }

  /** One leading dash more strips to the same string. */
  lemma LStripDashesCons(s: string)
    ensures LStripDashes("-" + s) == LStripDashes(s)
  {
    assert ("-" + s)[1..] == s;
  }

  /** An option string of the `--name` form. */
  predicate IsLongOption(s: string) {
    |s| > 1 && s[1] == '-'
  }

  /** The first `--` option string, else the first option string. */
  function LongOption(names: seq<Value>): (r: string)
    requires names != [] && AllStrings(names)
    ensures r in (set i | 0 <= i < |names| :: names[i].s)
    ensures (forall i :: 0 <= i < |names| ==> !IsLongOption(names[i].s)) ==> r == names[0].s
    ensures (exists i :: 0 <= i < |names| && IsLongOption(names[i].s)) ==>
              exists i :: 0 <= i < |names| && names[i].s == r && IsLongOption(r) &&
                          forall j :: 0 <= j < i ==> !IsLongOption(names[j].s)
  {
    if IsLongOption(names[0].s) then names[0].s
    else if |names| == 1 then names[0].s
    else
      var rest := LongOption(names[1..]);
      assert forall i :: 1 <= i < |names| ==> names[i] == names[1..][i - 1];
      if IsLongOption(rest) then
        assert exists i :: 1 <= i < |names| && names[i].s == rest && forall j :: 0 <= j < i ==> !IsLongOption(names[j].s) by {
          var k :| 0 <= k < |names[1..]| && names[1..][k].s == rest && IsLongOption(rest) &&
                   forall j :: 0 <= j < k ==> !IsLongOption(names[1..][j].s);
          assert names[k + 1].s == rest;
          assert forall j :: 0 <= j < k + 1 ==> !IsLongOption(names[j].s) by {
            forall j | 0 <= j < k + 1 ensures !IsLongOption(names[j].s) {
              if j > 0 { assert names[j] == names[1..][j - 1]; }
            }
          }
        }
        rest
      else
        names[0].s
  }

  /** The namespace key argparse stores an argument under when no `dest` is
      given: a positional's own name; for an option, its long form without the
      leading dashes and with `-` turned into `_`. */
  function Dest(names: seq<Value>): string
    requires names != [] && AllStrings(names)
  {
    if IsPositional(names) then names[0].s
    else Replace(LStripDashes(LongOption(names)), '-', '_')
  }

  /** The value `store_true` / `store_false` store when their flag is given. */
  function StoredWhenPresent(action: string): (r: Option<bool>)
    ensures r.Some? <==> action in {"store_true", "store_false"}
    ensures r == Some(true) <==> action == "store_true"
  {
    if action == "store_true" then Some(true)
    else if action == "store_false" then Some(false)
    else None
  }
}

/** The Python objects the argument binder inspects: parameter defaults and
    annotations, evaluated docstring type hints, module members, and the
    string operations the binder applies to names. */
module Python {

  datatype Option<+T> = None | Some(value: T)

  /** Exceptions raised by the modelled code (or by the argparse calls it makes). */
  datatype PyError =
    | IndexError                  // `t[0]` / `t[1]` on a too-short tuple
    | KeyError(key: string)       // `dict.pop(key)` / `d[key]` on a missing key
    | AttributeError(attr: string)// e.g. `module.__module__`
    | TypeError                   // `inspect.signature` of something not callable
    | SystemExit(status: int)     // argparse printing help or a usage error

  datatype Result<+T> = Ok(value: T) | Err(error: PyError) {
    predicate IsFailure() { Err? }
    function PropagateFailure<U>(): Result<U>
      requires Err?
    {
      Err(error)
    }
    function Extract(): T
      requires Ok?
    {
      value
    }
  }

  /** A sequence of effects that were carried out before an exception (if any) stopped the loop. */
  datatype Partial<+T> = Partial(done: seq<T>, raised: Option<PyError>)

  /** What a loop over `steps` leaves behind when it stops at the first step
      that raises: the values of the steps before it, and that exception. */
  function UpToFailure<T>(steps: seq<Result<T>>): Partial<T>
    decreases |steps|
  {
    if steps == [] then Partial([], None)
    else
      var before := UpToFailure(steps[..|steps| - 1]);
      if before.raised.Some? then before
      else match steps[|steps| - 1]
        case Err(e) => Partial(before.done, Some(e))
        case Ok(x) => Partial(before.done + [x], None)
  }

  /** Once a prefix of the steps raises, the later steps are never reached. */
  lemma {:induction false} UpToFailureStop<T>(steps: seq<Result<T>>, k: nat)
    requires k <= |steps| && UpToFailure(steps[..k]).raised.Some?
    ensures UpToFailure(steps) == UpToFailure(steps[..k])
    decreases |steps|
  {
    if k < |steps| {
      var init := steps[..|steps| - 1];
      assert init[..k] == steps[..k];
      UpToFailureStop(init, k);
    } else {
      assert steps[..k] == steps;
    }
  }

  /** Value `i` is the value of step `i`; every step runs unless one raises,
      and then the step right after the last value is the one that raised. */
  lemma {:induction false} UpToFailureSteps<T>(steps: seq<Result<T>>)
    ensures |UpToFailure(steps).done| <= |steps|
    ensures forall i :: 0 <= i < |UpToFailure(steps).done| ==> steps[i] == Ok(UpToFailure(steps).done[i])
    ensures UpToFailure(steps).raised.None? ==> |UpToFailure(steps).done| == |steps|
    ensures UpToFailure(steps).raised.Some? ==>
              |UpToFailure(steps).done| < |steps| && steps[|UpToFailure(steps).done|] == Err(UpToFailure(steps).raised.value)
    decreases |steps|
  {
    if steps != [] {
      var init := steps[..|steps| - 1];
      UpToFailureSteps(init);
      assert forall i :: 0 <= i < |init| ==> init[i] == steps[i];
    }
  }

  /** The built-in classes the binder compares annotations against. */
  datatype Builtin = BoolType | IntType | FloatType | StrType | ListType | SetType | TupleType | DictType | NoneType

  datatype NamespaceKind = ModuleKind | ClassKind

  /** A Python object. Floats are finite (`real`); `ObjectV` is any other instance. */
  datatype Value =
    | NoneV
    | BoolV(b: bool)
    | IntV(i: int)
    | FloatV(r: real)
    | StrV(s: string)
    | ListV(items: seq<Value>)
    | TupleV(items: seq<Value>)
    | SetV(elems: set<Value>)
    | DictV(entries: map<Value, Value>)
    | TypeV(t: Builtin)
    | NamespaceV(ns: Namespace)
    | FunctionV(f: Function)
    | ObjectV(tag: string)

  /** One `inspect.Parameter`; `None` stands for the `inspect._empty` sentinel. */
  datatype Param = Param(name: string, default: Option<Value>, annotation: Option<Value>)

  /** One parsed docstring parameter: `arg_name`, the `eval`-ed `type_name`
      (`None` when the type name is absent or empty) and `description`. */
  datatype DocParam = DocParam(argName: string, typeHint: Option<Value>, description: Option<string>)

  /** A parsed docstring: `short_description` and `params`. */
  datatype Docstring = Docstring(shortDescription: Option<string>, params: seq<DocParam>)

  /** A Python function: `__name__`, `__module__`, its parsed `__doc__` and its signature. */
  datatype Function = Function(name: string, moduleName: string, doc: Docstring, params: seq<Param>)

  /** One `(name, value)` pair of `inspect.getmembers`. */
  datatype Member = Member(name: string, value: Value)

  /** A module or a class: `__name__`, `__module__` (the owner, meaningful for a class)
      and the members `inspect.getmembers` lists, in that order. */
  datatype Namespace = Namespace(kind: NamespaceKind, name: string, owner: string, members: seq<Member>)

  /** `next((d for d in params if d.arg_name == name), None)`: the first docstring entry for `name`. */
  function FindDocParam(params: seq<DocParam>, name: string): (r: Option<DocParam>)
    ensures r.None? <==> forall i :: 0 <= i < |params| ==> params[i].argName != name
    ensures r.Some? ==> exists i :: 0 <= i < |params| && params[i] == r.value && r.value.argName == name &&
                                    forall j :: 0 <= j < i ==> params[j].argName != name
  {
    if params == [] then None
    else if params[0].argName == name then Some(params[0])
    else
      var r := FindDocParam(params[1..], name);
      assert r.Some? ==> exists i :: 1 <= i < |params| && params[i] == r.value && forall j :: 0 <= j < i ==> params[j].argName != name by {
        if r.Some? {
          var i :| 0 <= i < |params[1..]| && params[1..][i] == r.value && r.value.argName == name &&
                   forall j :: 0 <= j < i ==> params[1..][j].argName != name;
          assert params[i + 1] == r.value;
          assert forall j :: 0 <= j < i + 1 ==> params[j].argName != name by {
            forall j | 0 <= j < i + 1 ensures params[j].argName != name {
              if j > 0 { assert params[j] == params[1..][j - 1]; }
            }
          }
        }
      }
      r
  }

  /** Python truth value (`bool(v)`). */
  predicate Truthy(v: Value) {
    match v
    case NoneV => false
    case BoolV(b) => b
    case IntV(i) => i != 0
    case FloatV(r) => r != 0.0
    case StrV(s) => s != ""
    case ListV(items) => items != []
    case TupleV(items) => items != []
    case SetV(elems) => elems != {}
    case DictV(entries) => entries != map[]
    case _ => true
  }

  /** `d.get(key)`: the stored value, or `None` when the key is missing. */
  function Get<K>(d: map<K, Value>, key: K): (r: Value)
    ensures key !in d ==> r == NoneV
  {
    if key in d then d[key] else NoneV
  }

  /** An optional docstring text as the Python object it is (`str` or `None`). */
  function Text(s: Option<string>): (r: Value)
    ensures r.StrV? <==> s.Some?
    ensures s.Some? ==> r.s == s.value
  {
    if s.Some? then StrV(s.value) else NoneV
  }

  predicate IsModule(v: Value) {
    v.NamespaceV? && v.ns.kind == ModuleKind
  }

  /** `inspect.isclass`: a built-in class or a user-defined one. */
  predicate IsClass(v: Value) {
    v.TypeV? || (v.NamespaceV? && v.ns.kind == ClassKind)
  }

  predicate IsFunction(v: Value) {
    v.FunctionV?
  }

  /** `v.__module__`: functions and classes know their defining module; a module object has no such attribute. */
  function ModuleOf(v: Value): (r: Result<string>)
    ensures v.FunctionV? ==> r == Ok(v.f.moduleName)
    ensures IsModule(v) ==> r == Err(AttributeError("__module__"))
  {
    match v
    case FunctionV(f) => Ok(f.moduleName)
    case NamespaceV(ns) => if ns.kind == ClassKind then Ok(ns.owner) else Err(AttributeError("__module__"))
    case TypeV(_) => Ok("builtins")
    case _ => Err(AttributeError("__module__"))
  }

  /** `s.startswith(prefix)`. */
  predicate StartsWith(s: string, prefix: string) {
    prefix <= s
  }

  /** `s.startswith(prefixes)` for a tuple of prefixes. */
  predicate StartsWithAny(s: string, prefixes: seq<string>) {
    exists i :: 0 <= i < |prefixes| && StartsWith(s, prefixes[i])
  }

  /** `s[:1]`. */
  function Head(s: string): (r: string)
    ensures |r| == if s == [] then 0 else 1
    ensures r <= s
  {
    if s == [] then "" else s[..1]
  }

  /** `s.replace(from, to)` for single characters. */
  function Replace(s: string, from: char, to: char): (r: string)
    ensures |r| == |s|
    ensures forall i :: 0 <= i < |s| ==> r[i] == if s[i] == from then to else s[i]
  {
    if s == [] then "" else [if s[0] == from then to else s[0]] + Replace(s[1..], from, to)
  }

  function UpperChar(c: char): char {
    if 'a' <= c <= 'z' then (c as int - 'a' as int + 'A' as int) as char else c
  }

  predicate IsLowerChar(c: char) {
    'a' <= c <= 'z'
  }

  /** `s.upper()` on ASCII letters. */
  function Upper(s: string): (r: string)
    ensures |r| == |s|
    ensures forall i :: 0 <= i < |s| ==> r[i] == UpperChar(s[i])
    ensures forall i :: 0 <= i < |r| ==> !IsLowerChar(r[i])
  {
    if s == [] then "" else [UpperChar(s[0])] + Upper(s[1..])
  }

  /** `sep.join(parts)`. */
  function Join(sep: string, parts: seq<string>): (r: string)
    ensures parts == [] ==> r == ""
    ensures |parts| == 1 ==> r == parts[0]
    ensures |parts| > 1 ==> StartsWith(r, parts[0] + sep)
  {
    if parts == [] then ""
    else if |parts| == 1 then parts[0]
    else parts[0] + sep + Join(sep, parts[1..])
  }

  /** Replacing a character the string does not hold changes nothing. */
  lemma ReplaceAbsent(s: string, from: char, to: char)
    requires from !in s
    ensures Replace(s, from, to) == s
  {
    var r := Replace(s, from, to);
    forall i | 0 <= i < |s| ensures r[i] == s[i] {
      assert s[i] in s;
    }
  }

  /** Replacing `_` by `-` and back restores a name that had no `-`. */
  lemma {:induction false} ReplaceRoundTrip(s: string)
    requires '-' !in s
    ensures Replace(Replace(s, '_', '-'), '-', '_') == s
    ensures '_' !in Replace(s, '_', '-')
  {
    var h := Replace(s, '_', '-');
    var back := Replace(h, '-', '_');
    forall i | 0 <= i < |s| ensures back[i] == s[i] {
      assert s[i] != '-';
    }
  }
}

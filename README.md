# argufy in Dafny

A model of the argument binder of argufy, an inspection-based command-line
parser for Python. The binder turns a Python function into `argparse`
arguments and turns a module's functions into sub-commands. Each parameter
of a function becomes one `add_argument` call. Its option strings, `type`,
`action`, `nargs`, `choices`, `metavar`, `default` and `help` are inferred
from the parameter's default and annotation and from the function's
docstring. After parsing, the binder hands the chosen function its keyword
arguments.

Two revisions are modelled, each in the form the source gives it.

- **The current revision** (`argufy/argument.py`, `argufy/parser.py`):
  - `ArgufyArgument` holds the pure inference `Inferred` and the class `Argument`. The class keeps the attribute dict and the private property fields, and each property setter is a method on it.
  - `ArgufyParser` holds the class `Parser`. The parser is the record of the `argparse` calls made on it: the top-level registrations, the `add_subparsers` commands and the `_subcommands` dict.
  - `ArgufyParser` also holds the member walks (loops checked against recursive specification functions) and retrieval and dispatch.
- **The older revision** (`argufier/argument.py`, `argufier/parser.py`, and `argufier/argufier.py`, which repeats both):
  - `ArgufierArgument` holds its `Argument` class and inference.
  - `ArgufierParser` holds the menu message, `add_subcommands`, `add_arguments` and `dispatch`.
- **Shared modules:**
  - `Python` models the Python objects the binder inspects (values, parameters, docstrings, functions, modules and classes), its exceptions as `Result` values, and a loop that stops at the first exception (`UpToFailure`).
  - `Argparse` models what the binder hands to `argparse`, and the rules `argparse` uses to derive a namespace key.

Parsing itself belongs to `argparse` and is taken as a function parameter
`parse: (ParserRef, seq<string>) -> ParseOutcome`. It stands for
`parse_known_args` on the given parser, and `sys.argv[1:]` is the parameter
`argv`. An exception escaping the Python code is a `PyError` value. A
method that can raise returns the exception it raised, if any.

The model follows the code as written, including these behaviours, which
its names and comments do not lead one to expect:

- **Short flag:** the short flag is always `-` plus the first character when the hyphenated name has no `-`. There is no registry of taken short flags and no fallback to upper case.
- **Type hints:** a docstring type hint is `eval`-ed. A tuple hint with fewer than two elements therefore raises `IndexError` instead of being ignored.
- **`metavar`:** every argument gets a `metavar`, not only positionals.
- **Exclude prefixes:** when `__add_commands` in argufy/parser.py collects commands (lines 138-139), the prefixes are joined into one string, `"@, _"`, so names starting with `_` are *not* excluded there. The module-attribute options of `add_parser_arguments` use the prefix tuple itself and do exclude `_` names. The older revision's `add_subcommands` tests the single prefix string `'_'`, so it excludes `_` names as well.
- **Declared `bool`:** a declared `bool` annotation is tested by the value's runtime type, so a declared `bool` class is a typed option and not a flag.

## Model

| member | source | states |
|---|---|---|
| Python.FindDocParam | argufy/parser.py:114-116 | the docstring entry used for a parameter is the first one with its name; there is none exactly when no entry has that name |
| ArgufyArgument.DisplayName | argufy/argument.py:24 | the display name has the parameter's length, contains no `_`, and is the parameter name with each `_` replaced by `-` and every other character kept |
| ArgufyArgument.OptionStrings | argufy/argument.py:63-75 | without a default the name setter stores `[name]`; with one it stores `--name` first, followed by `-` and the first character exactly when the name has no `-` |
| ArgufyArgument.Shaped | argufy/argument.py:35-52 | the annotation chain fails exactly on a tuple shorter than two elements, with `IndexError`; it leaves keys outside `type`/`action`/`nargs`/`choices` alone; a bool value gives only an action; `int` gives type and `append`; `list` gives type and `nargs='+'`; a tuple gives type from item 0 and choices from a set in item 1; anything else becomes the type |
| ArgufyArgument.Inferred | argufy/argument.py:15-56 | the attribute dict fails exactly when the resolved annotation is a short tuple; it has `default` exactly when the parameter has one; `name` is the option strings of the hyphenated name; `metavar` is the upper-cased name; `help` is present exactly when a docstring entry exists |
| ArgufyArgument.InferredFollowsAnnotation | argufy/argument.py:35-52 | which of `type`, `action`, `nargs`, `choices` are present as a function of the resolved annotation, and their values |
| ArgufyArgument.HyphenIffUnderscore | argufy/argument.py:24 | a name without `-` contains `-` after hyphenation exactly when it contained `_` |
| ArgufyArgument.StripLongPrefix | argufy/argument.py:70 | argparse's `lstrip('-')` of `--` plus a name not starting with `-` gives back that name |
| ArgufyArgument.ShortFlagIffNoUnderscore | argufy/argument.py:69-74 | with a default, `--name` comes first, and the short flag `-n` is added exactly when the parameter name has no `_` |
| ArgufyArgument.PositionalIffNoDefault | argufy/argument.py:66-75 | for a parameter whose name starts with neither `_` nor `-`, its argument is positional for argparse exactly when it has no default |
| ArgufyArgument.PositionalDestIsHyphenated | argufy/argument.py:66-68 | a positional is stored under its hyphenated name, which equals the parameter name exactly when that has no `_` |
| ArgufyArgument.FlagDestIsParameterName | argufy/argument.py:69-74 | an option's namespace key is the parameter name again |
| ArgufyArgument.LeadingUnderscorePositionalIsAnOption | argufy/argument.py:24-68 | a parameter `_x` without a default is registered as the option `-x`, is not positional, and is parsed into `x` |
| ArgufyArgument.LeadingUnderscoreFlagDest | argufy/argument.py:24 | an option whose parameter starts with `_` is stored without that underscore |
| ArgufyArgument.ToggleNegatesDefault | argufy/argument.py:35-40 | for a bool-valued hint, the stored action stores the negation of the default's truth value when its option is given |
| ArgufyArgument.DeclaredBoolClassIsNotAFlag | argufy/argument.py:35-52 | a declared `bool` class becomes `type=bool` and gets no action |
| ArgufyArgument.HintActsAsAnnotation | argufy/argument.py:26-32 | without a declared annotation, the docstring hint is inferred from exactly as if it had been declared |
| ArgufyArgument.AnnotationShadowsHint | argufy/argument.py:26-27 | with a declared annotation, only the docstring description matters |
| ArgufyArgument.DeclaredTypeDropsDocumentedChoices | tests/test_arguments.py:72-102 | `choice_check: str = 'A'` gets type `str`, default `'A'`, help `'argument choice'` and no choices |
| ArgufyArgument.Argument.constructor | argufy/argument.py:21 | a new argument has an empty attribute dict and no property set |
| ArgufyArgument.Argument.SetDefault | argufy/argument.py:171-178 | a real default is stored in the dict and the field; the empty sentinel leaves the dict and reads as `None` |
| ArgufyArgument.Argument.SetName | argufy/argument.py:63-75 | stores the positional name or the option strings, depending on whether a default is already in the dict, in the dict and the field |
| ArgufyArgument.Argument.SetMetavar | argufy/argument.py:82-87 | stores `metavar` in the dict and the field and keeps the two consistent |
| ArgufyArgument.Argument.SetType | argufy/argument.py:94-98 | stores `type` in the dict and the field |
| ArgufyArgument.Argument.SetAction | argufy/argument.py:138-142 | stores `action` in the dict and the field |
| ArgufyArgument.Argument.SetChoices | argufy/argument.py:149-153 | stores `choices` in the dict and the field |
| ArgufyArgument.Argument.SetNargs | argufy/argument.py:160-164 | stores `nargs` in the dict and the field |
| ArgufyArgument.Argument.SetHelp | argufy/argument.py:185-189 | stores `help` in the dict and the field |
| ArgufyArgument.Argument.Shape | argufy/argument.py:35-52 | the setter calls of the annotation chain produce `Shaped` of the previous dict, or its `IndexError` |
| ArgufyArgument.Argument.Prepare | argufy/argument.py:21-24 | after the empty dict and the `default` and `name` setters, the dict holds the default and the option strings |
| ArgufyArgument.Argument.Initialize | argufy/argument.py:15-56 | `__init__` leaves exactly the attribute dict `Inferred` describes, or raises its exception |
| ArgufyArgument.NewArgument | argufy/argument.py:15-19 | constructing an `Argument` yields a fresh object holding `Inferred`, or the exception |
| ArgufyParser.ModuleOptionsArePromotedMembers | argufy/parser.py:81-103 | the options made from module attributes are, position by position, one `--name` option with its documented help for each non-excluded setting value, in member order |
| ArgufyParser.PromotedMembers | argufy/parser.py:87-100 | keeps exactly the module members that are non-excluded setting values, and no others |
| ArgufyParser.SignatureOptionsFollowParameters | argufy/parser.py:113-122 | registration `i` is the argument of parameter `i` with `name` popped into the option strings; all parameters are registered unless one raises, and then the first raising parameter's exception escapes |
| ArgufyParser.ArgumentsFor | argufy/parser.py:105-123 | the loop over the signature makes exactly those registrations and raises that exception |
| ArgufyParser.CommandsAreSelectedFunctions | argufy/parser.py:137-145 | every command is a function of the walked module itself whose name is not excluded; with no exception, every such function has its command |
| ArgufyParser.ClassWalkRaises | argufy/parser.py:132-138 | walking a class registers nothing and raises `AttributeError('__module__')` exactly when the class holds a module |
| ArgufyParser.DefaultExcludeKeepsUnderscoreNames | argufy/parser.py:138-139 | the default prefixes join to `"@, _"`, so a name starting with `_` is not excluded |
| ArgufyParser.AddCommandsTo | argufy/parser.py:125-145 | the walk makes exactly the commands `CommandsFrom` describes, up to the first exception |
| ArgufyParser.SetModuleArguments | argufy/parser.py:166-177 | after popping, the namespace holds exactly its entries that name a parameter, with their values |
| ArgufyParser.PositionalWithUnderscoreIsDropped | argufy/parser.py:166-177 | a positional parameter with `_` in its name never reaches the function |
| ArgufyParser.FlagReachesParameter | argufy/parser.py:166-177 | an option parameter's parsed value reaches the function under the parameter's name |
| ArgufyParser.LeadingUnderscorePositionalIsDropped | argufy/parser.py:166-177 | the value of a parameter `_x` without a default is parsed into `x` and never reaches a function that has no parameter `x` |
| ArgufyParser.ModuleOptionIsDropped | argufy/parser.py:171-175 | a module-attribute option is parsed under its own name and never reaches a function that lacks such a parameter |
| ArgufyParser.Parser.constructor | argufy/parser.py:74-76 | a new parser has no registrations, no commands and an empty `_subcommands` |
| ArgufyParser.Parser.AddParserArguments | argufy/parser.py:81-103 | appends exactly the module-attribute options |
| ArgufyParser.Parser.AddArguments | argufy/parser.py:105-123 | appends exactly the signature registrations and reports their exception |
| ArgufyParser.Parser.AddCommands | argufy/parser.py:147-154 | the first call stores the commands of the walk; a second `add_subparsers` is a usage error (`SystemExit(2)`) that changes nothing |
| ArgufyParser.Parser.AddSubcommands | argufy/parser.py:156-164 | stores the walk's commands under the module's name, replacing an earlier entry |
| ArgufyParser.Parser.Retrieve | argufy/parser.py:179-198 | parses `--help` when nothing is given; leftover tokens go to the `example.example` sub-parser; `fn` is popped and only parameter entries are kept |
| ArgufyParser.Parser.Dispatch | argufy/parser.py:200-205 | calls the retrieved function with the retrieved keyword arguments, or passes on retrieval's exception |
| ArgufyParser.DispatchPassesOnlyParameters | argufy/parser.py:196-198 | the keyword arguments are parameters of the called function, never `fn`, with their parsed values |
| ArgufyParser.HelpWhenNothingGiven | argufy/parser.py:183-184 | with no explicit arguments and an empty command line, retrieval parses `--help` |
| ArgufierArgument.Inferred | argufier/argument.py:32-47 | the attribute dict fails exactly for an undeclared parameter with a short tuple hint, with `IndexError`; it has `name` exactly without a default and `flags` plus `default` exactly with one; `help` is present exactly when a docstring entry exists |
| ArgufierArgument.InferredFollowsAnnotation | argufier/argufier.py:47-63 | `nargs='*'` exactly for `list`; an action exactly for the `bool` class, negating the default; a declared annotation stored verbatim; otherwise type and choices from the docstring hint |
| ArgufierArgument.AnnotationShadowsHint | argufier/argufier.py:53-55 | with a declared annotation, only the docstring description matters |
| ArgufierArgument.RevisionsDiverge | argufier/argument.py:62-67 | on the same parameter, a `bool` class is a toggle here but not in the current revision, and `list` takes `*` values here but `+` there |
| ArgufierArgument.ExampleBoolArgument | tests/test_cli.py:11-44 | `bool_check: bool = False` becomes `--bool_check` with default `False`, `store_true`, type `bool` and its help |
| ArgufierArgument.ExampleChoiceArgument | tests/test_cli.py:23-55 | `choice_check: str = 'A'` becomes `--choice_check` with default `'A'`, type `str`, its help and no choices |
| ArgufierArgument.Argument.constructor | argufier/argument.py:34 | a new argument has an empty attribute dict |
| ArgufierArgument.Argument.Action | argufier/argument.py:55-60 | stores `store_false` when the stored default is truthy, else `store_true` |
| ArgufierArgument.Argument.Annotation | argufier/argument.py:62-67 | `nargs='*'` for `list`, then the action for `bool` |
| ArgufierArgument.Argument.Type | argufier/argument.py:69-80 | the new dict is `Typed` of the old one; on a one-element tuple hint, `type` is written before `IndexError` escapes |
| ArgufierArgument.Argument.Help | argufier/argument.py:82-85 | stores the description only when a docstring entry was given |
| ArgufierArgument.Argument.Initialize | argufier/argument.py:32-47 | `__init__` leaves exactly the dict `Inferred` describes, or raises its exception |
| ArgufierArgument.NewArgument | argufier/argufier.py:18-33 | constructing an `Argument` yields a fresh object holding `Inferred`, or the exception |
| ArgufierParser.MenuLinesAppend | argufier/parser.py:85-86 | appending one entry appends exactly its menu line |
| ArgufierParser.MenuRoundTrip | argufier/parser.py:85-86 | the menu lines of entries without a tab in the command and without a newline in the description read back to the same entries |
| ArgufierParser.MessageRoundTrip | argufier/argufier.py:111-122 | the whole message is the usage header followed by lines that read back to the given entries, in order |
| ArgufierParser.ArgumentsRaiseOnShortTuple | argufier/parser.py:120-126 | `add_arguments` raises exactly when some undeclared parameter has a tuple hint shorter than two elements, and then raises `IndexError` |
| ArgufierParser.SubcommandsStop | argufier/parser.py:112-118 | once a prefix of the members raises, later members add nothing |
| ArgufierParser.SubcommandsAreSelectedFunctions | argufier/parser.py:112-118 | every sub-parser belongs to a function of the module whose name lacks the prefix; with no exception, every such function has one; an exception comes from the last function given a sub-parser and is `IndexError` |
| ArgufierParser.SubcommandsTakeNoArguments | argufier/argufier.py:154-160 | no sub-parser gets any argument, and each has `fn` as a default |
| ArgufierParser.DispatchPassesEverythingButFn | argufier/argufier.py:162-166 | dispatch succeeds exactly when parsing leaves no token over and chose a function; it calls `fn` with every other entry; leftover tokens are `SystemExit(2)` |
| ArgufierParser.DispatchKeepsWhatRetrievalDrops | argufier/parser.py:128-132 | an entry naming no parameter is passed on here but dropped by the current revision |
| ArgufierParser.Parser.constructor | argufier/parser.py:40-73 | a new parser has no `subparsers` action |
| ArgufierParser.Parser.Message | argufier/parser.py:75-87 | the message is the dedented usage header followed by one `"  cmd\tdesc\n"` line per entry, in order |
| ArgufierParser.Parser.AddArguments | argufier/parser.py:120-126 | builds an `Argument` per parameter and raises exactly what `ArgumentsRaised` says; it modifies nothing, so nothing is registered |
| ArgufierParser.Parser.SubcommandsOf | argufier/argufier.py:146-152 | the loop makes exactly the sub-parsers `Subcommands` describes and raises its exception |
| ArgufierParser.Parser.AddSubcommands | argufier/parser.py:109-118 | the first call stores the sub-parsers; a second `add_subparsers` is a usage error (`SystemExit(2)`) that changes nothing |
| ArgufierParser.Parser.Dispatch | argufier/parser.py:128-132 | parses, pops `fn` and calls it with the rest, as `Dispatched` describes |

## Left out

- ArgufyParser.SignatureOptions and ArgufyParser.Registered do not model the calls `add_argument` (argufy/parser.py:122) itself rejects. Two defaulted parameters with the same first letter and no `-`, such as `verbose=False` and `version=False`, both get `-v` (argufy/argument.py:71-75), and argparse raises `ArgumentError` for the second. The model registers both.
- argparse itself is not modelled: tokenising, prefix matching, type conversion, help printing, the `-h` option and its conflicts, and duplicate sub-parser names. Parsing is a function parameter.
- The `SystemExit(2)` for a second `add_subparsers` call follows argparse's usage-error behaviour. Some Python versions raise `ArgumentError` there instead.
- The `ns`/`namespace` arguments of `retrieve` and `dispatch` are not modelled: parsing always starts from a fresh namespace.
- `inspect` reflection is taken as data: a module or class is its ordered list of members, a function its signature and parsed docstring. `getmembers` sorting is assumed to have happened already.
- `Parser.__init__` reads the caller's stack frame. That lookup, the description it fills in, and `version` are not modelled. The `Parser()` that `add_subcommands` creates inspects `argufy.parser` itself, which has no setting values, so it registers nothing.
- `eval` of docstring type names and `docstring_parser` are not modelled: a docstring entry carries the already evaluated hint, and a failed `eval` is not represented.
- `argufy/formatter.py` and `argufy/format.py` (help formatting) are not part of this model.
- `print` calls are left out, including the one in argufier/argufier.py's `dispatch`.
- `usage_message` and `check_menu` are left out. `usage_message` always fails, because the bare name `message` it calls (argufier/parser.py:100) does not exist. `check_menu` returns `None` when the menu has the command. When the command is unknown, it reaches a logger that is never created.
- The `const`, `dest` and `required` setters of argufy/argument.py are not modelled: nothing in the core calls them.
- `fn(**kwargs)` calls foreign code. Dispatch ends with an `Invocation` record of the call instead.
- Python floats are finite reals: NaN and infinities are not modelled.
- The older revision's `add_arguments` is modelled only as called by `add_subcommands`. Its result is never registered.
- ArgufyArgument.ToggleNegatesDefault: states the action that is stored, not that argparse accepts it. `__init__` always sets `metavar` (argufy/argument.py:54), and argparse's `add_argument` (argufy/parser.py:122) rejects `metavar` with `store_true`/`store_false` by raising `TypeError`. ArgufyParser.Registered does not model that rejection either.
- ArgufyArgument.Argument.SetDefault: with the empty sentinel, the field consistency it keeps is stated only when no stale `default` key is already in the dict.
- ArgufyParser.Parser.Retrieve: an `fn` entry that is not a `FunctionV` is reported as `TypeError`. Python raises at `inspect.signature` only for a value that cannot be called, and it calls any callable that has a signature, a class for instance. The exception such a call raises, such as a `ValueError` from `int`, is not modelled.
- Python.Upper: upper-cases ASCII letters only, not the full Unicode mapping of `str.upper`.
- ArgufierParser.MenuRoundTrip: stated only for entries without a tab in the command and without a newline in the description. Other entries make the menu ambiguous.
- ArgufierParser.MenuEntry: menu entries are records, so a missing `'cmd'` or `'desc'` key and the `str()` rendering of non-string values are not modelled.

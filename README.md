# EasyProgramming decorators, in Dafny

This project models the argument-resolution core of the EasyProgramming
Python package and proves properties of it. The package offers method
decorators that let one method body be called either on an instance or on
the class:

- **`flexmethod`** and its variants `nsinsert`, `nssync` and `staticsig`.
  On the class, the caller's arguments become a stand-in namespace
  ("nself") plus the function's own arguments. One of three parsers does
  the split:
  - the *dummy* parser takes the first argument as the namespace;
  - the *full-signature* parser treats the decorator's arguments as the
    complete static signature;
  - the *inject* parser puts the decorator's names in front of the
    function's own names.
  Names carrying the namespace prefix (`<first parameter>_`) are routed
  to the namespace and stripped. The namespace gets the marker
  `__static_from_flexmethod__`.
- **`untypedmethod`**: an older copy of the same engine, without the marker
  and without variable-argument collectors.
- **`untyped`** (the adaptive method): an instance call fills the
  method's parameters in a fixed order of precedence. A keyword argument
  wins, then the next positional argument, then an instance attribute
  chosen by a parameter-to-attribute map (none, a list, an inverted list
  or a dict), then the parameter's default. A parameter left unfilled
  raises TypeError.
- **`adjumerate`**: an `enumerate` whose count object is a mutable integer.
  The loop body may shift the count (`i -= 1`), while `raw` keeps the
  unadjusted position.
- **`MutableInteger`**: an integer cell with Python's integer operators.
- **`inspect_tools`**: reading required names, defaults and `**`
  collectors off a signature. The flexible method also imports
  `has_var_keyword` and `get_var_params` from it, which it does not
  define (see "## Findings"); the model gives both the meaning their uses
  need (`HasVarKeyword`, `GetVarParams`).

Values are modelled as a small Python value type (`PyValues.Value`).
Dicts are insertion-ordered association lists with Python's
`get`/`__setitem__`/`del`/`update` semantics. Exceptions are `Result`
errors carrying the exception class and the offending name.

A call to the decorated function is not executed. The model stops at the
`Invocation` the function would receive: its first argument (the
namespace or instance), its positional arguments and its keyword
arguments.

`FlexMethod.Classify`, `UntypedMethod.UntypedClassify` and
`AdaptiveMethod.FormatArgs` are the specification functions. The loop
methods (`InjectCall`, `FullCall`, `StripPrefixes`, `ArgFormatter`,
`CreateInjectSignature`, ...) are proved equal to them or to the
functions they are built from. `BuildPresets`, the loops of
`adaptive_method`'s preset step, is proved equal to
`AdaptiveMethod.Presets`. The properties are proved as lemmas about those
functions.

Where the package's documentation and its code differ, the model follows
the code:

- The collectors `*args`/`**kwargs` are kept among the required names
  (`get_positional_params` keeps them). The flexible method's synthesized
  signatures then name a collector twice, and `inspect.Signature` refuses
  them, so only the dummy parser can serve a function with a collector
  after its context. The inject parser's branch for a `**` collector
  (flexmethod.py:177-179) is modelled but is only reached by a parser
  built outside the decorator. The untyped decorator adds no collector
  entries and accepts such functions.
- `_param_mod` prefixes every name that lacks the prefix.
- The duplicate-name checks run only after a parser was built, so an
  IndexError or a default-name collision is reported first.
- Without parentheses, `nssync`/`staticsig` raise SyntaxError.

Four places where the code evidently does not do what was meant are
listed under "## Findings". The operations follow the code as written
there too: `UntypedMethod.Invoke` runs the untyped inject parser's
keyword chain as written, `AdaptiveMethod.BoundMethod` builds the
inverted-list presets as written, and `+=` on a `MutableInteger` raises
NameError. The intended behaviour is modelled beside each
(`UntypedStaticCallCorrected`, `AdaptiveCallCorrected`,
`MutableInteger.IAdd`), with lemmas that say exactly where the two
differ. The failing import is stated on its own
(`InspectTools.FlexImportFails`); the rest of the flexible method's model
takes `has_var_keyword` and `get_var_params` as defined.

## Model

| member | source | states |
|---|---|---|
| InspectTools.GetPositionalParams | src/easytools/inspect_tools.py:3-12 | a name is returned iff it is a parameter without a default, after the optional first one |
| InspectTools.GetDefaultKwargs | src/easytools/inspect_tools.py:14-24 | a (name, default) pair is returned iff that parameter carries that default |
| InspectTools.HasKwargs | src/easytools/inspect_tools.py:26-35 | true iff some parameter is a `**` collector (loop proved against the quantified statement) |
| InspectTools.GetVarParams | src/easytools/flexmethod.py:364 | `get_var_params` as the flexible method uses it: the `*` slot is empty iff there is no `*` collector; the `**` slot is filled iff there is a `**` collector |
| InspectTools.ImportFrom | src/easytools/flexmethod.py:4 | a `from ... import` succeeds iff the module defines every wanted name; otherwise ImportError names the first missing one |
| InspectTools.FlexImportFails | src/easytools/flexmethod.py:4 | as written, `inspect_tools` defines no `has_var_keyword`, so importing the flexible method raises ImportError naming it |
| InspectTools.UntypedImportSucceeds | src/easytools/untypedmethod.py:4 | every name the untyped decorator imports is defined |
| InspectTools.FlexImportCorrected | src/easytools/flexmethod.py:4 | with `has_var_keyword` and `get_var_params` defined beside the three functions, both import lines succeed |
| InspectTools.PositionalAndDefaultsPartition | src/easytools/inspect_tools.py:3-24 | the required names and the defaulted names together are exactly the signature's names, as multisets |
| InspectTools.RequiredNamesAppend | src/easytools/inspect_tools.py:8-12 | reading required names distributes over concatenated signatures |
| InspectTools.DefaultPairsAppend | src/easytools/inspect_tools.py:20-24 | reading defaults distributes over concatenated signatures |
| FlexParsers.FactsOf | src/easytools/flexmethod.py:362-364 | the facts read off a signature: required names iff no default, and the collectors |
| FlexParsers.ParamMod | src/easytools/flexmethod.py:50-53 | the result carries the prefix, an already-prefixed name is kept, and otherwise the prefix is prepended |
| FlexParsers.ParamModIdempotent | src/easytools/flexmethod.py:50-53 | prefixing twice is prefixing once |
| FlexParsers.ParamModStripRoundTrip | src/easytools/flexmethod.py:50-53 | stripping the prefix after `_param_mod` gives the unprefixed name back |
| FlexParsers.ParamModInjective | src/easytools/flexmethod.py:50-53 | distinct unprefixed names get distinct prefixed names |
| FlexParsers.PatternMatchFailure | src/easytools/flexmethod.py:342-349 | the error of a sole failing parser: TypeError for the full-signature parser (its message joins booleans), ValueError otherwise |
| FlexParsers.ConditionsOverlap | src/easytools/flexmethod.py:139-144 | an empty configuration meets the full condition as well as the dummy one only when the function requires no name, so the parser order decides between them |
| FlexConstruct.UnnamedDefaultSelectsInject | src/easytools/flexmethod.py:306-311 | a function default that the configuration does not name keeps the full-signature parser out: a non-empty configuration gets the inject parser, an empty one the dummy parser |
| FlexConstruct.SetParsers | src/easytools/flexmethod.py:505-544 | the parsers each variant tries; SyntaxError iff `nssync`/`staticsig` is used without parentheses; only a parenthesised `flexmethod` tries several |
| FlexConstruct.FirstMatch | src/easytools/flexmethod.py:373-381 | no parser is chosen iff none applies; otherwise the first that applies, with none applying before it |
| FlexConstruct.FirstCollision | src/easytools/flexmethod.py:124-125 | none iff no decorator default is also a function default; otherwise the first such name |
| FlexConstruct.ErrorCheck | src/easytools/flexmethod.py:121-136 | the inject parser raises ValueError naming the first default-name collision; the other parsers raise nothing |
| FlexConstruct.ParserOf | src/easytools/flexmethod.py:15-24 | IndexError iff the function has no required name; otherwise the first required name is the context, it gives the prefix `name_`, and the rest are the function's names |
| FlexConstruct.Checked | src/easytools/flexmethod.py:26-28 | ValueError iff `inspect.Signature` refuses the synthesized signature (dummy parsers keep the function's own) or the inject parser has a default-name collision; otherwise the parser unchanged |
| FlexConstruct.NewParser | src/easytools/flexmethod.py:15-28 | IndexError without a required name; a parser it returns is the one `ParserOf` describes, and its static signature is one `inspect.Signature` accepts |
| FlexConstruct.CollectorRejected | src/easytools/flexmethod.py:209-241 | a function with a `*` or `**` collector other than its context gets no inject or full-signature parser: the collector, kept among the required names, is named twice and construction raises ValueError |
| FlexConstruct.DuplicateCheck | src/easytools/flexmethod.py:401-418 | ValueError iff the configured positional and default names are not all distinct |
| FlexConstruct.FlexSelection | src/easytools/flexmethod.py:505-507 | a parenthesised `flexmethod` always picks exactly one parser: dummy iff the configuration is empty, full iff it covers every required name, inject otherwise |
| FlexConstruct.FlexConstructOutcome | src/easytools/flexmethod.py:358-418 | the outcome of building, in the order the errors are raised: IndexError, then ValueError for a static signature `inspect.Signature` refuses, then the inject collision, then duplicates, else the selected parser |
| FlexConstruct.SingleParserFailure | src/easytools/flexmethod.py:383-385 | a variant with one parser that does not apply fails with that parser's own error class |
| FlexSignatures.QualifiedNames | src/easytools/flexmethod.py:215-218 | each configured name through `_param_mod`, in order |
| FlexSignatures.FullNames | src/easytools/flexmethod.py:318-322 | a static name keeps its spelling when it is a function name, and is prefixed otherwise |
| FlexSignatures.CreateInjectSignature | src/easytools/flexmethod.py:209-241 | the loops build the synthesized inject signature |
| FlexSignatures.CreateFullSignature | src/easytools/flexmethod.py:313-340 | the loops build the synthesized full signature |
| FlexSignatures.InjectSignatureRequired | src/easytools/flexmethod.py:215-225 | the inject signature requires the prefixed configured names, then the function's names, then the `*` collector |
| FlexSignatures.InjectSignatureDefaults | src/easytools/flexmethod.py:228-235 | its defaults are the prefixed configured defaults followed by the function's own |
| FlexSignatures.InjectSignatureCollector | src/easytools/flexmethod.py:237-238 | it has a `**` collector iff the function has one |
| FlexSignatures.InjectSignatureRepeatsCollector | src/easytools/flexmethod.py:220-241 | a `*` or `**` collector is listed twice, because the required names already hold it, so `inspect.Signature` refuses the inject signature |
| FlexSignatures.FullSignatureRepeatsCollector | src/easytools/flexmethod.py:313-340 | a collector that is also a configured name appears twice in the full signature, so `inspect.Signature` refuses it |
| FlexSignatures.PlainSignatureValid | src/easytools/flexmethod.py:209-241 | without collectors, a synthesized signature with distinct names is one `inspect.Signature` accepts |
| FlexSignatures.FullSignatureNames | src/easytools/flexmethod.py:318-322 | every entry of the full signature is either prefixed or one of the function's names |
| FlexSignatures.DefaultsPlain | src/easytools/flexmethod.py:228-235 | reading defaults back from appended default parameters gives the dict that was appended |
| FlexClassify.ClassifyDummy | src/easytools/flexmethod.py:70-72 | IndexError iff there is no argument; otherwise the first argument is the context and the rest pass unchanged |
| FlexClassify.InjectCall | src/easytools/flexmethod.py:146-207 | the routing loops compute the inject classification |
| FlexClassify.InjectRouteProperties | src/easytools/flexmethod.py:161-196 | a function name goes to the function; a keyword is rejected iff no branch claims it; a prefixed keyword goes to the context under its stripped name |
| FlexClassify.InjectKeywordsFailure | src/easytools/flexmethod.py:181-196 | the call raises TypeError iff some keyword is claimed by no branch, and names the first one |
| FlexClassify.InjectResidualKeywords | src/easytools/flexmethod.py:160-179 | the keywords handed to the function are exactly those routed to it, in call order |
| FlexClassify.InjectContext | src/easytools/flexmethod.py:150-176 | the context holds, at each name, the last keyword written there, else the positional or default it started with |
| FlexClassify.InjectPositionalBinding | src/easytools/flexmethod.py:150-155 | the configured names are zipped with the leading positionals, the configured defaults are added, and the remaining positionals pass on |
| FlexClassify.FullCall | src/easytools/flexmethod.py:255-303 | the three loops compute the full-signature classification |
| FlexClassify.FullCountCheck | src/easytools/flexmethod.py:271-289 | IndexError when there are more positionals than static names; otherwise TypeError iff the number of keywords and leading positionals that land on a required parameter, repeats counted, differs from the number of required parameters (so a keyword and a positional on the same name can stand in for a missing one) |
| FlexClassify.FullResidual | src/easytools/flexmethod.py:258-303 | a successful call passes no positionals and only function names as keywords |
| FlexClassify.FullKeywordBinding | src/easytools/flexmethod.py:262-269 | a keyword not overwritten by a positional is bound in the function's keywords when it is a function name, and in the context otherwise |
| FlexClassify.FullPositionalBinding | src/easytools/flexmethod.py:271-281 | the i-th positional is bound under the i-th static name, in the function's keywords or the context |
| FlexClassify.FullDefaultBinding | src/easytools/flexmethod.py:291-296 | a configured default that was not supplied is filled in, on the function's side when it is a function default |
| FlexMethod.CollectPrefixed | src/easytools/flexmethod.py:445-448 | the loop collects the keys longer than the prefix that carry it, in order |
| FlexMethod.RenamePrefixed | src/easytools/flexmethod.py:450-452 | the loop performs the move-and-delete fold |
| FlexMethod.StripPrefixes | src/easytools/flexmethod.py:444-452 | both loops compute the prefix-stripping pass |
| FlexMethod.StripFoldGet | src/easytools/flexmethod.py:450-452 | the value at each name after the fold, absent collisions: the renamed entry's value, else the original |
| FlexMethod.StripRenames | src/easytools/flexmethod.py:444-452 | with no chain of prefixes, every entry survives under its stripped name and nothing else appears |
| FlexMethod.StripChain | src/easytools/flexmethod.py:450-452 | a doubly prefixed key overwrites its singly prefixed neighbour, and only one entry survives |
| FlexMethod.InstanceCall | src/easytools/flexmethod.py:429-435 | an instance call passes the instance with the marker False and the arguments unchanged |
| FlexMethod.StaticMarker | src/easytools/flexmethod.py:438-469 | a static call fails iff the parser fails or the context has no `__dict__`; on success the namespace carries the marker True |
| FlexMethod.DummyStaticCall | src/easytools/flexmethod.py:70-72 | a dict in first position reaches the function as an object holding every entry under its stripped name |
| FlexMethod.InjectScenario | src/easytools/flexmethod.py:146-207 | `@flexmethod('x', y=4)` on `op(ctx, a)`: the class call `op(x=1, a=2)` gives the function a namespace holding `y=4`, `x=1` and the marker, and the keyword `a=2` |
| FlexMethod.FullScenario | src/easytools/flexmethod.py:255-303 | `@flexmethod('a', 'b')` on `op(ctx, a, b)`, which the decorator base turns into the configuration `('b', 'a')` (decorator_bases.py moves the first decorator argument last): the class call `op(2, 1)` binds `b=2` and `a=1` as keywords and leaves only the marker in the namespace |
| FlexMethod.InitParser | src/easytools/flexmethod.py:15-28 | the constructor returns what `NewParser` describes: the prefix, the synthesized signature checked by `inspect.Signature`, then `error_check`; the signature is published |
| FlexMethod.ArgumentParsingDecorator.UserInit | src/easytools/flexmethod.py:358-398 | reports exactly the construction error; on success stores the built parser and its static signature; a parser built before a duplicate-name error stays, and a failed build leaves none |
| FlexMethod.ArgumentParsingDecorator.Wrapper | src/easytools/flexmethod.py:423-469 | the call is resolved as `Call` prescribes |
| FlexMethod.ArgumentParsingDecorator.Access | src/easytools/flexmethod.py:478-498 | an access followed by a call is resolved as `Resolve` prescribes |
| UntypedMethod.InjectCallAsWritten | src/easytools/untypedmethod.py:62-116 | the routing loop, with a prefixed keyword replacing the namespace by its key, computes the as-written classification |
| UntypedMethod.UntypedRouteAgrees | src/easytools/untypedmethod.py:77-110 | apart from the prefixed branch, the untyped routing agrees with the flexible one when the collectors are read consistently |
| UntypedMethod.AsWrittenWithoutPrefix | src/easytools/untypedmethod.py:77-110 | without a prefixed keyword, the as-written loop gives exactly the flexible classification |
| UntypedMethod.StoreIntoString | src/easytools/untypedmethod.py:81-86 | storing into a namespace that is no longer a dict raises TypeError |
| UntypedMethod.StoreAfterReplace | src/easytools/untypedmethod.py:83-92 | a prefixed keyword followed by a keyword stored in the namespace raises TypeError |
| UntypedMethod.ReplacedContext | src/easytools/untypedmethod.py:90-92 | after a prefixed keyword, a successful keyword pass hands on, as the namespace, the string of the last prefixed key outside the configuration, since each one rebinds it |
| UntypedMethod.ReplaceStays | src/easytools/untypedmethod.py:90-92 | once the namespace is a string, keywords that are not prefixed leave it that string |
| UntypedMethod.CorrectedPrefixStores | src/easytools/untypedmethod.py:90-92 | corrected: the namespace holds the value of a prefixed keyword under its stripped name |
| UntypedMethod.SelectionAgrees | src/easytools/untypedmethod.py:253-310 | the if/elif chain picks the same parser as the flexible method's ordered list |
| UntypedMethod.UntypedSignatureValid | src/easytools/untypedmethod.py:118-213 | an untyped signature is the flexible one without its collector entries, so it is valid whenever the flexible one is |
| UntypedMethod.BuildAgrees | src/easytools/untypedmethod.py:233-325 | the untyped handler builds the same parser, or raises the same error, as a parenthesised `flexmethod` for every function without collectors, and whenever the flexible method succeeds |
| UntypedMethod.BuildOutcome | src/easytools/untypedmethod.py:236-321 | the outcome, in the order the errors are raised: IndexError, then ValueError for an untyped signature `inspect.Signature` refuses, then the inject collision, then duplicates, else the selected parser |
| UntypedMethod.BareDecorator | src/easytools/untypedmethod.py:366-372 | used bare, the decorator configures nothing; it builds the dummy parser, or raises IndexError for a function with no required name |
| UntypedMethod.CreateUntypedInjectSignature | src/easytools/untypedmethod.py:118-143 | the loops build the untyped inject signature |
| UntypedMethod.CreateUntypedFullSignature | src/easytools/untypedmethod.py:195-213 | the loops build the untyped full signature |
| UntypedMethod.UntypedInjectSignatureRequired | src/easytools/untypedmethod.py:124-131 | its required names are the prefixed configured names followed by the function's names |
| UntypedMethod.UntypedInjectSignatureDefaults | src/easytools/untypedmethod.py:134-141 | its defaults are the prefixed configured defaults followed by the function's own |
| UntypedMethod.UntypedFullSignatureRead | src/easytools/untypedmethod.py:200-211 | the full signature's names and defaults are the configured ones, prefixed unless they belong to the function |
| UntypedMethod.UntypedSignaturesWithoutCollectors | src/easytools/untypedmethod.py:118-213 | no collectors are added; without collectors the untyped signatures equal the flexible ones |
| UntypedMethod.MarkerIsTheDifference | src/easytools/untypedmethod.py:333-355 | with the inject chain corrected, the untyped and flexible static paths share failures and arguments and differ only in the marker, except that only the untyped one accepts a context with no `__dict__` |
| UntypedMethod.AsWrittenCallWithoutPrefix | src/easytools/untypedmethod.py:83-95 | a class call with no prefixed keyword outside the configuration classifies and calls as written exactly as corrected, so the marker comparison holds of it as written |
| UntypedMethod.PrefixedKeyHandsOnString | src/easytools/untypedmethod.py:90-92 | as written, a class call meeting a prefixed keyword outside the configuration either raises TypeError or hands the function, in place of its namespace, the string of the last such key |
| UntypedMethod.AsWrittenErrors | src/easytools/untypedmethod.py:83-110 | every failure of the keyword chain as written is a TypeError |
| UntypedMethod.UntypedDummyCall | src/easytools/untypedmethod.py:33-35 | the dummy parser passes a non-dict first argument unchanged; a dict becomes an object holding its entries under their stripped names |
| UntypedMethod.HandlerFactory | src/easytools/untypedmethod.py:233-325 | the factory builds the handler: the parser and the static signature it publishes |
| UntypedMethod.Invoke | src/easytools/untypedmethod.py:328-364 | an instance access calls the plain bound method; a class access runs the parser's loops as written (the inject parser's chain replacing the namespace by a prefixed key) and then the wrapper's stripping loops |
| UntypedScenarios.PrefixedKeyReplacesContext | src/easytools/untypedmethod.py:90-92 | as written, decorating `op(ctx, a)` with `('x', y=4)` and calling `op(1, a=2, ctx_z=3)` on the class hands the function the string `ctx_z` as its namespace |
| UntypedScenarios.PrefixedKeyStored | src/easytools/untypedmethod.py:90-92 | corrected, the same call hands the function a namespace object holding `x=1`, `y=4` and `z=3` |
| UntypedScenarios.Scenario13 | src/test/test_untypedmethod.py:96-97 | `MyClass2.foo4(1, 2)`: the namespace holds `arg1=1` and the default `arg3=6`, and `arg2=2` is passed as a keyword |
| UntypedScenarios.Signature61 | src/test/test_untypedmethod.py:399-404 | the full-signature mode publishes `(nself_arg0, arg1=1)` |
| UntypedScenarios.Signature62 | src/test/test_untypedmethod.py:406-411 | the inject mode publishes `(nself_arg0, arg1)` |
| UntypedScenarios.Scenario16 | src/test/test_untypedmethod.py:112-116 | a full-signature call missing a required argument raises TypeError |
| UntypedScenarios.FlexRejectsCollector | src/easytools/flexmethod.py:220-241 | `flexmethod('x')` on `op(ctx, a, **kw)` raises ValueError: the inject signature names `kw` twice |
| UntypedScenarios.UntypedAcceptsCollector | src/easytools/untypedmethod.py:118-143 | `untypedmethod('x')` on the same function builds the inject parser, since its signature `(ctx_x, a, kw)` has no collector entry |
| UntypedScenarios.Scenario28 | src/test/test_untypedmethod.py:181-190 | a configured default that is also a function default raises ValueError naming it |
| UntypedScenarios.Scenario5 | src/test/test_untypedmethod.py:43-45 | a keyword with the wrong prefix raises TypeError |
| UntypedScenarios.Scenario1 | src/test/test_untypedmethod.py:26-28 | prefixed keywords reach the namespace stripped, and the function's keywords reach the function |
| Adjumerate.CountObject.constructor | src/EasyTools/adjumerate.py:38-40 | the logical count starts one below the start value, and the raw count starts at -1 |
| Adjumerate.Counter.Next | src/EasyTools/adjumerate.py:21-26 | the next item together with the shared count object; both counts advance by one; exhaustion leaves the state unchanged |
| Adjumerate.Counter.SetCount | src/EasyTools/adjumerate.py:32-34 | setting the count changes the logical count only |
| Adjumerate.Adjumerate | src/EasyTools/adjumerate.py:4-10 | iterating starts a fresh counter at the first item |
| Adjumerate.EnumerateUnadjusted | src/EasyTools/adjumerate.py:21-26 | with no adjustment, the k-th step sees raw k and count start+k |
| Mutables.FloorDivModIdentity | src/EasyTools/mutables.py:54-59 | Python's floor division and modulo satisfy `q*b + r == a`, with r taking the sign of b |
| Mutables.BitwiseIdentities | src/EasyTools/mutables.py:73-81 | the models of `&`, `\|` and `^` on unbounded two's complement: `a&b + a\|b == a+b` and `a\|b - a&b == a^b` |
| Mutables.IntHashProperties | src/EasyTools/mutables.py:161-162 | an int's hash is never -1, a small non-negative int hashes to itself, and non-negative ints one modulus (2**61-1) apart hash alike |
| Mutables.MutableInteger.Set | src/EasyTools/mutables.py:23-27 | an int is stored; anything else raises ValueError and leaves the value unchanged |
| Mutables.MutableInteger.IAddAsWritten | src/EasyTools/mutables.py:29-33 | as written, `+=` raises NameError for `other` and leaves the value unchanged |
| Mutables.MutableInteger.IAdd | src/EasyTools/mutables.py:29-33 | corrected: `+=` adds an int in place and returns the same object; anything else raises ValueError |
| Mutables.MutableInteger.ISub | src/EasyTools/mutables.py:35-39 | `-=` subtracts an int in place and returns the same object; anything else raises ValueError |
| Mutables.AddThenSubtract | src/EasyTools/mutables.py:29-39 | with `+=` corrected, adding any value to a cell and subtracting it again restores the cell's integer: both succeed on the same cell, or both refuse without a change |
| Mutables.CellDivision | src/EasyTools/mutables.py:54-101 | `//`, `%` and `pow` of the current value (`FloorDivBy`, `ModBy`, `RFloorDiv`, `RMod`, `PowerOf`, `PowerMod`), with the divisor on either side: ZeroDivisionError exactly for a zero divisor, otherwise `q*b + r == a` with the remainder on the divisor's side (`FloorDivModIdentity`); three-argument `pow` raises ValueError exactly for a zero modulus, lands in the modulus's range and agrees with `%` for the first power |
| Mutables.CellShifts | src/EasyTools/mutables.py:67-110 | `<<` and `>>` with the cell on either side (`LShift`, `RShift`, `RLShift`, `RRShift`) raise ValueError exactly for a negative count, and a left shift of the current value is undone by the right shift |
| Mutables.CellBitwise | src/EasyTools/mutables.py:73-158 | `&`, `\|`, `^` and `~` of the current value (`And`, `Or`, `Xor`, `Invert`) obey `a&b + a\|b == a+b`, `a\|b - a&b == a^b` (`BitwiseIdentities`), `~a == a ^ -1` and `a ^ a == 0` |
| Mutables.CellHash | src/EasyTools/mutables.py:161-162 | `Hash` is the hash of the current int: never -1, and a small non-negative value hashes to itself (`IntHashProperties`) |
| Mutables.HashAfterSubtract | src/EasyTools/mutables.py:161-162 | the hash is that of the current integer and moves with `-=`: between small non-negative values every non-zero step changes it |
| AdaptiveMethod.PresetsOverDefaults | src/easytools/adaptive_method.py:24-33 | before the placing loop a slot holds its parameter's preset if there is one, else its default, so it is filled exactly when one of the two exists |
| AdaptiveMethod.FirstMissing | src/easytools/adaptive_method.py:48-49 | the first unfilled slot, with all earlier slots filled; none iff all are filled |
| AdaptiveMethod.FormatArgs | src/easytools/adaptive_method.py:9-51 | missing iff some slot is unfilled, reporting the first one; otherwise one value per parameter, each the value of its slot |
| AdaptiveMethod.ArgFillKeepsEarlier | src/easytools/adaptive_method.py:36-45 | the placing loop from step `k` on never writes a slot it has already passed and never empties a filled slot |
| AdaptiveMethod.ArgFillSlot | src/easytools/adaptive_method.py:36-45 | each slot is filled by its keyword if one names it, else by the positional at the adjusted count, else it keeps what it held |
| AdaptiveMethod.SlotPrecedence | src/easytools/adaptive_method.py:9-45 | each parameter gets its keyword, else the next unconsumed positional, else the preset, else its default |
| AdaptiveMethod.KeywordsConsumed | src/easytools/adaptive_method.py:37-39 | keywords naming a parameter are removed, and all others are returned unchanged |
| AdaptiveMethod.SurplusPositionalsDropped | src/easytools/adaptive_method.py:42-45 | positionals beyond one per parameter are ignored without an error |
| AdaptiveMethod.PlaceArguments | src/easytools/adaptive_method.py:36-45 | the placing loop, stepping an `adjumerate` counter back on each keyword hit, fills the slots and consumes the keywords exactly as the slot-by-slot fill from the first parameter |
| AdaptiveMethod.ArgFormatter | src/easytools/adaptive_method.py:9-51 | the loop, driven by an `adjumerate` counter whose count steps back on a keyword hit, computes the formatted arguments |
| AdaptiveMethod.NoMapPresetsSpec | src/easytools/adaptive_method.py:77-80 | without a map, every parameter that is an attribute is preset from it |
| AdaptiveMethod.ListPresetsSpec | src/easytools/adaptive_method.py:83-89 | a list succeeds iff every listed name is a parameter and an attribute, and then presets exactly those; AttributeError otherwise |
| AdaptiveMethod.InversePresetsAsWrittenSpec | src/easytools/adaptive_method.py:90-98 | as written, an inverted list raises TypeError iff some unlisted parameter has no attribute, no keyword and no default |
| AdaptiveMethod.InversePresetsSpec | src/easytools/adaptive_method.py:90-98 | corrected: an inverted list presets exactly the unlisted parameters that are attributes |
| AdaptiveMethod.InverseCorrectionKeepsSuccess | src/easytools/adaptive_method.py:90-98 | the correction changes only the error: when the as-written code succeeds, both agree |
| AdaptiveMethod.PresetsCorrectionKeepsSuccess | src/easytools/adaptive_method.py:74-106 | where the presets as written are built the corrected ones are the same; they differ only where the inverted list as written raises TypeError |
| AdaptiveMethod.DictPresetsSpec | src/easytools/adaptive_method.py:102-106 | a dict succeeds iff every key is a parameter and every value an attribute, and then presets each key from its attribute; AttributeError otherwise |
| AdaptiveMethod.DictPresetsKeeps | src/easytools/adaptive_method.py:102-106 | names that are not keys of the map keep their earlier preset |
| AdaptiveMethod.BuildPresets | src/easytools/adaptive_method.py:74-106 | the loops compute the presets of every map kind, the inverted list as written: TypeError for an unlisted parameter with no attribute, keyword or default |
| AdaptiveMethod.BoundMethod | src/easytools/adaptive_method.py:68-119 | the bound method's outcome as written: the presets (with the TypeError of the inverted list), then formatting, TypeError naming the first unfilled parameter, otherwise the instance and the formatted arguments |
| AdaptiveMethod.CallCorrectionKeepsOutcome | src/easytools/adaptive_method.py:90-111 | the call with the inverted list corrected has the outcome of the call as written, except where that one raises the inverted list's TypeError |
| AdaptiveMethod.StaticAccess | src/easytools/adaptive_method.py:118-119 | on the class, the method gets None and the arguments unchanged |
| AdaptiveMethod.InstanceAccess | src/easytools/adaptive_method.py:70-115 | a successful instance call passes the instance, one argument per parameter by the precedence, and only the keywords naming no parameter |
| AdaptiveMethod.UnfilledParameterRaises | src/easytools/adaptive_method.py:109-111 | a parameter filled by no keyword, positional, preset or default makes the call raise TypeError |
| AdaptiveScenarios.FooPositional | src/test/test_adaptive_method.py:30 | `c.foo(5, 5)` passes `(5, 5)` |
| AdaptiveScenarios.FooKeyword | src/test/test_adaptive_method.py:32 | `c.foo(arg2=15)` passes `(1, 15)`: the mapped attribute fills `arg1` |
| AdaptiveScenarios.KeywordDoesNotConsumePositional | src/easytools/adaptive_method.py:36-45 | `c.foo(9, arg1=7)` passes `(7, 9)`: the positional moves on to `arg2` |
| AdaptiveScenarios.Foo2Positional | src/test/test_adaptive_method.py:31 | `c.foo2(5, 5)` passes `(5, 5)` |
| AdaptiveScenarios.Foo2Keyword | src/test/test_adaptive_method.py:33 | `c.foo2(attribute2=15)` passes `(1, 15)` |
| AdaptiveScenarios.Foo3Defaults | src/test/test_adaptive_method.py:36 | `c.foo3()` passes `(1, 13)`: an attribute, then a default |
| AdaptiveScenarios.Foo2WithoutAttributes | src/easytools/adaptive_method.py:83-89 | a listed attribute missing from the instance raises AttributeError naming it |
| AdaptiveScenarios.InverseRefusesPositional | src/easytools/adaptive_method.py:96-98 | as written, `foo2(3, 4)` with the inverted list `["attribute2"]` on an instance without attributes raises TypeError for `attribute1`, which the positional 3 would fill |
| AdaptiveScenarios.InversePositionalFills | src/easytools/adaptive_method.py:90-111 | corrected, `foo2(3, 4)` on an instance without attributes passes `(3, 4)` |
| AdaptiveScenarios.InverseUnfilledStillRaises | src/easytools/adaptive_method.py:109-111 | corrected, `foo2(3)` still raises TypeError, naming `attribute2` |

## Left out

- The decorator base class (`decorator_bases.py`) is not part of this model. Its descriptor plumbing and the `was_called_with_parentheses` flag are the parameters `parens` and `bare`. Used with parentheses, the base class receives the first decorator argument as `func` and appends it after the other arguments; a configuration's `staticParams` is the argument tuple after that move, so `@flexmethod('a', 'b')` is `Config(["b", "a"], [])`.
- UntypedMethod.BuildAgrees: the untyped decorator and the flexible method agree on every function without collectors and wherever the flexible method succeeds, not on every function: with a collector the flexible method raises ValueError where the untyped decorator builds a parser (`UntypedScenarios.UntypedAcceptsCollector`).
- `inspect.Signature` is modelled by `InspectTools.ValidSignature`: distinct names, kinds in Python's order, and no required positional parameter after one with a default. Its error message and its other checks (names that are not identifiers, annotations) are not modelled.
- Logging and the text of error messages are left out. Errors carry their class and the offending name, or an empty name where the message lists several.
- `unique_token.py` is not part of this model. The unfilled marker of `arg_formatter` is an empty `Option` slot.
- CountObject's `__setattr__` frame inspection is left out (it guards who may assign `raw`). Only `Counter.Next` changes `raw` in the model.
- MutableInteger's float, complex and true-division operators, `__round__`, `__divmod__`, `__repr__` and `__str__` are left out: floating point and formatting are outside the model.
- Mutables.MutableInteger.PowerMod, `PowerOf`: `**` and the three-argument `pow` are modelled for a non-negative exponent only; a negative one gives a float, or a modular inverse.
- Mutables.MutableInteger.Add, `Sub`, `Mul` and their reflections `RAdd`, `RSub`, `RMul` (mutables.py:42-92) are the int operation on the current value; no property beyond that is stated of them. The other operands are ints: a float, a bool or a foreign right operand is not modelled.
- Mutables.MutableInteger.Lt, `Le`, `Eq`, `Ne`, `Gt`, `Ge`, `Bool`, `Int` (mutables.py:12-13, 122-149, 170-171) are the int comparison, truth value or conversion of the current value; nothing further is stated of them.
- Mutables.MutableInteger.constructor: `__init__(self, value=0)` has a default and stores any value unchecked; the model takes an int argument only.
- MutableInteger's `__rpow__` is left out: a negative cell value makes `base ** value` a float.
- Mutables.MutableInteger.SetValue: the `value` setter stores `int(new_value)`, which truncates a float and parses a numeric string; the model takes an int only.
- Mutables.MutableInteger.Set: `set(True)` keeps the bool `True` in the cell, while the model stores the int 1 (the two compare and hash alike).
- `ArgAttrMapParser` and `flexmethod.parambind` are left out: both are empty placeholders in the code.
- `call_process` and `modify_meta` (which wrapper an access returns, and the published `__signature__`) and `@wraps` are left out. `Access`/`Invoke` model an access followed by a call.
- `SignatureModifiedFunction` in `untypedmethod.py` is left out: nothing in the core uses it.
- Aliasing is not modelled: the namespace dict a caller passes is mutated in place by the stripping pass, while the model returns a new value.
- An instance is modelled as its attribute dict, so `dir(instance)` sees instance attributes only. Class attributes and properties are not modelled.
- AdaptiveMethod.Presets: a map that is neither a list nor a dict is treated like no map only when it is falsy; other map types are not modelled.
- The decorated function's own body and return value are not modelled. Scenarios state the invocation the function receives, not its result (e.g. `c.foo(5, 5) == 10`).
- Integers are unbounded, as Python's are. `__hash__` models CPython's reduction modulo 2^61-1 for ints.

## Findings

| source | as written | input that shows it | evidently intended | confidence | as-written member | corrected member |
|---|---|---|---|---|---|---|
| src/easytools/untypedmethod.py:90-92 | a keyword carrying the namespace prefix replaces the whole namespace with the key string (`nmsp_dict = k`) | `@untypedmethod('x', y=4)` on `op(ctx, a)`, called on the class as `op(1, a=2, ctx_z=3)` | store the value in the namespace under the stripped name, as `flexmethod.py` does at lines 174-176 | high; not executed | UntypedScenarios.PrefixedKeyReplacesContext | UntypedScenarios.PrefixedKeyStored |
| src/easytools/adaptive_method.py:96-98 | with an inverted list, an unlisted parameter that is not an attribute raises TypeError unless it has a keyword or a default, even when a positional argument fills it | `@untyped(["attribute2"], inverse=True)` on `foo2(self, attribute1, attribute2)`, called as `foo2(3, 4)` on an instance without those attributes | raise only for a parameter filled by no attribute, default or argument, as the comment at line 95 says; `arg_formatter` already raises for those | medium; not executed | AdaptiveScenarios.InverseRefusesPositional | AdaptiveScenarios.InversePositionalFills |
| src/easytools/flexmethod.py:4 | imports `has_var_keyword` and `get_var_params` from `inspect_tools`, which defines neither, so importing the module raises ImportError | `import easytools.flexmethod` | define both in `inspect_tools`: `has_var_keyword` as `has_kwargs`, `get_var_params` returning the `*` and `**` collectors' names, as their uses at lines 177 and 364 need | high; not executed | InspectTools.FlexImportFails | InspectTools.FlexImportCorrected |
| src/EasyTools/mutables.py:29-33 | `__iadd__(self, value)` reads the unbound name `other`, so every `+=` raises NameError | `m = MutableInteger(1); m += 1` | add like `__isub__` does, with the parameter `value` | high; not executed | Mutables.MutableInteger.IAddAsWritten | Mutables.MutableInteger.IAdd |

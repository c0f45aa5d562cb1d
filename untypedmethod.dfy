/** The untyped-method decorator, the predecessor of the flexible method:
    the same three parsers chosen by a fixed `if`/`elif` when the
    decorator is applied, static signatures without collectors, and a
    static path that hands the function a plain dummy object. The keyword
    pass of its inject parser replaces the whole context by a prefixed key;
    that branch is modelled as written and then as evidently intended. */
module UntypedMethod {
  import opened PyValues
  import opened InspectTools
  import opened FlexParsers
  import opened FlexSignatures
  import opened FlexClassify
  import opened FlexConstruct
  import opened FlexMethod

  // ---------------------------------------------------------------------
  // The inject parser's keyword pass

  /** What one branch of the keyword chain of `SignatureInjectParser.__call__`
      does with keyword `k`, as written: pass it to the function, store it
      in the context under a name, replace the context by the key itself
      (a prefixed key the configuration does not name), or reject it. */
  datatype KeywordStep = Pass | Store(name: Name) | Replace | Unexpected

  /** The branch chain, in the order of its tests. The `**` test reads the
      function's own signature. */
  function StepAsWritten(p: Parser, k: Name): KeywordStep {
    if k in p.funcParams then Pass
    else if k in p.config.staticParams then Store(k)
    else if k in Keys(p.config.staticDefaults) then Store(k)
    else if k in Keys(p.funcDefaults) then Pass
    else if HasPrefix(k, p.prefix) then Replace
    else if HasVarKeyword(p.funcSignature) then Pass
    else Unexpected
  }

  /** The keyword pass as written. Once a prefixed key has replaced the
      context, the next store into it is an item assignment on a string,
      which Python refuses with a TypeError. */
  function KeywordsAsWritten(p: Parser, ctx: Value, nk: Dict, kws: Dict): Result<(Value, Dict)>
    decreases |kws|
  {
    if kws == [] then Ok((ctx, nk))
    else
      var (k, v) := kws[0];
      match StepAsWritten(p, k)
      case Pass => KeywordsAsWritten(p, ctx, Put(nk, k, v), kws[1..])
      case Store(n) =>
        if ctx.VDict? then KeywordsAsWritten(p, VDict(Put(ctx.entries, n, v)), nk, kws[1..])
        else Err(PyError(TypeError, "str"))
      case Replace => KeywordsAsWritten(p, VStr(k), nk, kws[1..])
      case Unexpected => Err(PyError(TypeError, k))
  }

  /** `SignatureInjectParser.__call__` as written: the positional half is
      the flexible method's, the keyword half the chain above. */
  function ClassifyInjectAsWritten(p: Parser, args: seq<Value>, kwargs: Dict): Result<Classified> {
    var (ctx0, rest) := InjectPositional(p, args);
    var routed :- KeywordsAsWritten(p, VDict(ctx0), [], kwargs);
    Ok(Classified(routed.0, rest, routed.1))
  }

  /** `SignatureInjectParser.__call__` as written, with its loop over the
      keywords. */
  method InjectCallAsWritten(p: Parser, args: seq<Value>, kwargs: Dict) returns (r: Result<Classified>)
    ensures r == ClassifyInjectAsWritten(p, args, kwargs)
  {
    var sp := p.config.staticParams;
    var idx := |sp|;
    var bound := FromPairs(Zip(sp, args[..Min(idx, |args|)]));
    UpdateLength([], Zip(sp, args[..Min(idx, |args|)]));
    idx := |bound|;
    var nmspDict: Value := VDict(Update(bound, p.config.staticDefaults));
    var newArgs := args[idx..];
    var newKwargs: Dict := [];
    ghost var ctx0 := nmspDict;
    for i := 0 to |kwargs|
      invariant KeywordsAsWritten(p, nmspDict, newKwargs, kwargs[i..]) == KeywordsAsWritten(p, ctx0, [], kwargs)
    {
      var (k, v) := kwargs[i];
      assert kwargs[i..][1..] == kwargs[i + 1..];
      if k in p.funcParams {
        newKwargs := Put(newKwargs, k, v);
      } else if k in sp || k in Keys(p.config.staticDefaults) {
        if !nmspDict.VDict? {
          return Err(PyError(TypeError, "str"));
        }
        nmspDict := VDict(Put(nmspDict.entries, k, v));
      } else if k in Keys(p.funcDefaults) {
        newKwargs := Put(newKwargs, k, v);
      } else if HasPrefix(k, p.prefix) {
        nmspDict := VStr(k);
      } else {
        var collects := HasKwargs(p.funcSignature);
        if collects {
          newKwargs := Put(newKwargs, k, v);
        } else {
          return Err(PyError(TypeError, k));
        }
      }
    }
    assert kwargs[|kwargs|..] == [];
    r := Ok(Classified(nmspDict, newArgs, newKwargs));
  }

  /** The chain as evidently intended: a prefixed key stores its value in
      the context under the name after the prefix, as the flexible
      method's chain does. */
  function UntypedRoute(p: Parser, k: Name): Route {
    match StepAsWritten(p, k)
    case Pass => ToFunc
    case Store(n) => ToContext(n)
    case Replace => ToContext(k[|p.prefix|..])
    case Unexpected => Reject
  }

  /** The parser's recorded `**` collector is the one its signature
      declares; every parser built from a signature satisfies this. */
  predicate ConsistentVars(p: Parser) {
    p.funcVars.1.Some? <==> HasVarKeyword(p.funcSignature)
  }

  /** A parser built from a signature records that signature's
      collectors. */
  lemma NewParserConsistent(kind: ParserKind, cfg: Config, sig: Signature)
    requires ParserOf(kind, cfg, sig).Ok?
    ensures ConsistentVars(ParserOf(kind, cfg, sig).value)
  {
  }

  /** The corrected untyped chain and the flexible method's chain send
      every keyword to the same place: the `**` test on the function's
      own signature and the one on the synthesized inject signature agree
      once the collectors are recorded. */
  lemma UntypedRouteAgrees(p: Parser, k: Name)
    requires ConsistentVars(p)
    ensures UntypedRoute(p, k) == InjectRoute(p, k)
  {
    InjectSignatureCollector(p);
  }

  /** The keyword pass of the flexible method, its context wrapped as a
      value. */
  function AsValue(r: Result<(Dict, Dict)>): Result<(Value, Dict)> {
    match r
    case Ok((ctx, nk)) => Ok((VDict(ctx), nk))
    case Err(e) => Err(e)
  }

  /** Without a keyword that takes the replacing branch, the pass as
      written and the intended one coincide. */
  lemma {:induction false} AsWrittenWithoutPrefix(p: Parser, ctx: Dict, nk: Dict, kws: Dict)
    requires ConsistentVars(p)
    requires forall i :: 0 <= i < |kws| ==> StepAsWritten(p, kws[i].0) != Replace
    ensures KeywordsAsWritten(p, VDict(ctx), nk, kws) == AsValue(InjectKeywords(p, ctx, nk, kws))
    decreases |kws|
  {
    if kws != [] {
      var (k, v) := kws[0];
      UntypedRouteAgrees(p, k);
      assert StepAsWritten(p, k) != Replace;
      assert forall i :: 0 <= i < |kws[1..]| ==> StepAsWritten(p, kws[1..][i].0) != Replace by {
        forall i | 0 <= i < |kws[1..]| ensures StepAsWritten(p, kws[1..][i].0) != Replace {
          assert kws[1..][i] == kws[i + 1];
        }
      }
      match StepAsWritten(p, k)
      case Pass => AsWrittenWithoutPrefix(p, ctx, Put(nk, k, v), kws[1..]);
      case Store(n) => AsWrittenWithoutPrefix(p, Put(ctx, n, v), nk, kws[1..]);
      case Unexpected =>
    }
  }

  /** Once the context is no longer a dict, a keyword the chain stores
      into it fails with a TypeError, and so does the pass. */
  lemma {:induction false} StoreIntoString(p: Parser, ctx: Value, nk: Dict, kws: Dict, j: nat)
    requires !ctx.VDict? && j < |kws| && StepAsWritten(p, kws[j].0).Store?
    ensures KeywordsAsWritten(p, ctx, nk, kws).Err?
    ensures KeywordsAsWritten(p, ctx, nk, kws).error.Kind() == TypeError
    decreases |kws|
  {
    var (k, v) := kws[0];
    if j > 0 {
      assert kws[1..][j - 1] == kws[j];
      match StepAsWritten(p, k)
      case Pass => StoreIntoString(p, ctx, Put(nk, k, v), kws[1..], j - 1);
      case Store(n) =>
      case Replace => StoreIntoString(p, VStr(k), nk, kws[1..], j - 1);
      case Unexpected =>
    }
  }

  /** As written, a prefixed key the configuration does not name followed
      by any keyword of the configuration makes the call fail with a
      TypeError. */
  lemma {:induction false} StoreAfterReplace(p: Parser, ctx: Value, nk: Dict, kws: Dict, i: nat, j: nat)
    requires i < j < |kws| && StepAsWritten(p, kws[i].0) == Replace && StepAsWritten(p, kws[j].0).Store?
    ensures KeywordsAsWritten(p, ctx, nk, kws).Err?
    ensures KeywordsAsWritten(p, ctx, nk, kws).error.Kind() == TypeError
    decreases |kws|
  {
    var (k, v) := kws[0];
    assert kws[1..][j - 1] == kws[j];
    if i == 0 {
      StoreIntoString(p, VStr(k), nk, kws[1..], j - 1);
    } else {
      assert kws[1..][i - 1] == kws[i];
      match StepAsWritten(p, k)
      case Pass => StoreAfterReplace(p, ctx, Put(nk, k, v), kws[1..], i - 1, j - 1);
      case Store(n) =>
        if ctx.VDict? {
          StoreAfterReplace(p, VDict(Put(ctx.entries, n, v)), nk, kws[1..], i - 1, j - 1);
        }
      case Replace => StoreAfterReplace(p, VStr(k), nk, kws[1..], i - 1, j - 1);
      case Unexpected =>
    }
  }

  /** As written, a successful pass that met a prefixed key the
      configuration does not name hands on, as the context, the string of
      the last such key: each one rebinds the namespace in turn. */
  lemma {:induction false} ReplacedContext(p: Parser, ctx: Value, nk: Dict, kws: Dict, i: nat)
    requires i < |kws| && StepAsWritten(p, kws[i].0) == Replace
    requires forall m :: i < m < |kws| ==> StepAsWritten(p, kws[m].0) != Replace
    requires KeywordsAsWritten(p, ctx, nk, kws).Ok?
    ensures var c := KeywordsAsWritten(p, ctx, nk, kws).value.0;
      c == VStr(kws[i].0) && c.s in Keys(kws) && StepAsWritten(p, c.s) == Replace
    decreases |kws|
  {
    var (k, v) := kws[0];
    var rest := kws[1..];
    assert Keys(kws) == [k] + Keys(rest);
    if i > 0 {
      assert rest[i - 1] == kws[i];
      assert forall m :: i - 1 < m < |rest| ==> StepAsWritten(p, rest[m].0) != Replace by {
        forall m | i - 1 < m < |rest| ensures StepAsWritten(p, rest[m].0) != Replace {
          assert rest[m] == kws[m + 1];
        }
      }
      match StepAsWritten(p, k)
      case Pass => ReplacedContext(p, ctx, Put(nk, k, v), rest, i - 1);
      case Store(n) => ReplacedContext(p, VDict(Put(ctx.entries, n, v)), nk, rest, i - 1);
      case Replace => ReplacedContext(p, VStr(k), nk, rest, i - 1);
    } else {
      assert forall m :: 0 <= m < |rest| ==> StepAsWritten(p, rest[m].0) != Replace by {
        forall m | 0 <= m < |rest| ensures StepAsWritten(p, rest[m].0) != Replace {
          assert rest[m] == kws[m + 1];
        }
      }
      ReplaceStays(p, k, nk, rest);
    }
  }

  /** Among the prefixed keys the configuration does not name, there is a
      last one. */
  lemma {:induction false} LastReplace(p: Parser, kws: Dict, i: nat) returns (j: nat)
    requires i < |kws| && StepAsWritten(p, kws[i].0) == Replace
    ensures i <= j < |kws| && StepAsWritten(p, kws[j].0) == Replace
    ensures forall m :: j < m < |kws| ==> StepAsWritten(p, kws[m].0) != Replace
    decreases |kws| - i
  {
    if m :| i < m < |kws| && StepAsWritten(p, kws[m].0) == Replace {
      j := LastReplace(p, kws, m);
    } else {
      j := i;
    }
  }

  /** After the context became key `s`, a pass with no further prefixed
      key keeps it, or fails. */
  lemma {:induction false} ReplaceStays(p: Parser, s: Name, nk: Dict, kws: Dict)
    requires forall m :: 0 <= m < |kws| ==> StepAsWritten(p, kws[m].0) != Replace
    requires KeywordsAsWritten(p, VStr(s), nk, kws).Ok?
    ensures KeywordsAsWritten(p, VStr(s), nk, kws).value.0 == VStr(s)
    decreases |kws|
  {
    if kws != [] {
      var (k, v) := kws[0];
      assert forall m :: 0 <= m < |kws[1..]| ==> StepAsWritten(p, kws[1..][m].0) != Replace by {
        forall m | 0 <= m < |kws[1..]| ensures StepAsWritten(p, kws[1..][m].0) != Replace {
          assert kws[1..][m] == kws[m + 1];
        }
      }
      assert StepAsWritten(p, kws[0].0) != Replace;
      if StepAsWritten(p, k) == Pass {
        ReplaceStays(p, s, Put(nk, k, v), kws[1..]);
      }
    }
  }

  /** No keyword routed to context name `n`: no value written there. */
  lemma {:induction false} NoContextWrite(p: Parser, kws: Dict, n: Name)
    requires forall i :: 0 <= i < |kws| ==> InjectRoute(p, kws[i].0) != ToContext(n)
    ensures LastContextWrite(p, kws, n) == None
    decreases |kws|
  {
    if kws != [] {
      assert forall i :: 0 <= i < |kws[1..]| ==> InjectRoute(p, kws[1..][i].0) != ToContext(n) by {
        forall i | 0 <= i < |kws[1..]| ensures InjectRoute(p, kws[1..][i].0) != ToContext(n) {
          assert kws[1..][i] == kws[i + 1];
        }
      }
      NoContextWrite(p, kws[1..], n);
      assert InjectRoute(p, kws[0].0) != ToContext(n);
    }
  }

  /** The last keyword routed to context name `n` gives its value. */
  lemma {:induction false} LastWriteAt(p: Parser, kws: Dict, j: nat, n: Name)
    requires j < |kws| && InjectRoute(p, kws[j].0) == ToContext(n)
    requires forall i :: j < i < |kws| ==> InjectRoute(p, kws[i].0) != ToContext(n)
    ensures LastContextWrite(p, kws, n) == Some(kws[j].1)
    decreases |kws|
  {
    if j == 0 {
      assert forall i :: 0 <= i < |kws[1..]| ==> InjectRoute(p, kws[1..][i].0) != ToContext(n) by {
        forall i | 0 <= i < |kws[1..]| ensures InjectRoute(p, kws[1..][i].0) != ToContext(n) {
          assert kws[1..][i] == kws[i + 1];
        }
      }
      NoContextWrite(p, kws[1..], n);
    } else {
      assert kws[1..][j - 1] == kws[j];
      assert forall i :: j - 1 < i < |kws[1..]| ==> InjectRoute(p, kws[1..][i].0) != ToContext(n) by {
        forall i | j - 1 < i < |kws[1..]| ensures InjectRoute(p, kws[1..][i].0) != ToContext(n) {
          assert kws[1..][i] == kws[i + 1];
        }
      }
      LastWriteAt(p, kws[1..], j - 1, n);
    }
  }

  /** The corrected chain at work: a prefixed key the configuration does
      not name, with no later keyword for the same context name, leaves
      its value in the context under the name after the prefix. */
  lemma CorrectedPrefixStores(p: Parser, args: seq<Value>, kwargs: Dict, j: nat)
    requires ConsistentVars(p)
    requires j < |kwargs| && StepAsWritten(p, kwargs[j].0) == Replace
    requires forall i :: j < i < |kwargs| ==> UntypedRoute(p, kwargs[i].0) != UntypedRoute(p, kwargs[j].0)
    requires ClassifyInject(p, args, kwargs).Ok?
    ensures Get(ContextOf(ClassifyInject(p, args, kwargs).value), kwargs[j].0[|p.prefix|..]) == Some(kwargs[j].1)
  {
    var n := kwargs[j].0[|p.prefix|..];
    UntypedRouteAgrees(p, kwargs[j].0);
    forall i | j < i < |kwargs| ensures InjectRoute(p, kwargs[i].0) != ToContext(n) {
      UntypedRouteAgrees(p, kwargs[i].0);
    }
    LastWriteAt(p, kwargs, j, n);
    var (ctx0, rest) := InjectPositional(p, args);
    InjectContext(p, ctx0, [], kwargs, n);
  }

  // ---------------------------------------------------------------------
  // Building the handler

  /** The `if`/`elif` of `HandlerFactory.__init__`: the dummy parser for
      an empty configuration, the full-signature parser when the
      configuration covers every name the function needs, the inject
      parser otherwise. */
  function SelectKind(cfg: Config, facts: FuncFacts): ParserKind {
    if |ImplementedKeys(cfg)| == 0 then Dummy
    else if FullCondition(cfg, facts) then FullSignature
    else SignatureInject
  }

  /** The fixed `if`/`elif` picks what the flexible method's first-match
      search over its three parsers picks. */
  lemma SelectionAgrees(cfg: Config, facts: FuncFacts)
    ensures FirstMatch([Dummy, FullSignature, SignatureInject], cfg, facts) == Some(SelectKind(cfg, facts))
  {
    FlexSelection(cfg, facts);
  }

  /** `HandlerFactory.__init__`: the prefix (IndexError for a function
      without a required name), the selected parser with the validation
      of its untyped static signature and the inject parser's collision
      check, then the duplicate checks. */
  function Build(cfg: Config, sig: Signature): Result<Parser> {
    var p0 :- ParserOf(SelectKind(cfg, FactsOf(sig)), cfg, sig);
    var p :- Checked(p0, UntypedStaticSignature(p0));
    match DuplicateCheck(cfg)
    case Some(e) => Err(e)
    case None => Ok(p)
  }

  /** The untyped signatures leave the collector entries out of the
      flexible method's, so whatever `inspect.Signature` accepts from the
      flexible method it accepts from the untyped decorator too. */
  lemma UntypedSignatureValid(p: Parser)
    requires ValidSignature(StaticSignature(p))
    ensures ValidSignature(UntypedStaticSignature(p))
  {
    match p.kind
    case Dummy =>
    case SignatureInject =>
      var a := PlainParams(QualifiedNames(p.prefix, p.config.staticParams));
      var b := PlainParams(p.funcParams);
      var c := Collector(p.funcVars.0, VarPositional);
      var d := PlainDefaults(QualifiedDefaults(p.prefix, p.config.staticDefaults));
      var e := PlainDefaults(p.funcDefaults);
      var f := Collector(p.funcVars.1, VarKeyword);
      assert InjectSignature(p) == (a + b) + c + (d + e + f);
      ValidWithout(a + b, c, d + e + f);
      assert (a + b) + (d + e + f) == (a + b + d + e) + f + [];
      ValidWithout(a + b + d + e, f, []);
      assert (a + b + d + e) + [] == UntypedInjectSignature(p);
    case FullSignature =>
      var a := PlainParams(FullNames(p, p.config.staticParams));
      var c := Collector(p.funcVars.0, VarPositional);
      var d := PlainDefaults(FullDefaults(p, p.config.staticDefaults));
      var f := Collector(p.funcVars.1, VarKeyword);
      assert FullStaticSignature(p) == a + c + (d + f);
      ValidWithout(a, c, d + f);
      assert a + (d + f) == (a + d) + f + [];
      ValidWithout(a + d, f, []);
      assert (a + d) + [] == UntypedFullSignature(p);
  }

  /** The untyped decorator builds exactly the parser a parenthesised
      flexible method builds, with the same errors, for every function
      without collectors, and whenever the flexible method succeeds. It
      may succeed where the flexible method fails: its signatures have
      no collector entry to repeat a name. */
  lemma BuildAgrees(cfg: Config, sig: Signature)
    ensures FactsOf(sig).vars == (None, None) ==> Build(cfg, sig) == Construct(Flex, true, cfg, sig)
    ensures Construct(Flex, true, cfg, sig).Ok? ==> Build(cfg, sig) == Construct(Flex, true, cfg, sig)
  {
    var facts := FactsOf(sig);
    SelectionAgrees(cfg, facts);
    var kind := SelectKind(cfg, facts);
    assert BuildParser(Flex, true, cfg, sig) == NewParser(kind, cfg, sig);
    if facts.params != [] {
      var p := ParserOf(kind, cfg, sig).value;
      UntypedSignaturesWithoutCollectors(p);
      if ValidSignature(StaticSignature(p)) {
        UntypedSignatureValid(p);
      }
    }
  }

  /** The outcome of building, in the order the errors are raised:
      IndexError for a function without a required name, then ValueError
      for an untyped static signature that `inspect.Signature` refuses,
      then the inject parser's default-name collision, then duplicate
      configuration names; otherwise the selected parser. */
  lemma BuildOutcome(cfg: Config, sig: Signature)
    ensures var facts := FactsOf(sig);
      var r := Build(cfg, sig);
      var kind := SelectKind(cfg, facts);
      var collision := FirstCollision(cfg.staticDefaults, facts.defaults);
      if facts.params == [] then r == Err(PyError(IndexError, ""))
      else if kind != Dummy && !ValidSignature(UntypedStaticSignature(ParserOf(kind, cfg, sig).value)) then r == Err(PyError(ValueError, ""))
      else if kind == SignatureInject && collision.Some? then r == Err(PyError(ValueError, collision.value))
      else if !NoDup(ImplementedKeys(cfg)) then r == Err(PyError(ValueError, ""))
      else r.Ok? && r.value.kind == kind && ConsistentVars(r.value)
  {
    var facts := FactsOf(sig);
    if facts.params != [] {
      var kind := SelectKind(cfg, facts);
      NewParserConsistent(kind, cfg, sig);
      var p := ParserOf(kind, cfg, sig).value;
      assert p.kind == kind && p.config == cfg && p.funcDefaults == facts.defaults;
      assert Build(cfg, sig) == (
        var c := Checked(p, UntypedStaticSignature(p));
        if c.Err? then c else match DuplicateCheck(cfg) case Some(e) => Err(e) case None => c);
    }
  }

  /** `untypedmethod(...)`: used bare, the decorator configures nothing;
      with parentheses, its positional arguments are the static names and
      its keyword arguments the static defaults. */
  function Decorate(bare: bool, cfg: Config, sig: Signature): Result<Parser> {
    Build(if bare then Config([], []) else cfg, sig)
  }

  /** Used bare, the decorator builds the dummy parser for any function
      with a required name, and fails with IndexError otherwise; the same
      holds with empty parentheses. */
  lemma BareDecorator(cfg: Config, sig: Signature)
    ensures Decorate(true, cfg, sig) == Decorate(false, Config([], []), sig)
    ensures Decorate(true, cfg, sig).Ok? <==> FactsOf(sig).params != []
    ensures Decorate(true, cfg, sig).Ok? ==> Decorate(true, cfg, sig).value.kind == Dummy
    ensures Decorate(true, cfg, sig).Err? ==> Decorate(true, cfg, sig).error == PyError(IndexError, "")
  {
    BuildOutcome(Config([], []), sig);
    assert ImplementedKeys(Config([], [])) == [];
  }

  // ---------------------------------------------------------------------
  // Static signatures

  /** `SignatureInjectParser.create_static_signature`: qualified static
      names, the function's required names, qualified static defaults,
      the function's defaults; no collector entry. */
  function UntypedInjectSignature(p: Parser): Signature {
    PlainParams(QualifiedNames(p.prefix, p.config.staticParams))
    + PlainParams(p.funcParams)
    + PlainDefaults(QualifiedDefaults(p.prefix, p.config.staticDefaults))
    + PlainDefaults(p.funcDefaults)
  }

  /** `FullSignatureParser.create_static_signature`: the configuration in
      its own order, names of function parameters kept and the others
      qualified; no collector entry. */
  function UntypedFullSignature(p: Parser): Signature {
    PlainParams(FullNames(p, p.config.staticParams))
    + PlainDefaults(FullDefaults(p, p.config.staticDefaults))
  }

  /** The static signature each parser stores; the dummy parser's is the
      function's own. */
  function UntypedStaticSignature(p: Parser): Signature {
    match p.kind
    case Dummy => p.funcSignature
    case FullSignature => UntypedFullSignature(p)
    case SignatureInject => UntypedInjectSignature(p)
  }

  /** `SignatureInjectParser.create_static_signature` with its four loops. */
  method CreateUntypedInjectSignature(p: Parser) returns (parameters: Signature)
    ensures parameters == UntypedInjectSignature(p)
  {
    parameters := AppendQualified([], p.prefix, p.config.staticParams);
    parameters := AppendPlain(parameters, p.funcParams);
    parameters := AppendQualifiedDefaults(parameters, p.prefix, p.config.staticDefaults);
    parameters := AppendPlainDefaults(parameters, p.funcDefaults);
  }

  /** `FullSignatureParser.create_static_signature` with its two loops. */
  method CreateUntypedFullSignature(p: Parser) returns (parameters: Signature)
    ensures parameters == UntypedFullSignature(p)
  {
    parameters := AppendFullNames([], p, p.config.staticParams);
    parameters := AppendFullDefaults(parameters, p, p.config.staticDefaults);
  }

  /** Reading the untyped inject signature back with the introspector
      gives the qualified static names and the function's required names
      as its required names. */
  lemma {:induction false} UntypedInjectSignatureRequired(p: Parser)
    ensures RequiredNames(UntypedInjectSignature(p)) == QualifiedNames(p.prefix, p.config.staticParams) + p.funcParams
  {
    var a := PlainParams(QualifiedNames(p.prefix, p.config.staticParams));
    var b := PlainParams(p.funcParams);
    var d := PlainDefaults(QualifiedDefaults(p.prefix, p.config.staticDefaults));
    var e := PlainDefaults(p.funcDefaults);
    RequiredPlain(QualifiedNames(p.prefix, p.config.staticParams));
    RequiredPlain(p.funcParams);
    RequiredOfDefaults(QualifiedDefaults(p.prefix, p.config.staticDefaults));
    RequiredOfDefaults(p.funcDefaults);
    RequiredNamesAppend(a, b);
    RequiredNamesAppend(a + b, d);
    RequiredNamesAppend(a + b + d, e);
  }

  /** Reading it back gives the qualified static defaults followed by the
      function's own defaults as its defaults. */
  lemma {:induction false} UntypedInjectSignatureDefaults(p: Parser)
    ensures DefaultPairs(UntypedInjectSignature(p)) == QualifiedDefaults(p.prefix, p.config.staticDefaults) + p.funcDefaults
  {
    var a := PlainParams(QualifiedNames(p.prefix, p.config.staticParams));
    var b := PlainParams(p.funcParams);
    var d := PlainDefaults(QualifiedDefaults(p.prefix, p.config.staticDefaults));
    var e := PlainDefaults(p.funcDefaults);
    assert UntypedInjectSignature(p) == a + (b + (d + e));
    DefaultsOfPlain(QualifiedNames(p.prefix, p.config.staticParams));
    DefaultsOfPlain(p.funcParams);
    DefaultsPlain(QualifiedDefaults(p.prefix, p.config.staticDefaults));
    DefaultsPlain(p.funcDefaults);
    DefaultPairsAppend(d, e);
    DefaultPairsAppend(b, d + e);
    DefaultPairsAppend(a, b + (d + e));
  }

  /** Reading the untyped full signature back gives the static names and
      the static defaults, each as the full-signature strategy exposes
      it. */
  lemma UntypedFullSignatureRead(p: Parser)
    ensures RequiredNames(UntypedFullSignature(p)) == FullNames(p, p.config.staticParams)
    ensures DefaultPairs(UntypedFullSignature(p)) == FullDefaults(p, p.config.staticDefaults)
  {
    var a := PlainParams(FullNames(p, p.config.staticParams));
    var d := PlainDefaults(FullDefaults(p, p.config.staticDefaults));
    RequiredPlain(FullNames(p, p.config.staticParams));
    RequiredOfDefaults(FullDefaults(p, p.config.staticDefaults));
    RequiredNamesAppend(a, d);
    DefaultsOfPlain(FullNames(p, p.config.staticParams));
    DefaultsPlain(FullDefaults(p, p.config.staticDefaults));
    DefaultPairsAppend(a, d);
  }

  /** The synthesized untyped signatures hold positional-or-keyword
      entries only, and for a function without collectors they are the
      flexible method's signatures. */
  lemma UntypedSignaturesWithoutCollectors(p: Parser)
    ensures forall i :: 0 <= i < |UntypedInjectSignature(p)| ==> UntypedInjectSignature(p)[i].kind == PositionalOrKeyword
    ensures forall i :: 0 <= i < |UntypedFullSignature(p)| ==> UntypedFullSignature(p)[i].kind == PositionalOrKeyword
    ensures p.funcVars == (None, None) ==> UntypedInjectSignature(p) == InjectSignature(p)
    ensures p.funcVars == (None, None) ==> UntypedFullSignature(p) == FullStaticSignature(p)
  {
  }

  // ---------------------------------------------------------------------
  // The call

  /** The untyped parser's `__call__`: the dummy and full-signature
      parsers are the flexible method's, and the inject parser runs its
      keyword chain as written. */
  function UntypedClassify(p: Parser, args: seq<Value>, kwargs: Dict): Result<Classified> {
    match p.kind
    case SignatureInject => ClassifyInjectAsWritten(p, args, kwargs)
    case _ => Classify(p, args, kwargs)
  }

  /** `wrapper` on the static path once the parser has classified the
      call: a dict context is stripped of its prefixes and becomes the
      attributes of a fresh dummy object without any marker; any other
      context is handed to the function as it is. */
  function Wrap(p: Parser, c: Result<Classified>): Result<Invocation> {
    var cl :- c;
    match cl.ctx
    case VDict(d) => Ok(Invocation(VObj(StripPrefixed(p.prefix, d)), cl.args, cl.kwargs))
    case _ => Ok(Invocation(cl.ctx, cl.args, cl.kwargs))
  }

  /** `wrapper` on the static path, as written. */
  function UntypedStaticCall(p: Parser, args: seq<Value>, kwargs: Dict): Result<Invocation> {
    Wrap(p, UntypedClassify(p, args, kwargs))
  }

  /** `wrapper` on the static path with the inject parser's chain as
      evidently intended, which is the flexible method's. */
  function UntypedStaticCallCorrected(p: Parser, args: seq<Value>, kwargs: Dict): Result<Invocation> {
    Wrap(p, Classify(p, args, kwargs))
  }

  /** `__get__` followed by a call: on an instance, the plain bound method
      of the function; on the class, the wrapper. */
  function UntypedCall(p: Parser, instance: Option<Dict>, args: seq<Value>, kwargs: Dict): Result<Invocation> {
    if instance.Some? then Ok(Invocation(VObj(instance.value), args, kwargs))
    else UntypedStaticCall(p, args, kwargs)
  }

  /** The correction matters only for a prefixed key the configuration does
      not name: without one, the static path as written and the corrected
      one classify and call alike. */
  lemma AsWrittenCallWithoutPrefix(p: Parser, args: seq<Value>, kwargs: Dict)
    requires ConsistentVars(p)
    requires forall i :: 0 <= i < |kwargs| ==> StepAsWritten(p, kwargs[i].0) != Replace
    ensures UntypedClassify(p, args, kwargs) == Classify(p, args, kwargs)
    ensures UntypedStaticCall(p, args, kwargs) == UntypedStaticCallCorrected(p, args, kwargs)
  {
    if p.kind == SignatureInject {
      var (ctx0, rest) := InjectPositional(p, args);
      AsWrittenWithoutPrefix(p, ctx0, [], kwargs);
    }
  }

  /** As written, a class call of the inject parser that meets a prefixed
      key the configuration does not name either fails with a TypeError or
      hands the function, in place of the namespace object, the string of
      the last such key. */
  lemma PrefixedKeyHandsOnString(p: Parser, args: seq<Value>, kwargs: Dict, i: nat)
    requires p.kind == SignatureInject
    requires i < |kwargs| && StepAsWritten(p, kwargs[i].0) == Replace
    ensures var r := UntypedStaticCall(p, args, kwargs);
      (r.Ok? ==> r.value.self.VStr? && r.value.self.s in Keys(kwargs) && StepAsWritten(p, r.value.self.s) == Replace)
      && (r.Ok? ==> exists j :: i <= j < |kwargs| && r.value.self == VStr(kwargs[j].0)
                     && forall m :: j < m < |kwargs| ==> StepAsWritten(p, kwargs[m].0) != Replace)
      && (r.Err? ==> r.error.Kind() == TypeError)
  {
    var (ctx0, rest) := InjectPositional(p, args);
    if KeywordsAsWritten(p, VDict(ctx0), [], kwargs).Ok? {
      var j := LastReplace(p, kwargs, i);
      ReplacedContext(p, VDict(ctx0), [], kwargs, j);
    } else {
      AsWrittenErrors(p, VDict(ctx0), [], kwargs);
    }
  }

  /** Every failure of the keyword pass as written is a TypeError. */
  lemma {:induction false} AsWrittenErrors(p: Parser, ctx: Value, nk: Dict, kws: Dict)
    requires KeywordsAsWritten(p, ctx, nk, kws).Err?
    ensures KeywordsAsWritten(p, ctx, nk, kws).error.Kind() == TypeError
    decreases |kws|
  {
    var (k, v) := kws[0];
    match StepAsWritten(p, k)
    case Pass => AsWrittenErrors(p, ctx, Put(nk, k, v), kws[1..]);
    case Store(n) =>
      if ctx.VDict? {
        AsWrittenErrors(p, VDict(Put(ctx.entries, n, v)), nk, kws[1..]);
      }
    case Replace => AsWrittenErrors(p, VStr(k), nk, kws[1..]);
    case Unexpected =>
  }

  /** The corrected static path of the untyped decorator and the flexible
      method's differ only in the marker: the same failures, the same
      arguments, and where the untyped one hands on an object the flexible
      one hands on the same object with the marker True; a context that is
      neither a dict nor an object only the untyped one accepts. As
      written, the same holds of calls without a prefixed key the
      configuration does not name (`AsWrittenCallWithoutPrefix`). */
  lemma MarkerIsTheDifference(p: Parser, args: seq<Value>, kwargs: Dict)
    ensures var u := UntypedStaticCallCorrected(p, args, kwargs);
      var f := StaticCall(p, args, kwargs);
      (u.Err? <==> Classify(p, args, kwargs).Err?) &&
      (u.Err? ==> f == u) &&
      (u.Ok? && u.value.self.VObj? ==>
        f == Ok(Invocation(VObj(Put(u.value.self.attrs, Marker, VBool(true))), u.value.args, u.value.kwargs))) &&
      (u.Ok? && !u.value.self.VObj? ==> f == Err(PyError(AttributeError, "__dict__")))
  {
  }

  /** The dummy parser hands a first argument that is not a dict, an
      object say, to the function unchanged; a dict with no stripped name
      already a key becomes an object holding every entry under its
      stripped name. */
  lemma UntypedDummyCall(p: Parser, x: Value, rest: seq<Value>, kwargs: Dict)
    requires p.kind == Dummy
    ensures !x.VDict? ==> UntypedStaticCall(p, [x] + rest, kwargs) == Ok(Invocation(x, rest, kwargs))
    ensures x.VDict? && DistinctKeys(x.entries) && NoChain(p.prefix, x.entries) ==>
      var r := UntypedStaticCall(p, [x] + rest, kwargs);
      r.Ok? && r.value.self.VObj? && r.value.args == rest && r.value.kwargs == kwargs &&
      forall i :: 0 <= i < |x.entries| ==> Get(r.value.self.attrs, Stripped(p.prefix, x.entries[i].0)) == Some(x.entries[i].1)
  {
    assert ([x] + rest)[1..] == rest;
    if x.VDict? && DistinctKeys(x.entries) && NoChain(p.prefix, x.entries) {
      StripRenames(p.prefix, x.entries);
    }
  }

  // ---------------------------------------------------------------------
  // The handler object

  /** What `HandlerFactory.__init__` leaves behind and `__get__` reads: the
      parser and the static signature it published. */
  datatype Handler = Handler(parser: Parser, staticSignature: Signature)

  /** The handler a decorated function gets, or the error raised while
      decorating it. */
  function NewHandler(bare: bool, cfg: Config, sig: Signature): Result<Handler> {
    var p :- Decorate(bare, cfg, sig);
    Ok(Handler(p, UntypedStaticSignature(p)))
  }

  /** `untypedmethod` applied to a function: the configuration, the prefix,
      the `if`/`elif`, the parser's constructor with its signature loops
      and its collision loop, then the duplicate checks. */
  method HandlerFactory(bare: bool, cfg: Config, sig: Signature) returns (r: Result<Handler>)
    ensures r == NewHandler(bare, cfg, sig)
  {
    var config := if bare then Config([], []) else cfg;
    var facts := FactsOf(sig);
    if facts.params == [] {
      return Err(PyError(IndexError, ""));
    }
    var prefix := facts.params[0] + "_";
    var kind: ParserKind;
    if |config.staticParams + Keys(config.staticDefaults)| == 0 {
      kind := Dummy;
    } else if FullCondition(config, facts) {
      kind := FullSignature;
    } else {
      kind := SignatureInject;
    }
    var p := Parser(kind, config, facts.params[1..], facts.defaults, facts.vars, sig, prefix);
    var signature: Signature;
    match kind {
      case Dummy => signature := sig;
      case FullSignature => signature := CreateUntypedFullSignature(p);
      case SignatureInject => signature := CreateUntypedInjectSignature(p);
    }
    if kind != Dummy && !ValidSignature(signature) {
      return Err(PyError(ValueError, ""));
    }
    var clash := ErrorCheck(p);
    if clash.Some? {
      return Err(clash.value);
    }
    var dup := DuplicateCheck(config);
    if dup.Some? {
      return Err(dup.value);
    }
    r := Ok(Handler(p, signature));
  }

  /** `__get__` and a call through what it returns: the bound method on an
      instance; on the class, the parser's loops and then the wrapper's
      stripping loops. */
  method Invoke(h: Handler, instance: Option<Dict>, args: seq<Value>, kwargs: Dict) returns (r: Result<Invocation>)
    ensures r == UntypedCall(h.parser, instance, args, kwargs)
  {
    if instance.Some? {
      return Ok(Invocation(VObj(instance.value), args, kwargs));
    }
    var p := h.parser;
    var c: Result<Classified>;
    match p.kind {
      case Dummy => c := ClassifyDummy(args, kwargs);
      case FullSignature => c := FullCall(p, args, kwargs);
      case SignatureInject => c := InjectCallAsWritten(p, args, kwargs);
    }
    if c.Err? {
      return Err(c.error);
    }
    var cl := c.value;
    match cl.ctx {
      case VDict(d) =>
        var nmspAttrs := StripPrefixes(p.prefix, d);
        r := Ok(Invocation(VObj(nmspAttrs), cl.args, cl.kwargs));
      case _ =>
        r := Ok(Invocation(cl.ctx, cl.args, cl.kwargs));
    }
  }

  /** Decorating and then calling. */
  function UntypedResolve(bare: bool, cfg: Config, sig: Signature,
                          instance: Option<Dict>, args: seq<Value>, kwargs: Dict): Result<Invocation> {
    var h :- NewHandler(bare, cfg, sig);
    UntypedCall(h.parser, instance, args, kwargs)
  }
}

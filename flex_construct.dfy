/** Building the parser of a flexible method: the parsers each decorator
    variant tries, the first-match selection among them, and the checks
    that make construction fail. */
module FlexConstruct {
  import opened PyValues
  import opened InspectTools
  import opened FlexParsers
  import opened FlexSignatures

  /** `flexmethod` and its nested variants. */
  datatype Variant = Flex | NsInsert | NsSync | StaticSig

  /** `set_parsers`: the parsers a variant tries, in order. `parens` tells
      whether the decorator was written with parentheses. */
  function SetParsers(v: Variant, parens: bool): (r: Result<seq<ParserKind>>)
    ensures r.Err? <==> !parens && (v == NsSync || v == StaticSig)
    ensures r.Err? ==> r.error.Kind() == SyntaxError
    ensures r.Ok? && |r.value| != 1 ==> v == Flex && parens
  {
    match v
    case Flex => if parens then Ok([Dummy, FullSignature, SignatureInject]) else Ok([Dummy])
    case NsInsert => Ok([Dummy])
    case NsSync => if parens then Ok([SignatureInject]) else Err(PyError(SyntaxError, ""))
    case StaticSig => if parens then Ok([FullSignature]) else Err(PyError(SyntaxError, ""))
  }

  /** The parser `user_init` picks: the first of `kinds` whose condition
      holds. */
  function FirstMatch(kinds: seq<ParserKind>, cfg: Config, facts: FuncFacts): (r: Option<ParserKind>)
    ensures r.None? <==> forall i :: 0 <= i < |kinds| ==> !Condition(kinds[i], cfg, facts)
    ensures r.Some? ==> exists i :: (0 <= i < |kinds| && kinds[i] == r.value && Condition(kinds[i], cfg, facts) &&
      forall j :: 0 <= j < i ==> !Condition(kinds[j], cfg, facts))
  {
    if kinds == [] then None
    else if Condition(kinds[0], cfg, facts) then Some(kinds[0])
    else
      var r := FirstMatch(kinds[1..], cfg, facts);
      assert forall i :: 1 <= i < |kinds| ==> kinds[i] == kinds[1..][i - 1];
      if r.Some? then
        var i :| 0 <= i < |kinds[1..]| && kinds[1..][i] == r.value && Condition(kinds[1..][i], cfg, facts) &&
          forall j :: 0 <= j < i ==> !Condition(kinds[1..][j], cfg, facts);
        assert kinds[i + 1] == r.value;
        r
      else r
  }

  /** What `user_init` raises when no parser applies: the one parser's own
      failure, or a generic error for several parsers or none. */
  function SelectionFailure(kinds: seq<ParserKind>): Error {
    if |kinds| == 1 then PatternMatchFailure(kinds[0])
    else if |kinds| > 1 then PyError(ValueError, "")
    else PyError(NotImplementedError, "")
  }

  /** The first static default whose name is also a default name of the
      function. */
  function FirstCollision(sd: Dict, fd: Dict): (r: Option<Name>)
    ensures r.None? <==> forall i :: 0 <= i < |sd| ==> sd[i].0 !in Keys(fd)
    ensures r.Some? ==> exists i :: (0 <= i < |sd| && sd[i].0 == r.value && r.value in Keys(fd) &&
      forall j :: 0 <= j < i ==> sd[j].0 !in Keys(fd))
  {
    if sd == [] then None
    else if sd[0].0 in Keys(fd) then Some(sd[0].0)
    else
      var r := FirstCollision(sd[1..], fd);
      assert forall i :: 1 <= i < |sd| ==> sd[i] == sd[1..][i - 1];
      if r.Some? then
        var i :| 0 <= i < |sd[1..]| && sd[1..][i].0 == r.value && r.value in Keys(fd) &&
          forall j :: 0 <= j < i ==> sd[1..][j].0 !in Keys(fd);
        assert sd[i + 1].0 == r.value;
        r
      else r
  }

  /** `SignatureInjectParser.error_check`: the loop over the static
      defaults that stops at the first name the function also defaults. */
  method ErrorCheck(p: Parser) returns (err: Option<Error>)
    ensures err.None? <==> p.kind != SignatureInject || FirstCollision(p.config.staticDefaults, p.funcDefaults).None?
    ensures err.Some? ==> err.value == PyError(ValueError, FirstCollision(p.config.staticDefaults, p.funcDefaults).value)
  {
    if p.kind != SignatureInject {
      return None;
    }
    var sd := p.config.staticDefaults;
    for i := 0 to |sd|
      invariant forall j :: 0 <= j < i ==> sd[j].0 !in Keys(p.funcDefaults)
    {
      if sd[i].0 in Keys(p.funcDefaults) {
        assert FirstCollision(sd, p.funcDefaults) == Some(sd[i].0) by {
          var r := FirstCollision(sd, p.funcDefaults);
          var m :| 0 <= m < |sd| && sd[m].0 == r.value && r.value in Keys(p.funcDefaults) &&
            forall j :: 0 <= j < m ==> sd[j].0 !in Keys(p.funcDefaults);
          assert m == i;
        }
        return Some(PyError(ValueError, sd[i].0));
      }
    }
    return None;
  }

  /** The fields `ArgumentParser.__init__` sets: the function's first
      required name is the context and gives the prefix (IndexError for a
      function without one), and the rest are its required names. */
  function ParserOf(kind: ParserKind, cfg: Config, sig: Signature): (r: Result<Parser>)
    ensures r.Err? <==> FactsOf(sig).params == []
    ensures r.Err? ==> r.error == PyError(IndexError, "")
    ensures r.Ok? ==> var facts := FactsOf(sig);
      [facts.params[0]] + r.value.funcParams == facts.params &&
      r.value.prefix == facts.params[0] + "_" &&
      r.value.kind == kind && r.value.config == cfg && r.value.funcDefaults == facts.defaults &&
      r.value.funcVars == facts.vars && r.value.funcSignature == sig
  {
    var facts := FactsOf(sig);
    if facts.params == [] then Err(PyError(IndexError, ""))
    else Ok(Parser(kind, cfg, facts.params[1..], facts.defaults, facts.vars, sig, Prefix(facts.params[0])))
  }

  /** The rest of a static parser's construction once its fields are set:
      `inspect.Signature` validates the synthesized static signature
      `staticSig` (the dummy parser keeps the function's own), then the
      inject parser runs its `error_check`. */
  function Checked(p: Parser, staticSig: Signature): (r: Result<Parser>)
    ensures r.Ok? <==> ((p.kind == Dummy || ValidSignature(staticSig)) &&
      (p.kind != SignatureInject || FirstCollision(p.config.staticDefaults, p.funcDefaults).None?))
    ensures r.Ok? ==> r.value == p
    ensures r.Err? ==> r.error.Kind() == ValueError
  {
    if p.kind != Dummy && !ValidSignature(staticSig) then Err(PyError(ValueError, ""))
    else if p.kind == SignatureInject && FirstCollision(p.config.staticDefaults, p.funcDefaults).Some? then
      Err(PyError(ValueError, FirstCollision(p.config.staticDefaults, p.funcDefaults).value))
    else Ok(p)
  }

  /** `ArgumentParser.__init__` of a flexible method's parser, with the
      static signature its strategy synthesizes. */
  function NewParser(kind: ParserKind, cfg: Config, sig: Signature): (r: Result<Parser>)
    ensures FactsOf(sig).params == [] ==> r == Err(PyError(IndexError, ""))
    ensures r.Ok? ==> r == ParserOf(kind, cfg, sig) && (kind == Dummy || ValidSignature(StaticSignature(r.value)))
  {
    var p :- ParserOf(kind, cfg, sig);
    Checked(p, StaticSignature(p))
  }

  /** A function with a `*` or `**` collector other than its context
      parameter gets no inject or full-signature parser: both synthesized
      signatures name the collector twice, and `inspect.Signature` raises
      ValueError before any other check. */
  lemma CollectorRejected(kind: ParserKind, cfg: Config, sig: Signature, n: Name)
    requires kind != Dummy && Condition(kind, cfg, FactsOf(sig))
    requires FactsOf(sig).vars.0 == Some(n) || FactsOf(sig).vars.1 == Some(n)
    requires CollectorsWithoutDefault(sig)
    requires FactsOf(sig).params != [] && n != FactsOf(sig).params[0]
    ensures NewParser(kind, cfg, sig) == Err(PyError(ValueError, ""))
  {
    var facts := FactsOf(sig);
    var p := ParserOf(kind, cfg, sig).value;
    var i :| 0 <= i < |sig| && sig[i].kind in {VarPositional, VarKeyword} && sig[i].name == n;
    assert n in facts.params;
    var k :| 0 <= k < |facts.params| && facts.params[k] == n;
    assert n in p.funcParams by {
      assert p.funcParams[k - 1] == n;
    }
    if kind == SignatureInject {
      InjectSignatureRepeatsCollector(p, n);
    } else {
      assert n in RequiredKeys(facts);
      FullSignatureRepeatsCollector(p, n);
    }
  }

  /** `static_init`: configuration names shared by the positional and the
      default part, then repeated positional names, then repeated default
      names, each raise ValueError. */
  function DuplicateCheck(cfg: Config): (r: Option<Error>)
    ensures r.None? <==> NoDup(ImplementedKeys(cfg))
    ensures r.Some? ==> r.value == PyError(ValueError, "")
  {
    var sp := cfg.staticParams;
    var sk := Keys(cfg.staticDefaults);
    var shared := exists i, j :: 0 <= i < |sp| && 0 <= j < |sk| && sp[i] == sk[j];
    NoDupSplit(sp, sk);
    if shared then Some(PyError(ValueError, ""))
    else if !NoDup(sp) then Some(PyError(ValueError, ""))
    else if !NoDup(sk) then Some(PyError(ValueError, ""))
    else None
  }

  /** The parser `user_init` builds: the parsers the variant tries, the
      first one that applies (or the selection failure), then its
      constructor. */
  function BuildParser(v: Variant, parens: bool, cfg: Config, sig: Signature): Result<Parser> {
    var kinds :- SetParsers(v, parens);
    match FirstMatch(kinds, cfg, FactsOf(sig))
    case None => Err(SelectionFailure(kinds))
    case Some(kind) => NewParser(kind, cfg, sig)
  }

  /** `user_init` of a flexible-method decorator: the parser, then the
      checks of `static_init` (every parser is a static one). */
  function Construct(v: Variant, parens: bool, cfg: Config, sig: Signature): Result<Parser> {
    var p :- BuildParser(v, parens, cfg, sig);
    match DuplicateCheck(cfg)
    case Some(e) => Err(e)
    case None => Ok(p)
  }

  /** With the three parsers of a parenthesised `flexmethod` exactly one
      is chosen: the dummy parser when the configuration is empty, the
      full-signature parser when a non-empty configuration covers every
      name the function needs, the inject parser otherwise. */
  lemma FlexSelection(cfg: Config, facts: FuncFacts)
    ensures var r := FirstMatch([Dummy, FullSignature, SignatureInject], cfg, facts);
      r.Some? &&
      (r == Some(Dummy) <==> |ImplementedKeys(cfg)| == 0) &&
      (r == Some(FullSignature) <==> |ImplementedKeys(cfg)| != 0 && FullCondition(cfg, facts)) &&
      (r == Some(SignatureInject) <==> |ImplementedKeys(cfg)| != 0 && !FullCondition(cfg, facts))
  {
    var kinds := [Dummy, FullSignature, SignatureInject];
    assert kinds[1..] == [FullSignature, SignatureInject] && kinds[1..][1..] == [SignatureInject];
    ConditionsOverlap(cfg, facts);
    assert Condition(kinds[1], cfg, facts) || Condition(kinds[2], cfg, facts);
  }

  /** The outcome of building a parenthesised `flexmethod`, in the order
      its errors are raised: IndexError for a function without a required
      name, then ValueError for a synthesized static signature that
      `inspect.Signature` refuses, then the inject parser's default-name
      collision, then duplicate configuration names; otherwise the
      selected parser. */
  lemma FlexConstructOutcome(cfg: Config, sig: Signature)
    ensures var facts := FactsOf(sig);
      var r := Construct(Flex, true, cfg, sig);
      var inject := |ImplementedKeys(cfg)| != 0 && !FullCondition(cfg, facts);
      var kind := if |ImplementedKeys(cfg)| == 0 then Dummy else if inject then SignatureInject else FullSignature;
      var collision := FirstCollision(cfg.staticDefaults, facts.defaults);
      if facts.params == [] then r == Err(PyError(IndexError, ""))
      else if kind != Dummy && !ValidSignature(StaticSignature(ParserOf(kind, cfg, sig).value)) then r == Err(PyError(ValueError, ""))
      else if inject && collision.Some? then r == Err(PyError(ValueError, collision.value))
      else if !NoDup(ImplementedKeys(cfg)) then r == Err(PyError(ValueError, ""))
      else r.Ok? && r.value.kind == (if |ImplementedKeys(cfg)| == 0 then Dummy else if inject then SignatureInject else FullSignature)
  {
    var facts := FactsOf(sig);
    FlexSelection(cfg, facts);
    var inject := |ImplementedKeys(cfg)| != 0 && !FullCondition(cfg, facts);
    var kind := if |ImplementedKeys(cfg)| == 0 then Dummy else if inject then SignatureInject else FullSignature;
    assert BuildParser(Flex, true, cfg, sig) == NewParser(kind, cfg, sig);
    if facts.params != [] {
      var p := ParserOf(kind, cfg, sig).value;
      assert p.kind == kind && p.config == cfg && p.funcDefaults == facts.defaults;
      assert NewParser(kind, cfg, sig) == Checked(p, StaticSignature(p));
    }
  }

  /** A default of the function that the configuration does not name
      keeps the full-signature parser out: a non-empty configuration gets
      the inject parser, an empty one the dummy parser. */
  lemma UnnamedDefaultSelectsInject(cfg: Config, facts: FuncFacts, k: Name)
    requires k in Keys(facts.defaults) && k !in ImplementedKeys(cfg)
    ensures FirstMatch([Dummy, FullSignature, SignatureInject], cfg, facts)
      == Some(if |ImplementedKeys(cfg)| == 0 then Dummy else SignatureInject)
  {
    FlexSelection(cfg, facts);
    assert k in RequiredKeys(facts);
  }

  /** A variant with a single parser that does not apply fails with that
      parser's own error: ValueError for the dummy parser and the inject
      parser, TypeError for the full-signature parser. */
  lemma SingleParserFailure(v: Variant, parens: bool, cfg: Config, sig: Signature)
    requires SetParsers(v, parens).Ok? && |SetParsers(v, parens).value| == 1
    requires !Condition(SetParsers(v, parens).value[0], cfg, FactsOf(sig))
    ensures var r := Construct(v, parens, cfg, sig);
      r.Err? && r.error.Kind() == (if v == StaticSig then TypeError else ValueError)
  {
  }
}

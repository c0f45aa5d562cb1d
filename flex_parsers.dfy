/** The argument parsers of the flexible-method engine: their data, the
    namespace prefix, and the conditions under which each one applies. */
module FlexParsers {
  import opened PyValues
  import opened InspectTools

  /** The decorator's configuration: its positional arguments are the
      static parameter names, its keyword arguments the static defaults. */
  datatype Config = Config(staticParams: seq<Name>, staticDefaults: Dict)

  /** What the engine reads off the decorated function's signature:
      the names without a default (collectors included), the
      name-to-default mapping, and the two collectors. */
  datatype FuncFacts = FuncFacts(params: seq<Name>, defaults: Dict, vars: (Option<Name>, Option<Name>))

  function FactsOf(sig: Signature): (r: FuncFacts)
    ensures forall n :: n in r.params <==> exists i :: 0 <= i < |sig| && sig[i].default.None? && sig[i].name == n
    ensures r.vars.1.Some? <==> HasVarKeyword(sig)
  {
    FuncFacts(GetPositionalParams(sig, false), GetDefaultKwargs(sig), GetVarParams(sig))
  }

  /** The three classification strategies. */
  datatype ParserKind = Dummy | FullSignature | SignatureInject

  /** A constructed parser. Every strategy is a static one, so the first
      required name (the context parameter) is dropped from `funcParams`
      and gives the namespace prefix `<context>_`. */
  datatype Parser = Parser(
    kind: ParserKind,
    config: Config,
    funcParams: seq<Name>,
    funcDefaults: Dict,
    funcVars: (Option<Name>, Option<Name>),
    funcSignature: Signature,
    prefix: Name)
  {
    /** Static positional names followed by static default names: the
        names the positional call arguments of the full-signature
        strategy bind to. */
    function PositionalNames(): seq<Name> {
      config.staticParams + Keys(config.staticDefaults)
    }
  }

  /** The namespace prefix of a function whose first required name is
      `context`. */
  function Prefix(context: Name): (r: Name)
    ensures |r| == |context| + 1 && HasPrefix(r, context)
  {
    context + "_"
  }

  /** `_param_mod`: qualify a name with the prefix unless it already
      carries it. */
  function ParamMod(prefix: Name, p: Name): (r: Name)
    ensures HasPrefix(r, prefix)
    ensures HasPrefix(p, prefix) ==> r == p
    ensures |r| == |p| || |r| == |prefix| + |p|
  {
    if HasPrefix(p, prefix) then p
    else
      assert (prefix + p)[..|prefix|] == prefix;
      prefix + p
  }

  /** Qualifying twice is qualifying once. */
  lemma ParamModIdempotent(prefix: Name, p: Name)
    ensures ParamMod(prefix, ParamMod(prefix, p)) == ParamMod(prefix, p)
  {
  }

  /** The wrapper's renaming of a prefixed key (strictly longer than the
      prefix) to its suffix undoes `_param_mod` on any non-empty name that
      did not already carry the prefix. */
  lemma ParamModStripRoundTrip(prefix: Name, p: Name)
    requires p != [] && !HasPrefix(p, prefix)
    ensures |ParamMod(prefix, p)| > |prefix|
    ensures ParamMod(prefix, p)[|prefix|..] == p
  {
    assert ParamMod(prefix, p) == prefix + p;
  }

  /** Two names that do not carry the prefix stay apart once qualified. */
  lemma ParamModInjective(prefix: Name, p: Name, q: Name)
    requires !HasPrefix(p, prefix) && !HasPrefix(q, prefix)
    requires ParamMod(prefix, p) == ParamMod(prefix, q)
    ensures p == q
  {
    assert ParamMod(prefix, p)[|prefix|..] == p;
    assert ParamMod(prefix, q)[|prefix|..] == q;
  }

  /** The configuration's names: static positional, then static default. */
  function ImplementedKeys(cfg: Config): seq<Name> {
    cfg.staticParams + Keys(cfg.staticDefaults)
  }

  /** The names a complete static signature must cover: the required
      names after the context parameter, and the defaulted names. */
  function RequiredKeys(facts: FuncFacts): seq<Name> {
    (if facts.params == [] then [] else facts.params[1..]) + Keys(facts.defaults)
  }

  /** `DummyParser.condition_check` */
  predicate DummyCondition(cfg: Config) {
    |ImplementedKeys(cfg)| == 0
  }

  /** `FullSignatureParser.condition_check` */
  predicate FullCondition(cfg: Config, facts: FuncFacts) {
    forall k :: k in RequiredKeys(facts) ==> k in ImplementedKeys(cfg)
  }

  /** `SignatureInjectParser.condition_check` */
  predicate InjectCondition(cfg: Config, facts: FuncFacts) {
    !FullCondition(cfg, facts)
  }

  predicate Condition(kind: ParserKind, cfg: Config, facts: FuncFacts) {
    match kind
    case Dummy => DummyCondition(cfg)
    case FullSignature => FullCondition(cfg, facts)
    case SignatureInject => InjectCondition(cfg, facts)
  }

  /** The error each strategy's `pattern_match_failure` raises when it is
      the only candidate and does not apply. The full-signature message
      joins a list of booleans, which Python refuses with a TypeError
      before the intended ValueError is built. */
  function PatternMatchFailure(kind: ParserKind): (e: Error)
    ensures e.Kind() == (if kind == FullSignature then TypeError else ValueError)
  {
    match kind
    case Dummy => PyError(ValueError, "Too many arguments.")
    case FullSignature => PyError(TypeError, "")
    case SignatureInject => PyError(ValueError, "")
  }

  /** An empty configuration covers nothing, so the dummy and full
      conditions hold together only when the function has no name to
      cover; the parser order then decides for the dummy parser. */
  lemma ConditionsOverlap(cfg: Config, facts: FuncFacts)
    ensures DummyCondition(cfg) && FullCondition(cfg, facts) ==> RequiredKeys(facts) == []
  {
    if RequiredKeys(facts) != [] && DummyCondition(cfg) {
      assert ImplementedKeys(cfg) == [];
      assert RequiredKeys(facts)[0] !in ImplementedKeys(cfg);
    }
  }
}

/** Worked decorations and calls of the untyped-method decorator, one per
    behaviour its test suite exercises, and the input that shows the
    inject parser replacing its context by a prefixed key. */
module UntypedScenarios {
  import opened PyValues
  import opened InspectTools
  import opened FlexParsers
  import opened FlexSignatures
  import opened FlexClassify
  import opened FlexConstruct
  import opened FlexMethod
  import opened UntypedMethod

  function Required(n: Name): Param {
    Param(n, PositionalOrKeyword, None)
  }

  function Defaulted(n: Name, v: int): Param {
    Param(n, PositionalOrKeyword, Some(VInt(v)))
  }

  /** A parser without collectors whose static signature has distinct
      names gets an untyped signature that `inspect.Signature` accepts. */
  lemma UntypedValid(p: Parser, s: Signature)
    requires p.kind != Dummy && p.funcVars == (None, None) && StaticSignature(p) == s
    requires forall i, j :: 0 <= i < j < |s| ==> s[i].name != s[j].name
    ensures ValidSignature(UntypedStaticSignature(p))
  {
    UntypedSignaturesWithoutCollectors(p);
    PlainSignatureValid(p);
  }

  /** Decorating with parentheses, one step at a time: the selected
      parser, its prefix step, its signature check, its collision check
      and the duplicate check. */
  lemma DecorateFrom(cfg: Config, sig: Signature, p: Parser)
    requires SelectKind(cfg, FactsOf(sig)) == p.kind && ParserOf(p.kind, cfg, sig) == Ok(p)
    requires p.kind == Dummy || ValidSignature(UntypedStaticSignature(p))
    requires p.kind != SignatureInject || FirstCollision(cfg.staticDefaults, p.funcDefaults).None?
    requires NoDup(ImplementedKeys(cfg))
    ensures Decorate(false, cfg, sig) == Ok(p)
  {
    assert p.config == cfg;
    assert Checked(p, UntypedStaticSignature(p)) == Ok(p);
  }

  // ---------------------------------------------------------------------
  // The replaced context

  const ReplacingParser: Parser := Parser(SignatureInject, InjectCfg, ["a"], [], (None, None), InjectSig, "ctx_")
  const ReplacingKeywords: Dict := [("a", VInt(2)), ("ctx_z", VInt(3))]

  lemma ReplacingPositional()
    ensures InjectPositional(ReplacingParser, [VInt(1)]) == ([("x", VInt(1)), ("y", VInt(4))], [])
  {
    var p := ReplacingParser;
    assert p.config.staticParams == ["x"] && p.config.staticDefaults == [("y", VInt(4))];
    assert NoDup(["x"] + Keys([("y", VInt(4))])) by {
      assert ["x"] + Keys([("y", VInt(4))]) == ["x", "y"];
    }
    InjectPositionalBinding(p, [VInt(1)]);
    assert Zip(["x"], [VInt(1)]) == [("x", VInt(1))];
    assert [VInt(1)][Min(1, 1)..] == [];
    assert InjectPositional(p, [VInt(1)]).0 == [("x", VInt(1)), ("y", VInt(4))];
    assert InjectPositional(p, [VInt(1)]).1 == [];
  }

  /** With `('x', y=4)` on `op(ctx, a)`, the call `op(1, a=2, ctx_z=3)`
      on the class, as written: the function gets the string `ctx_z` in
      place of its namespace. */
  lemma PrefixedKeyReplacesContext()
    ensures UntypedResolve(false, InjectCfg, InjectSig, None, [VInt(1)], ReplacingKeywords) ==
      Ok(Invocation(VStr("ctx_z"), [], [("a", VInt(2))]))
  {
    ReplacingClassified();
    StaticResolve(false, InjectCfg, InjectSig, ReplacingParser, [VInt(1)], ReplacingKeywords);
  }

  lemma ReplacingClassified()
    ensures Decorate(false, InjectCfg, InjectSig) == Ok(ReplacingParser)
    ensures ClassifyInjectAsWritten(ReplacingParser, [VInt(1)], ReplacingKeywords) ==
      Ok(Classified(VStr("ctx_z"), [], [("a", VInt(2))]))
  {
    var p := ReplacingParser;
    ReplacingDecorated();
    var kws := ReplacingKeywords;
    var ctx0: Dict := [("x", VInt(1)), ("y", VInt(4))];
    ReplacingPositional();
    assert kws[1..] == [("ctx_z", VInt(3))] && kws[1..][1..] == [];
    assert HasPrefix("ctx_z", "ctx_");
    assert StepAsWritten(p, "a") == Pass;
    assert StepAsWritten(p, "ctx_z") == Replace;
    assert KeywordsAsWritten(p, VDict(ctx0), [], kws) == KeywordsAsWritten(p, VDict(ctx0), [("a", VInt(2))], kws[1..]);
    assert KeywordsAsWritten(p, VDict(ctx0), [("a", VInt(2))], kws[1..]) == KeywordsAsWritten(p, VStr("ctx_z"), [("a", VInt(2))], []);
  }

  /** The flexible method builds this parser, so the untyped decorator
      builds it too. */
  lemma ReplacingDecorated()
    ensures Decorate(false, InjectCfg, InjectSig) == Ok(ReplacingParser)
  {
    BuildAgrees(InjectCfg, InjectSig);
    InjectExampleParser();
  }

  /** The same call with the chain as intended: `z=3` joins `x=1` and
      `y=4` in the namespace object. */
  lemma PrefixedKeyStored()
    ensures UntypedStaticCallCorrected(ReplacingParser, [VInt(1)], ReplacingKeywords) ==
      Ok(Invocation(VObj([("x", VInt(1)), ("y", VInt(4)), ("z", VInt(3))]), [], [("a", VInt(2))]))
  {
    StoredClassified();
    var d: Dict := [("x", VInt(1)), ("y", VInt(4)), ("z", VInt(3))];
    assert StripPrefixed("ctx_", d) == d by {
      assert !Strippable("ctx_", "x") && !Strippable("ctx_", "y") && !Strippable("ctx_", "z");
      assert d[1..] == [("y", VInt(4)), ("z", VInt(3))] && d[1..][1..] == [("z", VInt(3))] && d[1..][1..][1..] == [];
      assert ToProc("ctx_", d) == [];
    }
  }

  lemma StoredClassified()
    ensures ClassifyInject(ReplacingParser, [VInt(1)], ReplacingKeywords) ==
      Ok(Classified(VDict([("x", VInt(1)), ("y", VInt(4)), ("z", VInt(3))]), [], [("a", VInt(2))]))
  {
    var p := ReplacingParser;
    var kws := ReplacingKeywords;
    var ctx0: Dict := [("x", VInt(1)), ("y", VInt(4))];
    ReplacingPositional();
    assert kws[1..] == [("ctx_z", VInt(3))] && kws[1..][1..] == [];
    assert HasPrefix("ctx_z", "ctx_") && "ctx_z"[4..] == "z";
    assert InjectRoute(p, "a") == ToFunc;
    assert InjectRoute(p, "ctx_z") == ToContext("z");
    assert InjectKeywords(p, ctx0, [], kws) == InjectKeywords(p, ctx0, [("a", VInt(2))], kws[1..]);
    assert Put(ctx0, "z", VInt(3)) == [("x", VInt(1)), ("y", VInt(4)), ("z", VInt(3))];
    assert InjectKeywords(p, ctx0, [("a", VInt(2))], kws[1..]) == InjectKeywords(p, Put(ctx0, "z", VInt(3)), [("a", VInt(2))], []);
  }

  // ---------------------------------------------------------------------
  // A `**` collector: `('x')` on `op(ctx, a, **kw)`

  const SigKw: Signature := [Required("ctx"), Required("a"), Param("kw", VarKeyword, None)]
  const CfgKw: Config := Config(["x"], [])
  const ParserKw: Parser := Parser(SignatureInject, CfgKw, ["a", "kw"], [], (None, Some("kw")), SigKw, "ctx_")

  /** The collector has no default, so it is among the required names. */
  lemma FactsKw()
    ensures FactsOf(SigKw) == FuncFacts(["ctx", "a", "kw"], [], (None, Some("kw")))
  {
    var s := SigKw;
    assert s[1..] == [Required("a"), Param("kw", VarKeyword, None)];
    assert s[1..][1..] == [Param("kw", VarKeyword, None)] && s[1..][1..][1..] == [];
  }

  /** `a` and `kw` are not covered by `x`, so both decorators pick the
      inject parser. */
  lemma ParserKwChosen()
    ensures InjectCondition(CfgKw, FactsOf(SigKw))
    ensures FirstMatch([Dummy, FullSignature, SignatureInject], CfgKw, FactsOf(SigKw)) == Some(SignatureInject)
    ensures SelectKind(CfgKw, FactsOf(SigKw)) == SignatureInject
  {
    FactsKw();
    var facts := FactsOf(SigKw);
    assert ImplementedKeys(CfgKw) == ["x"];
    assert RequiredKeys(facts) == ["a", "kw"] && "a" !in ImplementedKeys(CfgKw);
    FlexSelection(CfgKw, facts);
    SelectionAgrees(CfgKw, facts);
  }

  lemma ParserKwPrefixed()
    ensures ParserOf(SignatureInject, CfgKw, SigKw) == Ok(ParserKw)
  {
    FactsKw();
    assert Prefix("ctx") == "ctx_" && ["ctx", "a", "kw"][1..] == ["a", "kw"];
  }

  /** The flexible method names `kw` twice in `(ctx_x, a, kw, **kw)`, and
      `inspect.Signature` raises ValueError. */
  lemma FlexRejectsCollector()
    ensures Construct(Flex, true, CfgKw, SigKw) == Err(PyError(ValueError, ""))
  {
    ParserKwChosen();
    InjectRejectsKw();
    assert BuildParser(Flex, true, CfgKw, SigKw) == NewParser(SignatureInject, CfgKw, SigKw);
  }

  lemma InjectRejectsKw()
    ensures NewParser(SignatureInject, CfgKw, SigKw) == Err(PyError(ValueError, ""))
  {
    ParserKwChosen();
    FactsKw();
    assert CollectorsWithoutDefault(SigKw);
    CollectorRejected(SignatureInject, CfgKw, SigKw, "kw");
  }

  lemma ValidKw()
    ensures ValidSignature(UntypedStaticSignature(ParserKw))
  {
    assert ParamMod("ctx_", "x") == "ctx_x";
    var s := [Required("ctx_x"), Required("a"), Required("kw")];
    assert UntypedStaticSignature(ParserKw) == s + [];
    PlainValid(s, []);
  }

  /** The untyped decorator leaves collectors out and builds the inject
      parser with the signature `(ctx_x, a, kw)`: here the two decorators
      part ways. */
  lemma UntypedAcceptsCollector()
    ensures Decorate(false, CfgKw, SigKw) == Ok(ParserKw)
  {
    ParserKwChosen();
    ParserKwPrefixed();
    ValidKw();
    assert FirstCollision(CfgKw.staticDefaults, []) == None;
    assert NoDup(ImplementedKeys(CfgKw)) by {
      assert ImplementedKeys(CfgKw) == ["x"];
    }
    DecorateFrom(CfgKw, SigKw, ParserKw);
  }

  // ---------------------------------------------------------------------
  // Full static signature: `@untypedmethod('arg1', 'arg2', arg3=6)` on
  // `foo4(nself, arg2)`

  const Sig13: Signature := [Required("nself"), Required("arg2")]
  const Cfg13: Config := Config(["arg1", "arg2"], [("arg3", VInt(6))])
  const Parser13: Parser := Parser(FullSignature, Cfg13, ["arg2"], [], (None, None), Sig13, "nself_")

  lemma Parser13Built()
    ensures Decorate(false, Cfg13, Sig13) == Ok(Parser13)
  {
    var facts := FactsOf(Sig13);
    assert facts == FuncFacts(["nself", "arg2"], [], (None, None)) by {
      assert Sig13[1..] == [Required("arg2")] && Sig13[1..][1..] == [];
    }
    assert ImplementedKeys(Cfg13) == ["arg1", "arg2", "arg3"];
    assert RequiredKeys(facts) == ["arg2"];
    assert SelectKind(Cfg13, facts) == FullSignature;
    assert Prefix("nself") == "nself_" && facts.params[1..] == ["arg2"];
    assert ParserOf(FullSignature, Cfg13, Sig13) == Ok(Parser13);
    Valid13();
    assert NoDup(ImplementedKeys(Cfg13));
    DecorateFrom(Cfg13, Sig13, Parser13);
  }

  /** The untyped signature `(nself_arg1, arg2, nself_arg3=6)`. */
  lemma Valid13()
    ensures ValidSignature(UntypedStaticSignature(Parser13))
  {
    var p := Parser13;
    assert FullName(p, "arg1") == "nself_arg1" by {
      assert !HasPrefix("arg1", "nself_");
    }
    assert FullName(p, "arg3") == "nself_arg3" by {
      assert !HasPrefix("arg3", "nself_");
    }
    assert FullName(p, "arg2") == "arg2";
    UntypedValid(p, [Required("nself_arg1"), Required("arg2"), Defaulted("nself_arg3", 6)]);
  }

  lemma Classify13()
    ensures ClassifyFull(Parser13, [VInt(1), VInt(2)], []) ==
      Ok(Classified(VDict([("arg1", VInt(1)), ("arg3", VInt(6))]), [], [("arg2", VInt(2))]))
  {
    var p := Parser13;
    var args := [VInt(1), VInt(2)];
    assert p.PositionalNames() == ["arg1", "arg2", "arg3"];
    assert FullPositionals(p, [], [], 0, args, 0) == FullPositionals(p, [], [("arg1", VInt(1))], 0, args, 1);
    assert FullPositionals(p, [], [("arg1", VInt(1))], 0, args, 1) ==
      FullPositionals(p, [("arg2", VInt(2))], [("arg1", VInt(1))], 1, args, 2);
    var sd := Cfg13.staticDefaults;
    assert sd[1..] == [];
    assert Put([("arg1", VInt(1))], "arg3", VInt(6)) == [("arg1", VInt(1)), ("arg3", VInt(6))];
    assert FullFillDefaults(p, [("arg2", VInt(2))], [("arg1", VInt(1))], sd) ==
      FullFillDefaults(p, [("arg2", VInt(2))], [("arg1", VInt(1)), ("arg3", VInt(6))], []);
  }

  /** `MyClass2.foo4(1, 2)`: the namespace holds `arg1=1` and the default
      `arg3=6`, and `arg2=2` is passed as a keyword. */
  lemma Scenario13()
    ensures UntypedResolve(false, Cfg13, Sig13, None, [VInt(1), VInt(2)], []) ==
      Ok(Invocation(VObj([("arg1", VInt(1)), ("arg3", VInt(6))]), [], [("arg2", VInt(2))]))
  {
    var ctx: Dict := [("arg1", VInt(1)), ("arg3", VInt(6))];
    assert NewHandler(false, Cfg13, Sig13) == Ok(Handler(Parser13, UntypedStaticSignature(Parser13))) by {
      Parser13Built();
    }
    assert UntypedStaticCall(Parser13, [VInt(1), VInt(2)], []) ==
      Ok(Invocation(VObj(ctx), [], [("arg2", VInt(2))])) by {
      Classify13();
      assert StripPrefixed("nself_", ctx) == ctx by {
        assert ctx[1..][1..] == [];
        assert ToProc("nself_", ctx) == [];
      }
    }
  }

  // ---------------------------------------------------------------------
  // The same names with one left out: `@untypedmethod('arg0', arg1=1)`
  // on `test_func(nself, arg1)`, and `@untypedmethod('arg0')` on it

  const Sig6: Signature := [Required("nself"), Required("arg1")]
  const Cfg6: Config := Config(["arg0"], [("arg1", VInt(1))])
  const Parser6: Parser := Parser(FullSignature, Cfg6, ["arg1"], [], (None, None), Sig6, "nself_")
  const Cfg62: Config := Config(["arg0"], [])
  const Parser62: Parser := Parser(SignatureInject, Cfg62, ["arg1"], [], (None, None), Sig6, "nself_")

  lemma Facts6()
    ensures FactsOf(Sig6) == FuncFacts(["nself", "arg1"], [], (None, None))
  {
    assert Sig6[1..] == [Required("arg1")] && Sig6[1..][1..] == [];
  }

  lemma Parser6Built()
    ensures Decorate(false, Cfg6, Sig6) == Ok(Parser6)
  {
    Facts6();
    var facts := FactsOf(Sig6);
    assert ImplementedKeys(Cfg6) == ["arg0", "arg1"];
    assert RequiredKeys(facts) == ["arg1"];
    assert SelectKind(Cfg6, facts) == FullSignature;
    assert Prefix("nself") == "nself_" && facts.params[1..] == ["arg1"];
    assert ParserOf(FullSignature, Cfg6, Sig6) == Ok(Parser6);
    Valid6();
    DecorateFrom(Cfg6, Sig6, Parser6);
  }

  lemma Valid6()
    ensures ValidSignature(UntypedStaticSignature(Parser6))
  {
    assert FullName(Parser6, "arg0") == "nself_arg0" by {
      assert !HasPrefix("arg0", "nself_");
    }
    assert FullName(Parser6, "arg1") == "arg1";
    UntypedValid(Parser6, [Required("nself_arg0"), Defaulted("arg1", 1)]);
  }

  lemma Parser62Built()
    ensures Decorate(false, Cfg62, Sig6) == Ok(Parser62)
  {
    Facts6();
    var facts := FactsOf(Sig6);
    assert ImplementedKeys(Cfg62) == ["arg0"];
    assert RequiredKeys(facts) == ["arg1"] && "arg1" !in ImplementedKeys(Cfg62);
    assert SelectKind(Cfg62, facts) == SignatureInject;
    assert Prefix("nself") == "nself_" && facts.params[1..] == ["arg1"];
    assert ParserOf(SignatureInject, Cfg62, Sig6) == Ok(Parser62);
    Valid62();
    assert FirstCollision(Cfg62.staticDefaults, []) == None;
    DecorateFrom(Cfg62, Sig6, Parser62);
  }

  lemma Valid62()
    ensures ValidSignature(UntypedStaticSignature(Parser62))
  {
    assert ParamMod("nself_", "arg0") == "nself_arg0" by {
      assert !HasPrefix("arg0", "nself_");
    }
    UntypedValid(Parser62, [Required("nself_arg0"), Required("arg1")]);
  }

  /** The full-signature strategy's static signature reads
      `(nself_arg0, arg1=1)`. */
  lemma Signature61()
    ensures NewHandler(false, Cfg6, Sig6) == Ok(Handler(Parser6, [Required("nself_arg0"), Defaulted("arg1", 1)]))
  {
    Parser6Built();
    assert FullName(Parser6, "arg0") == "nself_arg0" by {
      assert !HasPrefix("arg0", "nself_");
    }
    assert FullNames(Parser6, ["arg0"]) == ["nself_arg0"];
    assert FullDefaults(Parser6, [("arg1", VInt(1))]) == [("arg1", VInt(1))];
    assert PlainParams(["nself_arg0"]) == [Required("nself_arg0")];
    assert PlainDefaults([("arg1", VInt(1))]) == [Defaulted("arg1", 1)];
    assert UntypedStaticSignature(Parser6) == [Required("nself_arg0"), Defaulted("arg1", 1)];
  }

  /** The inject strategy's static signature reads `(nself_arg0, arg1)`. */
  lemma Signature62()
    ensures NewHandler(false, Cfg62, Sig6) == Ok(Handler(Parser62, [Required("nself_arg0"), Required("arg1")]))
  {
    Parser62Built();
    assert ParamMod("nself_", "arg0") == "nself_arg0" by {
      assert !HasPrefix("arg0", "nself_");
    }
    assert QualifiedNames("nself_", ["arg0"]) == ["nself_arg0"];
    assert QualifiedDefaults("nself_", []) == [];
    assert PlainParams(["nself_arg0"]) == [Required("nself_arg0")];
    assert PlainParams(["arg1"]) == [Required("arg1")];
    assert PlainDefaults([]) == [];
    assert UntypedStaticSignature(Parser62) == [Required("nself_arg0"), Required("arg1")];
  }

  /** `MyClass6.test_func(2)`: the one positional argument binds `arg0`,
      so the required `arg1` is missing and the call raises TypeError
      ("expected 1 argument, got 0"). */
  lemma Scenario16()
    ensures UntypedResolve(false, Cfg6, Sig6, None, [VInt(2)], []) == Err(CountMismatch(1, 0))
  {
    assert NewHandler(false, Cfg6, Sig6) == Ok(Handler(Parser6, UntypedStaticSignature(Parser6))) by {
      Parser6Built();
    }
    var p := Parser6;
    assert p.PositionalNames() == ["arg0", "arg1"];
    assert FullPositionals(p, [], [], 0, [VInt(2)], 0) == FullPositionals(p, [], [("arg0", VInt(2))], 0, [VInt(2)], 1);
  }

  // ---------------------------------------------------------------------
  // A clashing default: `@untypedmethod('arg1', arg2=3)` on
  // `f(nself, arg2=5, arg3=10)`

  const Sig28: Signature := [Required("nself"), Defaulted("arg2", 5), Defaulted("arg3", 10)]
  const Cfg28: Config := Config(["arg1"], [("arg2", VInt(3))])
  const Parser28: Parser := Parser(SignatureInject, Cfg28, [], [("arg2", VInt(5)), ("arg3", VInt(10))], (None, None), Sig28, "nself_")

  /** The configuration does not cover `arg3`, so the inject parser is
      chosen, and its default `arg2` is also one of the function's:
      decorating raises ValueError naming `arg2`. */
  lemma Scenario28()
    ensures Decorate(false, Cfg28, Sig28) == Err(PyError(ValueError, "arg2"))
  {
    Parser28Chosen();
    Valid28();
    assert FirstCollision(Cfg28.staticDefaults, Parser28.funcDefaults) == Some("arg2");
  }

  lemma Facts28()
    ensures FactsOf(Sig28) == FuncFacts(["nself"], [("arg2", VInt(5)), ("arg3", VInt(10))], (None, None))
  {
    assert Sig28[1..] == [Defaulted("arg2", 5), Defaulted("arg3", 10)];
    assert Sig28[1..][1..] == [Defaulted("arg3", 10)] && Sig28[1..][1..][1..] == [];
  }

  lemma Parser28Chosen()
    ensures SelectKind(Cfg28, FactsOf(Sig28)) == SignatureInject
    ensures ParserOf(SignatureInject, Cfg28, Sig28) == Ok(Parser28)
  {
    Facts28();
    Selected28(FactsOf(Sig28));
    assert Prefix("nself") == "nself_" && ["nself"][1..] == [];
  }

  lemma Selected28(facts: FuncFacts)
    requires facts == FuncFacts(["nself"], [("arg2", VInt(5)), ("arg3", VInt(10))], (None, None))
    ensures SelectKind(Cfg28, facts) == SignatureInject
  {
    assert ImplementedKeys(Cfg28) == ["arg1", "arg2"];
    assert RequiredKeys(facts) == ["arg2", "arg3"] && "arg3" !in ImplementedKeys(Cfg28);
  }


  /** The untyped signature `(nself_arg1, nself_arg2=3, arg2=5, arg3=10)`
      is valid, so the collision check is reached. */
  lemma Valid28()
    ensures ValidSignature(UntypedStaticSignature(Parser28))
  {
    assert ParamMod("nself_", "arg1") == "nself_arg1" by {
      assert !HasPrefix("arg1", "nself_");
    }
    assert ParamMod("nself_", "arg2") == "nself_arg2" by {
      assert !HasPrefix("arg2", "nself_");
    }
    UntypedValid(Parser28, [Required("nself_arg1"), Defaulted("nself_arg2", 3), Defaulted("arg2", 5), Defaulted("arg3", 10)]);
  }

  // ---------------------------------------------------------------------
  // Namespace names carrying the prefix: `@untypedmethod('nself_arg1',
  // nself_arg2=0)` on `foo(nself, arg1, arg2)`

  const Sig1: Signature := [Required("nself"), Required("arg1"), Required("arg2")]
  const Cfg1: Config := Config(["nself_arg1"], [("nself_arg2", VInt(0))])
  const Parser1: Parser := Parser(SignatureInject, Cfg1, ["arg1", "arg2"], [], (None, None), Sig1, "nself_")

  lemma Parser1Built()
    ensures Decorate(false, Cfg1, Sig1) == Ok(Parser1)
  {
    var facts := FactsOf(Sig1);
    assert facts == FuncFacts(["nself", "arg1", "arg2"], [], (None, None)) by {
      assert Sig1[1..] == [Required("arg1"), Required("arg2")];
      assert Sig1[1..][1..] == [Required("arg2")] && Sig1[1..][1..][1..] == [];
    }
    assert ImplementedKeys(Cfg1) == ["nself_arg1", "nself_arg2"];
    assert RequiredKeys(facts) == ["arg1", "arg2"] && "arg1" !in ImplementedKeys(Cfg1);
    assert SelectKind(Cfg1, facts) == SignatureInject;
    assert Prefix("nself") == "nself_" && facts.params[1..] == ["arg1", "arg2"];
    assert ParserOf(SignatureInject, Cfg1, Sig1) == Ok(Parser1);
    Valid1();
    assert NoDup(ImplementedKeys(Cfg1));
    assert FirstCollision(Cfg1.staticDefaults, []) == None;
    DecorateFrom(Cfg1, Sig1, Parser1);
  }

  /** The untyped signature `(nself_arg1, arg1, arg2, nself_arg2=0)`:
      names already carrying the prefix are kept as they are. */
  lemma Valid1()
    ensures ValidSignature(UntypedStaticSignature(Parser1))
  {
    assert HasPrefix("nself_arg1", "nself_") && HasPrefix("nself_arg2", "nself_");
    UntypedValid(Parser1, [Required("nself_arg1"), Required("arg1"), Required("arg2"), Defaulted("nself_arg2", 0)]);
  }

  /** `MyClass.foo(wrong_prefix_arg1=1, arg1=3, arg2=4)`: a keyword that
      names nothing, lacks the prefix and meets no `**` collector raises
      TypeError. */
  lemma Scenario5()
    ensures UntypedResolve(false, Cfg1, Sig1, None, [], [("wrong_prefix_arg1", VInt(1)), ("arg1", VInt(3)), ("arg2", VInt(4))]) ==
      Err(PyError(TypeError, "wrong_prefix_arg1"))
  {
    var kws: Dict := [("wrong_prefix_arg1", VInt(1)), ("arg1", VInt(3)), ("arg2", VInt(4))];
    Parser1Built();
    StaticResolve(false, Cfg1, Sig1, Parser1, [], kws);
    Classify5();
  }

  /** A keyword of the call that is neither a parameter nor a
      configuration name, lacks the prefix and meets no `**` collector
      takes the last branch of the chain. */
  lemma Step5()
    ensures StepAsWritten(Parser1, "wrong_prefix_arg1") == Unexpected
  {
    assert !HasPrefix("wrong_prefix_arg1", "nself_") by {
      assert "wrong_prefix_arg1"[0] != "nself_"[0];
    }
    assert !HasVarKeyword(Sig1);
  }

  lemma Classify5()
    ensures UntypedStaticCall(Parser1, [], [("wrong_prefix_arg1", VInt(1)), ("arg1", VInt(3)), ("arg2", VInt(4))]) ==
      Err(PyError(TypeError, "wrong_prefix_arg1"))
  {
    var kws: Dict := [("wrong_prefix_arg1", VInt(1)), ("arg1", VInt(3)), ("arg2", VInt(4))];
    assert InjectPositional(Parser1, []) == ([("nself_arg2", VInt(0))], []);
    Step5();
    assert ClassifyInjectAsWritten(Parser1, [], kws) == Err(PyError(TypeError, "wrong_prefix_arg1"));
  }

  lemma Classify1()
    ensures ClassifyInject(Parser1, [], [("nself_arg1", VInt(1)), ("nself_arg2", VInt(2)), ("arg1", VInt(3)), ("arg2", VInt(4))]) ==
      Ok(Classified(VDict([("nself_arg2", VInt(2)), ("nself_arg1", VInt(1))]), [], [("arg1", VInt(3)), ("arg2", VInt(4))]))
  {
    var p := Parser1;
    var kws: Dict := [("nself_arg1", VInt(1)), ("nself_arg2", VInt(2)), ("arg1", VInt(3)), ("arg2", VInt(4))];
    assert InjectPositional(p, []) == ([("nself_arg2", VInt(0))], []);
    assert InjectRoute(p, "nself_arg1") == ToContext("nself_arg1");
    assert InjectRoute(p, "nself_arg2") == ToContext("nself_arg2");
    assert InjectRoute(p, "arg1") == ToFunc && InjectRoute(p, "arg2") == ToFunc;
    var c1: Dict := [("nself_arg2", VInt(0)), ("nself_arg1", VInt(1))];
    var c2: Dict := [("nself_arg2", VInt(2)), ("nself_arg1", VInt(1))];
    assert Put([("nself_arg2", VInt(0))], "nself_arg1", VInt(1)) == c1;
    assert Put(c1, "nself_arg2", VInt(2)) == c2;
    assert kws[1..] == [("nself_arg2", VInt(2)), ("arg1", VInt(3)), ("arg2", VInt(4))];
    assert kws[1..][1..] == [("arg1", VInt(3)), ("arg2", VInt(4))];
    assert kws[1..][1..][1..] == [("arg2", VInt(4))] && kws[1..][1..][1..][1..] == [];
    assert InjectKeywords(p, [("nself_arg2", VInt(0))], [], kws) == InjectKeywords(p, c1, [], kws[1..]);
    assert InjectKeywords(p, c1, [], kws[1..]) == InjectKeywords(p, c2, [], kws[1..][1..]);
    assert InjectKeywords(p, c2, [], kws[1..][1..]) == InjectKeywords(p, c2, [("arg1", VInt(3))], kws[1..][1..][1..]);
    assert Put([("arg1", VInt(3))], "arg2", VInt(4)) == [("arg1", VInt(3)), ("arg2", VInt(4))];
  }

  lemma Strip1()
    ensures StripPrefixed("nself_", [("nself_arg2", VInt(2)), ("nself_arg1", VInt(1))]) == [("arg2", VInt(2)), ("arg1", VInt(1))]
  {
    var d: Dict := [("nself_arg2", VInt(2)), ("nself_arg1", VInt(1))];
    assert "nself_arg2"[6..] == "arg2" && "nself_arg1"[6..] == "arg1";
    assert ToProc("nself_", d) == ["nself_arg2", "nself_arg1"] by {
      assert Strippable("nself_", "nself_arg2") && Strippable("nself_", "nself_arg1");
      assert d[1..] == [("nself_arg1", VInt(1))] && d[1..][1..] == [];
    }
    var d1 := Del(Put(d, "arg2", VInt(2)), "nself_arg2");
    assert Put(d, "arg2", VInt(2)) == d + [("arg2", VInt(2))];
    assert d1 == [("nself_arg1", VInt(1)), ("arg2", VInt(2))];
    var d2 := Del(Put(d1, "arg1", VInt(1)), "nself_arg1");
    assert d1[1..] == [("arg2", VInt(2))] && d1[1..][1..] == [];
    assert Put(d1[1..], "arg1", VInt(1)) == [("arg2", VInt(2)), ("arg1", VInt(1))];
    assert Put(d1, "arg1", VInt(1)) == d1 + [("arg1", VInt(1))];
    assert d2 == [("arg2", VInt(2)), ("arg1", VInt(1))];
    assert StripFold("nself_", d, ["nself_arg2", "nself_arg1"]) == StripFold("nself_", d1, ["nself_arg1"]);
    assert StripFold("nself_", d1, ["nself_arg1"]) == StripFold("nself_", d2, []);
  }

  /** `MyClass.foo(nself_arg1=1, nself_arg2=2, arg1=3, arg2=4)`: the
      prefixed configuration names fill the namespace, which the wrapper
      strips to `arg2=2, arg1=1`; `arg1` and `arg2` go to the function. */
  lemma Scenario1()
    ensures UntypedResolve(false, Cfg1, Sig1, None, [],
      [("nself_arg1", VInt(1)), ("nself_arg2", VInt(2)), ("arg1", VInt(3)), ("arg2", VInt(4))]) ==
      Ok(Invocation(VObj([("arg2", VInt(2)), ("arg1", VInt(1))]), [], [("arg1", VInt(3)), ("arg2", VInt(4))]))
  {
    Parser1Built();
    StaticResolve(false, Cfg1, Sig1, Parser1, [], Keywords1);
    Static1();
  }

  const Keywords1: Dict := [("nself_arg1", VInt(1)), ("nself_arg2", VInt(2)), ("arg1", VInt(3)), ("arg2", VInt(4))]

  /** None of the call's keywords takes the replacing branch. */
  lemma Steps1()
    ensures ConsistentVars(Parser1)
    ensures forall i :: 0 <= i < |Keywords1| ==> StepAsWritten(Parser1, Keywords1[i].0) != Replace
  {
    assert !HasVarKeyword(Sig1);
    assert StepAsWritten(Parser1, "nself_arg1") == Store("nself_arg1");
    assert StepAsWritten(Parser1, "nself_arg2") == Store("nself_arg2");
    assert StepAsWritten(Parser1, "arg1") == Pass && StepAsWritten(Parser1, "arg2") == Pass;
  }

  lemma Corrected1()
    ensures UntypedStaticCallCorrected(Parser1, [], Keywords1) ==
      Ok(Invocation(VObj([("arg2", VInt(2)), ("arg1", VInt(1))]), [], [("arg1", VInt(3)), ("arg2", VInt(4))]))
  {
    Classify1();
    Strip1();
  }

  lemma Static1()
    ensures UntypedStaticCall(Parser1, [], Keywords1) ==
      Ok(Invocation(VObj([("arg2", VInt(2)), ("arg1", VInt(1))]), [], [("arg1", VInt(3)), ("arg2", VInt(4))]))
  {
    Steps1();
    AsWrittenCallWithoutPrefix(Parser1, [], Keywords1);
    Corrected1();
  }

  /** On the class, resolving goes through the static path of the parser
      that decorating built. */
  lemma StaticResolve(bare: bool, cfg: Config, sig: Signature, p: Parser, args: seq<Value>, kwargs: Dict)
    requires Decorate(bare, cfg, sig) == Ok(p)
    ensures UntypedResolve(bare, cfg, sig, None, args, kwargs) == UntypedStaticCall(p, args, kwargs)
  {
  }
}

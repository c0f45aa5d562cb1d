/** The decorator of a flexible method: what a call through it hands to
    the decorated function, on an instance and statically, and the object
    whose `user_init` builds the parser at every access. */
module FlexMethod {
  import opened PyValues
  import opened InspectTools
  import opened FlexParsers
  import opened FlexSignatures
  import opened FlexClassify
  import opened FlexConstruct

  /** The attribute that tells the function whether it was called
      statically. */
  const Marker: Name := "__static_from_flexmethod__"

  /** `prepare_args(args, kwargs)`: the selected parser's classification. */
  function Classify(p: Parser, args: seq<Value>, kwargs: Dict): Result<Classified> {
    match p.kind
    case Dummy => ClassifyDummy(args, kwargs)
    case FullSignature => ClassifyFull(p, args, kwargs)
    case SignatureInject => ClassifyInject(p, args, kwargs)
  }

  // ---------------------------------------------------------------------
  // Prefix stripping

  /** A context key the wrapper renames: strictly longer than the prefix
      and starting with it. */
  predicate Strippable(np: Name, k: Name) {
    |k| > |np| && HasPrefix(k, np)
  }

  /** The name a key stands for once its prefix is removed. */
  function Stripped(np: Name, k: Name): Name {
    if Strippable(np, k) then k[|np|..] else k
  }

  /** The keys the wrapper's first loop collects, in dict order. */
  function ToProc(np: Name, d: Dict): seq<Name> {
    if d == [] then []
    else (if Strippable(np, d[0].0) then [d[0].0] else []) + ToProc(np, d[1..])
  }

  /** The first loop collects exactly the keys the pass renames. */
  lemma ToProcMembers(np: Name, d: Dict)
    ensures forall k :: k in ToProc(np, d) <==> k in Keys(d) && Strippable(np, k)
  {
    if d != [] {
      ToProcMembers(np, d[1..]);
    }
  }

  /** The wrapper's second loop, from key `ks[0]` on: copy the key's value
      to its stripped name, then delete the key. A key already gone is
      passed over; a Python dict cannot get there, since its keys are
      distinct and each is deleted only at its own turn. */
  function StripFold(np: Name, d: Dict, ks: seq<Name>): Dict
    decreases |ks|
  {
    if ks == [] then d
    else
      var k := ks[0];
      var d' := if Strippable(np, k) && Get(d, k).Some? then Del(Put(d, k[|np|..], Get(d, k).value), k) else d;
      StripFold(np, d', ks[1..])
  }

  /** The prefix-stripping pass of the static path. */
  function StripPrefixed(np: Name, d: Dict): Dict {
    StripFold(np, d, ToProc(np, d))
  }

  /** The wrapper's first loop: collect the prefixed keys in dict order. */
  method CollectPrefixed(np: Name, d: Dict) returns (toProc: seq<Name>)
    ensures toProc == ToProc(np, d)
  {
    toProc := [];
    for i := 0 to |d|
      invariant toProc + ToProc(np, d[i..]) == ToProc(np, d)
    {
      assert d[i..][0] == d[i] && d[i..][1..] == d[i + 1..];
      var k := d[i].0;
      if Strippable(np, k) {
        toProc := toProc + [k];
      }
    }
    assert d[|d|..] == [];
  }

  /** The wrapper's second loop: rename each collected key in turn. */
  method RenamePrefixed(np: Name, d: Dict, toProc: seq<Name>) returns (r: Dict)
    ensures r == StripFold(np, d, toProc)
  {
    r := d;
    for j := 0 to |toProc|
      invariant StripFold(np, r, toProc[j..]) == StripFold(np, d, toProc)
    {
      assert toProc[j..][1..] == toProc[j + 1..];
      var k := toProc[j];
      if |k| > |np| && k[..|np|] == np {
        match Get(r, k)
        case Some(v) =>
          r := Put(r, k[|np|..], v);
          r := Del(r, k);
        case None =>
      }
    }
    assert toProc[|toProc|..] == [];
  }

  /** The two loops of the static path as written. */
  method StripPrefixes(np: Name, d: Dict) returns (r: Dict)
    ensures r == StripPrefixed(np, d)
  {
    var toProc := CollectPrefixed(np, d);
    r := RenamePrefixed(np, d, toProc);
  }

  /** The first key of `ks` whose stripped name is `n`. */
  function SourceOf(np: Name, ks: seq<Name>, n: Name): (r: Option<Name>)
    ensures r.Some? ==> r.value in ks && Strippable(np, r.value) && r.value[|np|..] == n
    ensures r.None? ==> forall k :: k in ks && Strippable(np, k) ==> k[|np|..] != n
  {
    if ks == [] then None
    else if Strippable(np, ks[0]) && ks[0][|np|..] == n then Some(ks[0])
    else SourceOf(np, ks[1..], n)
  }

  /** Two keys with the same prefix and the same stripped name are equal. */
  lemma StrippedInjective(np: Name, a: Name, b: Name)
    requires Strippable(np, a) && Strippable(np, b) && a[|np|..] == b[|np|..]
    ensures a == b
  {
    assert a == a[..|np|] + a[|np|..];
    assert b == b[..|np|] + b[|np|..];
  }

  /** No stripped name of a key in `ks` is a key of `d` or in `ks`. */
  predicate NoCollision(np: Name, d: Dict, ks: seq<Name>) {
    forall k :: k in ks ==> Strippable(np, k) && k in Keys(d) && k[|np|..] !in Keys(d) && k[|np|..] !in ks
  }

  /** The renaming loop, read at one name: a processed key is gone, the
      stripped name of a processed key holds that key's value, and every
      other name keeps its value. */
  lemma {:induction false} StripFoldGet(np: Name, d: Dict, ks: seq<Name>, n: Name)
    requires DistinctKeys(d) && NoDup(ks) && NoCollision(np, d, ks)
    ensures Get(StripFold(np, d, ks), n) ==
      if n in ks then None
      else match SourceOf(np, ks, n)
        case Some(k) => Get(d, k)
        case None => Get(d, n)
    decreases |ks|
  {
    if ks != [] {
      var k := ks[0];
      assert k in ks;
      var s := k[|np|..];
      GetIn(d, k);
      var v := Get(d, k).value;
      var put := Put(d, s, v);
      var d' := Del(put, k);
      KeysPut(d, s, v);
      DistinctPut(d, s, v);
      KeysDel(put, k);
      assert NoDup(ks[1..]);
      forall k2 | k2 in ks[1..]
        ensures Strippable(np, k2) && k2 in Keys(d') && k2[|np|..] !in Keys(d') && k2[|np|..] !in ks[1..]
      {
        assert k2 in ks && k2 != k;
        if k2[|np|..] == s {
          StrippedInjective(np, k, k2);
        }
      }
      StripFoldGet(np, d', ks[1..], n);
      GetDel(put, k, n);
      GetPut(d, s, v, n);
      match SourceOf(np, ks[1..], n)
      case Some(k2) =>
        assert k2 != k && k2 != s;
        GetDel(put, k, k2);
        GetPut(d, s, v, k2);
        if s == n {
          StrippedInjective(np, k, k2);
        }
      case None =>
    }
  }

  /** Under distinct keys, each key the first loop collects is collected
      once. */
  lemma ToProcNoDup(np: Name, d: Dict)
    requires DistinctKeys(d)
    ensures NoDup(ToProc(np, d))
  {
    if d != [] {
      ToProcNoDup(np, d[1..]);
      ToProcMembers(np, d[1..]);
      assert d[0].0 !in Keys(d[1..]);
    }
  }

  /** No stripped name of a prefixed key is already a key. */
  predicate NoChain(np: Name, d: Dict) {
    forall i, j :: 0 <= i < |d| && 0 <= j < |d| && Strippable(np, d[i].0) ==> d[i].0[|np|..] != d[j].0
  }

  /** When no stripped name is already a key, the pass renames each
      prefixed key to its stripped name and keeps every value: each key's
      value is found under its stripped name, and every name that holds a
      value is the stripped name of a key. */
  lemma StripRenames(np: Name, d: Dict)
    requires DistinctKeys(d) && NoChain(np, d)
    ensures forall i :: 0 <= i < |d| ==> Get(StripPrefixed(np, d), Stripped(np, d[i].0)) == Some(d[i].1)
    ensures forall n :: Get(StripPrefixed(np, d), n).Some? ==> exists i :: 0 <= i < |d| && n == Stripped(np, d[i].0)
  {
    var ks := ToProc(np, d);
    ToProcNoDup(np, d);
    ToProcMembers(np, d);
    forall k | k in ks
      ensures Strippable(np, k) && k in Keys(d) && k[|np|..] !in Keys(d) && k[|np|..] !in ks
    {
      var i :| 0 <= i < |d| && d[i].0 == k;
      forall j | 0 <= j < |d| ensures k[|np|..] != d[j].0 {
        assert Strippable(np, d[i].0);
      }
    }
    forall i | 0 <= i < |d|
      ensures Get(StripPrefixed(np, d), Stripped(np, d[i].0)) == Some(d[i].1)
    {
      var n := Stripped(np, d[i].0);
      StripFoldGet(np, d, ks, n);
      GetAt(d, i);
      if Strippable(np, d[i].0) {
        assert n !in ks;
        assert SourceOf(np, ks, n).Some?;
        StrippedInjective(np, d[i].0, SourceOf(np, ks, n).value);
      } else {
        assert n !in ks;
        assert SourceOf(np, ks, n).None?;
      }
    }
    forall n | Get(StripPrefixed(np, d), n).Some?
      ensures exists i :: 0 <= i < |d| && n == Stripped(np, d[i].0)
    {
      StripFoldGet(np, d, ks, n);
      match SourceOf(np, ks, n)
      case Some(k) =>
        var i :| 0 <= i < |d| && d[i].0 == k;
        assert n == Stripped(np, d[i].0);
      case None =>
        GetIn(d, n);
        var i :| 0 <= i < |d| && d[i].0 == n;
        assert n == Stripped(np, d[i].0);
    }
  }

  /** When a stripped name is itself a prefixed key, the pass is order
      dependent and drops a value: with prefix `c_`, the context
      `{c_c_a: 1, c_a: 2}` becomes `{a: 1}`. */
  lemma StripChain()
    ensures StripPrefixed("c_", [("c_c_a", VInt(1)), ("c_a", VInt(2))]) == [("a", VInt(1))]
  {
    var d: Dict := [("c_c_a", VInt(1)), ("c_a", VInt(2))];
    assert ToProc("c_", d) == ["c_c_a", "c_a"] by {
      assert Strippable("c_", "c_c_a") && Strippable("c_", "c_a");
      assert d[1..] == [("c_a", VInt(2))] && d[1..][1..] == [];
    }
    assert "c_c_a"[2..] == "c_a" && "c_a"[2..] == "a";
    var d1 := Del(Put(d, "c_a", VInt(1)), "c_c_a");
    assert d1 == [("c_a", VInt(1))];
    assert Put(d1, "a", VInt(1)) == [("c_a", VInt(1)), ("a", VInt(1))];
    var d2 := Del(Put(d1, "a", VInt(1)), "c_a");
    assert d2 == [("a", VInt(1))];
    assert StripFold("c_", d, ["c_c_a", "c_a"]) == StripFold("c_", d1, ["c_a"]);
    assert StripFold("c_", d1, ["c_a"]) == StripFold("c_", d2, []);
  }

  // ---------------------------------------------------------------------
  // The call

  /** What the decorated function is called with: its first argument and
      the positional and keyword arguments after it. */
  datatype Invocation = Invocation(self: Value, args: seq<Value>, kwargs: Dict)

  /** The instance path of `wrapper`: the instance, whose attributes are
      `instance`, gets the marker False and the arguments pass through. */
  function InstanceCall(instance: Dict, args: seq<Value>, kwargs: Dict): (r: Invocation)
    ensures r.self.VObj? && Get(r.self.attrs, Marker) == Some(VBool(false))
    ensures forall n :: n != Marker ==> Get(r.self.attrs, n) == Get(instance, n)
    ensures r.args == args && r.kwargs == kwargs
  {
    GetPut(instance, Marker, VBool(false), Marker);
    assert forall n :: n != Marker ==> Get(Put(instance, Marker, VBool(false)), n) == Get(instance, n) by {
      forall n | n != Marker {
        GetPut(instance, Marker, VBool(false), n);
      }
    }
    Invocation(VObj(Put(instance, Marker, VBool(false))), args, kwargs)
  }

  /** The static path of `wrapper`: a dict context is stripped of its
      prefixes and becomes, with the marker True, the attributes of a fresh
      dummy object; an object context gets the marker itself; any other
      value has no `__dict__`. */
  function StaticCall(p: Parser, args: seq<Value>, kwargs: Dict): Result<Invocation> {
    var c :- Classify(p, args, kwargs);
    match c.ctx
    case VDict(d) => Ok(Invocation(VObj(Put(StripPrefixed(p.prefix, d), Marker, VBool(true))), c.args, c.kwargs))
    case VObj(attrs) => Ok(Invocation(VObj(Put(attrs, Marker, VBool(true))), c.args, c.kwargs))
    case _ => Err(PyError(AttributeError, "__dict__"))
  }

  /** `wrapper`, on an instance when `instance` holds its attributes and
      statically otherwise. */
  function Call(p: Parser, instance: Option<Dict>, args: seq<Value>, kwargs: Dict): Result<Invocation> {
    if instance.Some? then Ok(InstanceCall(instance.value, args, kwargs)) else StaticCall(p, args, kwargs)
  }

  /** An access followed by a call: the parser is built at every access,
      so its errors surface on instance calls too. */
  function Resolve(v: Variant, parens: bool, cfg: Config, sig: Signature,
                   instance: Option<Dict>, args: seq<Value>, kwargs: Dict): Result<Invocation> {
    var p :- Construct(v, parens, cfg, sig);
    Call(p, instance, args, kwargs)
  }

  /** A successful static call always hands the function an object whose
      marker is True; it fails exactly when the parser fails or its context
      is neither a dict nor an object. */
  lemma StaticMarker(p: Parser, args: seq<Value>, kwargs: Dict)
    ensures var r := StaticCall(p, args, kwargs);
      var c := Classify(p, args, kwargs);
      (r.Err? <==> c.Err? || !(c.value.ctx.VDict? || c.value.ctx.VObj?)) &&
      (r.Ok? ==> r.value.self.VObj? && Get(r.value.self.attrs, Marker) == Some(VBool(true)) &&
                 r.value.args == c.value.args && r.value.kwargs == c.value.kwargs)
  {
    var c := Classify(p, args, kwargs);
    if c.Ok? {
      match c.value.ctx
      case VDict(d) => GetPut(StripPrefixed(p.prefix, d), Marker, VBool(true), Marker);
      case VObj(attrs) => GetPut(attrs, Marker, VBool(true), Marker);
      case _ =>
    }
  }

  /** The dummy parser passes a dict in first position through the
      stripping pass: with no stripped name already a key, the function's
      first argument holds every entry under its stripped name, and the
      remaining arguments follow unchanged. */
  lemma DummyStaticCall(p: Parser, d: Dict, rest: seq<Value>, kwargs: Dict)
    requires p.kind == Dummy && DistinctKeys(d) && NoChain(p.prefix, d)
    ensures var r := StaticCall(p, [VDict(d)] + rest, kwargs);
      r.Ok? && r.value.args == rest && r.value.kwargs == kwargs &&
      forall i :: 0 <= i < |d| && Stripped(p.prefix, d[i].0) != Marker ==>
        Get(r.value.self.attrs, Stripped(p.prefix, d[i].0)) == Some(d[i].1)
  {
    assert ([VDict(d)] + rest)[1..] == rest;
    StripRenames(p.prefix, d);
    forall i | 0 <= i < |d| && Stripped(p.prefix, d[i].0) != Marker
      ensures Get(Put(StripPrefixed(p.prefix, d), Marker, VBool(true)), Stripped(p.prefix, d[i].0)) == Some(d[i].1)
    {
      GetPut(StripPrefixed(p.prefix, d), Marker, VBool(true), Stripped(p.prefix, d[i].0));
    }
  }

  // ---------------------------------------------------------------------
  // Worked calls

  /** A parenthesised `flexmethod` builds the parser its selection picks,
      once that parser's constructor and the duplicate check pass. */
  lemma ConstructFrom(cfg: Config, sig: Signature, kind: ParserKind, p: Parser)
    requires FirstMatch([Dummy, FullSignature, SignatureInject], cfg, FactsOf(sig)) == Some(kind)
    requires NewParser(kind, cfg, sig) == Ok(p) && NoDup(ImplementedKeys(cfg))
    ensures Construct(Flex, true, cfg, sig) == Ok(p)
  {
  }

  /** The signature `(ctx, a)`. */
  const InjectSig: Signature := [Param("ctx", PositionalOrKeyword, None), Param("a", PositionalOrKeyword, None)]

  /** The configuration `('x', y=4)`. */
  const InjectCfg: Config := Config(["x"], [("y", VInt(4))])

  /** The inject signature `(ctx_x, a, ctx_y=4)` passes `inspect.Signature`. */
  lemma InjectExampleSignature()
    ensures ValidSignature(StaticSignature(Parser(SignatureInject, InjectCfg, ["a"], [], (None, None), InjectSig, "ctx_")))
  {
    var p := Parser(SignatureInject, InjectCfg, ["a"], [], (None, None), InjectSig, "ctx_");
    assert ParamMod("ctx_", "x") == "ctx_x" && ParamMod("ctx_", "y") == "ctx_y";
    assert StaticSignature(p) == [Param("ctx_x", PositionalOrKeyword, None), Param("a", PositionalOrKeyword, None), Param("ctx_y", PositionalOrKeyword, Some(VInt(4)))];
    PlainSignatureValid(p);
  }

  lemma InjectExampleChosen()
    ensures FirstMatch([Dummy, FullSignature, SignatureInject], InjectCfg, FactsOf(InjectSig)) == Some(SignatureInject)
  {
    var sig, cfg := InjectSig, InjectCfg;
    var facts := FactsOf(sig);
    assert facts == FuncFacts(["ctx", "a"], [], (None, None)) by {
      assert sig[1..] == [Param("a", PositionalOrKeyword, None)] && sig[1..][1..] == [];
    }
    assert ImplementedKeys(cfg) == ["x", "y"];
    assert !FullCondition(cfg, facts) by {
      assert RequiredKeys(facts) == ["a"] && "a" !in ImplementedKeys(cfg);
    }
    FlexSelection(cfg, facts);
  }

  /** The inject parser's constructor succeeds on `(ctx, a)`. */
  lemma InjectExampleNewParser()
    ensures NewParser(SignatureInject, InjectCfg, InjectSig) == Ok(Parser(SignatureInject, InjectCfg, ["a"], [], (None, None), InjectSig, "ctx_"))
  {
    var sig, cfg := InjectSig, InjectCfg;
    var p := Parser(SignatureInject, cfg, ["a"], [], (None, None), sig, "ctx_");
    assert FactsOf(sig) == FuncFacts(["ctx", "a"], [], (None, None)) by {
      assert sig[1..] == [Param("a", PositionalOrKeyword, None)] && sig[1..][1..] == [];
    }
    assert Prefix("ctx") == "ctx_" && ["ctx", "a"][1..] == ["a"];
    assert ParserOf(SignatureInject, cfg, sig) == Ok(p);
    assert FirstCollision(cfg.staticDefaults, []) == None;
    InjectExampleSignature();
  }

  /** The configuration `('x', y=4)` does not cover `a`, so the inject
      parser is built, with prefix `ctx_`. */
  lemma InjectExampleParser()
    ensures var sig, cfg := InjectSig, InjectCfg;
      Construct(Flex, true, cfg, sig) == Ok(Parser(SignatureInject, cfg, ["a"], [], (None, None), sig, "ctx_"))
  {
    InjectExampleChosen();
    InjectExampleNewParser();
    assert NoDup(ImplementedKeys(InjectCfg)) by {
      assert ImplementedKeys(InjectCfg) == ["x", "y"];
    }
    ConstructFrom(InjectCfg, InjectSig, SignatureInject, Parser(SignatureInject, InjectCfg, ["a"], [], (None, None), InjectSig, "ctx_"));
  }

  /** The inject parser on `x=1, a=2`: the default `y` and the keyword
      `x` make the context, and `a` is passed on. */
  lemma InjectExampleClassify()
    ensures var sig, cfg := InjectSig, InjectCfg;
      var p := Parser(SignatureInject, cfg, ["a"], [], (None, None), sig, "ctx_");
      ClassifyInject(p, [], [("x", VInt(1)), ("a", VInt(2))]) ==
      Ok(Classified(VDict([("y", VInt(4)), ("x", VInt(1))]), [], [("a", VInt(2))]))
  {
    var sig, cfg := InjectSig, InjectCfg;
    var p := Parser(SignatureInject, cfg, ["a"], [], (None, None), sig, "ctx_");
    assert InjectPositional(p, []) == ([("y", VInt(4))], []);
    var kws: Dict := [("x", VInt(1)), ("a", VInt(2))];
    assert InjectRoute(p, "x") == ToContext("x");
    assert InjectRoute(p, "a") == ToFunc;
    assert kws[1..] == [("a", VInt(2))] && kws[1..][1..] == [];
    var ctx: Dict := [("y", VInt(4)), ("x", VInt(1))];
    assert kws[0] == ("x", VInt(1)) && Put([("y", VInt(4))], "x", VInt(1)) == ctx;
    assert InjectKeywords(p, [("y", VInt(4))], [], kws) == InjectKeywords(p, ctx, [], kws[1..]);
    assert InjectKeywords(p, ctx, [], kws[1..]) == InjectKeywords(p, ctx, [("a", VInt(2))], []);
  }

  /** `op(x=1, a=2)` on the class: the function receives a dummy whose
      attributes are `y=4`, `x=1` and the marker, and the keyword `a=2`. */
  lemma InjectScenario()
    ensures Resolve(Flex, true, InjectCfg, InjectSig, None, [], [("x", VInt(1)), ("a", VInt(2))]) ==
      Ok(Invocation(VObj([("y", VInt(4)), ("x", VInt(1)), (Marker, VBool(true))]), [], [("a", VInt(2))]))
  {
    var p := Parser(SignatureInject, InjectCfg, ["a"], [], (None, None), InjectSig, "ctx_");
    var kws: Dict := [("x", VInt(1)), ("a", VInt(2))];
    var ctx: Dict := [("y", VInt(4)), ("x", VInt(1))];
    var inv := Invocation(VObj([("y", VInt(4)), ("x", VInt(1)), (Marker, VBool(true))]), [], [("a", VInt(2))]);
    assert StaticCall(p, [], kws) == Ok(inv) by {
      assert Classify(p, [], kws) == Ok(Classified(VDict(ctx), [], [("a", VInt(2))])) by {
        InjectExampleClassify();
      }
      assert StripPrefixed("ctx_", ctx) == ctx by {
        assert ToProc("ctx_", ctx) == [];
      }
      assert Put(ctx, Marker, VBool(true)) == [("y", VInt(4)), ("x", VInt(1)), (Marker, VBool(true))];
    }
    assert Construct(Flex, true, InjectCfg, InjectSig) == Ok(p) by {
      InjectExampleParser();
    }
  }

  /** The signature `(ctx, a, b)`. */
  const FullSig: Signature := [Param("ctx", PositionalOrKeyword, None), Param("a", PositionalOrKeyword, None), Param("b", PositionalOrKeyword, None)]

  /** The configuration `('b', 'a')`: what `@flexmethod('a', 'b')`
      leaves, since the decorator base moves the first decorator argument
      after the others. */
  const FullCfg: Config := Config(["b", "a"], [])

  /** The full signature `(b, a)` passes `inspect.Signature`. */
  lemma FullExampleSignature()
    ensures ValidSignature(StaticSignature(Parser(FullSignature, FullCfg, ["a", "b"], [], (None, None), FullSig, "ctx_")))
  {
    var p := Parser(FullSignature, FullCfg, ["a", "b"], [], (None, None), FullSig, "ctx_");
    assert FullName(p, "b") == "b" && FullName(p, "a") == "a";
    assert StaticSignature(p) == [Param("b", PositionalOrKeyword, None), Param("a", PositionalOrKeyword, None)];
    PlainSignatureValid(p);
  }

  /** The full-signature parser's constructor succeeds on `(ctx, a, b)`. */
  lemma FullExampleNewParser()
    ensures NewParser(FullSignature, FullCfg, FullSig) == Ok(Parser(FullSignature, FullCfg, ["a", "b"], [], (None, None), FullSig, "ctx_"))
  {
    var sig, cfg := FullSig, FullCfg;
    var p := Parser(FullSignature, cfg, ["a", "b"], [], (None, None), sig, "ctx_");
    assert FactsOf(sig) == FuncFacts(["ctx", "a", "b"], [], (None, None)) by {
      assert sig[1..] == [Param("a", PositionalOrKeyword, None), Param("b", PositionalOrKeyword, None)];
      assert sig[1..][1..] == [Param("b", PositionalOrKeyword, None)] && sig[1..][1..][1..] == [];
    }
    assert Prefix("ctx") == "ctx_" && ["ctx", "a", "b"][1..] == ["a", "b"];
    assert ParserOf(FullSignature, cfg, sig) == Ok(p);
    FullExampleSignature();
  }

  /** The configuration `('b', 'a')` covers `a` and `b`, so the
      full-signature parser is built. */
  lemma FullExampleParser()
    ensures var sig, cfg := FullSig, FullCfg;
      Construct(Flex, true, cfg, sig) == Ok(Parser(FullSignature, cfg, ["a", "b"], [], (None, None), sig, "ctx_"))
  {
    FullExampleChosen();
    FullExampleNewParser();
    assert NoDup(ImplementedKeys(FullCfg)) by {
      assert ImplementedKeys(FullCfg) == ["b", "a"];
    }
    ConstructFrom(FullCfg, FullSig, FullSignature, Parser(FullSignature, FullCfg, ["a", "b"], [], (None, None), FullSig, "ctx_"));
  }

  lemma FullExampleChosen()
    ensures FirstMatch([Dummy, FullSignature, SignatureInject], FullCfg, FactsOf(FullSig)) == Some(FullSignature)
  {
    var sig, cfg := FullSig, FullCfg;
    var facts := FactsOf(sig);
    assert facts == FuncFacts(["ctx", "a", "b"], [], (None, None)) by {
      assert sig[1..] == [Param("a", PositionalOrKeyword, None), Param("b", PositionalOrKeyword, None)];
      assert sig[1..][1..] == [Param("b", PositionalOrKeyword, None)] && sig[1..][1..][1..] == [];
    }
    assert ImplementedKeys(cfg) == ["b", "a"];
    assert FullCondition(cfg, facts) by {
      assert RequiredKeys(facts) == ["a", "b"];
    }
    FlexSelection(cfg, facts);
  }

  /** The full-signature parser on `(2, 1)`: `b=2` and `a=1` are bound
      as keywords and the context stays empty. */
  lemma FullExampleClassify()
    ensures var p := Parser(FullSignature, FullCfg, ["a", "b"], [], (None, None), FullSig, "ctx_");
      ClassifyFull(p, [VInt(2), VInt(1)], []) == Ok(Classified(VDict([]), [], [("b", VInt(2)), ("a", VInt(1))]))
  {
    var p := Parser(FullSignature, FullCfg, ["a", "b"], [], (None, None), FullSig, "ctx_");
    var args := [VInt(2), VInt(1)];
    var nk: Dict := [("b", VInt(2)), ("a", VInt(1))];
    assert p.PositionalNames() == ["b", "a"];
    assert FullPositionals(p, [], [], 0, args, 0) == Ok((nk, [], 2)) by {
      assert FullPositionals(p, [], [], 0, args, 0) == FullPositionals(p, [("b", VInt(2))], [], 1, args, 1);
      assert Put([("b", VInt(2))], "a", VInt(1)) == nk;
      assert FullPositionals(p, [("b", VInt(2))], [], 1, args, 1) == FullPositionals(p, nk, [], 2, args, 2);
    }
  }

  /** `op(2, 1)` on the class of `@flexmethod('a', 'b') def op(ctx, a, b)`:
      the full-signature parser binds `b=2` and
      `a=1` and leaves the context empty. */
  lemma FullScenario()
    ensures var sig, cfg := FullSig, FullCfg;
      Resolve(Flex, true, cfg, sig, None, [VInt(2), VInt(1)], []) ==
      Ok(Invocation(VObj([(Marker, VBool(true))]), [], [("b", VInt(2)), ("a", VInt(1))]))
  {
    var p := Parser(FullSignature, FullCfg, ["a", "b"], [], (None, None), FullSig, "ctx_");
    var nk: Dict := [("b", VInt(2)), ("a", VInt(1))];
    assert StaticCall(p, [VInt(2), VInt(1)], []) == Ok(Invocation(VObj([(Marker, VBool(true))]), [], nk)) by {
      assert Classify(p, [VInt(2), VInt(1)], []) == Ok(Classified(VDict([]), [], nk)) by {
        FullExampleClassify();
      }
      assert StripPrefixed("ctx_", []) == [];
    }
    assert Construct(Flex, true, FullCfg, FullSig) == Ok(p) by {
      FullExampleParser();
    }
  }

  // ---------------------------------------------------------------------
  // The decorator object

  /** A parser's constructor as written: the prefix from the first
      required name (IndexError without one), then the static signature,
      which `inspect.Signature` refuses with ValueError when it is not a
      valid signature, then `error_check`. */
  method InitParser(kind: ParserKind, cfg: Config, sig: Signature) returns (r: Result<Parser>, signature: Signature)
    ensures r == NewParser(kind, cfg, sig)
    ensures r.Ok? ==> signature == StaticSignature(r.value)
  {
    var facts := FactsOf(sig);
    if facts.params == [] {
      return Err(PyError(IndexError, "")), [];
    }
    var p := Parser(kind, cfg, facts.params[1..], facts.defaults, facts.vars, sig, facts.params[0] + "_");
    match kind {
      case Dummy => signature := sig;
      case FullSignature => signature := CreateFullSignature(p);
      case SignatureInject => signature := CreateInjectSignature(p);
    }
    if kind != Dummy && !ValidSignature(signature) {
      return Err(PyError(ValueError, "")), signature;
    }
    var err := ErrorCheck(p);
    if err.Some? {
      return Err(err.value), signature;
    }
    r := Ok(p);
  }

  /** `ArgumentParsingDecorator` with its configuration fixed: the variant,
      whether it was written with parentheses, the configuration and the
      decorated function's signature. `user_init` sets the parser and the
      static signature. */
  class ArgumentParsingDecorator {
    const variant: Variant
    const parens: bool
    const config: Config
    const funcSignature: Signature
    var prepareArgs: Option<Parser>
    var staticSignature: Option<Signature>

    constructor (variant: Variant, parens: bool, config: Config, funcSignature: Signature)
      ensures this.variant == variant && this.parens == parens
      ensures this.config == config && this.funcSignature == funcSignature
      ensures prepareArgs.None? && staticSignature.None?
    {
      this.variant := variant;
      this.parens := parens;
      this.config := config;
      this.funcSignature := funcSignature;
      prepareArgs := None;
      staticSignature := None;
    }

    /** `user_init`: try the parsers in order and build the first that
        applies, then run `static_init`'s checks and publish the static
        signature. A parser that fails to build leaves no parser behind;
        one built before a duplicate-name error stays. */
    method UserInit() returns (err: Option<Error>)
      modifies this
      ensures var c := Construct(variant, parens, config, funcSignature);
        (err.None? <==> c.Ok?) && (err.Some? ==> err.value == c.error)
      ensures err.None? ==> prepareArgs == Some(Construct(variant, parens, config, funcSignature).value)
      ensures err.None? ==> staticSignature == Some(StaticSignature(prepareArgs.value))
      ensures err.Some? ==> staticSignature == old(staticSignature)
      ensures SetParsers(variant, parens).Err? ==> prepareArgs == old(prepareArgs)
      ensures SetParsers(variant, parens).Ok? ==>
        var b := BuildParser(variant, parens, config, funcSignature);
        prepareArgs == (if b.Ok? then Some(b.value) else None)
    {
      var kindsR := SetParsers(variant, parens);
      if kindsR.Err? {
        return Some(kindsR.error);
      }
      var kinds := kindsR.value;
      var facts := FactsOf(funcSignature);
      prepareArgs := None;
      var signature: Signature := [];
      for i := 0 to |kinds|
        invariant prepareArgs.None?
        invariant forall j :: 0 <= j < i ==> !Condition(kinds[j], config, facts)
      {
        if Condition(kinds[i], config, facts) {
          assert FirstMatch(kinds, config, facts) == Some(kinds[i]);
          var built;
          built, signature := InitParser(kinds[i], config, funcSignature);
          if built.Err? {
            return Some(built.error);
          }
          prepareArgs := Some(built.value);
          break;
        }
      }
      if prepareArgs.None? {
        return Some(SelectionFailure(kinds));
      }
      var dup := DuplicateCheck(config);
      if dup.Some? {
        return dup;
      }
      staticSignature := Some(signature);
      err := None;
    }

    /** `wrapper` once a parser is set: the instance path when `instance`
        holds the instance's attributes, the static path otherwise. */
    method Wrapper(instance: Option<Dict>, args: seq<Value>, kwargs: Dict) returns (r: Result<Invocation>)
      requires prepareArgs.Some?
      ensures r == Call(prepareArgs.value, instance, args, kwargs)
    {
      if instance.Some? {
        return Ok(Invocation(VObj(Put(instance.value, Marker, VBool(false))), args, kwargs));
      }
      var p := prepareArgs.value;
      var c: Result<Classified>;
      match p.kind {
        case Dummy => c := ClassifyDummy(args, kwargs);
        case FullSignature => c := FullCall(p, args, kwargs);
        case SignatureInject => c := InjectCall(p, args, kwargs);
      }
      if c.Err? {
        return Err(c.error);
      }
      var cl := c.value;
      match cl.ctx
      case VDict(d) =>
        var nmspAttrs := StripPrefixes(p.prefix, d);
        nmspAttrs := Put(nmspAttrs, Marker, VBool(true));
        r := Ok(Invocation(VObj(nmspAttrs), cl.args, cl.kwargs));
      case VObj(attrs) =>
        r := Ok(Invocation(VObj(Put(attrs, Marker, VBool(true))), cl.args, cl.kwargs));
      case _ =>
        r := Err(PyError(AttributeError, "__dict__"));
    }

    /** An access through the class (`instance` absent) or through an
        instance, followed by a call: `user_init` runs again, then
        `wrapper`. */
    method Access(instance: Option<Dict>, args: seq<Value>, kwargs: Dict) returns (r: Result<Invocation>)
      modifies this
      ensures r == Resolve(variant, parens, config, funcSignature, instance, args, kwargs)
    {
      var err := UserInit();
      if err.Some? {
        return Err(err.value);
      }
      r := Wrapper(instance, args, kwargs);
    }
  }
}

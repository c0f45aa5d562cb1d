/** What each parser of the flexible-method engine makes of the arguments
    of a static call: the context, and the residual positional and keyword
    arguments passed on to the decorated function. */
module FlexClassify {
  import opened PyValues
  import opened InspectTools
  import opened FlexParsers
  import opened FlexSignatures

  /** The triple a parser returns: the context (a dict of attributes, or
      whatever the caller passed in its place) and the residual
      arguments. */
  datatype Classified = Classified(ctx: Value, args: seq<Value>, kwargs: Dict)

  function Min(a: int, b: int): int {
    if a <= b then a else b
  }

  // ---------------------------------------------------------------------
  // Dummy parser

  /** `DummyParser.__call__`: the first positional argument is the
      context; an empty argument list raises IndexError. */
  function ClassifyDummy(args: seq<Value>, kwargs: Dict): (r: Result<Classified>)
    ensures r.Ok? <==> args != []
    ensures r.Err? ==> r.error == PyError(IndexError, "")
    ensures r.Ok? ==> [r.value.ctx] + r.value.args == args && r.value.kwargs == kwargs
  {
    if args == [] then Err(PyError(IndexError, ""))
    else Ok(Classified(args[0], args[1..], kwargs))
  }

  // ---------------------------------------------------------------------
  // Signature-inject parser

  /** Where a keyword argument goes. */
  datatype Route = ToFunc | ToContext(name: Name) | Reject

  /** The priority chain of `SignatureInjectParser.__call__` for keyword
      `k`. */
  function InjectRoute(p: Parser, k: Name): Route {
    if k in p.funcParams then ToFunc
    else if k in p.config.staticParams then ToContext(k)
    else if k in Keys(p.config.staticDefaults) then ToContext(k)
    else if k in Keys(p.funcDefaults) then ToFunc
    else if HasPrefix(k, p.prefix) then ToContext(k[|p.prefix|..])
    else if HasVarKeyword(InjectSignature(p)) then ToFunc
    else Reject
  }

  /** The positional half: the leading arguments bound to the static
      names, then the static defaults merged in; the arguments left over
      start after as many as the bound dict holds. */
  function InjectPositional(p: Parser, args: seq<Value>): (r: (Dict, seq<Value>))
    ensures |r.1| <= |args|
  {
    var sp := p.config.staticParams;
    var bound := FromPairs(Zip(sp, args[..Min(|sp|, |args|)]));
    UpdateLength([], Zip(sp, args[..Min(|sp|, |args|)]));
    (Update(bound, p.config.staticDefaults), args[|bound|..])
  }

  /** The keyword half, entry by entry, from a context and residual
      keywords built so far. */
  function InjectKeywords(p: Parser, ctx: Dict, newKwargs: Dict, kws: Dict): Result<(Dict, Dict)>
    decreases |kws|
  {
    if kws == [] then Ok((ctx, newKwargs))
    else
      var (k, v) := kws[0];
      match InjectRoute(p, k)
      case ToFunc => InjectKeywords(p, ctx, Put(newKwargs, k, v), kws[1..])
      case ToContext(n) => InjectKeywords(p, Put(ctx, n, v), newKwargs, kws[1..])
      case Reject => Err(PyError(TypeError, k))
  }

  /** `SignatureInjectParser.__call__` */
  function ClassifyInject(p: Parser, args: seq<Value>, kwargs: Dict): Result<Classified> {
    var (ctx0, rest) := InjectPositional(p, args);
    var routed :- InjectKeywords(p, ctx0, [], kwargs);
    Ok(Classified(VDict(routed.0), rest, routed.1))
  }

  /** `SignatureInjectParser.__call__`, the loop over the keywords. */
  method InjectCall(p: Parser, args: seq<Value>, kwargs: Dict) returns (r: Result<Classified>)
    ensures r == ClassifyInject(p, args, kwargs)
  {
    var sp := p.config.staticParams;
    var idx := |sp|;
    var nmspDict := FromPairs(Zip(sp, args[..Min(idx, |args|)]));
    UpdateLength([], Zip(sp, args[..Min(idx, |args|)]));
    idx := |nmspDict|;
    nmspDict := Update(nmspDict, p.config.staticDefaults);
    var newArgs := args[idx..];
    var newKwargs: Dict := [];
    ghost var ctx0 := nmspDict;
    for i := 0 to |kwargs|
      invariant InjectKeywords(p, nmspDict, newKwargs, kwargs[i..]) == InjectKeywords(p, ctx0, [], kwargs)
    {
      var (k, v) := kwargs[i];
      assert kwargs[i..][1..] == kwargs[i + 1..];
      if k in p.funcParams {
        newKwargs := Put(newKwargs, k, v);
      } else if k in sp {
        nmspDict := Put(nmspDict, k, v);
      } else if k in Keys(p.config.staticDefaults) {
        nmspDict := Put(nmspDict, k, v);
      } else if k in Keys(p.funcDefaults) {
        newKwargs := Put(newKwargs, k, v);
      } else if HasPrefix(k, p.prefix) {
        nmspDict := Put(nmspDict, k[|p.prefix|..], v);
      } else if HasVarKeyword(InjectSignature(p)) {
        newKwargs := Put(newKwargs, k, v);
      } else {
        return Err(PyError(TypeError, k));
      }
    }
    assert kwargs[|kwargs|..] == [];
    r := Ok(Classified(VDict(nmspDict), newArgs, newKwargs));
  }

  /** A keyword naming a required parameter of the function always reaches
      the function; a keyword the chain rejects names no parameter and no
      configuration entry, lacks the prefix, and meets a function without
      a `**` collector. */
  lemma InjectRouteProperties(p: Parser, k: Name)
    ensures k in p.funcParams ==> InjectRoute(p, k) == ToFunc
    ensures InjectRoute(p, k) == Reject <==>
      k !in p.funcParams && k !in p.config.staticParams && k !in Keys(p.config.staticDefaults)
      && k !in Keys(p.funcDefaults) && !HasPrefix(k, p.prefix) && p.funcVars.1.None?
    ensures InjectRoute(p, k) == ToFunc ==> k in p.funcParams || k in Keys(p.funcDefaults) || p.funcVars.1.Some?
    ensures InjectRoute(p, k).ToContext? ==>
      InjectRoute(p, k).name == k || p.prefix + InjectRoute(p, k).name == k
  {
    InjectSignatureCollector(p);
    if InjectRoute(p, k).ToContext? && InjectRoute(p, k).name != k {
      assert k == k[..|p.prefix|] + k[|p.prefix|..];
    }
  }

  /** The keyword pass fails exactly when some keyword is rejected, and
      then with a TypeError naming the first one. */
  lemma {:induction false} InjectKeywordsFailure(p: Parser, ctx: Dict, nk: Dict, kws: Dict)
    ensures InjectKeywords(p, ctx, nk, kws).Err? <==> exists i :: 0 <= i < |kws| && InjectRoute(p, kws[i].0) == Reject
    ensures InjectKeywords(p, ctx, nk, kws).Err? ==> exists i :: (0 <= i < |kws| &&
      InjectKeywords(p, ctx, nk, kws).error == PyError(TypeError, kws[i].0) &&
      InjectRoute(p, kws[i].0) == Reject &&
      forall j :: 0 <= j < i ==> InjectRoute(p, kws[j].0) != Reject)
    decreases |kws|
  {
    if kws != [] {
      var (k, v) := kws[0];
      match InjectRoute(p, k)
      case ToFunc =>
        InjectKeywordsFailure(p, ctx, Put(nk, k, v), kws[1..]);
        ShiftWitness(p, kws);
      case ToContext(n) =>
        InjectKeywordsFailure(p, Put(ctx, n, v), nk, kws[1..]);
        ShiftWitness(p, kws);
      case Reject =>
    }
  }

  lemma ShiftWitness(p: Parser, kws: Dict)
    requires kws != [] && InjectRoute(p, kws[0].0) != Reject
    ensures (exists i :: 0 <= i < |kws| && InjectRoute(p, kws[i].0) == Reject) <==>
      (exists i :: 0 <= i < |kws[1..]| && InjectRoute(p, kws[1..][i].0) == Reject)
  {
    if exists i :: 0 <= i < |kws| && InjectRoute(p, kws[i].0) == Reject {
      var i :| 0 <= i < |kws| && InjectRoute(p, kws[i].0) == Reject;
      assert kws[1..][i - 1] == kws[i];
    }
  }

  /** The entries of `kws` the chain sends to the function, in order. */
  function FuncEntries(p: Parser, kws: Dict): (r: Dict)
    ensures |r| <= |kws|
    ensures forall e :: e in r ==> e in kws && InjectRoute(p, e.0) == ToFunc
  {
    if kws == [] then []
    else if InjectRoute(p, kws[0].0) == ToFunc then [kws[0]] + FuncEntries(p, kws[1..])
    else FuncEntries(p, kws[1..])
  }

  lemma FuncEntriesKeys(p: Parser, kws: Dict, k: Name)
    requires k in Keys(FuncEntries(p, kws))
    ensures k in Keys(kws)
  {
    if kws != [] && InjectRoute(p, kws[0].0) == ToFunc && k != kws[0].0 {
      assert Keys(FuncEntries(p, kws)) == [kws[0].0] + Keys(FuncEntries(p, kws[1..]));
      FuncEntriesKeys(p, kws[1..], k);
    } else if kws != [] && InjectRoute(p, kws[0].0) != ToFunc {
      FuncEntriesKeys(p, kws[1..], k);
    }
  }

  /** On a successful call, the residual keywords are exactly the keyword
      arguments routed to the function, in the caller's order and with
      the caller's values. */
  lemma {:induction false} InjectResidualKeywords(p: Parser, ctx: Dict, nk: Dict, kws: Dict)
    requires DistinctKeys(kws) && Disjoint(nk, kws)
    requires InjectKeywords(p, ctx, nk, kws).Ok?
    ensures InjectKeywords(p, ctx, nk, kws).value.1 == nk + FuncEntries(p, kws)
    decreases |kws|
  {
    if kws != [] {
      var (k, v) := kws[0];
      DisjointStep(nk, kws);
      match InjectRoute(p, k)
      case ToFunc =>
        PutNew(nk, k, v);
        InjectResidualKeywords(p, ctx, nk + [(k, v)], kws[1..]);
        assert nk + [(k, v)] + FuncEntries(p, kws[1..]) == nk + FuncEntries(p, kws);
      case ToContext(n) =>
        assert Disjoint(nk, kws[1..]);
        InjectResidualKeywords(p, Put(ctx, n, v), nk, kws[1..]);
    }
  }

  /** The value the keyword pass leaves under context name `n`: that of
      the last keyword routed to `n`, if any. */
  function LastContextWrite(p: Parser, kws: Dict, n: Name): Option<Value> {
    if kws == [] then None
    else
      match LastContextWrite(p, kws[1..], n)
      case Some(v) => Some(v)
      case None => if InjectRoute(p, kws[0].0) == ToContext(n) then Some(kws[0].1) else None
  }

  /** On a successful call, each context name holds the value of the last
      keyword routed to it, or else what the positional half put there. */
  lemma {:induction false} InjectContext(p: Parser, ctx: Dict, nk: Dict, kws: Dict, n: Name)
    requires InjectKeywords(p, ctx, nk, kws).Ok?
    ensures Get(InjectKeywords(p, ctx, nk, kws).value.0, n) ==
      if LastContextWrite(p, kws, n).Some? then LastContextWrite(p, kws, n) else Get(ctx, n)
    decreases |kws|
  {
    if kws != [] {
      var (k, v) := kws[0];
      match InjectRoute(p, k)
      case ToFunc =>
        InjectContext(p, ctx, Put(nk, k, v), kws[1..], n);
      case ToContext(m) =>
        InjectContext(p, Put(ctx, m, v), nk, kws[1..], n);
        GetPut(ctx, m, v, n);
    }
  }

  /** With distinct configuration names, the positional half binds the
      first arguments to the static names in order, follows them with the
      static defaults, and leaves the remaining arguments in order. */
  lemma InjectPositionalBinding(p: Parser, args: seq<Value>)
    requires NoDup(p.config.staticParams + Keys(p.config.staticDefaults))
    ensures InjectPositional(p, args).0 == Zip(p.config.staticParams, args) + p.config.staticDefaults
    ensures InjectPositional(p, args).1 == args[Min(|p.config.staticParams|, |args|)..]
  {
    var sp := p.config.staticParams;
    var sd := p.config.staticDefaults;
    var m := Min(|sp|, |args|);
    var z := Zip(sp, args[..m]);
    assert z == Zip(sp, args) by {
      assert |z| == |Zip(sp, args)| == m;
      forall i | 0 <= i < m ensures z[i] == Zip(sp, args)[i] {
      }
    }
    NoDupAppend(sp, Keys(sd));
    assert FromPairs(z) == z by {
      ZipDistinct(sp, args[..m]);
      FromPairsDistinct(z);
    }
    assert Update(z, sd) == z + sd by {
      DistinctKeysNoDup(sd);
      assert Disjoint(z, sd) by {
        forall i, j | 0 <= i < |z| && 0 <= j < |sd| ensures z[i].0 != sd[j].0 {
          assert z[i].0 == sp[i] && Keys(sd)[j] == sd[j].0;
        }
      }
      UpdateDisjoint(z, sd);
    }
    assert InjectPositional(p, args) == (Update(FromPairs(z), sd), args[|FromPairs(z)|..]);
  }

  // ---------------------------------------------------------------------
  // Full-signature parser

  /** The keyword loop of `FullSignatureParser.__call__`: a parameter name
      goes to the function, and counts when it is a required name that is
      not also a default name; any other name goes to the context. */
  function FullKeywords(p: Parser, nk: Dict, ctx: Dict, count: nat, kws: Dict): (Dict, Dict, nat)
    decreases |kws|
  {
    if kws == [] then (nk, ctx, count)
    else
      var (k, v) := kws[0];
      if k in Keys(p.funcDefaults) then FullKeywords(p, Put(nk, k, v), ctx, count, kws[1..])
      else if k in p.funcParams then FullKeywords(p, Put(nk, k, v), ctx, count + 1, kws[1..])
      else FullKeywords(p, nk, Put(ctx, k, v), count, kws[1..])
  }

  /** The positional loop, from argument `i` on: argument `i` binds to the
      i-th of the static names followed by the static default names, and
      an argument beyond them raises IndexError. */
  function FullPositionals(p: Parser, nk: Dict, ctx: Dict, count: nat, args: seq<Value>, i: nat): Result<(Dict, Dict, nat)>
    decreases |args| - i
  {
    if i >= |args| then Ok((nk, ctx, count))
    else if i >= |p.PositionalNames()| then Err(PyError(IndexError, ""))
    else
      var param := p.PositionalNames()[i];
      if param in p.funcParams then FullPositionals(p, Put(nk, param, args[i]), ctx, count + 1, args, i + 1)
      else FullPositionals(p, nk, Put(ctx, param, args[i]), count, args, i + 1)
  }

  /** The closing loop: a static default whose name was filled nowhere
      goes to the function when it is a default name of the function, and
      to the context otherwise. */
  function FullFillDefaults(p: Parser, nk: Dict, ctx: Dict, sd: Dict): (Dict, Dict)
    decreases |sd|
  {
    if sd == [] then (nk, ctx)
    else
      var (k, v) := sd[0];
      if k !in Keys(nk) && k !in Keys(ctx) then
        if k in Keys(p.funcDefaults) then FullFillDefaults(p, Put(nk, k, v), ctx, sd[1..])
        else FullFillDefaults(p, nk, Put(ctx, k, v), sd[1..])
      else FullFillDefaults(p, nk, ctx, sd[1..])
  }

  /** `FullSignatureParser.__call__`: keywords, then positionals, then the
      count check, then the static defaults; nothing is left positional. */
  function ClassifyFull(p: Parser, args: seq<Value>, kwargs: Dict): Result<Classified> {
    var (nk1, ctx1, c1) := FullKeywords(p, [], [], 0, kwargs);
    var pos :- FullPositionals(p, nk1, ctx1, c1, args, 0);
    var (nk2, ctx2, c2) := pos;
    if c2 != |p.funcParams| then
      Err(CountMismatch(|p.config.staticParams|, |p.config.staticParams| - (|p.funcParams| - c2)))
    else
      var (nk3, ctx3) := FullFillDefaults(p, nk2, ctx2, p.config.staticDefaults);
      Ok(Classified(VDict(ctx3), [], nk3))
  }

  /** `FullSignatureParser.__call__` with its three loops and the running
      count `p` of values routed to required names. */
  method FullCall(p: Parser, args: seq<Value>, kwargs: Dict) returns (r: Result<Classified>)
    ensures r == ClassifyFull(p, args, kwargs)
  {
    var newKwargs: Dict := [];
    var nmspAttrs: Dict := [];
    var count: nat := 0;
    for i := 0 to |kwargs|
      invariant FullKeywords(p, newKwargs, nmspAttrs, count, kwargs[i..]) == FullKeywords(p, [], [], 0, kwargs)
    {
      var (k, v) := kwargs[i];
      assert kwargs[i..][1..] == kwargs[i + 1..];
      if k in Keys(p.funcDefaults) {
        newKwargs := Put(newKwargs, k, v);
      } else if k in p.funcParams {
        newKwargs := Put(newKwargs, k, v);
        count := count + 1;
      } else {
        nmspAttrs := Put(nmspAttrs, k, v);
      }
    }
    assert kwargs[|kwargs|..] == [];
    ghost var (nk1, ctx1, c1) := (newKwargs, nmspAttrs, count);
    var sp := p.config.staticParams;
    var sdKeys := Keys(p.config.staticDefaults);
    for i := 0 to |args|
      invariant FullPositionals(p, newKwargs, nmspAttrs, count, args, i) == FullPositionals(p, nk1, ctx1, c1, args, 0)
    {
      var param: Name;
      if i < |sp| {
        param := sp[i];
      } else if i - |sp| < |sdKeys| {
        param := sdKeys[i - |sp|];
      } else {
        return Err(PyError(IndexError, ""));
      }
      assert param == p.PositionalNames()[i];
      if param in p.funcParams {
        newKwargs := Put(newKwargs, param, args[i]);
        count := count + 1;
      } else {
        nmspAttrs := Put(nmspAttrs, param, args[i]);
      }
    }
    if count != |p.funcParams| {
      return Err(CountMismatch(|sp|, |sp| - (|p.funcParams| - count)));
    }
    var sd := p.config.staticDefaults;
    ghost var (nk2, ctx2) := (newKwargs, nmspAttrs);
    for i := 0 to |sd|
      invariant FullFillDefaults(p, newKwargs, nmspAttrs, sd[i..]) == FullFillDefaults(p, nk2, ctx2, sd)
    {
      var (k, v) := sd[i];
      assert sd[i..][1..] == sd[i + 1..];
      if k !in Keys(newKwargs) && k !in Keys(nmspAttrs) {
        if k in Keys(p.funcDefaults) {
          newKwargs := Put(newKwargs, k, v);
        } else {
          nmspAttrs := Put(nmspAttrs, k, v);
        }
      }
    }
    assert sd[|sd|..] == [];
    r := Ok(Classified(VDict(nmspAttrs), [], newKwargs));
  }

  /** How many of `names` lie in `within` and not in `except`. */
  function Occurrences(names: seq<Name>, within: seq<Name>, except: seq<Name>): (r: nat)
    ensures r <= |names|
    decreases |names|
  {
    if names == [] then 0
    else (if names[0] in within && names[0] !in except then 1 else 0) + Occurrences(names[1..], within, except)
  }

  /** The keyword loop counts the keywords naming a required parameter
      that is not also a default name. */
  lemma {:induction false} FullKeywordsCount(p: Parser, nk: Dict, ctx: Dict, c: nat, kws: Dict)
    ensures FullKeywords(p, nk, ctx, c, kws).2 == c + Occurrences(Keys(kws), p.funcParams, Keys(p.funcDefaults))
    decreases |kws|
  {
    if kws != [] {
      var (k, v) := kws[0];
      assert Keys(kws)[0] == k && Keys(kws)[1..] == Keys(kws[1..]);
      if k in Keys(p.funcDefaults) {
        FullKeywordsCount(p, Put(nk, k, v), ctx, c, kws[1..]);
      } else if k in p.funcParams {
        FullKeywordsCount(p, Put(nk, k, v), ctx, c + 1, kws[1..]);
      } else {
        FullKeywordsCount(p, nk, Put(ctx, k, v), c, kws[1..]);
      }
    }
  }

  /** The positional loop fails, with IndexError, exactly when there are
      more arguments than names to bind them to; otherwise it counts the
      bound names that are required parameters. */
  lemma {:induction false} FullPositionalsOutcome(p: Parser, nk: Dict, ctx: Dict, c: nat, args: seq<Value>, i: nat)
    requires i <= |args| && i <= |p.PositionalNames()|
    ensures var r := FullPositionals(p, nk, ctx, c, args, i);
      (r.Err? <==> |args| > |p.PositionalNames()|) &&
      (r.Err? ==> r.error == PyError(IndexError, "")) &&
      (|args| <= |p.PositionalNames()| ==> r.Ok? && r.value.2 == c + Occurrences(p.PositionalNames()[i..|args|], p.funcParams, []))
    decreases |args| - i
  {
    var names := p.PositionalNames();
    if i < |args| && i < |names| {
      var param := names[i];
      if |args| <= |names| {
        assert names[i..|args|][0] == param && names[i..|args|][1..] == names[i + 1..|args|];
      }
      if param in p.funcParams {
        FullPositionalsOutcome(p, Put(nk, param, args[i]), ctx, c + 1, args, i + 1);
      } else {
        FullPositionalsOutcome(p, nk, Put(ctx, param, args[i]), c, args, i + 1);
      }
    }
  }

  /** The full-signature call fails with IndexError when there are more
      positional arguments than static names, and otherwise exactly when
      the values routed to required parameters, by keyword or by position,
      do not number as many as the required parameters; the TypeError then
      reports the static names against the names matched. */
  lemma FullCountCheck(p: Parser, args: seq<Value>, kwargs: Dict)
    ensures var r := ClassifyFull(p, args, kwargs);
      var names := p.PositionalNames();
      var sp := |p.config.staticParams|;
      if |args| > |names| then r == Err(PyError(IndexError, ""))
      else
        var count := Occurrences(Keys(kwargs), p.funcParams, Keys(p.funcDefaults)) + Occurrences(names[..|args|], p.funcParams, []);
        (r.Err? <==> count != |p.funcParams|) &&
        (r.Err? ==> r.error == CountMismatch(sp, sp - (|p.funcParams| - count)))
  {
    var (nk1, ctx1, c1) := FullKeywords(p, [], [], 0, kwargs);
    FullKeywordsCount(p, [], [], 0, kwargs);
    FullPositionalsOutcome(p, nk1, ctx1, c1, args, 0);
    if |args| <= |p.PositionalNames()| {
      assert p.PositionalNames()[0..|args|] == p.PositionalNames()[..|args|];
    }
  }

  /** Every key of `nk` names a parameter of the function. */
  predicate FuncKeysOnly(p: Parser, nk: Dict) {
    forall k :: k in Keys(nk) ==> k in p.funcParams || k in Keys(p.funcDefaults)
  }

  lemma {:induction false} FullKeywordsFuncKeys(p: Parser, nk: Dict, ctx: Dict, c: nat, kws: Dict)
    requires FuncKeysOnly(p, nk)
    ensures FuncKeysOnly(p, FullKeywords(p, nk, ctx, c, kws).0)
    decreases |kws|
  {
    if kws != [] {
      var (k, v) := kws[0];
      KeysPut(nk, k, v);
      if k in Keys(p.funcDefaults) {
        FullKeywordsFuncKeys(p, Put(nk, k, v), ctx, c, kws[1..]);
      } else if k in p.funcParams {
        FullKeywordsFuncKeys(p, Put(nk, k, v), ctx, c + 1, kws[1..]);
      } else {
        FullKeywordsFuncKeys(p, nk, Put(ctx, k, v), c, kws[1..]);
      }
    }
  }

  lemma {:induction false} FullPositionalsFuncKeys(p: Parser, nk: Dict, ctx: Dict, c: nat, args: seq<Value>, i: nat)
    requires FuncKeysOnly(p, nk)
    ensures var r := FullPositionals(p, nk, ctx, c, args, i); r.Ok? ==> FuncKeysOnly(p, r.value.0)
    decreases |args| - i
  {
    var names := p.PositionalNames();
    if i < |args| && i < |names| {
      var param := names[i];
      KeysPut(nk, param, args[i]);
      if param in p.funcParams {
        FullPositionalsFuncKeys(p, Put(nk, param, args[i]), ctx, c + 1, args, i + 1);
      } else {
        FullPositionalsFuncKeys(p, nk, Put(ctx, param, args[i]), c, args, i + 1);
      }
    }
  }

  lemma {:induction false} FullFillFuncKeys(p: Parser, nk: Dict, ctx: Dict, sd: Dict)
    requires FuncKeysOnly(p, nk)
    ensures FuncKeysOnly(p, FullFillDefaults(p, nk, ctx, sd).0)
    decreases |sd|
  {
    if sd != [] {
      var (k, v) := sd[0];
      KeysPut(nk, k, v);
      if k !in Keys(nk) && k !in Keys(ctx) {
        if k in Keys(p.funcDefaults) {
          FullFillFuncKeys(p, Put(nk, k, v), ctx, sd[1..]);
        } else {
          FullFillFuncKeys(p, nk, Put(ctx, k, v), sd[1..]);
        }
      } else {
        FullFillFuncKeys(p, nk, ctx, sd[1..]);
      }
    }
  }

  /** A successful full-signature call leaves no positional argument and
      passes the function only names from its own signature. */
  lemma FullResidual(p: Parser, args: seq<Value>, kwargs: Dict)
    ensures var r := ClassifyFull(p, args, kwargs);
      r.Ok? ==> r.value.args == [] && FuncKeysOnly(p, r.value.kwargs)
  {
    var (nk1, ctx1, c1) := FullKeywords(p, [], [], 0, kwargs);
    FullKeywordsFuncKeys(p, [], [], 0, kwargs);
    FullPositionalsFuncKeys(p, nk1, ctx1, c1, args, 0);
    var pos := FullPositionals(p, nk1, ctx1, c1, args, 0);
    if pos.Ok? {
      FullFillFuncKeys(p, pos.value.0, pos.value.1, p.config.staticDefaults);
    }
  }

  /** Keywords the loop does not see leave both dictionaries alone at
      their name. */
  lemma {:induction false} FullKeywordsPreserve(p: Parser, nk: Dict, ctx: Dict, c: nat, kws: Dict, n: Name)
    requires n !in Keys(kws)
    ensures var res := FullKeywords(p, nk, ctx, c, kws);
      Get(res.0, n) == Get(nk, n) && Get(res.1, n) == Get(ctx, n)
    decreases |kws|
  {
    if kws != [] {
      var (k, v) := kws[0];
      assert Keys(kws)[0] == k && Keys(kws)[1..] == Keys(kws[1..]);
      GetPut(nk, k, v, n);
      GetPut(ctx, k, v, n);
      if k in Keys(p.funcDefaults) {
        FullKeywordsPreserve(p, Put(nk, k, v), ctx, c, kws[1..], n);
      } else if k in p.funcParams {
        FullKeywordsPreserve(p, Put(nk, k, v), ctx, c + 1, kws[1..], n);
      } else {
        FullKeywordsPreserve(p, nk, Put(ctx, k, v), c, kws[1..], n);
      }
    }
  }

  /** With distinct keyword names, each keyword's value lands under its
      name: in the function's dictionary when it names a parameter of the
      function, in the context's otherwise. */
  lemma {:induction false} FullKeywordsBind(p: Parser, nk: Dict, ctx: Dict, c: nat, kws: Dict, j: nat)
    requires DistinctKeys(kws) && j < |kws|
    ensures var res := FullKeywords(p, nk, ctx, c, kws);
      var (k, v) := kws[j];
      if k in p.funcParams || k in Keys(p.funcDefaults) then Get(res.0, k) == Some(v) else Get(res.1, k) == Some(v)
    decreases |kws|
  {
    var (k, v) := kws[0];
    var nk', ctx', c' :=
      if k in Keys(p.funcDefaults) then Put(nk, k, v) else if k in p.funcParams then Put(nk, k, v) else nk,
      if k in Keys(p.funcDefaults) || k in p.funcParams then ctx else Put(ctx, k, v),
      if k !in Keys(p.funcDefaults) && k in p.funcParams then c + 1 else c;
    assert FullKeywords(p, nk, ctx, c, kws) == FullKeywords(p, nk', ctx', c', kws[1..]);
    if j == 0 {
      assert k !in Keys(kws[1..]);
      FullKeywordsPreserve(p, nk', ctx', c', kws[1..], k);
      GetPut(nk, k, v, k);
      GetPut(ctx, k, v, k);
    } else {
      assert kws[1..][j - 1] == kws[j];
      FullKeywordsBind(p, nk', ctx', c', kws[1..], j - 1);
    }
  }

  /** Positions the loop does not reach leave both dictionaries alone at
      names it does not bind. */
  lemma {:induction false} FullPositionalsPreserve(p: Parser, nk: Dict, ctx: Dict, c: nat, args: seq<Value>, i: nat, n: Name)
    requires i <= |args| <= |p.PositionalNames()|
    requires n !in p.PositionalNames()[i..|args|]
    ensures var r := FullPositionals(p, nk, ctx, c, args, i);
      r.Ok? && Get(r.value.0, n) == Get(nk, n) && Get(r.value.1, n) == Get(ctx, n)
    decreases |args| - i
  {
    if i < |args| {
      var names := p.PositionalNames();
      var param := names[i];
      assert param == names[i..|args|][0] && names[i + 1..|args|] == names[i..|args|][1..];
      GetPut(nk, param, args[i], n);
      GetPut(ctx, param, args[i], n);
      if param in p.funcParams {
        FullPositionalsPreserve(p, Put(nk, param, args[i]), ctx, c + 1, args, i + 1, n);
      } else {
        FullPositionalsPreserve(p, nk, Put(ctx, param, args[i]), c, args, i + 1, n);
      }
    }
  }

  /** With distinct static names, argument `j` lands under the j-th name:
      in the function's dictionary when that name is a required parameter,
      in the context's otherwise. */
  lemma {:induction false} FullPositionalsBind(p: Parser, nk: Dict, ctx: Dict, c: nat, args: seq<Value>, i: nat, j: nat)
    requires NoDup(p.PositionalNames())
    requires i <= j < |args| <= |p.PositionalNames()|
    ensures var r := FullPositionals(p, nk, ctx, c, args, i);
      var name := p.PositionalNames()[j];
      r.Ok? && if name in p.funcParams then Get(r.value.0, name) == Some(args[j]) else Get(r.value.1, name) == Some(args[j])
    decreases |args| - i
  {
    var names := p.PositionalNames();
    var param := names[i];
    var nk', ctx', c' :=
      if param in p.funcParams then Put(nk, param, args[i]) else nk,
      if param in p.funcParams then ctx else Put(ctx, param, args[i]),
      if param in p.funcParams then c + 1 else c;
    assert FullPositionals(p, nk, ctx, c, args, i) == FullPositionals(p, nk', ctx', c', args, i + 1);
    if i == j {
      assert param !in names[i + 1..|args|];
      FullPositionalsPreserve(p, nk', ctx', c', args, i + 1, param);
      GetPut(nk, param, args[i], param);
      GetPut(ctx, param, args[i], param);
    } else {
      FullPositionalsBind(p, nk', ctx', c', args, i + 1, j);
    }
  }

  /** The closing loop never overwrites a name already filled. */
  lemma {:induction false} FullFillPreserve(p: Parser, nk: Dict, ctx: Dict, sd: Dict, n: Name)
    requires n in Keys(nk) || n in Keys(ctx)
    ensures var res := FullFillDefaults(p, nk, ctx, sd);
      Get(res.0, n) == Get(nk, n) && Get(res.1, n) == Get(ctx, n)
    decreases |sd|
  {
    if sd != [] {
      var (k, v) := sd[0];
      KeysPut(nk, k, v);
      KeysPut(ctx, k, v);
      GetPut(nk, k, v, n);
      GetPut(ctx, k, v, n);
      if k !in Keys(nk) && k !in Keys(ctx) {
        if k in Keys(p.funcDefaults) {
          FullFillPreserve(p, Put(nk, k, v), ctx, sd[1..], n);
        } else {
          FullFillPreserve(p, nk, Put(ctx, k, v), sd[1..], n);
        }
      } else {
        FullFillPreserve(p, nk, ctx, sd[1..], n);
      }
    }
  }

  /** A static default whose name is still unfilled lands under its name:
      in the function's dictionary when the function has a default of that
      name, in the context's otherwise. */
  lemma {:induction false} FullFillBind(p: Parser, nk: Dict, ctx: Dict, sd: Dict, j: nat)
    requires DistinctKeys(sd) && j < |sd|
    requires sd[j].0 !in Keys(nk) && sd[j].0 !in Keys(ctx)
    ensures var res := FullFillDefaults(p, nk, ctx, sd);
      var (k, v) := sd[j];
      if k in Keys(p.funcDefaults) then Get(res.0, k) == Some(v) else Get(res.1, k) == Some(v)
    decreases |sd|
  {
    var (k, v) := sd[0];
    var unfilled := k !in Keys(nk) && k !in Keys(ctx);
    var nk', ctx' :=
      if unfilled && k in Keys(p.funcDefaults) then Put(nk, k, v) else nk,
      if unfilled && k !in Keys(p.funcDefaults) then Put(ctx, k, v) else ctx;
    assert FullFillDefaults(p, nk, ctx, sd) == FullFillDefaults(p, nk', ctx', sd[1..]);
    KeysPut(nk, k, v);
    KeysPut(ctx, k, v);
    if j == 0 {
      GetPut(nk, k, v, k);
      GetPut(ctx, k, v, k);
      FullFillPreserve(p, nk', ctx', sd[1..], k);
    } else {
      assert sd[1..][j - 1] == sd[j] && sd[j].0 != k;
      FullFillBind(p, nk', ctx', sd[1..], j - 1);
    }
  }

  /** The context dictionary of a classification. */
  function ContextOf(c: Classified): Dict {
    if c.ctx.VDict? then c.ctx.entries else []
  }

  /** Full-signature binding by keyword: with distinct keyword names, a
      keyword whose name no positional argument binds reaches the function
      when it names one of its parameters, and the context otherwise. */
  lemma FullKeywordBinding(p: Parser, args: seq<Value>, kwargs: Dict, j: nat)
    requires DistinctKeys(kwargs) && j < |kwargs|
    requires kwargs[j].0 !in p.PositionalNames()[..Min(|args|, |p.PositionalNames()|)]
    ensures var r := ClassifyFull(p, args, kwargs);
      var (k, v) := kwargs[j];
      r.Ok? ==> if k in p.funcParams || k in Keys(p.funcDefaults) then Get(r.value.kwargs, k) == Some(v) else Get(ContextOf(r.value), k) == Some(v)
  {
    var (k, v) := kwargs[j];
    var names := p.PositionalNames();
    var (nk1, ctx1, c1) := FullKeywords(p, [], [], 0, kwargs);
    FullKeywordsBind(p, [], [], 0, kwargs, j);
    if |args| <= |names| {
      assert names[0..|args|] == names[..Min(|args|, |names|)];
      FullPositionalsPreserve(p, nk1, ctx1, c1, args, 0, k);
      var (nk2, ctx2, c2) := FullPositionals(p, nk1, ctx1, c1, args, 0).value;
      GetIn(nk2, k);
      GetIn(ctx2, k);
      FullFillPreserve(p, nk2, ctx2, p.config.staticDefaults, k);
    } else {
      FullPositionalsOutcome(p, nk1, ctx1, c1, args, 0);
    }
  }

  /** Full-signature binding by position: with distinct static names,
      argument `i` lands under the i-th of them, in the function's
      dictionary when that name is a required parameter of the function and
      in the context otherwise. */
  lemma FullPositionalBinding(p: Parser, args: seq<Value>, kwargs: Dict, i: nat)
    requires NoDup(p.PositionalNames())
    requires i < |args| && i < |p.PositionalNames()|
    ensures var r := ClassifyFull(p, args, kwargs);
      var name := p.PositionalNames()[i];
      r.Ok? ==> if name in p.funcParams then Get(r.value.kwargs, name) == Some(args[i]) else Get(ContextOf(r.value), name) == Some(args[i])
  {
    var names := p.PositionalNames();
    var (nk1, ctx1, c1) := FullKeywords(p, [], [], 0, kwargs);
    if |args| <= |names| {
      FullPositionalsBind(p, nk1, ctx1, c1, args, 0, i);
      var (nk2, ctx2, c2) := FullPositionals(p, nk1, ctx1, c1, args, 0).value;
      GetIn(nk2, names[i]);
      GetIn(ctx2, names[i]);
      FullFillPreserve(p, nk2, ctx2, p.config.staticDefaults, names[i]);
    } else {
      FullPositionalsOutcome(p, nk1, ctx1, c1, args, 0);
    }
  }

  /** A static default nobody supplied, by keyword or by position, keeps
      its configured value: in the function's dictionary when the function
      has a default of that name, in the context otherwise. */
  lemma FullDefaultBinding(p: Parser, args: seq<Value>, kwargs: Dict, j: nat)
    requires DistinctKeys(p.config.staticDefaults) && j < |p.config.staticDefaults|
    requires p.config.staticDefaults[j].0 !in Keys(kwargs)
    requires p.config.staticDefaults[j].0 !in p.PositionalNames()[..Min(|args|, |p.PositionalNames()|)]
    ensures var r := ClassifyFull(p, args, kwargs);
      var (k, v) := p.config.staticDefaults[j];
      r.Ok? ==> if k in Keys(p.funcDefaults) then Get(r.value.kwargs, k) == Some(v) else Get(ContextOf(r.value), k) == Some(v)
  {
    var k := p.config.staticDefaults[j].0;
    var names := p.PositionalNames();
    var (nk1, ctx1, c1) := FullKeywords(p, [], [], 0, kwargs);
    FullKeywordsPreserve(p, [], [], 0, kwargs, k);
    if |args| <= |names| {
      assert names[0..|args|] == names[..Min(|args|, |names|)];
      FullPositionalsPreserve(p, nk1, ctx1, c1, args, 0, k);
      var (nk2, ctx2, c2) := FullPositionals(p, nk1, ctx1, c1, args, 0).value;
      GetIn(nk2, k);
      GetIn(ctx2, k);
      FullFillBind(p, nk2, ctx2, p.config.staticDefaults, j);
    } else {
      FullPositionalsOutcome(p, nk1, ctx1, c1, args, 0);
    }
  }
}

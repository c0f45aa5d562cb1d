/** Calls through adaptive methods on a class whose instances carry the two
    attributes `attribute1` and `attribute2`. */
module AdaptiveScenarios {
  import opened PyValues
  import opened InspectTools
  import opened AdaptiveMethod
  import FlexMethod

  function Required(n: Name): Param {
    Param(n, PositionalOrKeyword, None)
  }

  function Defaulted(n: Name, v: Value): Param {
    Param(n, PositionalOrKeyword, Some(v))
  }

  /** The instance `MyClass(1, 2)`. */
  const Attrs: Dict := [("attribute1", VInt(1)), ("attribute2", VInt(2))]

  /** `@untyped({"arg1": "attribute1", "arg2": "attribute2"}) def foo(self, arg1, arg2=None)` */
  const FooSig: Signature := [Required("self"), Required("arg1"), Defaulted("arg2", VNone)]
  const FooMap: AttrMap := DictMap([("arg1", "attribute1"), ("arg2", "attribute2")])

  /** `@untyped(["attribute1", "attribute2"]) def foo2(self, attribute1, attribute2)` */
  const Foo2Sig: Signature := [Required("self"), Required("attribute1"), Required("attribute2")]
  const Foo2Map: AttrMap := ListMap(["attribute1", "attribute2"])

  /** `@untyped(["attribute1"]) def foo3(self, attribute1, attribute2=13)` */
  const Foo3Sig: Signature := [Required("self"), Required("attribute1"), Defaulted("attribute2", VInt(13))]
  const Foo3Map: AttrMap := ListMap(["attribute1"])

  const FooPresets: Dict := [("arg1", VInt(1)), ("arg2", VInt(2))]
  const Foo2Presets: Dict := [("attribute1", VInt(1)), ("attribute2", VInt(2))]

  lemma FooPresetsBuilt()
    ensures Presets(FooMap, false, Formal(FooSig, true), Attrs, []) == Ok(FooPresets)
  {
    var names := ["arg1", "arg2"];
    assert Formal(FooSig, true) == [Required("arg1"), Defaulted("arg2", VNone)];
    assert Names(Formal(FooSig, true)) == names;
    assert !FooMap.Falsy();
    var pairs := FooMap.pairs;
    assert pairs[1..] == [("arg2", "attribute2")];
    assert pairs[1..][1..] == [];
    assert Get(Attrs, "attribute1") == Some(VInt(1));
    assert Get(Attrs, "attribute2") == Some(VInt(2));
    assert Put([], "arg1", VInt(1)) == [("arg1", VInt(1))];
    assert Put([("arg1", VInt(1))], "arg2", VInt(2)) == FooPresets;
    assert DictPresets(pairs[1..], names, Attrs, [("arg1", VInt(1))]) == Ok(FooPresets);
    assert DictPresets(pairs, names, Attrs, []) == Ok(FooPresets);
  }

  lemma Foo2PresetsBuilt()
    ensures forall kw :: Presets(Foo2Map, false, Formal(Foo2Sig, true), Attrs, kw) == Ok(Foo2Presets)
  {
    var names := ["attribute1", "attribute2"];
    assert Formal(Foo2Sig, true) == [Required("attribute1"), Required("attribute2")];
    assert Names(Formal(Foo2Sig, true)) == names;
    assert !Foo2Map.Falsy();
    var listed := Foo2Map.listed;
    assert listed[1..] == ["attribute2"];
    assert listed[1..][1..] == [];
    assert Get(Attrs, "attribute1") == Some(VInt(1));
    assert Get(Attrs, "attribute2") == Some(VInt(2));
    assert Put([], "attribute1", VInt(1)) == [("attribute1", VInt(1))];
    assert Put([("attribute1", VInt(1))], "attribute2", VInt(2)) == Foo2Presets;
    assert ListPresets(listed[1..], names, Attrs, [("attribute1", VInt(1))]) == Ok(Foo2Presets);
    assert ListPresets(listed, names, Attrs, []) == Ok(Foo2Presets);
  }

  /** The presets layer over the defaults of `foo`, or of `foo2`. */
  lemma FooSlots()
    ensures Names(Formal(FooSig, true)) == ["arg1", "arg2"]
    ensures DefaultSlots(Formal(FooSig, true)) == [None, Some(VNone)]
    ensures PresetSlots(DefaultSlots(Formal(FooSig, true)), ["arg1", "arg2"], FooPresets) == [Some(VInt(1)), Some(VInt(2))]
  {
    assert Formal(FooSig, true) == [Required("arg1"), Defaulted("arg2", VNone)];
    assert Get(FooPresets, "arg1") == Some(VInt(1));
    assert Get(FooPresets, "arg2") == Some(VInt(2));
  }

  lemma Foo2Slots()
    ensures Names(Formal(Foo2Sig, true)) == ["attribute1", "attribute2"]
    ensures DefaultSlots(Formal(Foo2Sig, true)) == [None, None]
    ensures PresetSlots(DefaultSlots(Formal(Foo2Sig, true)), ["attribute1", "attribute2"], Foo2Presets) == [Some(VInt(1)), Some(VInt(2))]
  {
    assert Formal(Foo2Sig, true) == [Required("attribute1"), Required("attribute2")];
    assert Get(Foo2Presets, "attribute1") == Some(VInt(1));
    assert Get(Foo2Presets, "attribute2") == Some(VInt(2));
  }

  /** `c.foo(5, 5)`: the positionals override the presets. */
  lemma FooPositional()
    ensures AdaptiveCall(FooSig, FooMap, false, Some(Attrs), [VInt(5), VInt(5)], [])
      == Ok(FlexMethod.Invocation(VObj(Attrs), [VInt(5), VInt(5)], []))
  {
    FooPresetsBuilt();
    FooSlots();
    var names := ["arg1", "arg2"];
    var args := [VInt(5), VInt(5)];
    var filled := [Some(VInt(5)), Some(VInt(5))];
    assert ArgFill(names, args, 2, 2, filled, []) == (filled, []);
    assert [Some(VInt(5)), Some(VInt(2))][1 := Some(VInt(5))] == filled;
    assert ArgFill(names, args, 1, 1, [Some(VInt(5)), Some(VInt(2))], []) == (filled, []);
    assert [Some(VInt(1)), Some(VInt(2))][0 := Some(args[0])] == [Some(VInt(5)), Some(VInt(2))];
    assert ArgFill(names, args, 0, 0, [Some(VInt(1)), Some(VInt(2))], []) == (filled, []);
    assert Fill(FooSig, args, [], FooPresets, true) == (filled, []);
    assert Unwrap(filled) == args;
  }

  /** `c.foo(arg2=15)`: `arg1` comes from `attribute1`, `arg2` from the
      keyword, which is consumed. */
  lemma FooKeyword()
    ensures AdaptiveCall(FooSig, FooMap, false, Some(Attrs), [], [("arg2", VInt(15))])
      == Ok(FlexMethod.Invocation(VObj(Attrs), [VInt(1), VInt(15)], []))
  {
    FooPresetsBuilt();
    FooSlots();
    var names := ["arg1", "arg2"];
    var kw := [("arg2", VInt(15))];
    var filled := [Some(VInt(1)), Some(VInt(15))];
    assert Get(kw, "arg1") == None && Get(kw, "arg2") == Some(VInt(15));
    assert Del(kw, "arg2") == [];
    assert [Some(VInt(1)), Some(VInt(2))][1 := Some(VInt(15))] == filled;
    assert ArgFill(names, [], 2, 1, filled, []) == (filled, []);
    assert ArgFill(names, [], 1, 1, [Some(VInt(1)), Some(VInt(2))], kw) == (filled, []);
    assert ArgFill(names, [], 0, 0, [Some(VInt(1)), Some(VInt(2))], kw) == (filled, []);
    assert Fill(FooSig, [], kw, FooPresets, true) == (filled, []);
    assert Unwrap(filled) == [VInt(1), VInt(15)];
  }

  /** `c.foo(9, arg1=7)`: the keyword fills the first slot, and the count
      stepping back hands the first positional to the second slot. */
  lemma KeywordDoesNotConsumePositional()
    ensures AdaptiveCall(FooSig, FooMap, false, Some(Attrs), [VInt(9)], [("arg1", VInt(7))])
      == Ok(FlexMethod.Invocation(VObj(Attrs), [VInt(7), VInt(9)], []))
  {
    FooPresetsBuilt();
    FooSlots();
    var names := ["arg1", "arg2"];
    var kw := [("arg1", VInt(7))];
    var filled := [Some(VInt(7)), Some(VInt(9))];
    assert Get(kw, "arg1") == Some(VInt(7));
    assert Del(kw, "arg1") == [];
    assert ArgFill(names, [VInt(9)], 2, 1, filled, []) == (filled, []);
    assert [Some(VInt(7)), Some(VInt(2))][1 := Some(VInt(9))] == filled && [Some(VInt(1)), Some(VInt(2))][0 := Some(VInt(7))] == [Some(VInt(7)), Some(VInt(2))];
    assert ArgFill(names, [VInt(9)], 1, 0, [Some(VInt(7)), Some(VInt(2))], []) == (filled, []);
    assert ArgFill(names, [VInt(9)], 0, 0, [Some(VInt(1)), Some(VInt(2))], kw) == (filled, []);
    assert Fill(FooSig, [VInt(9)], kw, FooPresets, true) == (filled, []);
    assert Unwrap(filled) == [VInt(7), VInt(9)];
  }

  /** `c.foo2(5, 5)` */
  lemma Foo2Positional()
    ensures AdaptiveCall(Foo2Sig, Foo2Map, false, Some(Attrs), [VInt(5), VInt(5)], [])
      == Ok(FlexMethod.Invocation(VObj(Attrs), [VInt(5), VInt(5)], []))
  {
    Foo2PresetsBuilt();
    Foo2Slots();
    var names := ["attribute1", "attribute2"];
    var args := [VInt(5), VInt(5)];
    var filled := [Some(VInt(5)), Some(VInt(5))];
    assert ArgFill(names, args, 2, 2, filled, []) == (filled, []);
    assert [Some(VInt(5)), Some(VInt(2))][1 := Some(VInt(5))] == filled;
    assert ArgFill(names, args, 1, 1, [Some(VInt(5)), Some(VInt(2))], []) == (filled, []);
    assert [Some(VInt(1)), Some(VInt(2))][0 := Some(args[0])] == [Some(VInt(5)), Some(VInt(2))];
    assert ArgFill(names, args, 0, 0, [Some(VInt(1)), Some(VInt(2))], []) == (filled, []);
    assert Fill(Foo2Sig, args, [], Foo2Presets, true) == (filled, []);
    assert Unwrap(filled) == args;
  }

  /** `c.foo2(attribute2=15)` */
  lemma Foo2Keyword()
    ensures AdaptiveCall(Foo2Sig, Foo2Map, false, Some(Attrs), [], [("attribute2", VInt(15))])
      == Ok(FlexMethod.Invocation(VObj(Attrs), [VInt(1), VInt(15)], []))
  {
    Foo2PresetsBuilt();
    Foo2Slots();
    var names := ["attribute1", "attribute2"];
    var kw := [("attribute2", VInt(15))];
    var filled := [Some(VInt(1)), Some(VInt(15))];
    assert Get(kw, "attribute1") == None && Get(kw, "attribute2") == Some(VInt(15));
    assert Del(kw, "attribute2") == [];
    assert [Some(VInt(1)), Some(VInt(2))][1 := Some(VInt(15))] == filled;
    assert ArgFill(names, [], 2, 1, filled, []) == (filled, []);
    assert ArgFill(names, [], 1, 1, [Some(VInt(1)), Some(VInt(2))], kw) == (filled, []);
    assert ArgFill(names, [], 0, 0, [Some(VInt(1)), Some(VInt(2))], kw) == (filled, []);
    assert Fill(Foo2Sig, [], kw, Foo2Presets, true) == (filled, []);
    assert Unwrap(filled) == [VInt(1), VInt(15)];
  }

  /** `c.foo3()`: `attribute1` from the instance, `attribute2` from its
      default; the instance's own `attribute2` is not listed. */
  lemma Foo3Defaults()
    ensures AdaptiveCall(Foo3Sig, Foo3Map, false, Some(Attrs), [], [])
      == Ok(FlexMethod.Invocation(VObj(Attrs), [VInt(1), VInt(13)], []))
  {
    var params := Formal(Foo3Sig, true);
    var names := ["attribute1", "attribute2"];
    var pre := [("attribute1", VInt(1))];
    assert params == [Required("attribute1"), Defaulted("attribute2", VInt(13))];
    assert Names(params) == names;
    assert !Foo3Map.Falsy();
    assert Get(Attrs, "attribute1") == Some(VInt(1));
    assert ListPresets(["attribute1"], names, Attrs, []) == Ok(pre);
    assert Presets(Foo3Map, false, params, Attrs, []) == Ok(pre);
    assert DefaultSlots(params) == [None, Some(VInt(13))];
    assert Get(pre, "attribute2") == None;
    var s1 := [Some(VInt(1)), Some(VInt(13))];
    assert PresetSlots(DefaultSlots(params), names, pre) == s1;
    assert ArgFill(names, [], 2, 2, s1, []) == (s1, []);
    assert ArgFill(names, [], 1, 1, s1, []) == (s1, []);
    assert ArgFill(names, [], 0, 0, s1, []) == (s1, []);
    assert Fill(Foo3Sig, [], [], pre, true) == (s1, []);
    assert Unwrap(s1) == [VInt(1), VInt(13)];
  }

  /** On an instance without the listed attributes, `foo2()` raises
      AttributeError naming the first one. */
  lemma Foo2WithoutAttributes()
    ensures AdaptiveCall(Foo2Sig, Foo2Map, false, Some([]), [], []) == Err(PyError(AttributeError, "attribute1"))
  {
    assert Names(Formal(Foo2Sig, true)) == ["attribute1", "attribute2"];
  }

  /** As written, an inverted list naming `attribute2` makes `foo2(3, 4)`
      on an instance without `attribute1` raise TypeError for `attribute1`,
      which the positional 3 would fill. */
  lemma InverseRefusesPositional()
    ensures AdaptiveCall(Foo2Sig, ListMap(["attribute2"]), true, Some([]), [VInt(3), VInt(4)], [])
      == Err(PyError(TypeError, "attribute1"))
  {
    assert Formal(Foo2Sig, true) == [Required("attribute1"), Required("attribute2")];
    assert BasePresets(ListMap(["attribute2"]), Formal(Foo2Sig, true), []) == [];
  }

  /** Corrected, the same call hands the positionals to the method. */
  lemma InversePositionalFills()
    ensures AdaptiveCallCorrected(Foo2Sig, ListMap(["attribute2"]), true, Some([]), [VInt(3), VInt(4)], [])
      == Ok(FlexMethod.Invocation(VObj([]), [VInt(3), VInt(4)], []))
  {
    Foo2Slots();
    InversePresetsNone();
    var names := ["attribute1", "attribute2"];
    var args := [VInt(3), VInt(4)];
    var filled := [Some(VInt(3)), Some(VInt(4))];
    assert ArgFill(names, args, 2, 2, filled, []) == (filled, []);
    assert [Some(VInt(3)), None][1 := Some(VInt(4))] == filled;
    assert ArgFill(names, args, 1, 1, [Some(VInt(3)), None], []) == (filled, []);
    assert [None, None][0 := Some(args[0])] == [Some(VInt(3)), None];
    assert ArgFill(names, args, 0, 0, [None, None], []) == (filled, []);
    assert Fill(Foo2Sig, args, [], [], true) == (filled, []);
    assert Unwrap(filled) == args;
  }

  /** Corrected, a parameter that nothing fills still raises TypeError,
      from the final check: `foo2(3)` leaves `attribute2` open. */
  lemma InverseUnfilledStillRaises()
    ensures AdaptiveCallCorrected(Foo2Sig, ListMap(["attribute2"]), true, Some([]), [VInt(3)], [])
      == Err(PyError(TypeError, "attribute2"))
  {
    Foo2Slots();
    InversePresetsNone();
    var names := ["attribute1", "attribute2"];
    var open := [Some(VInt(3)), None];
    assert ArgFill(names, [VInt(3)], 2, 2, open, []) == (open, []);
    assert ArgFill(names, [VInt(3)], 1, 1, open, []) == (open, []);
    assert [None, None][0 := Some(VInt(3))] == open;
    assert ArgFill(names, [VInt(3)], 0, 0, [None, None], []) == (open, []);
    assert Fill(Foo2Sig, [VInt(3)], [], [], true) == (open, []);
    assert FirstMissing(open) == Some(1);
  }

  /** Corrected, an instance without attributes presets nothing. */
  lemma InversePresetsNone()
    ensures forall kw :: PresetsCorrected(ListMap(["attribute2"]), true, Formal(Foo2Sig, true), [], kw) == Ok([])
  {
    var params := Formal(Foo2Sig, true);
    assert params == [Required("attribute1"), Required("attribute2")];
    assert params[1..] == [Required("attribute2")];
    assert InversePresets(params[1..], ["attribute2"], [], []) == [];
  }
}

/** The adaptive method: an instance method whose parameters that the call
    leaves open are filled from the instance's attributes.

    `arg_formatter` lays out one slot per parameter and fills the slots in
    four layers, each over the ones before it: the parameter's default,
    the preset taken from the instance, a positional argument, a keyword
    argument. Positional arguments go, in order, to the parameters that no
    keyword names; the loop that places them runs over an adjustable enumerate and
    steps its count back whenever a keyword fills a slot. */
module AdaptiveMethod {
  import opened PyValues
  import opened InspectTools
  import opened Mutables
  import opened Adjumerate
  import FlexMethod

  /** The parameter slots; `None` while a slot still holds the
      unfilled marker. */
  type Slots = seq<Option<Value>>

  /** `list(parameters_dict.keys())[remove_first:]`, kept as parameters. */
  function Formal(sig: Signature, removeFirst: bool): (r: Signature)
    ensures removeFirst && sig != [] ==> |r| == |sig| - 1 && r == sig[1..]
    ensures !removeFirst || sig == [] ==> r == sig
  {
    if removeFirst && sig != [] then sig[1..] else sig
  }

  // ---------------------------------------------------------------------
  // The four layers of `arg_formatter`

  /** The defaults layer: a parameter with a default starts out holding it. */
  function DefaultSlots(params: Signature): (r: Slots)
    ensures |r| == |params|
    ensures forall i :: 0 <= i < |params| ==> r[i] == params[i].default
  {
    seq(|params|, i requires 0 <= i < |params| => params[i].default)
  }

  /** The presets layer: a parameter the preset dictionary names takes its
      entry there. */
  function PresetSlots(s: Slots, names: seq<Name>, pre: Dict): (r: Slots)
    requires |s| == |names|
    ensures |r| == |s|
    ensures forall i :: 0 <= i < |s| && Get(pre, names[i]).Some? ==> r[i] == Get(pre, names[i])
    ensures forall i :: 0 <= i < |s| && Get(pre, names[i]).None? ==> r[i] == s[i]
    ensures forall i :: 0 <= i < |s| ==> (r[i].Some? <==> s[i].Some? || Get(pre, names[i]).Some?)
  {
    seq(|s|, i requires 0 <= i < |s| => if Get(pre, names[i]).Some? then Get(pre, names[i]) else s[i])
  }

  /** The loop over `adjumerate(parameters)` from step `k` on. `count` is the
      logical count the step sees and `kw` the keywords not yet consumed. A
      keyword fills its slot and is deleted, and the count stays where it
      was; otherwise the slot takes the positional the count points at, if
      there is one. */
  function ArgFill(names: seq<Name>, args: seq<Value>, k: nat, count: nat, s: Slots, kw: Dict): (r: (Slots, Dict))
    requires k <= |names| == |s|
    ensures |r.0| == |s|
    decreases |names| - k
  {
    if k == |names| then (s, kw)
    else
      match Get(kw, names[k])
      case Some(v) => ArgFill(names, args, k + 1, count, s[k := Some(v)], Del(kw, names[k]))
      case None => ArgFill(names, args, k + 1, count + 1, if count < |args| then s[k := Some(args[count])] else s, kw)
  }

  /** The number of the names `names[k..j]` that no keyword of `kw` names. */
  function Unnamed(names: seq<Name>, kw: Dict, k: nat, j: nat): (r: nat)
    requires k <= j <= |names|
    ensures r <= j - k
    decreases j - k
  {
    if k == j then 0
    else (if Get(kw, names[k]).None? then 1 else 0) + Unnamed(names, kw, k + 1, j)
  }

  /** The index of the first slot still unfilled, if any:
      `new_args.index(t)` guarded by `t in new_args`. */
  function FirstMissing(s: Slots): (r: Option<nat>)
    ensures r.Some? ==> r.value < |s| && s[r.value].None? && forall j :: 0 <= j < r.value ==> s[j].Some?
    ensures r.None? ==> forall j :: 0 <= j < |s| ==> s[j].Some?
  {
    if s == [] then None
    else if s[0].None? then Some(0)
    else
      match FirstMissing(s[1..])
      case Some(i) => Some(i + 1)
      case None => None
  }

  function Unwrap(s: Slots): (r: seq<Value>)
    requires forall j :: 0 <= j < |s| ==> s[j].Some?
    ensures |r| == |s| && forall j :: 0 <= j < |s| ==> s[j] == Some(r[j])
  {
    seq(|s|, j requires 0 <= j < |s| => s[j].value)
  }

  /** The slots and the keywords left over once all four layers are in. */
  function Fill(sig: Signature, args: seq<Value>, kwargs: Dict, pre: Dict, removeFirst: bool): (r: (Slots, Dict))
    ensures |r.0| == |Formal(sig, removeFirst)|
  {
    var params := Formal(sig, removeFirst);
    var names := Names(params);
    var s0 := DefaultSlots(params);
    var s1 := if pre != [] then PresetSlots(s0, names, pre) else s0;
    ArgFill(names, args, 0, 0, s1, kwargs)
  }

  /** What `arg_formatter` returns: the argument list and the remaining
      keywords, or, in place of `(None, index)`, the first unfilled slot. */
  datatype Formatted = Filled(args: seq<Value>, kwargs: Dict) | Missing(index: nat)

  function FormatArgs(sig: Signature, args: seq<Value>, kwargs: Dict, pre: Dict, removeFirst: bool): (r: Formatted)
    ensures r.Missing? <==> exists j :: 0 <= j < |Fill(sig, args, kwargs, pre, removeFirst).0| && Fill(sig, args, kwargs, pre, removeFirst).0[j].None?
    ensures r.Missing? ==> r.index < |Formal(sig, removeFirst)| && Fill(sig, args, kwargs, pre, removeFirst).0[r.index].None?
    ensures r.Missing? ==> forall j :: 0 <= j < r.index ==> Fill(sig, args, kwargs, pre, removeFirst).0[j].Some?
    ensures r.Filled? ==> |r.args| == |Formal(sig, removeFirst)| && r.kwargs == Fill(sig, args, kwargs, pre, removeFirst).1
    ensures r.Filled? ==> forall j :: 0 <= j < |r.args| ==> Fill(sig, args, kwargs, pre, removeFirst).0[j] == Some(r.args[j])
  {
    var (slots, kw) := Fill(sig, args, kwargs, pre, removeFirst);
    match FirstMissing(slots)
    case Some(i) => Missing(i)
    case None => Filled(Unwrap(slots), kw)
  }

  // ---------------------------------------------------------------------
  // What the layers amount to

  /** Deleting one key leaves every other key's lookup as it was. */
  lemma {:induction false} GetDelOther(d: Dict, a: Name, b: Name)
    requires a != b
    ensures Get(Del(d, a), b) == Get(d, b)
  {
    if d != [] && d[0].0 != a {
      GetDelOther(d[1..], a, b);
    }
  }

  /** The loop from step `k` on never writes a slot it has already
      passed, and never empties a slot that holds a value. */
  lemma {:induction false} ArgFillKeepsEarlier(names: seq<Name>, args: seq<Value>, k: nat, count: nat, s: Slots, kw: Dict)
    requires k <= |names| == |s|
    ensures forall j :: 0 <= j < k ==> ArgFill(names, args, k, count, s, kw).0[j] == s[j]
    ensures forall j :: 0 <= j < |s| && s[j].Some? ==> ArgFill(names, args, k, count, s, kw).0[j].Some?
    decreases |names| - k
  {
    if k < |names| {
      match Get(kw, names[k])
      case Some(v) =>
        ArgFillKeepsEarlier(names, args, k + 1, count, s[k := Some(v)], Del(kw, names[k]));
      case None =>
        ArgFillKeepsEarlier(names, args, k + 1, count + 1, if count < |args| then s[k := Some(args[count])] else s, kw);
    }
  }

  /** Slot `j` after the loop, for distinct parameter names: the keyword
      naming it, else the positional that is `j`-th among the parameters no
      keyword names, else what it held before the loop. `orig` are the
      keywords the loop started with. */
  lemma {:induction false} ArgFillSlot(names: seq<Name>, args: seq<Value>, k: nat, count: nat, s: Slots, kw: Dict, orig: Dict, j: nat)
    requires k <= j < |names| == |s| && NoDup(names)
    requires forall m :: k <= m < |names| ==> Get(kw, names[m]) == Get(orig, names[m])
    ensures ArgFill(names, args, k, count, s, kw).0[j] ==
      if Get(orig, names[j]).Some? then Get(orig, names[j])
      else if count + Unnamed(names, orig, k, j) < |args| then Some(args[count + Unnamed(names, orig, k, j)])
      else s[j]
    decreases j - k
  {
    var p := names[k];
    match Get(kw, p)
    case Some(v) =>
      var kw' := Del(kw, p);
      var s' := s[k := Some(v)];
      if j == k {
        ArgFillKeepsEarlier(names, args, k + 1, count, s', kw');
      } else {
        forall m | k + 1 <= m < |names|
          ensures Get(kw', names[m]) == Get(orig, names[m])
        {
          GetDelOther(kw, p, names[m]);
        }
        ArgFillSlot(names, args, k + 1, count, s', kw', orig, j);
      }
    case None =>
      var s' := if count < |args| then s[k := Some(args[count])] else s;
      if j == k {
        ArgFillKeepsEarlier(names, args, k + 1, count + 1, s', kw);
      } else {
        ArgFillSlot(names, args, k + 1, count + 1, s', kw, orig, j);
      }
  }

  /** Before the placing loop, a slot holds its parameter's preset if
      there is one and else its default, so it is filled exactly when the
      parameter has a preset or a default. */
  lemma PresetsOverDefaults(params: Signature, pre: Dict, j: nat)
    requires j < |params|
    ensures var s0 := DefaultSlots(params);
      var s1 := if pre != [] then PresetSlots(s0, Names(params), pre) else s0;
      var n := params[j].name;
      s1[j] == (if Get(pre, n).Some? then Get(pre, n) else params[j].default)
      && (s1[j].Some? <==> Get(pre, n).Some? || params[j].default.Some?)
  {
    assert Names(params)[j] == params[j].name;
  }

  /** The keywords after the loop: those naming a parameter are consumed,
      all others pass through. */
  lemma {:induction false} ArgFillKeywords(names: seq<Name>, args: seq<Value>, k: nat, count: nat, s: Slots, kw: Dict, n: Name)
    requires k <= |names| == |s| && DistinctKeys(kw)
    ensures Get(ArgFill(names, args, k, count, s, kw).1, n) == if n in names[k..] then None else Get(kw, n)
    decreases |names| - k
  {
    if k < |names| {
      var p := names[k];
      assert names[k..] == [p] + names[k + 1..];
      match Get(kw, p)
      case Some(v) =>
        KeysDel(kw, p);
        GetDel(kw, p, n);
        ArgFillKeywords(names, args, k + 1, count, s[k := Some(v)], Del(kw, p), n);
      case None =>
        ArgFillKeywords(names, args, k + 1, count + 1, if count < |args| then s[k := Some(args[count])] else s, kw, n);
    }
  }

  /** The keywords after the loop do not depend on the positionals or on
      what the slots held. */
  lemma {:induction false} ArgFillKeywordsOnly(names: seq<Name>, a1: seq<Value>, a2: seq<Value>, k: nat, count: nat, s1: Slots, s2: Slots, kw: Dict)
    requires k <= |names| == |s1| == |s2|
    ensures ArgFill(names, a1, k, count, s1, kw).1 == ArgFill(names, a2, k, count, s2, kw).1
    decreases |names| - k
  {
    if k < |names| {
      match Get(kw, names[k])
      case Some(v) =>
        ArgFillKeywordsOnly(names, a1, a2, k + 1, count, s1[k := Some(v)], s2[k := Some(v)], Del(kw, names[k]));
      case None =>
        ArgFillKeywordsOnly(names, a1, a2, k + 1, count + 1,
          if count < |a1| then s1[k := Some(a1[count])] else s1,
          if count < |a2| then s2[k := Some(a2[count])] else s2, kw);
    }
  }

  /** The precedence of the four layers: for distinct parameter names, a
      slot holds the keyword naming its parameter, else the next positional
      among the parameters no keyword names, else the preset, else the
      parameter's default. */
  lemma SlotPrecedence(sig: Signature, args: seq<Value>, kwargs: Dict, pre: Dict, removeFirst: bool, j: nat)
    requires NoDup(Names(Formal(sig, removeFirst)))
    requires j < |Formal(sig, removeFirst)|
    ensures var params := Formal(sig, removeFirst);
      var n := params[j].name;
      var u := Unnamed(Names(params), kwargs, 0, j);
      Fill(sig, args, kwargs, pre, removeFirst).0[j] ==
        if Get(kwargs, n).Some? then Get(kwargs, n)
        else if u < |args| then Some(args[u])
        else if Get(pre, n).Some? then Get(pre, n)
        else params[j].default
  {
    var params := Formal(sig, removeFirst);
    var names := Names(params);
    var s0 := DefaultSlots(params);
    var s1 := if pre != [] then PresetSlots(s0, names, pre) else s0;
    ArgFillSlot(names, args, 0, 0, s1, kwargs, kwargs, j);
  }

  /** Every keyword that names a parameter is consumed; the others are
      returned unchanged. */
  lemma KeywordsConsumed(sig: Signature, args: seq<Value>, kwargs: Dict, pre: Dict, removeFirst: bool, n: Name)
    requires DistinctKeys(kwargs)
    ensures Get(Fill(sig, args, kwargs, pre, removeFirst).1, n) ==
      if n in Names(Formal(sig, removeFirst)) then None else Get(kwargs, n)
  {
    var params := Formal(sig, removeFirst);
    var names := Names(params);
    var s0 := DefaultSlots(params);
    var s1 := if pre != [] then PresetSlots(s0, names, pre) else s0;
    ArgFillKeywords(names, args, 0, 0, s1, kwargs, n);
    assert names[0..] == names;
  }

  /** Positionals beyond one per parameter are dropped without an error. */
  lemma SurplusPositionalsDropped(sig: Signature, args: seq<Value>, extra: seq<Value>, kwargs: Dict, pre: Dict, removeFirst: bool)
    requires NoDup(Names(Formal(sig, removeFirst)))
    requires |args| >= |Formal(sig, removeFirst)|
    ensures FormatArgs(sig, args + extra, kwargs, pre, removeFirst) == FormatArgs(sig, args, kwargs, pre, removeFirst)
  {
    var params := Formal(sig, removeFirst);
    var names := Names(params);
    var s0 := DefaultSlots(params);
    var s1 := if pre != [] then PresetSlots(s0, names, pre) else s0;
    var long := Fill(sig, args + extra, kwargs, pre, removeFirst);
    var short := Fill(sig, args, kwargs, pre, removeFirst);
    forall j | 0 <= j < |params|
      ensures long.0[j] == short.0[j]
    {
      SlotPrecedence(sig, args + extra, kwargs, pre, removeFirst, j);
      SlotPrecedence(sig, args, kwargs, pre, removeFirst, j);
    }
    assert long.0 == short.0;
    ArgFillKeywordsOnly(names, args + extra, args, 0, 0, s1, s1, kwargs);
    assert long == short;
  }

  // ---------------------------------------------------------------------
  // `arg_formatter`

  /** The placing loop of `arg_formatter`: it runs over the adjustable
      enumerate of the parameter names, and `i -= 1` steps its count back
      in place, so a keyword hit does not use up a positional. */
  method PlaceArguments(names: seq<Name>, args: seq<Value>, s: Slots, kwargs: Dict) returns (newArgs: Slots, newKwargs: Dict)
    requires |s| == |names|
    ensures (newArgs, newKwargs) == ArgFill(names, args, 0, 0, s, kwargs)
  {
    newArgs, newKwargs := s, kwargs;
    var c: Counter<Name> := Adjumerate.Adjumerate(names, 0);
    while true
      invariant c.Valid() && c.items == names
      invariant fresh(c) && fresh(c.count) && fresh(c.count.cell)
      invariant |newArgs| == |names|
      invariant c.count.cell.value + 1 >= 0
      invariant ArgFill(names, args, c.pos, c.count.cell.value + 1, newArgs, newKwargs) == ArgFill(names, args, 0, 0, s, kwargs)
      decreases |names| - c.pos
    {
      var step := c.Next();
      match step {
        case None =>
          break;
        case Some(pair) =>
          var (i, p) := pair;
          var found := Get(newKwargs, p);
          if found.Some? {
            newArgs := newArgs[i.raw := found];
            newKwargs := Del(newKwargs, p);
            var stepped := i.cell.ISub(VInt(1));
          } else {
            var idx := i.Value();
            if idx < |args| {
              newArgs := newArgs[i.raw := Some(args[idx])];
            }
            // an IndexError here is swallowed
          }
      }
    }
  }

  /** `arg_formatter(parameters_dict, f_args, f_kwargs, preseded_args_dict,
      remove_first)`, with `sig` the parameters and an empty preset
      dictionary standing for `None`. The placing loop runs over the
      adjustable enumerate, and `i -= 1` steps its count back in place. */
  method ArgFormatter(sig: Signature, args: seq<Value>, kwargs: Dict, pre: Dict, removeFirst: bool) returns (r: Formatted)
    ensures r == FormatArgs(sig, args, kwargs, pre, removeFirst)
  {
    var params := Formal(sig, removeFirst);
    var names := Names(params);
    var newArgs: Slots := seq(|params|, _ => None);
    var newKwargs := kwargs;

    // set defaults
    for i := 0 to |params|
      invariant |newArgs| == |params|
      invariant forall j :: 0 <= j < i ==> newArgs[j] == params[j].default
      invariant forall j :: i <= j < |params| ==> newArgs[j].None?
    {
      if params[i].default.Some? {
        newArgs := newArgs[i := params[i].default];
      }
    }
    assert newArgs == DefaultSlots(params);

    // insert lesser priority args
    if pre != [] {
      ghost var s0 := newArgs;
      for i := 0 to |params|
        invariant |newArgs| == |params|
        invariant forall j :: 0 <= j < i ==> newArgs[j] == PresetSlots(s0, names, pre)[j]
        invariant forall j :: i <= j < |params| ==> newArgs[j] == s0[j]
      {
        var found := Get(pre, names[i]);
        if found.Some? {
          newArgs := newArgs[i := found];
        }
      }
      assert newArgs == PresetSlots(s0, names, pre);
    }

    // replace with args
    newArgs, newKwargs := PlaceArguments(names, args, newArgs, newKwargs);

    // ensure all positions are filled
    var k := 0;
    while k < |newArgs| && newArgs[k].Some?
      invariant 0 <= k <= |newArgs|
      invariant forall j :: 0 <= j < k ==> newArgs[j].Some?
    {
      k := k + 1;
    }
    if k < |newArgs| {
      r := Missing(k);
    } else {
      r := Filled(Unwrap(newArgs), newKwargs);
    }
  }

  // ---------------------------------------------------------------------
  // The preset map of `untyped`

  /** `param_to_instance_attr_map`: none, a list of parameter names that
      are also attribute names, or a dictionary from parameter names to
      attribute names. */
  datatype AttrMap = NoMap | ListMap(listed: seq<Name>) | DictMap(pairs: seq<(Name, Name)>)
  {
    /** `not param_to_instance_attr_map` */
    predicate Falsy() {
      NoMap? || (ListMap? && listed == []) || (DictMap? && pairs == [])
    }
  }

  /** No map: every parameter the instance has as an attribute. */
  function NoMapPresets(names: seq<Name>, attrs: Dict, d: Dict): Dict {
    if names == [] then d
    else
      var d' := match Get(attrs, names[0]) case Some(v) => Put(d, names[0], v) case None => d;
      NoMapPresets(names[1..], attrs, d')
  }

  /** A list, not inverted: each listed name must be a parameter and an
      attribute. */
  function ListPresets(listed: seq<Name>, names: seq<Name>, attrs: Dict, d: Dict): Result<Dict> {
    if listed == [] then Ok(d)
    else
      var p := listed[0];
      if p !in names then Err(PyError(AttributeError, p))
      else
        match Get(attrs, p)
        case None => Err(PyError(AttributeError, p))
        case Some(v) => ListPresets(listed[1..], names, attrs, Put(d, p, v))
  }

  /** An inverted list, as written: every unlisted parameter the instance
      has as an attribute; an unlisted parameter that is no attribute is an
      error unless a keyword names it or it has a default, even when a
      positional argument will fill it. */
  function InversePresetsAsWritten(params: Signature, listed: seq<Name>, attrs: Dict, kwargs: Dict, d: Dict): Result<Dict> {
    if params == [] then Ok(d)
    else
      var p := params[0].name;
      if p in listed then InversePresetsAsWritten(params[1..], listed, attrs, kwargs, d)
      else
        match Get(attrs, p)
        case Some(v) => InversePresetsAsWritten(params[1..], listed, attrs, kwargs, Put(d, p, v))
        case None =>
          if Get(kwargs, p).None? && params[0].default.None? then Err(PyError(TypeError, p))
          else InversePresetsAsWritten(params[1..], listed, attrs, kwargs, d)
  }

  /** An inverted list, corrected: every unlisted parameter the instance
      has as an attribute. A parameter that no layer fills is left to the
      final check of `arg_formatter`. */
  function InversePresets(params: Signature, listed: seq<Name>, attrs: Dict, d: Dict): Dict {
    if params == [] then d
    else
      var p := params[0].name;
      if p in listed then InversePresets(params[1..], listed, attrs, d)
      else
        match Get(attrs, p)
        case Some(v) => InversePresets(params[1..], listed, attrs, Put(d, p, v))
        case None => InversePresets(params[1..], listed, attrs, d)
  }

  /** A dictionary: each key must be a parameter, and takes the attribute
      its value names. */
  function DictPresets(pairs: seq<(Name, Name)>, names: seq<Name>, attrs: Dict, d: Dict): Result<Dict> {
    if pairs == [] then Ok(d)
    else
      var (p, a) := pairs[0];
      if p !in names then Err(PyError(AttributeError, p))
      else
        match Get(attrs, a)
        case None => Err(PyError(AttributeError, a))
        case Some(v) => DictPresets(pairs[1..], names, attrs, Put(d, p, v))
  }

  /** What the first branch of `bound_method` leaves in `i_param_dict`:
      with a falsy map, every parameter that is an attribute. */
  function BasePresets(m: AttrMap, params: Signature, attrs: Dict): Dict {
    if m.Falsy() then NoMapPresets(Names(params), attrs, []) else []
  }

  /** `i_param_dict` for the method's parameters `params` (the first one
      already dropped), the instance's attributes and the call's keywords,
      as written. */
  function Presets(m: AttrMap, inverse: bool, params: Signature, attrs: Dict, kwargs: Dict): Result<Dict> {
    var names := Names(params);
    var d := BasePresets(m, params, attrs);
    match m
    case NoMap => Ok(d)
    case ListMap(listed) =>
      if !inverse then ListPresets(listed, names, attrs, d) else InversePresetsAsWritten(params, listed, attrs, kwargs, d)
    case DictMap(pairs) => DictPresets(pairs, names, attrs, d)
  }

  /** `i_param_dict` with the inverted list corrected. */
  function PresetsCorrected(m: AttrMap, inverse: bool, params: Signature, attrs: Dict, kwargs: Dict): Result<Dict> {
    if m.ListMap? && inverse then Ok(InversePresets(params, m.listed, attrs, BasePresets(m, params, attrs)))
    else Presets(m, inverse, params, attrs, kwargs)
  }

  /** The correction only removes an error: wherever the presets as written
      are built, the corrected ones are the same, and they differ only where
      the inverted list as written raises its TypeError. */
  lemma PresetsCorrectionKeepsSuccess(m: AttrMap, inverse: bool, params: Signature, attrs: Dict, kwargs: Dict)
    ensures Presets(m, inverse, params, attrs, kwargs).Ok? ==>
      PresetsCorrected(m, inverse, params, attrs, kwargs) == Presets(m, inverse, params, attrs, kwargs)
    ensures PresetsCorrected(m, inverse, params, attrs, kwargs) != Presets(m, inverse, params, attrs, kwargs) ==>
      m.ListMap? && inverse && Presets(m, inverse, params, attrs, kwargs).Err? &&
      Presets(m, inverse, params, attrs, kwargs).error.Kind() == TypeError
  {
    if m.ListMap? && inverse {
      var d := BasePresets(m, params, attrs);
      InversePresetsAsWrittenSpec(params, m.listed, attrs, kwargs, d);
      if InversePresetsAsWritten(params, m.listed, attrs, kwargs, d).Ok? {
        InverseCorrectionKeepsSuccess(params, m.listed, attrs, kwargs, d);
      }
    }
  }

  /** With no map, a parameter is preset exactly when it is an attribute. */
  lemma {:induction false} NoMapPresetsFrom(names: seq<Name>, attrs: Dict, d: Dict, n: Name)
    ensures Get(NoMapPresets(names, attrs, d), n) ==
      if n in names && Get(attrs, n).Some? then Get(attrs, n) else Get(d, n)
  {
    if names != [] {
      var p := names[0];
      var d' := match Get(attrs, p) case Some(v) => Put(d, p, v) case None => d;
      NoMapPresetsFrom(names[1..], attrs, d', n);
      if Get(attrs, p).Some? {
        GetPut(d, p, Get(attrs, p).value, n);
      }
      assert n in names <==> n == p || n in names[1..];
    }
  }

  lemma NoMapPresetsSpec(names: seq<Name>, attrs: Dict, n: Name)
    ensures Get(NoMapPresets(names, attrs, []), n) == if n in names then Get(attrs, n) else None
  {
    NoMapPresetsFrom(names, attrs, [], n);
  }

  /** A list map succeeds exactly when every listed name is a parameter and
      an attribute, and then presets the listed names from the attributes;
      it fails with AttributeError otherwise. */
  lemma {:induction false} ListPresetsSpec(listed: seq<Name>, names: seq<Name>, attrs: Dict, d: Dict)
    ensures ListPresets(listed, names, attrs, d).Ok? <==>
      forall i :: 0 <= i < |listed| ==> listed[i] in names && Get(attrs, listed[i]).Some?
    ensures ListPresets(listed, names, attrs, d).Err? ==> ListPresets(listed, names, attrs, d).error.Kind() == AttributeError
    ensures ListPresets(listed, names, attrs, d).Ok? ==> forall n ::
      Get(ListPresets(listed, names, attrs, d).value, n) == if n in listed then Get(attrs, n) else Get(d, n)
  {
    if listed != [] {
      var p := listed[0];
      if p in names && Get(attrs, p).Some? {
        var v := Get(attrs, p).value;
        ListPresetsSpec(listed[1..], names, attrs, Put(d, p, v));
        assert forall i :: 1 <= i < |listed| ==> listed[i] == listed[1..][i - 1];
        forall n
          ensures ListPresets(listed, names, attrs, d).Ok? ==>
            Get(ListPresets(listed, names, attrs, d).value, n) == if n in listed then Get(attrs, n) else Get(d, n)
        {
          GetPut(d, p, v, n);
          assert n in listed <==> n == p || n in listed[1..];
        }
      }
    }
  }

  /** As written, an inverted list map fails, with TypeError, exactly when some
      unlisted parameter is neither an attribute, nor named by a keyword,
      nor defaulted; otherwise it presets the unlisted parameters that are
      attributes. */
  lemma {:induction false} InversePresetsAsWrittenSpec(params: Signature, listed: seq<Name>, attrs: Dict, kwargs: Dict, d: Dict)
    ensures InversePresetsAsWritten(params, listed, attrs, kwargs, d).Err? <==>
      exists i :: 0 <= i < |params| && params[i].name !in listed && Get(attrs, params[i].name).None?
        && Get(kwargs, params[i].name).None? && params[i].default.None?
    ensures InversePresetsAsWritten(params, listed, attrs, kwargs, d).Err? ==>
      InversePresetsAsWritten(params, listed, attrs, kwargs, d).error.Kind() == TypeError
    ensures InversePresetsAsWritten(params, listed, attrs, kwargs, d).Ok? ==> forall n ::
      Get(InversePresetsAsWritten(params, listed, attrs, kwargs, d).value, n) ==
        if n in Names(params) && n !in listed && Get(attrs, n).Some? then Get(attrs, n) else Get(d, n)
  {
    if params != [] {
      var p := params[0].name;
      var rest := params[1..];
      assert forall i :: 1 <= i < |params| ==> params[i] == rest[i - 1];
      assert Names(params) == [p] + Names(rest);
      if p in listed {
        InversePresetsAsWrittenSpec(rest, listed, attrs, kwargs, d);
      } else if Get(attrs, p).Some? {
        var v := Get(attrs, p).value;
        InversePresetsAsWrittenSpec(rest, listed, attrs, kwargs, Put(d, p, v));
        forall n
          ensures InversePresetsAsWritten(params, listed, attrs, kwargs, d).Ok? ==>
            Get(InversePresetsAsWritten(params, listed, attrs, kwargs, d).value, n) ==
              if n in Names(params) && n !in listed && Get(attrs, n).Some? then Get(attrs, n) else Get(d, n)
        {
          GetPut(d, p, v, n);
        }
      } else if Get(kwargs, p).None? && params[0].default.None? {
      } else {
        InversePresetsAsWrittenSpec(rest, listed, attrs, kwargs, d);
      }
    }
  }

  /** Corrected, an inverted list map presets exactly the unlisted
      parameters that are attributes. */
  lemma {:induction false} InversePresetsSpec(params: Signature, listed: seq<Name>, attrs: Dict, d: Dict, n: Name)
    ensures Get(InversePresets(params, listed, attrs, d), n) ==
      if n in Names(params) && n !in listed && Get(attrs, n).Some? then Get(attrs, n) else Get(d, n)
  {
    if params != [] {
      var p := params[0].name;
      var rest := params[1..];
      assert Names(params) == [p] + Names(rest);
      if p in listed || Get(attrs, p).None? {
        InversePresetsSpec(rest, listed, attrs, d, n);
      } else {
        var v := Get(attrs, p).value;
        InversePresetsSpec(rest, listed, attrs, Put(d, p, v), n);
        GetPut(d, p, v, n);
      }
    }
  }

  /** The correction changes only the error: whenever the inverted list as
      written succeeds, it builds the corrected presets. */
  lemma {:induction false} InverseCorrectionKeepsSuccess(params: Signature, listed: seq<Name>, attrs: Dict, kwargs: Dict, d: Dict)
    requires InversePresetsAsWritten(params, listed, attrs, kwargs, d).Ok?
    ensures InversePresetsAsWritten(params, listed, attrs, kwargs, d) == Ok(InversePresets(params, listed, attrs, d))
  {
    if params != [] {
      var p := params[0].name;
      if p !in listed && Get(attrs, p).Some? {
        InverseCorrectionKeepsSuccess(params[1..], listed, attrs, kwargs, Put(d, p, Get(attrs, p).value));
      } else {
        InverseCorrectionKeepsSuccess(params[1..], listed, attrs, kwargs, d);
      }
    }
  }

  /** A dictionary map with distinct keys succeeds exactly when every key is
      a parameter and every value an attribute, and then presets each key
      from the attribute it names; it fails with AttributeError otherwise. */
  lemma {:induction false} DictPresetsSpec(pairs: seq<(Name, Name)>, names: seq<Name>, attrs: Dict, d: Dict)
    requires forall i, j :: 0 <= i < j < |pairs| ==> pairs[i].0 != pairs[j].0
    ensures DictPresets(pairs, names, attrs, d).Ok? <==>
      forall i :: 0 <= i < |pairs| ==> pairs[i].0 in names && Get(attrs, pairs[i].1).Some?
    ensures DictPresets(pairs, names, attrs, d).Err? ==> DictPresets(pairs, names, attrs, d).error.Kind() == AttributeError
    ensures DictPresets(pairs, names, attrs, d).Ok? ==>
      forall i :: 0 <= i < |pairs| ==> Get(DictPresets(pairs, names, attrs, d).value, pairs[i].0) == Get(attrs, pairs[i].1)
  {
    if pairs != [] {
      var (p, a) := pairs[0];
      var rest := pairs[1..];
      assert forall i :: 1 <= i < |pairs| ==> pairs[i] == rest[i - 1];
      if p in names && Get(attrs, a).Some? {
        var v := Get(attrs, a).value;
        DictPresetsSpec(rest, names, attrs, Put(d, p, v));
        if DictPresets(pairs, names, attrs, d).Ok? {
          var r := DictPresets(pairs, names, attrs, d).value;
          forall i | 0 <= i < |pairs|
            ensures Get(r, pairs[i].0) == Get(attrs, pairs[i].1)
          {
            if i == 0 {
              DictPresetsKeeps(rest, names, attrs, Put(d, p, v), p);
              GetPut(d, p, v, p);
            }
          }
        }
      }
    }
  }

  /** A name that is no key of the dictionary map keeps its entry. */
  lemma {:induction false} DictPresetsKeeps(pairs: seq<(Name, Name)>, names: seq<Name>, attrs: Dict, d: Dict, n: Name)
    requires forall i :: 0 <= i < |pairs| ==> pairs[i].0 != n
    requires DictPresets(pairs, names, attrs, d).Ok?
    ensures Get(DictPresets(pairs, names, attrs, d).value, n) == Get(d, n)
  {
    if pairs != [] {
      var (p, a) := pairs[0];
      var v := Get(attrs, a).value;
      DictPresetsKeeps(pairs[1..], names, attrs, Put(d, p, v), n);
      GetPut(d, p, v, n);
    }
  }

  /** Building `i_param_dict`, as the four branches of `bound_method` do. */
  method BuildPresets(m: AttrMap, inverse: bool, params: Signature, attrs: Dict, kwargs: Dict) returns (r: Result<Dict>)
    ensures r == Presets(m, inverse, params, attrs, kwargs)
  {
    var names := Names(params);
    var d: Dict := [];
    if m.Falsy() {
      for i := 0 to |names|
        invariant NoMapPresets(names[i..], attrs, d) == NoMapPresets(names, attrs, [])
      {
        assert names[i..][1..] == names[i + 1..];
        var a := Get(attrs, names[i]);
        if a.Some? {
          d := Put(d, names[i], a.value);
        }
      }
      assert names[|names|..] == [];
    }
    ghost var d0 := d;
    match m {
      case NoMap =>
        r := Ok(d);
      case ListMap(listed) =>
        if !inverse {
          for i := 0 to |listed|
            invariant ListPresets(listed[i..], names, attrs, d) == ListPresets(listed, names, attrs, d0)
          {
            assert listed[i..][1..] == listed[i + 1..];
            var p := listed[i];
            if p in names {
              var a := Get(attrs, p);
              if a.None? {
                return Err(PyError(AttributeError, p));
              }
              d := Put(d, p, a.value);
            } else {
              return Err(PyError(AttributeError, p));
            }
          }
          assert listed[|listed|..] == [];
          r := Ok(d);
        } else {
          for i := 0 to |params|
            invariant InversePresetsAsWritten(params[i..], listed, attrs, kwargs, d) == InversePresetsAsWritten(params, listed, attrs, kwargs, d0)
          {
            assert params[i..][1..] == params[i + 1..];
            var p := params[i].name;
            if p !in listed {
              var a := Get(attrs, p);
              if a.Some? {
                d := Put(d, p, a.value);
              } else if Get(kwargs, p).None? && params[i].default.None? {
                // parameter not filled by any of instance var, parameter default, or keyword
                return Err(PyError(TypeError, p));
              }
            }
          }
          assert params[|params|..] == [];
          r := Ok(d);
        }
      case DictMap(pairs) =>
        for i := 0 to |pairs|
          invariant DictPresets(pairs[i..], names, attrs, d) == DictPresets(pairs, names, attrs, d0)
        {
          assert pairs[i..][1..] == pairs[i + 1..];
          var (p, a) := pairs[i];
          if p !in names {
            return Err(PyError(AttributeError, p));
          }
          var found := Get(attrs, a);
          if found.None? {
            return Err(PyError(AttributeError, a));
          }
          d := Put(d, p, found.value);
        }
        assert pairs[|pairs|..] == [];
        r := Ok(d);
    }
  }

  // ---------------------------------------------------------------------
  // `bound_method`

  /** The end of `bound_method` on an instance, once the presets `pre` are
      built: format the arguments, and raise TypeError naming the first
      unfilled parameter, or call the method with the instance. */
  function CallWithPresets(sig: Signature, attrs: Dict, pre: Dict, args: seq<Value>, kwargs: Dict): Result<FlexMethod.Invocation> {
    match FormatArgs(sig, args, kwargs, pre, true)
    case Missing(i) => Err(PyError(TypeError, Formal(sig, true)[i].name))
    case Filled(a, kw) => Ok(FlexMethod.Invocation(VObj(attrs), a, kw))
  }

  /** A call through `untyped(m, inverse)` on the method `sig`, accessed on
      an instance with attributes `attrs`, or on the class (`None`). */
  function AdaptiveCall(sig: Signature, m: AttrMap, inverse: bool, instance: Option<Dict>, args: seq<Value>, kwargs: Dict): Result<FlexMethod.Invocation> {
    match instance
    case None => Ok(FlexMethod.Invocation(VNone, args, kwargs))
    case Some(attrs) =>
      var pre :- Presets(m, inverse, Formal(sig, true), attrs, kwargs);
      CallWithPresets(sig, attrs, pre, args, kwargs)
  }

  /** The same call with the inverted list corrected. */
  function AdaptiveCallCorrected(sig: Signature, m: AttrMap, inverse: bool, instance: Option<Dict>, args: seq<Value>, kwargs: Dict): Result<FlexMethod.Invocation> {
    match instance
    case None => Ok(FlexMethod.Invocation(VNone, args, kwargs))
    case Some(attrs) =>
      var pre :- PresetsCorrected(m, inverse, Formal(sig, true), attrs, kwargs);
      CallWithPresets(sig, attrs, pre, args, kwargs)
  }

  /** The corrected call agrees with the call as written wherever that one
      does not raise the TypeError of the inverted list. */
  lemma CallCorrectionKeepsOutcome(sig: Signature, m: AttrMap, inverse: bool, instance: Option<Dict>, args: seq<Value>, kwargs: Dict)
    ensures AdaptiveCallCorrected(sig, m, inverse, instance, args, kwargs) != AdaptiveCall(sig, m, inverse, instance, args, kwargs) ==>
      instance.Some? && m.ListMap? && inverse &&
      Presets(m, inverse, Formal(sig, true), instance.value, kwargs).Err? &&
      AdaptiveCall(sig, m, inverse, instance, args, kwargs).Err? &&
      AdaptiveCall(sig, m, inverse, instance, args, kwargs).error.Kind() == TypeError
  {
    if instance.Some? {
      PresetsCorrectionKeepsSuccess(m, inverse, Formal(sig, true), instance.value, kwargs);
    }
  }

  /** `bound_method(*args, **kwargs)` */
  method BoundMethod(sig: Signature, m: AttrMap, inverse: bool, instance: Option<Dict>, args: seq<Value>, kwargs: Dict)
    returns (r: Result<FlexMethod.Invocation>)
    ensures r == AdaptiveCall(sig, m, inverse, instance, args, kwargs)
  {
    if instance.Some? {
      var parameters := Formal(sig, true);
      var pre := BuildPresets(m, inverse, parameters, instance.value, kwargs);
      if pre.Err? {
        return Err(pre.error);
      }
      var o := ArgFormatter(sig, args, kwargs, pre.value, true);
      if o.Missing? {
        return Err(PyError(TypeError, parameters[o.index].name));
      }
      r := Ok(FlexMethod.Invocation(VObj(instance.value), o.args, o.kwargs));
    } else {
      r := Ok(FlexMethod.Invocation(VNone, args, kwargs));
    }
  }

  /** Accessed on the class, the method gets `None` for its instance and the
      arguments unchanged, whatever the map. */
  lemma StaticAccess(sig: Signature, m: AttrMap, inverse: bool, args: seq<Value>, kwargs: Dict)
    ensures AdaptiveCall(sig, m, inverse, None, args, kwargs) == Ok(FlexMethod.Invocation(VNone, args, kwargs))
  {
  }

  /** Accessed on an instance, a successful call hands the method the
      instance and one argument per remaining parameter, each the keyword
      naming it, else the next positional, else the preset, else the
      default; the keywords naming a parameter are consumed. */
  lemma InstanceAccess(sig: Signature, m: AttrMap, inverse: bool, attrs: Dict, args: seq<Value>, kwargs: Dict, pre: Dict)
    requires NoDup(Names(Formal(sig, true))) && DistinctKeys(kwargs)
    requires Presets(m, inverse, Formal(sig, true), attrs, kwargs) == Ok(pre)
    requires AdaptiveCall(sig, m, inverse, Some(attrs), args, kwargs).Ok?
    ensures var inv := AdaptiveCall(sig, m, inverse, Some(attrs), args, kwargs).value;
      var params := Formal(sig, true);
      inv.self == VObj(attrs) && |inv.args| == |params|
      && (forall j :: 0 <= j < |params| ==>
        var n := params[j].name;
        var u := Unnamed(Names(params), kwargs, 0, j);
        Some(inv.args[j]) ==
          if Get(kwargs, n).Some? then Get(kwargs, n)
          else if u < |args| then Some(args[u])
          else if Get(pre, n).Some? then Get(pre, n)
          else params[j].default)
      && forall n :: Get(inv.kwargs, n) == if n in Names(params) then None else Get(kwargs, n)
  {
    var params := Formal(sig, true);
    forall j | 0 <= j < |params| {
      SlotPrecedence(sig, args, kwargs, pre, true, j);
    }
    forall n {
      KeywordsConsumed(sig, args, kwargs, pre, true, n);
    }
  }

  /** A parameter that no keyword, no positional, no preset and no default
      fills makes the call raise TypeError. */
  lemma UnfilledParameterRaises(sig: Signature, m: AttrMap, inverse: bool, attrs: Dict, args: seq<Value>, kwargs: Dict, pre: Dict, j: nat)
    requires NoDup(Names(Formal(sig, true)))
    requires Presets(m, inverse, Formal(sig, true), attrs, kwargs) == Ok(pre)
    requires j < |Formal(sig, true)|
    requires var n := Formal(sig, true)[j].name;
      Get(kwargs, n).None? && Unnamed(Names(Formal(sig, true)), kwargs, 0, j) >= |args|
      && Get(pre, n).None? && Formal(sig, true)[j].default.None?
    ensures AdaptiveCall(sig, m, inverse, Some(attrs), args, kwargs).Err?
    ensures AdaptiveCall(sig, m, inverse, Some(attrs), args, kwargs).error.Kind() == TypeError
  {
    SlotPrecedence(sig, args, kwargs, pre, true, j);
    var slots := Fill(sig, args, kwargs, pre, true).0;
    assert slots[j].None?;
    var o := FormatArgs(sig, args, kwargs, pre, true);
    assert o.Missing?;
    assert AdaptiveCall(sig, m, inverse, Some(attrs), args, kwargs) == Err(PyError(TypeError, Formal(sig, true)[o.index].name));
  }
}

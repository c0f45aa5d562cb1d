/** Values, errors and insertion-ordered dictionaries shared by every module.

    Python objects that travel through the argument-resolution engine are
    modelled by the closed datatype `Value`; a Python `dict` (whose keys are
    names) is an insertion-ordered association list `Dict`, because the order
    of a dict's keys decides the outcome of some of the engine's passes. */
module PyValues {

  datatype Option<+T> = None | Some(value: T)

  /** The exception classes the engine raises. */
  datatype ErrorKind =
    | ValueError
    | TypeError
    | IndexError
    | AttributeError
    | NotImplementedError
    | SyntaxError
    | ZeroDivisionError
    | NameError
    | ImportError

  /** A raised exception: its class and the offending name ("" when the
      message names none), or the argument-count mismatch of the
      full-signature strategy with the two counts its message reports. */
  datatype Error =
    | PyError(kind: ErrorKind, key: string)
    | CountMismatch(expected: int, got: int)
  {
    function Kind(): ErrorKind {
      match this
      case PyError(k, _) => k
      case CountMismatch(_, _) => TypeError
    }
  }

  datatype Result<+T> = Ok(value: T) | Err(error: Error) {
    predicate IsFailure() { Err? }

    function PropagateFailure<U>(): Result<U>
      requires Err?
    {
      Err(error)
    }

    function Extract(): T
      requires Ok?
    {
      value
    }
  }

  type Name = string

  /** A Python object as seen by the engine: an integer, a boolean, a string,
      `None`, a dict keyed by names, or a plain object given by its
      attribute dictionary (`__dict__`). */
  datatype Value =
    | VInt(i: int)
    | VBool(b: bool)
    | VStr(s: string)
    | VNone
    | VDict(entries: seq<(Name, Value)>)
    | VObj(attrs: seq<(Name, Value)>)

  /** An insertion-ordered dictionary keyed by names. */
  type Dict = seq<(Name, Value)>

  function Keys(d: Dict): (r: seq<Name>)
    ensures |r| == |d|
    ensures forall i :: 0 <= i < |d| ==> r[i] == d[i].0
  {
    if d == [] then [] else [d[0].0] + Keys(d[1..])
  }

  /** Every key occurs once, as in any Python dict. */
  predicate DistinctKeys(d: Dict) {
    forall i, j :: 0 <= i < j < |d| ==> d[i].0 != d[j].0
  }

  predicate NoDup(s: seq<Name>) {
    forall i, j :: 0 <= i < j < |s| ==> s[i] != s[j]
  }

  /** `d.get(k)` */
  function Get(d: Dict, k: Name): Option<Value> {
    if d == [] then None
    else if d[0].0 == k then Some(d[0].1)
    else Get(d[1..], k)
  }

  /** `d[k] = v`: an existing key keeps its position, a new one goes last. */
  function Put(d: Dict, k: Name, v: Value): Dict {
    if d == [] then [(k, v)]
    else if d[0].0 == k then [(k, v)] + d[1..]
    else [d[0]] + Put(d[1..], k, v)
  }

  /** `del d[k]` */
  function Del(d: Dict, k: Name): Dict {
    if d == [] then []
    else if d[0].0 == k then d[1..]
    else [d[0]] + Del(d[1..], k)
  }

  /** `d.update(e)`: the entries of `e` are stored one by one, in order. */
  function Update(d: Dict, e: Dict): Dict
    decreases |e|
  {
    if e == [] then d else Update(Put(d, e[0].0, e[0].1), e[1..])
  }

  /** `dict(pairs)` */
  function FromPairs(pairs: Dict): Dict {
    Update([], pairs)
  }

  lemma GetIn(d: Dict, k: Name)
    ensures Get(d, k).Some? <==> k in Keys(d)
  {
  }

  lemma GetAt(d: Dict, i: nat)
    requires DistinctKeys(d) && i < |d|
    ensures Get(d, d[i].0) == Some(d[i].1)
  {
    if i > 0 {
      GetAt(d[1..], i - 1);
    }
  }

  lemma GetSome(d: Dict, k: Name)
    requires Get(d, k).Some?
    ensures (k, Get(d, k).value) in d
  {
  }

  lemma KeysPut(d: Dict, k: Name, v: Value)
    ensures Keys(Put(d, k, v)) == if k in Keys(d) then Keys(d) else Keys(d) + [k]
  {
    if d != [] && d[0].0 != k {
      KeysPut(d[1..], k, v);
      assert Keys(Put(d, k, v)) == [d[0].0] + Keys(Put(d[1..], k, v));
    }
  }

  lemma GetPut(d: Dict, k: Name, v: Value, j: Name)
    ensures Get(Put(d, k, v), j) == if j == k then Some(v) else Get(d, j)
  {
  }

  lemma DistinctPut(d: Dict, k: Name, v: Value)
    requires DistinctKeys(d)
    ensures DistinctKeys(Put(d, k, v))
  {
    KeysPut(d, k, v);
    var r := Put(d, k, v);
    forall i, j | 0 <= i < j < |r|
      ensures r[i].0 != r[j].0
    {
      assert Keys(r)[i] == r[i].0 && Keys(r)[j] == r[j].0;
      assert |Keys(d)| == |d|;
      if k !in Keys(d) {
        if j == |d| {
          assert Keys(r)[i] == Keys(d)[i];
        } else {
          assert Keys(r)[i] == d[i].0 && Keys(r)[j] == d[j].0;
        }
      } else {
        assert Keys(r)[i] == d[i].0 && Keys(r)[j] == d[j].0;
      }
    }
  }

  lemma KeysDel(d: Dict, k: Name)
    requires DistinctKeys(d)
    ensures forall j :: j in Keys(Del(d, k)) <==> j in Keys(d) && j != k
    ensures DistinctKeys(Del(d, k))
  {
    if d != [] && d[0].0 != k {
      KeysDel(d[1..], k);
      assert Keys(Del(d, k)) == [d[0].0] + Keys(Del(d[1..], k));
      assert d[0].0 !in Keys(d[1..]);
    } else if d != [] {
      assert Keys(d) == [k] + Keys(d[1..]);
    }
  }

  lemma GetDel(d: Dict, k: Name, j: Name)
    requires DistinctKeys(d)
    ensures Get(Del(d, k), j) == if j == k then None else Get(d, j)
  {
    if d != [] {
      if d[0].0 == k {
        if j == k {
          GetIn(d[1..], k);
          assert k !in Keys(d[1..]);
        }
      } else {
        GetDel(d[1..], k, j);
      }
    }
  }

  lemma KeysUpdate(d: Dict, e: Dict)
    ensures forall j :: j in Keys(Update(d, e)) <==> j in Keys(d) || j in Keys(e)
    decreases |e|
  {
    if e != [] {
      KeysPut(d, e[0].0, e[0].1);
      KeysUpdate(Put(d, e[0].0, e[0].1), e[1..]);
      assert Keys(e) == [e[0].0] + Keys(e[1..]);
    }
  }

  lemma DistinctUpdate(d: Dict, e: Dict)
    requires DistinctKeys(d)
    ensures DistinctKeys(Update(d, e))
    decreases |e|
  {
    if e != [] {
      DistinctPut(d, e[0].0, e[0].1);
      DistinctUpdate(Put(d, e[0].0, e[0].1), e[1..]);
    }
  }

  lemma GetUpdate(d: Dict, e: Dict, j: Name)
    requires DistinctKeys(e)
    ensures Get(Update(d, e), j) == if j in Keys(e) then Get(e, j) else Get(d, j)
    decreases |e|
  {
    if e != [] {
      GetUpdate(Put(d, e[0].0, e[0].1), e[1..], j);
      GetPut(d, e[0].0, e[0].1, j);
      assert Keys(e) == [e[0].0] + Keys(e[1..]);
      if j == e[0].0 {
        assert j !in Keys(e[1..]);
      }
    }
  }

  /** Storing a new key appends it. */
  lemma PutNew(d: Dict, k: Name, v: Value)
    requires k !in Keys(d)
    ensures Put(d, k, v) == d + [(k, v)]
  {
    if d != [] {
      assert k !in Keys(d[1..]);
      PutNew(d[1..], k, v);
    }
  }

  lemma PutLength(d: Dict, k: Name, v: Value)
    ensures |Put(d, k, v)| == if k in Keys(d) then |d| else |d| + 1
  {
    KeysPut(d, k, v);
  }

  lemma UpdateLength(d: Dict, e: Dict)
    ensures |Update(d, e)| <= |d| + |e|
    decreases |e|
  {
    if e != [] {
      PutLength(d, e[0].0, e[0].1);
      UpdateLength(Put(d, e[0].0, e[0].1), e[1..]);
    }
  }

  /** No key of `e` is a key of `d`. */
  predicate Disjoint(d: Dict, e: Dict) {
    forall i, j :: 0 <= i < |d| && 0 <= j < |e| ==> d[i].0 != e[j].0
  }

  lemma DisjointStep(d: Dict, e: Dict)
    requires DistinctKeys(e) && Disjoint(d, e) && e != []
    ensures e[0].0 !in Keys(d)
    ensures DistinctKeys(e[1..]) && Disjoint(d + [e[0]], e[1..])
  {
  }

  /** Updating with entries whose keys are all new appends them. */
  lemma {:induction false} UpdateDisjoint(d: Dict, e: Dict)
    requires DistinctKeys(e) && Disjoint(d, e)
    ensures Update(d, e) == d + e
    decreases |e|
  {
    if e != [] {
      DisjointStep(d, e);
      PutNew(d, e[0].0, e[0].1);
      UpdateDisjoint(d + [e[0]], e[1..]);
      assert d + [e[0]] + e[1..] == d + e;
    }
  }

  /** `dict(pairs)` of pairs with distinct names is those pairs. */
  lemma FromPairsDistinct(e: Dict)
    requires DistinctKeys(e)
    ensures FromPairs(e) == e
  {
    UpdateDisjoint([], e);
  }

  /** Names given once zip into a dict with distinct keys. */
  lemma ZipDistinct(names: seq<Name>, values: seq<Value>)
    requires NoDup(names)
    ensures DistinctKeys(Zip(names, values))
  {
  }

  lemma NoDupAppend(a: seq<Name>, b: seq<Name>)
    requires NoDup(a + b)
    ensures NoDup(a) && NoDup(b)
    ensures forall i, j :: 0 <= i < |a| && 0 <= j < |b| ==> a[i] != b[j]
  {
    forall i, j | 0 <= i < j < |a| ensures a[i] != a[j] {
      assert (a + b)[i] == a[i] && (a + b)[j] == a[j];
    }
    forall i, j | 0 <= i < j < |b| ensures b[i] != b[j] {
      assert (a + b)[|a| + i] == b[i] && (a + b)[|a| + j] == b[j];
    }
    forall i, j | 0 <= i < |a| && 0 <= j < |b| ensures a[i] != b[j] {
      assert (a + b)[i] == a[i] && (a + b)[|a| + j] == b[j];
    }
  }

  lemma NoDupConcat(a: seq<Name>, b: seq<Name>)
    requires NoDup(a) && NoDup(b)
    requires forall i, j :: 0 <= i < |a| && 0 <= j < |b| ==> a[i] != b[j]
    ensures NoDup(a + b)
  {
    forall i, j | 0 <= i < j < |a + b| ensures (a + b)[i] != (a + b)[j] {
      if j < |a| {
        assert (a + b)[i] == a[i] && (a + b)[j] == a[j];
      } else if i < |a| {
        assert (a + b)[i] == a[i] && (a + b)[j] == b[j - |a|];
      } else {
        assert (a + b)[i] == b[i - |a|] && (a + b)[j] == b[j - |a|];
      }
    }
  }

  /** A concatenation repeats no name exactly when neither part does and
      they share none. */
  lemma NoDupSplit(a: seq<Name>, b: seq<Name>)
    ensures NoDup(a + b) <==> NoDup(a) && NoDup(b) && forall i, j :: 0 <= i < |a| && 0 <= j < |b| ==> a[i] != b[j]
  {
    if NoDup(a + b) {
      NoDupAppend(a, b);
    }
    if NoDup(a) && NoDup(b) && forall i, j :: 0 <= i < |a| && 0 <= j < |b| ==> a[i] != b[j] {
      NoDupConcat(a, b);
    }
  }

  lemma DistinctKeysNoDup(d: Dict)
    ensures DistinctKeys(d) <==> NoDup(Keys(d))
  {
  }

  /** A string `s` starts with `p` (Python's `s[:len(p)] == p`). */
  predicate HasPrefix(s: string, p: string) {
    |p| <= |s| && s[..|p|] == p
  }

  /** `dict(zip(names, values))` */
  function Zip(names: seq<Name>, values: seq<Value>): (r: Dict)
    ensures |r| == if |names| <= |values| then |names| else |values|
    ensures forall i :: 0 <= i < |r| ==> r[i] == (names[i], values[i])
  {
    if names == [] || values == [] then []
    else [(names[0], values[0])] + Zip(names[1..], values[1..])
  }
}

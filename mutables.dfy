/** A boxed integer: a cell whose value can be replaced or decremented in
    place, and which otherwise behaves like the integer it holds. */
module Mutables {
  import opened PyValues

  /** Python's `a // b`: the quotient rounded toward negative infinity. */
  function FloorDiv(a: int, b: int): int
    requires b != 0
  {
    if b > 0 then a / b else (-a) / (-b)
  }

  /** Python's `a % b`: the remainder that goes with `FloorDiv`. */
  function FloorMod(a: int, b: int): int
    requires b != 0
  {
    a - b * FloorDiv(a, b)
  }

  /** Python's floor division and modulo satisfy `(a // b) * b + a % b == a`,
      and the remainder lies between 0 and the divisor, on the divisor's side. */
  lemma FloorDivModIdentity(a: int, b: int)
    requires b != 0
    ensures FloorDiv(a, b) * b + FloorMod(a, b) == a
    ensures b > 0 ==> 0 <= FloorMod(a, b) < b
    ensures b < 0 ==> b < FloorMod(a, b) <= 0
  {
    if b < 0 {
      var q := (-a) / (-b);
      assert (-a) == q * (-b) + (-a) % (-b);
      assert FloorMod(a, b) == a - b * q;
    }
  }

  function Pow(base: int, e: nat): int {
    if e == 0 then 1 else base * Pow(base, e - 1)
  }

  /** Python's `int(True)` and `int(False)`: `bool` is a subclass of `int`. */
  function IntOf(v: Value): Option<int> {
    match v
    case VInt(i) => Some(i)
    case VBool(b) => Some(if b then 1 else 0)
    case _ => None
  }

  function Abs(a: int): nat {
    if a < 0 then -a else a
  }

  lemma HalfShrinks(a: int)
    requires a != 0 && a != -1
    ensures Abs(a / 2) < Abs(a)
  {
  }

  /** `a & b` on Python's unbounded two's-complement integers. */
  function BitAnd(a: int, b: int): int
    decreases Abs(a) + Abs(b)
  {
    if a == 0 || b == 0 then 0
    else if a == -1 then b
    else if b == -1 then a
    else
      HalfShrinks(a);
      HalfShrinks(b);
      2 * BitAnd(a / 2, b / 2) + (if a % 2 == 1 && b % 2 == 1 then 1 else 0)
  }

  /** `a | b` */
  function BitOr(a: int, b: int): int
    decreases Abs(a) + Abs(b)
  {
    if a == 0 then b
    else if b == 0 then a
    else if a == -1 || b == -1 then -1
    else
      HalfShrinks(a);
      HalfShrinks(b);
      2 * BitOr(a / 2, b / 2) + (if a % 2 == 1 || b % 2 == 1 then 1 else 0)
  }

  /** `a ^ b` */
  function BitXor(a: int, b: int): int
    decreases Abs(a) + Abs(b)
  {
    if a == 0 then b
    else if b == 0 then a
    else if a == -1 then -b - 1
    else if b == -1 then -a - 1
    else
      HalfShrinks(a);
      HalfShrinks(b);
      2 * BitXor(a / 2, b / 2) + (if a % 2 != b % 2 then 1 else 0)
  }

  /** One step of the three bitwise recursions: the high bits, doubled,
      plus the low bit. */
  lemma BitwiseStep(a: int, b: int)
    requires a != 0 && a != -1 && b != 0 && b != -1
    ensures BitAnd(a, b) == 2 * BitAnd(a / 2, b / 2) + (if a % 2 == 1 && b % 2 == 1 then 1 else 0)
    ensures BitOr(a, b) == 2 * BitOr(a / 2, b / 2) + (if a % 2 == 1 || b % 2 == 1 then 1 else 0)
    ensures BitXor(a, b) == 2 * BitXor(a / 2, b / 2) + (if a % 2 != b % 2 then 1 else 0)
  {
  }

  /** The three bitwise operators agree bit by bit: the bits set in either
      operand are counted once by `|` and twice by `&` plus `^`, so
      `(a & b) + (a | b) == a + b` and `(a | b) - (a & b) == a ^ b`. */
  lemma {:induction false} BitwiseIdentities(a: int, b: int)
    ensures BitAnd(a, b) + BitOr(a, b) == a + b
    ensures BitOr(a, b) - BitAnd(a, b) == BitXor(a, b)
    decreases Abs(a) + Abs(b)
  {
    if a == 0 || b == 0 || a == -1 || b == -1 {
    } else {
      HalfShrinks(a);
      HalfShrinks(b);
      BitwiseIdentities(a / 2, b / 2);
      BitwiseStep(a, b);
      assert a == 2 * (a / 2) + a % 2 && b == 2 * (b / 2) + b % 2;
    }
  }

  /** `a << n`; a negative count raises ValueError. */
  function LeftShift(a: int, n: int): Result<int> {
    if n < 0 then Err(PyError(ValueError, "negative shift count")) else Ok(a * Pow(2, n))
  }

  /** `a >> n`; a negative count raises ValueError. */
  function RightShift(a: int, n: int): Result<int> {
    if n < 0 then Err(PyError(ValueError, "negative shift count"))
    else
      PowPositive(n);
      Ok(FloorDiv(a, Pow(2, n)))
  }

  lemma PowPositive(n: nat)
    ensures Pow(2, n) > 0
  {
  }

  /** The modulus of CPython's integer hash on 64-bit builds, 2**61 - 1. */
  const HashModulus: int := 0x1FFF_FFFF_FFFF_FFFF

  /** CPython's hash of an integer: its residue modulo `HashModulus`
      carrying the sign of the integer, except that -1 (an error code)
      becomes -2. */
  function IntHash(v: int): int {
    var h := if v >= 0 then v % HashModulus else -((-v) % HashModulus);
    if h == -1 then -2 else h
  }

  /** An integer's hash is never -1, small non-negative integers hash to
      themselves, and non-negative integers one modulus apart hash alike. */
  lemma IntHashProperties(v: int)
    ensures IntHash(v) != -1
    ensures 0 <= v < HashModulus ==> IntHash(v) == v
    ensures v >= 0 ==> IntHash(v + HashModulus) == IntHash(v)
  {
    if v >= 0 {
      assert (v + HashModulus) % HashModulus == v % HashModulus;
    }
  }

  class MutableInteger {
    var value: int

    /** `MutableInteger(value)` stores its initial value. */
    constructor (v: int)
      ensures value == v
    {
      value := v;
    }

    /** The `value` property. */
    function Value(): int
      reads this
    {
      value
    }

    /** The `value` property setter, for an integer argument. */
    method SetValue(newValue: int)
      modifies this
      ensures value == newValue
    {
      value := newValue;
    }

    /** `set(v)`: an integer (a boolean counts as one) replaces the value;
        anything else raises ValueError and leaves the cell unchanged. */
    method Set(v: Value) returns (err: Option<Error>)
      modifies this
      ensures err.None? <==> IntOf(v).Some?
      ensures err.Some? ==> err.value.Kind() == ValueError && value == old(value)
      ensures err.None? ==> value == IntOf(v).value
    {
      match IntOf(v)
      case Some(i) =>
        value := i;
        err := None;
      case None =>
        err := Some(PyError(ValueError, "MutableInteger value must be an integer"));
    }

    /** `self += value` as written: the body reads a name `other` that is
        not bound, so every call raises NameError and the cell keeps its
        value. */
    method IAddAsWritten(v: Value) returns (r: Result<MutableInteger>)
      modifies this
      ensures r == Err(PyError(NameError, "other"))
      ensures value == old(value)
    {
      r := Err(PyError(NameError, "other"));
    }

    /** `self += value` as evidently intended, the mirror of `-=`:
        increments the value in place and yields the same cell; a
        non-integer raises ValueError and changes nothing. */
    method IAdd(v: Value) returns (r: Result<MutableInteger>)
      modifies this
      ensures r.Ok? <==> IntOf(v).Some?
      ensures r.Ok? ==> r.value == this && value == old(value) + IntOf(v).value
      ensures r.Err? ==> r.error.Kind() == ValueError && value == old(value)
    {
      match IntOf(v)
      case Some(i) =>
        value := value + i;
        r := Ok(this);
      case None =>
        r := Err(PyError(ValueError, "Can only add integers to MutableInteger"));
    }

    /** `self -= other`: decrements the value in place and yields the same
        cell; a non-integer raises ValueError and changes nothing. */
    method ISub(other: Value) returns (r: Result<MutableInteger>)
      modifies this
      ensures r.Ok? <==> IntOf(other).Some?
      ensures r.Ok? ==> r.value == this && value == old(value) - IntOf(other).value
      ensures r.Err? ==> r.error.Kind() == ValueError && value == old(value)
    {
      match IntOf(other)
      case Some(i) =>
        value := value - i;
        r := Ok(this);
      case None =>
        r := Err(PyError(ValueError, "Can only subtract integers to MutableInteger"));
    }

    // Arithmetic with the cell on the left: plain integers of the current value.

    function Add(other: int): int reads this { value + other }
    function Sub(other: int): int reads this { value - other }
    function Mul(other: int): int reads this { value * other }

    function FloorDivBy(other: int): Result<int>
      reads this
    {
      if other == 0 then Err(PyError(ZeroDivisionError, "")) else Ok(FloorDiv(value, other))
    }

    function ModBy(other: int): Result<int>
      reads this
    {
      if other == 0 then Err(PyError(ZeroDivisionError, "")) else Ok(FloorMod(value, other))
    }

    /** `self ** power` and `pow(self, power, modulo)` for a non-negative
        exponent; a zero modulus raises ValueError. */
    function PowerOf(power: nat): int reads this { Pow(value, power) }

    function PowerMod(power: nat, modulo: int): Result<int>
      reads this
    {
      if modulo == 0 then Err(PyError(ValueError, "pow() 3rd argument cannot be 0"))
      else Ok(FloorMod(Pow(value, power), modulo))
    }

    function LShift(other: int): Result<int> reads this { LeftShift(value, other) }
    function RShift(other: int): Result<int> reads this { RightShift(value, other) }
    function And(other: int): int reads this { BitAnd(value, other) }
    function Xor(other: int): int reads this { BitXor(value, other) }
    function Or(other: int): int reads this { BitOr(value, other) }

    // Reflected arithmetic, with the cell on the right.

    function RAdd(other: int): int reads this { other + value }
    function RSub(other: int): int reads this { other - value }
    function RMul(other: int): int reads this { other * value }

    function RFloorDiv(other: int): Result<int>
      reads this
    {
      if value == 0 then Err(PyError(ZeroDivisionError, "")) else Ok(FloorDiv(other, value))
    }

    function RMod(other: int): Result<int>
      reads this
    {
      if value == 0 then Err(PyError(ZeroDivisionError, "")) else Ok(FloorMod(other, value))
    }

    function RLShift(other: int): Result<int> reads this { LeftShift(other, value) }
    function RRShift(other: int): Result<int> reads this { RightShift(other, value) }
    function RAnd(other: int): int reads this { BitAnd(other, value) }
    function RXor(other: int): int reads this { BitXor(other, value) }
    function ROr(other: int): int reads this { BitOr(other, value) }

    // Comparisons, truth value, conversion and hash of the current integer.

    predicate Lt(other: int) reads this { value < other }
    predicate Le(other: int) reads this { value <= other }
    predicate Eq(other: int) reads this { value == other }
    predicate Ne(other: int) reads this { value != other }
    predicate Gt(other: int) reads this { value > other }
    predicate Ge(other: int) reads this { value >= other }
    predicate Bool() reads this { value != 0 }
    function Int(): int reads this { value }
    function Invert(): int reads this { -value - 1 }
    function Hash(): int reads this { IntHash(value) }
  }

  /** Adding a value to a cell in place and subtracting the same value
      restores the cell's integer, whatever the value: an integer is added
      and taken away again, and anything else is refused both times
      without a change. */
  method AddThenSubtract(m: MutableInteger, v: Value) returns (added: Result<MutableInteger>, back: Result<MutableInteger>)
    modifies m
    ensures m.value == old(m.value)
    ensures added.Ok? <==> back.Ok?
    ensures added.Ok? ==> added.value == m && back.value == m
  {
    added := m.IAdd(v);
    back := m.ISub(v);
  }

  /** The hash is that of the integer the cell holds, so it moves with the
      cell: between small non-negative values, every non-zero step of `-=`
      changes it. */
  method HashAfterSubtract(m: MutableInteger, k: int) returns (h0: int, h1: int)
    modifies m
    ensures m.value == old(m.value) - k
    ensures h0 == IntHash(old(m.value)) && h1 == IntHash(m.value)
    ensures k != 0 && 0 <= old(m.value) < HashModulus && 0 <= old(m.value) - k < HashModulus ==> h0 != h1
  {
    h0 := m.Hash();
    var stepped := m.ISub(VInt(k));
    h1 := m.Hash();
    IntHashProperties(old(m.value));
    IntHashProperties(m.value);
  }

  /** `x ^ x == 0`: every bit cancels against itself. */
  lemma {:induction false} XorSelf(a: int)
    ensures BitXor(a, a) == 0
    decreases Abs(a)
  {
    if a != 0 && a != -1 {
      HalfShrinks(a);
      XorSelf(a / 2);
    }
  }

  /** `(a << n) >> n == a`: shifting left multiplies by a positive power
      of two, which floor division by the same power undoes. */
  lemma ShiftRoundTrip(a: int, n: nat)
    ensures LeftShift(a, n).Ok?
    ensures RightShift(LeftShift(a, n).value, n) == Ok(a)
  {
    PowPositive(n);
    var b := Pow(2, n);
    FloorDivModIdentity(a * b, b);
    var q := FloorDiv(a * b, b);
    assert (a - q) * b == FloorMod(a * b, b) by {
      assert a * b - q * b == (a - q) * b;
    }
    ZeroMultiple(a - q, b);
  }

  /** The only multiple of a positive `b` that lies in `[0, b)` is zero. */
  lemma ZeroMultiple(k: int, b: int)
    requires b > 0 && 0 <= k * b < b
    ensures k == 0
  {
  }

  /** Floor division and modulo of the cell's current integer, with the
      divisor on either side, fit together as `q*b + r == a` with the
      remainder on the divisor's side, and a zero divisor raises
      ZeroDivisionError; the three-argument `pow` lands in the modulus's
      range, agrees with `%` for the first power, and refuses a zero
      modulus with ValueError. */
  lemma CellDivision(m: MutableInteger, o: int, e: nat)
    ensures m.FloorDivBy(o).Ok? <==> o != 0
    ensures m.ModBy(o).Ok? <==> o != 0
    ensures o == 0 ==> m.FloorDivBy(o).error.Kind() == ZeroDivisionError && m.ModBy(o).error.Kind() == ZeroDivisionError
    ensures o != 0 ==> m.FloorDivBy(o).value * o + m.ModBy(o).value == m.Int()
    ensures o > 0 ==> 0 <= m.ModBy(o).value < o
    ensures o < 0 ==> o < m.ModBy(o).value <= 0
    ensures m.RFloorDiv(o).Ok? <==> m.Bool()
    ensures m.RMod(o).Ok? <==> m.Bool()
    ensures !m.Bool() ==> m.RFloorDiv(o).error.Kind() == ZeroDivisionError && m.RMod(o).error.Kind() == ZeroDivisionError
    ensures m.Bool() ==> m.RFloorDiv(o).value * m.Int() + m.RMod(o).value == o
    ensures m.PowerMod(e, o).Ok? <==> o != 0
    ensures o == 0 ==> m.PowerMod(e, o).error.Kind() == ValueError
    ensures o > 0 ==> 0 <= m.PowerMod(e, o).value < o
    ensures o < 0 ==> o < m.PowerMod(e, o).value <= 0
    ensures m.PowerOf(1) == m.Int()
    ensures o != 0 ==> m.PowerMod(1, o) == m.ModBy(o)
  {
    var v := m.value;
    if o != 0 {
      FloorDivModIdentity(v, o);
      FloorDivModIdentity(Pow(v, e), o);
    }
    assert Pow(v, 1) == v * Pow(v, 0);
    if v != 0 {
      FloorDivModIdentity(o, v);
    }
  }

  /** A negative shift count raises ValueError on either side of the
      cell, and shifting the current integer left is undone by shifting
      the result right by the same count. */
  lemma CellShifts(m: MutableInteger, o: int)
    ensures m.LShift(o).Ok? <==> o >= 0
    ensures m.RShift(o).Ok? <==> o >= 0
    ensures m.RLShift(o).Ok? <==> m.Int() >= 0
    ensures m.RRShift(o).Ok? <==> m.Int() >= 0
    ensures o < 0 ==> m.LShift(o).error.Kind() == ValueError && m.RShift(o).error.Kind() == ValueError
    ensures m.Int() < 0 ==> m.RLShift(o).error.Kind() == ValueError && m.RRShift(o).error.Kind() == ValueError
    ensures o >= 0 ==> RightShift(m.LShift(o).value, o) == Ok(m.Int())
  {
    if o >= 0 {
      ShiftRoundTrip(m.value, o);
    }
  }

  /** `&`, `|`, `^` and `~` on the current integer obey the
      two's-complement identities: `a&b + a|b == a+b`, `a|b - a&b == a^b`,
      `~a == a ^ -1` and `a ^ a == 0`. */
  lemma CellBitwise(m: MutableInteger, o: int)
    ensures m.And(o) + m.Or(o) == m.Int() + o
    ensures m.Or(o) - m.And(o) == m.Xor(o)
    ensures m.Invert() == m.Xor(-1)
    ensures m.Xor(m.Int()) == 0
  {
    BitwiseIdentities(m.value, o);
    XorSelf(m.value);
  }

  /** The hash of the cell is the hash of the integer it holds: never -1,
      and a small non-negative value hashes to itself. */
  lemma CellHash(m: MutableInteger)
    ensures m.Hash() == IntHash(m.Int()) && m.Hash() != -1
    ensures 0 <= m.Int() < HashModulus ==> m.Hash() == m.Int()
  {
    IntHashProperties(m.value);
  }
}

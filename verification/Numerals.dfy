/** Digits in a base, most significant first. */
module Numerals {

  predicate Digits(ds: seq<nat>, base: nat) {
    forall i :: 0 <= i < |ds| ==> ds[i] < base
  }

  function ToNat(ds: seq<nat>, base: nat): nat {
    if ds == [] then 0 else ToNat(ds[..|ds| - 1], base) * base + ds[|ds| - 1]
  }

  /** No leading zeros; zero is the empty numeral. */
  function FromNat(v: nat, base: nat): seq<nat>
    requires base > 1
  {
    if v == 0 then []
    else
      Shrinks(v, base);
      FromNat(v / base, base) + [v % base]
  }

  lemma DivMod(v: nat, base: nat)
    requires base > 0
    ensures 0 <= v / base && 0 <= v % base < base && v == v / base * base + v % base
  {
  }

  /** A nonzero multiple of the base is at least the base in size. */
  lemma MultipleSize(q: int, base: int)
    requires base > 0
    ensures q >= 1 ==> q * base >= base
    ensures q <= -1 ==> q * base <= -base
  {
  }

  lemma MulGrows(q: nat, a: nat, b: nat)
    requires a <= b
    ensures q * a <= q * b
  {
    assert q * b == q * a + q * (b - a);
  }

  /** Division by the base makes a positive value smaller. */
  lemma Shrinks(v: nat, base: nat)
    requires base > 1 && v > 0
    ensures 0 <= v / base < v
  {
    DivMod(v, base);
    MulGrows(v / base, 2, base);
  }

  function Zeros(n: nat): seq<nat> {
    seq(n, _ => 0)
  }

  function LeadingZeros(ds: seq<nat>): nat {
    if ds == [] || ds[0] != 0 then 0 else 1 + LeadingZeros(ds[1..])
  }

  /** A numeral in one base written in another, zero by zero and then by value. */
  function Convert(ds: seq<nat>, from: nat, to: nat): seq<nat>
    requires to > 1
  {
    Zeros(LeadingZeros(ds)) + FromNat(ToNat(ds, from), to)
  }

  lemma {:induction false} FromNatIsNumeral(v: nat, base: nat)
    requires base > 1
    ensures Digits(FromNat(v, base), base)
    ensures v > 0 ==> FromNat(v, base) != [] && FromNat(v, base)[0] != 0
  {
    if v > 0 {
      Shrinks(v, base);
      DivMod(v, base);
      FromNatIsNumeral(v / base, base);
    }
  }

  lemma {:induction false} ToFromNat(v: nat, base: nat)
    requires base > 1
    ensures ToNat(FromNat(v, base), base) == v
  {
    if v > 0 {
      Shrinks(v, base);
      ToFromNat(v / base, base);
      var ds := FromNat(v, base);
      assert ds[..|ds| - 1] == FromNat(v / base, base);
      DivMod(v, base);
    }
  }

  /** Reading a numeral and writing it again drops its leading zeros and nothing else. */
  lemma {:induction false} FromToNat(ds: seq<nat>, base: nat)
    requires base > 1 && Digits(ds, base)
    ensures ds == Zeros(LeadingZeros(ds)) + FromNat(ToNat(ds, base), base)
  {
    if ds != [] {
      var front, last := ds[..|ds| - 1], ds[|ds| - 1];
      assert ds == front + [last];
      FromToNat(front, base);
      FromToNatOn(front, last, base, LeadingZeros(front), ToNat(front, base));
    }
  }

  lemma FromToNatOn(front: seq<nat>, last: nat, base: nat, zeros: nat, v: nat)
    requires base > 1 && last < base && zeros == LeadingZeros(front) && v == ToNat(front, base)
    requires front == Zeros(zeros) + FromNat(v, base)
    ensures front + [last] == Zeros(LeadingZeros(front + [last])) + FromNat(ToNat(front + [last], base), base)
  {
    assert FromNat(0, base) == [];
    FromNatIsNumeral(v, base);
    hide ToNat, FromNat, LeadingZeros, Digits;
    LeadingZerosOfSnoc(front, last);
    WriteNext(front, last, base);
    if v == 0 && last == 0 {
      assert Zeros(zeros + 1) == Zeros(zeros) + [0];
    }
  }

  lemma WriteNext(front: seq<nat>, last: nat, base: nat)
    requires base > 1 && last < base
    ensures var v := ToNat(front, base);
      FromNat(ToNat(front + [last], base), base) == if v == 0 && last == 0 then [] else FromNat(v, base) + [last]
  {
    ToNatSnoc(front, last, base);
    WriteSnoc(ToNat(front, base), last, base);
  }

  lemma ToNatSnoc(front: seq<nat>, last: nat, base: nat)
    ensures ToNat(front + [last], base) == ToNat(front, base) * base + last
  {
    assert (front + [last])[..|front|] == front;
  }

  lemma WriteSnoc(v: nat, d: nat, base: nat)
    requires d < base && base > 1
    ensures FromNat(v * base + d, base) == if v == 0 && d == 0 then [] else FromNat(v, base) + [d]
  {
    var x := v * base + d;
    DivMod(x, base);
    var off := x / base - v;
    assert off * base == x / base * base - v * base;
    MultipleSize(off, base);
    assert off == 0;
    if v > 0 {
      MulGrows(v, 1, base);
    }
  }

  lemma {:induction false} LeadingZerosBounds(ds: seq<nat>)
    ensures LeadingZeros(ds) <= |ds|
    ensures forall i :: 0 <= i < LeadingZeros(ds) ==> ds[i] == 0
    ensures LeadingZeros(ds) < |ds| ==> ds[LeadingZeros(ds)] != 0
  {
    if ds != [] && ds[0] == 0 {
      LeadingZerosBounds(ds[1..]);
    }
  }

  lemma LeadingZerosAre(ds: seq<nat>, n: nat)
    requires n <= |ds| && (forall i :: 0 <= i < n ==> ds[i] == 0) && (n < |ds| ==> ds[n] != 0)
    ensures LeadingZeros(ds) == n
  {
    LeadingZerosBounds(ds);
  }

  lemma LeadingZerosOfSnoc(front: seq<nat>, last: nat)
    ensures LeadingZeros(front + [last])
         == if LeadingZeros(front) == |front| && last == 0 then |front| + 1 else LeadingZeros(front)
  {
    LeadingZerosBounds(front);
    LeadingZerosAre(front + [last], if LeadingZeros(front) == |front| && last == 0 then |front| + 1 else LeadingZeros(front));
  }

  lemma {:induction false} ToNatOfZeros(n: nat, ds: seq<nat>, base: nat)
    ensures ToNat(Zeros(n) + ds, base) == ToNat(ds, base)
  {
    var all := Zeros(n) + ds;
    if ds != [] {
      ToNatOfZeros(n, ds[..|ds| - 1], base);
      assert all[..|all| - 1] == Zeros(n) + ds[..|ds| - 1];
    } else if n > 0 {
      ToNatOfZeros(n - 1, [], base);
      assert all[..|all| - 1] == Zeros(n - 1) + [];
    }
  }

  /** Converting to another base and back gives the same digits, leading zeros and all. */
  lemma ConvertBack(ds: seq<nat>, from: nat, to: nat)
    requires from > 1 && to > 1 && Digits(ds, from)
    ensures Digits(Convert(ds, from, to), to)
    ensures Convert(Convert(ds, from, to), to, from) == ds
  {
    var n, v := LeadingZeros(ds), ToNat(ds, from);
    FromNatIsNumeral(v, to);
    LeadingZerosAre(Convert(ds, from, to), n);
    ToNatOfZeros(n, FromNat(v, to), to);
    ToFromNat(v, to);
    FromToNat(ds, from);
  }
}

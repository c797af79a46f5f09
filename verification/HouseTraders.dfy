/** The house accounts: base58 addresses, and sizing an order to what a pool can take. */
module HouseTraders {
  import opened Numerals
  import opened Wrappers

  // ----- Base58 -----

  type Byte = b: int | 0 <= b < 256

  /** The alphabet: digits, capitals and small letters, without 0, I, O and l. */
  function Letter(d: nat): char
    requires d < 58
  {
    if d < 9 then '1' + d as char
    else if d < 17 then 'A' + (d - 9) as char
    else if d < 22 then 'J' + (d - 17) as char
    else if d < 33 then 'P' + (d - 22) as char
    else if d < 44 then 'a' + (d - 33) as char
    else 'm' + (d - 44) as char
  }

  lemma AlphabetIs()
    ensures seq(58, d requires 0 <= d < 58 => Letter(d))
         == "123456789" + "ABCDEFGH" + "JKLMN" + "PQRSTUVWXYZ" + "abcdefghijk" + "mnopqrstuvwxyz"
  {
  }

  function BytesAsDigits(bytes: seq<Byte>): seq<nat> {
    seq(|bytes|, i requires 0 <= i < |bytes| => bytes[i])
  }

  function Letters(ds: seq<nat>): string
    requires Digits(ds, 58)
  {
    seq(|ds|, i requires 0 <= i < |ds| => Letter(ds[i]))
  }

  function Base58Of(bytes: seq<Byte>): string {
    ConvertBack(BytesAsDigits(bytes), 256, 58);
    Letters(Convert(BytesAsDigits(bytes), 256, 58))
  }

  method Base58(bytes: seq<Byte>) returns (out: string)
    ensures out == Base58Of(bytes)
  {
    var value := ReadValue(bytes);
    out := WriteLetters(value);
    out := WriteOnes(bytes, FromNat(value, 58), out);
  }

  /** The bytes read as one number. */
  method ReadValue(bytes: seq<Byte>) returns (value: nat)
    ensures value == ToNat(BytesAsDigits(bytes), 256)
  {
    value := 0;
    for i := 0 to |bytes|
      invariant value == ToNat(BytesAsDigits(bytes[..i]), 256)
    {
      assert BytesAsDigits(bytes[..i + 1])[..i] == BytesAsDigits(bytes[..i]);
      value := value * 256 + bytes[i];
    }
    assert bytes[..|bytes|] == bytes;
  }

  lemma OneMore(numeral: seq<nat>, i: nat)
    requires Digits(Zeros(i) + numeral, 58)
    ensures Digits(Zeros(i + 1) + numeral, 58)
    ensures Letters(Zeros(i + 1) + numeral) == ['1'] + Letters(Zeros(i) + numeral)
  {
    assert Zeros(i + 1) + numeral == [0] + (Zeros(i) + numeral);
    LettersPrepend(0, Zeros(i) + numeral);
  }

  /** A `1` in front for every leading zero byte. */
  method WriteOnes(bytes: seq<Byte>, ghost numeral: seq<nat>, letters: string) returns (out: string)
    requires Digits(numeral, 58) && letters == Letters(numeral)
    ensures var ds := Zeros(LeadingZeros(BytesAsDigits(bytes))) + numeral;
      Digits(ds, 58) && out == Letters(ds)
  {
    ghost var digits := BytesAsDigits(bytes);
    LeadingZerosBounds(digits);
    assert Zeros(0) + numeral == numeral;
    out := letters;
    hide Letters, Zeros, LeadingZeros, Digits;
    var i := 0;
    while i < |bytes| && bytes[i] == 0
      invariant i <= LeadingZeros(digits)
      invariant Digits(Zeros(i) + numeral, 58) && out == Letters(Zeros(i) + numeral)
    {
      assert digits[i] == 0;
      OneMore(numeral, i);
      out := ['1'] + out;
      i := i + 1;
    }
    assert i < |bytes| ==> digits[i] != 0;
  }

  /** The division loop: digits come out last first and are put in front. */
  method WriteLetters(all: nat) returns (out: string)
    ensures Digits(FromNat(all, 58), 58) && out == Letters(FromNat(all, 58))
  {
    FromNatIsNumeral(all, 58);
    var value := all;
    ghost var tail: seq<nat> := [];
    out := "";
    while value > 0
      invariant Digits(tail, 58) && out == Letters(tail)
      invariant FromNat(all, 58) == FromNat(value, 58) + tail
    {
      Shrinks(value, 58);
      LettersPrepend(value % 58, tail);
      assert FromNat(value, 58) + tail == FromNat(value / 58, 58) + ([value % 58] + tail);
      tail := [value % 58] + tail;
      out := [Letter(value % 58)] + out;
      value := value / 58;
    }
  }

  lemma LettersPrepend(d: nat, ds: seq<nat>)
    requires d < 58 && Digits(ds, 58)
    ensures Digits([d] + ds, 58) && Letters([d] + ds) == [Letter(d)] + Letters(ds)
  {
  }

  /** The value of a letter: where it stands in the alphabet. */
  function IndexOf(c: char): Option<nat> {
    if '1' <= c <= '9' then Some((c - '1') as nat)
    else if 'A' <= c <= 'H' then Some(9 + (c - 'A') as nat)
    else if 'J' <= c <= 'N' then Some(17 + (c - 'J') as nat)
    else if 'P' <= c <= 'Z' then Some(22 + (c - 'P') as nat)
    else if 'a' <= c <= 'k' then Some(33 + (c - 'a') as nat)
    else if 'm' <= c <= 'z' then Some(44 + (c - 'm') as nat)
    else None
  }

  /** Looking a letter up is the inverse of writing it. */
  lemma IndexOfLetter(d: nat, c: char)
    ensures d < 58 ==> IndexOf(Letter(d)) == Some(d)
    ensures IndexOf(c).Some? ==> IndexOf(c).value < 58 && Letter(IndexOf(c).value) == c
  {
  }

  function LettersAsDigits(s: string): Option<seq<nat>> {
    if s == [] then Some([])
    else
      var rest, last := LettersAsDigits(s[..|s| - 1]), IndexOf(s[|s| - 1]);
      if rest.None? || last.None? then None else Some(rest.value + [last.value])
  }

  /** Decoding: a zero byte for every leading `1`, then the value in base 256. */
  function Decode(s: string): Option<seq<nat>> {
    match LettersAsDigits(s)
    case None => None
    case Some(ds) => Some(Convert(ds, 58, 256))
  }

  lemma {:induction false} LettersBack(ds: seq<nat>)
    requires Digits(ds, 58)
    ensures LettersAsDigits(Letters(ds)) == Some(ds)
  {
    if ds != [] {
      var front := ds[..|ds| - 1];
      LettersBack(front);
      assert Letters(ds)[..|ds| - 1] == Letters(front);
      IndexOfLetter(ds[|ds| - 1], '1');
      assert ds == front + [ds[|ds| - 1]];
    }
  }

  lemma {:induction false} DigitsBack(s: string)
    requires LettersAsDigits(s).Some?
    ensures Digits(LettersAsDigits(s).value, 58) && Letters(LettersAsDigits(s).value) == s
  {
    if s != [] {
      var front := s[..|s| - 1];
      DigitsBack(front);
      IndexOfLetter(0, s[|s| - 1]);
      var ds := LettersAsDigits(s).value;
      assert Letters(ds) == Letters(LettersAsDigits(front).value) + [s[|s| - 1]];
    }
  }

  /** Decoding an encoding gives the bytes back, for every byte sequence: leading zeros,
      all zeros, and none at all. */
  lemma DecodeEncode(bytes: seq<Byte>)
    ensures Decode(Base58Of(bytes)) == Some(BytesAsDigits(bytes))
  {
    ConvertBack(BytesAsDigits(bytes), 256, 58);
    LettersBack(Convert(BytesAsDigits(bytes), 256, 58));
  }

  /** Encoding is onto: every string over the alphabet is the encoding of what it decodes
      to, and nothing outside the alphabet decodes. */
  lemma EncodeDecode(s: string, bytes: seq<Byte>)
    requires Decode(s) == Some(BytesAsDigits(bytes))
    ensures Base58Of(bytes) == s
  {
    DigitsBack(s);
    ConvertBack(LettersAsDigits(s).value, 58, 256);
  }

  /** So no two byte sequences share an address. */
  lemma EncodingIsInjective(a: seq<Byte>, b: seq<Byte>)
    requires Base58Of(a) == Base58Of(b)
    ensures a == b
  {
    DecodeEncode(a);
    DecodeEncode(b);
    assert forall i :: 0 <= i < |a| ==> a[i] == BytesAsDigits(a)[i];
    assert forall i :: 0 <= i < |b| ==> b[i] == BytesAsDigits(b)[i];
  }

  // ----- Sizing -----

  const MAX_IMPACT_BPS := 150
  const DUST := 5_000_000

  /** The engine's verdict on a size: the impact in basis points, or a refusal. */
  type Quoter = nat -> Option<nat>

  predicate Takes(quote: Quoter, size: nat) {
    quote(size).Some? && quote(size).value <= MAX_IMPACT_BPS
  }

  function Halved(wanted: nat, k: nat): nat {
    if k == 0 then wanted else Halved(wanted, k - 1) / 2
  }

  function TwoTo(k: nat): nat {
    if k == 0 then 1 else 2 * TwoTo(k - 1)
  }

  /** The k-th size tried is what was wanted, halved k times and rounded down. */
  lemma {:induction false} HalvedIs(wanted: nat, k: nat)
    ensures Halved(wanted, k) * TwoTo(k) <= wanted < (Halved(wanted, k) + 1) * TwoTo(k)
  {
    if k > 0 {
      HalvedIs(wanted, k - 1);
      HalfOf(Halved(wanted, k - 1), TwoTo(k - 1), wanted);
    }
  }

  lemma HalfOf(h: nat, power: nat, wanted: nat)
    requires h * power <= wanted < (h + 1) * power
    ensures h / 2 * (2 * power) <= wanted < (h / 2 + 1) * (2 * power)
  {
    var half := h / 2;
    assert half * (2 * power) == (2 * half) * power && (half + 1) * (2 * power) == (2 * half + 2) * power;
    assert 2 * half == h || 2 * half + 1 == h;
    assert h * power == (2 * half) * power + (h - 2 * half) * power;
    assert (h + 1) * power + (2 * half + 1 - h) * power == (2 * half + 2) * power;
  }

  lemma {:induction false} HalvedShrinks(wanted: nat, j: nat, k: nat)
    requires j <= k
    ensures Halved(wanted, k) <= Halved(wanted, j)
  {
    if j < k {
      HalvedShrinks(wanted, j, k - 1);
    }
  }

  /** `size` is the first of the eight sizes wanted, half of it, a quarter, ... that the
      market takes, or zero when none of those worth trading is taken. */
  ghost predicate FirstTaken(quote: Quoter, wanted: nat, floor: nat, size: nat) {
    if size == 0 then
      forall k: nat :: k < 8 && Halved(wanted, k) >= floor ==> !Takes(quote, Halved(wanted, k))
    else
      && size >= floor && Takes(quote, size)
      && exists k: nat :: k < 8 && size == Halved(wanted, k) && RefusedBefore(quote, wanted, k)
  }

  ghost predicate RefusedBefore(quote: Quoter, wanted: nat, k: nat) {
    forall j: nat :: j < k ==> !Takes(quote, Halved(wanted, j))
  }

  method Sized(quote: Quoter, wanted: int, floor: nat) returns (size: nat)
    requires floor > 0
    ensures if wanted < floor then size == 0 else FirstTaken(quote, wanted, floor, size)
  {
    if wanted < floor { return 0; }
    var tried: nat := wanted;
    for attempt := 0 to 8
      invariant tried == Halved(wanted, attempt) && RefusedBefore(quote, wanted, attempt)
    {
      if tried < floor {
        forall k: nat | k < 8 && Halved(wanted, k) >= floor
          ensures !Takes(quote, Halved(wanted, k))
        {
          if attempt <= k {
            HalvedShrinks(wanted, attempt, k);
          }
        }
        return 0;
      }
      var impact := quote(tried);
      if impact.Some? && impact.value <= MAX_IMPACT_BPS {
        return tried;
      }
      tried := tried / 2;
    }
    return 0;
  }

  /** A size the market takes as it is, is not halved; and nothing is ever enlarged. */
  lemma TakenAsItIs(quote: Quoter, wanted: nat, floor: nat, size: nat)
    requires 0 < floor <= wanted && FirstTaken(quote, wanted, floor, size)
    ensures size <= wanted && (Takes(quote, wanted) ==> size == wanted)
  {
    assert Halved(wanted, 0) == wanted;
    if size > 0 {
      var k: nat :| k < 8 && size == Halved(wanted, k) && RefusedBefore(quote, wanted, k);
      HalvedShrinks(wanted, 0, k);
    }
  }

  /** What an account means to sell: around its usual exit, or everything when the
      remainder would be a tail. */
  function PlannedExit(held: nat, bps: nat, cost: nat): nat {
    var part := held * bps / 10_000;
    if part == 0 || held - part < held / 5 || cost < DUST then held else part
  }

  /** There is only one first size the market takes. */
  lemma {:induction false} FirstTakenIsUnique(quote: Quoter, wanted: nat, floor: nat, a: nat, b: nat)
    requires floor > 0 && FirstTaken(quote, wanted, floor, a) && FirstTaken(quote, wanted, floor, b)
    ensures a == b
    decreases a == 0
  {
    if a > 0 {
      var i: nat :| i < 8 && a == Halved(wanted, i) && RefusedBefore(quote, wanted, i);
      assert b != 0;
      var j: nat :| j < 8 && b == Halved(wanted, j) && RefusedBefore(quote, wanted, j);
      assert i >= j && j >= i;
    } else if b > 0 {
      FirstTakenIsUnique(quote, wanted, floor, b, a);
    }
  }

  /** What it does sell, given what the market takes; None when this turn it holds on. */
  method Exit(quote: Quoter, held: nat, bps: nat, cost: nat) returns (sold: Option<nat>)
    requires 1_500 <= bps <= 10_000
    ensures var plan := PlannedExit(held, bps, cost);
      if plan == 0 then sold == None
      else exists shaped: nat :: FirstTaken(quote, plan, 1, shaped)
             && sold == if shaped > 0 && (plan == held || 8 * shaped + 8 > plan) then Some(shaped) else None
    ensures sold.Some? ==> 0 < sold.value <= held && quote(sold.value).Some? && quote(sold.value).value <= 150
    ensures sold.Some? && PlannedExit(held, bps, cost) < held ==> sold.value >= PlannedExit(held, bps, cost) / 8
    ensures var whole := quote(PlannedExit(held, bps, cost));
      held > 0 && whole.Some? && whole.value <= 150 ==> sold == Some(PlannedExit(held, bps, cost))
  {
    ExitLeavesNoTail(held, bps, cost);
    var size := PlannedExit(held, bps, cost);
    var closingOut := size == held;
    var shaped := Sized(quote, size, 1);
    if size >= 1 {
      TakenAsItIs(quote, size, 1, shaped);
    }
    if shaped == 0 { return None; }
    if !closingOut && shaped < size / 8 { return None; }
    return Some(shaped);
  }

  /** A position is closed, or left with at least a fifth of itself and a cost above
      dust: no exit plan leaves a tail, and none sells less than its share. */
  lemma ExitLeavesNoTail(held: nat, bps: nat, cost: nat)
    requires 1_500 <= bps <= 10_000
    ensures var size := PlannedExit(held, bps, cost);
      && size <= held && (held > 0 ==> size > 0)
      && (size < held ==> 5 * (held - size) > held - 5 && cost >= DUST)
      && 10_000 * size > 1_500 * held - 10_000
  {
    MulGrows(held, 1_500, bps);
    MulGrows(held, bps, 10_000);
    TenThousandths(held * bps, held);
  }

  /** Exactly what is planned: the account's share, rounded down, unless that is nothing,
      the cost is dust or under a fifth would be left, and then all of it. `part` is the
      share. */
  lemma PlanIs(held: nat, bps: nat, cost: nat, part: nat)
    requires part * 10_000 <= held * bps < (part + 1) * 10_000
    ensures PlannedExit(held, bps, cost) ==
      if part == 0 || cost < 5_000_000 || 5 * (held - part + 1) <= held then held else part
  {
    var x := held * bps;
    assert x / 10_000 == part by {
      ShareIs(x, part);
    }
  }

  lemma ShareIs(x: nat, part: nat)
    requires part * 10_000 <= x < (part + 1) * 10_000
    ensures x / 10_000 == part
  {
  }

  lemma TenThousandths(x: nat, held: nat)
    requires held * 1_500 <= x <= held * 10_000
    ensures x / 10_000 <= held && 10_000 * (x / 10_000) > 1_500 * held - 10_000
  {
  }
}

/** src/coinbase/util/crypto_func.util.ts: comparison whose loop length does not depend on where
    the strings differ. */
module CryptoUtil {

  /** A JavaScript argument: a string of UTF-16 code units, or anything else. */
  datatype JsValue = JsString(units: seq<bv16>) | NotAString

  /** One step of the loop: `mismatch |= x ^ y`. */
  function Accumulate(mismatch: bv32, x: bv16, y: bv16): bv32 {
    mismatch | ((x ^ y) as bv32)
  }

  lemma AccumulateIsZero(mismatch: bv32, x: bv16, y: bv16)
    ensures Accumulate(mismatch, x, y) == 0 <==> mismatch == 0 && x == y
  {
    assert x ^ y == 0 <==> x == y;
    var bits := (x ^ y) as bv32;
    assert mismatch | bits == 0 <==> mismatch == 0 && bits == 0;
  }

  lemma PrefixGrows(a: seq<bv16>, b: seq<bv16>, i: nat)
    requires i < |a| == |b|
    ensures a[..i + 1] == b[..i + 1] <==> a[..i] == b[..i] && a[i] == b[i]
  {
    assert a[..i + 1] == a[..i] + [a[i]] && b[..i + 1] == b[..i] + [b[i]];
  }

  /** True iff both arguments are equal strings. For strings, `rounds` is always the length of the
      first one: neither the content nor the length of `b` changes how often the loop runs. */
  method SecureCompare(a: JsValue, b: JsValue) returns (equal: bool, rounds: nat)
    ensures equal <==> a.JsString? && b.JsString? && a.units == b.units
    ensures a.JsString? && b.JsString? ==> rounds == |a.units|
  {
    rounds := 0;
    if a.NotAString? || b.NotAString? {
      return false, rounds;
    }
    var other := b.units;
    var mismatch: bv32 := if |a.units| == |other| then 0 else 1;
    if mismatch != 0 {
      other := a.units;
    }
    ghost var start := mismatch;
    var i := 0;
    while i < |a.units|
      invariant 0 <= i <= |a.units| && rounds == i
      invariant mismatch == 0 <==> start == 0 && a.units[..i] == other[..i]
    {
      AccumulateIsZero(mismatch, a.units[i], other[i]);
      PrefixGrows(a.units, other, i);
      mismatch := Accumulate(mismatch, a.units[i], other[i]);
      i := i + 1;
      rounds := rounds + 1;
    }
    assert a.units[..i] == a.units && other[..i] == other;
    equal := mismatch == 0;
  }
}

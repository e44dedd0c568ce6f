/** Well-formedness of UTF-8 as `std::str::from_utf8` checks it: the byte
    sequences of Table 3-7 of the Unicode Standard (no overlong forms, no
    surrogates, nothing above U+10FFFF). */
module Utf8 {
  import opened Ints

  predicate InRange(b: u8, lo: nat, hi: nat) {
    lo <= b <= hi
  }

  /** Length of the well-formed sequence starting at `s[0]`, or 0 when none starts there. */
  function SequenceLength(s: seq<u8>): (n: nat)
    requires |s| > 0
    ensures n <= 4 && n <= |s|
  {
    var b0 := s[0];
    if b0 <= 0x7F then 1
    else if InRange(b0, 0xC2, 0xDF) then
      (if |s| >= 2 && InRange(s[1], 0x80, 0xBF) then 2 else 0)
    else if InRange(b0, 0xE0, 0xEF) then
      var lo := if b0 == 0xE0 then 0xA0 else 0x80;
      var hi := if b0 == 0xED then 0x9F else 0xBF;
      (if |s| >= 3 && InRange(s[1], lo, hi) && InRange(s[2], 0x80, 0xBF) then 3 else 0)
    else if InRange(b0, 0xF0, 0xF4) then
      var lo := if b0 == 0xF0 then 0x90 else 0x80;
      var hi := if b0 == 0xF4 then 0x8F else 0xBF;
      (if |s| >= 4 && InRange(s[1], lo, hi) && InRange(s[2], 0x80, 0xBF) && InRange(s[3], 0x80, 0xBF)
       then 4 else 0)
    else 0
  }

  /** The whole byte string is a concatenation of well-formed sequences. */
  predicate Valid(s: seq<u8>)
    decreases |s|
  {
    |s| == 0 || (SequenceLength(s) > 0 && Valid(s[SequenceLength(s)..]))
  }

  predicate IsScalar(cp: nat) {
    cp < 0x11_0000 && !(0xD800 <= cp <= 0xDFFF)
  }

  /** The UTF-8 encoding of one Unicode scalar value. */
  function EncodeScalar(cp: nat): (r: seq<u8>)
    requires IsScalar(cp)
    ensures 1 <= |r| <= 4
  {
    if cp < 0x80 then [cp]
    else if cp < 0x800 then [0xC0 + cp / 0x40, 0x80 + cp % 0x40]
    else if cp < 0x1_0000 then [0xE0 + cp / 0x1000, 0x80 + (cp / 0x40) % 0x40, 0x80 + cp % 0x40]
    else [0xF0 + cp / 0x4_0000, 0x80 + (cp / 0x1000) % 0x40, 0x80 + (cp / 0x40) % 0x40, 0x80 + cp % 0x40]
  }

  /** The encoding of a scalar value is exactly one well-formed sequence, and the
      validator then goes on with whatever follows it. */
  lemma EncodeScalarWellFormed(cp: nat, rest: seq<u8>)
    requires IsScalar(cp)
    ensures SequenceLength(EncodeScalar(cp) + rest) == |EncodeScalar(cp)|
  {
    var e := EncodeScalar(cp);
    var s := e + rest;
    assert s[..|e|] == e;
    if cp < 0x80 {
    } else if cp < 0x800 {
      assert 0xC2 <= s[0] <= 0xDF;
    } else if cp < 0x1_0000 {
      assert 0xE0 <= s[0] <= 0xEF;
      assert s[0] == 0xE0 ==> cp >= 0x800 && cp / 0x40 >= 0x20 && s[1] >= 0xA0;
      assert s[0] == 0xED ==> cp < 0xD800 && s[1] <= 0x9F;
    } else {
      assert 0xF0 <= s[0] <= 0xF4;
      assert s[0] == 0xF0 ==> (cp / 0x1000) % 0x40 >= 0x10 && s[1] >= 0x90;
      assert s[0] == 0xF4 ==> (cp / 0x1000) % 0x40 < 0x10 && s[1] <= 0x8F;
    }
  }

  /** Encoding a text (a sequence of scalar values). */
  function Encode(cps: seq<nat>): seq<u8>
    requires forall i :: 0 <= i < |cps| ==> IsScalar(cps[i])
  {
    if |cps| == 0 then [] else EncodeScalar(cps[0]) + Encode(cps[1..])
  }

  /** Every encoded text passes the check, so `from_utf8` accepts it. */
  lemma {:induction false} EncodeValid(cps: seq<nat>)
    requires forall i :: 0 <= i < |cps| ==> IsScalar(cps[i])
    ensures Valid(Encode(cps))
  {
    if |cps| > 0 {
      var e := EncodeScalar(cps[0]);
      var rest := Encode(cps[1..]);
      EncodeScalarWellFormed(cps[0], rest);
      assert (e + rest)[|e|..] == rest;
      EncodeValid(cps[1..]);
    }
  }

  /** A lone continuation byte or 0xFF is rejected. */
  lemma InvalidExamples()
    ensures !Valid([0x80]) && !Valid([0xFF]) && !Valid([0xC0, 0x80]) && !Valid([0xED, 0xA0, 0x80])
  {
  }
}

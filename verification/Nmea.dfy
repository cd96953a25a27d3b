/** The checksum of NMEA 0183 sentences.  A sentence is a sequence of character codes, of
    which the sum takes the low eight bits. */
module Nmea {
  import opened Wrappers

  type Code = bv16
  type Text = seq<Code>

  const STAR: Code := 0x2A

  function LowByte(ch: Code): bv8 {
    (ch & 0xFF) as bv8
  }

  /** The exclusive or of all characters. */
  function Xor(s: Text): bv8 {
    if s == [] then 0 else Xor(s[..|s| - 1]) ^ LowByte(s[|s| - 1])
  }

  function HexDigit(d: bv8): Code
    requires d < 16
  {
    (if d < 10 then 0x30 + d else 0x37 + d) as Code
  }

  /** Two upper-case hexadecimal digits. */
  function Hex(b: bv8): (s: Text)
    ensures |s| == 2
  {
    [HexDigit(b >> 4), HexDigit(b & 0xF)]
  }

  /** The value of a digit. */
  function DigitValue(ch: Code): int {
    if 0x30 <= ch <= 0x39 then ch as int - 0x30 else if 0x41 <= ch <= 0x46 then ch as int - 0x41 + 10 else -1
  }

  /** The two digits are those of the number, the high one first. */
  lemma HexIsNumber(b: bv8)
    ensures 0 <= DigitValue(Hex(b)[0]) < 16 && 0 <= DigitValue(Hex(b)[1]) < 16
    ensures 16 * DigitValue(Hex(b)[0]) + DigitValue(Hex(b)[1]) == b as int
  {
    DigitIs(b >> 4);
    DigitIs(b & 0xF);
    assert b as int == 16 * ((b >> 4) as int) + (b & 0xF) as int;
  }

  lemma DigitIs(d: bv8)
    requires d < 16
    ensures DigitValue(HexDigit(d)) == d as int
  {
  }

  predicate OneBit(bit: bv8) {
    bit in {1, 2, 4, 8, 16, 32, 64, 128}
  }

  /** How many characters have this bit. */
  function Having(s: Text, bit: bv8): nat {
    if s == [] then 0 else Having(s[..|s| - 1], bit) + if LowByte(s[|s| - 1]) & bit != 0 then 1 else 0
  }

  /** Each bit of the sum is set exactly if an odd number of characters have it. */
  lemma {:induction false} XorIsParity(s: Text, bit: bv8)
    requires OneBit(bit)
    ensures Xor(s) & bit != 0 <==> Having(s, bit) % 2 == 1
  {
    if s != [] {
      XorIsParity(s[..|s| - 1], bit);
      XorBit(Xor(s[..|s| - 1]), LowByte(s[|s| - 1]), bit);
    }
  }

  lemma XorBit(a: bv8, b: bv8, bit: bv8)
    requires OneBit(bit)
    ensures (a ^ b) & bit != 0 <==> ((a & bit != 0) != (b & bit != 0))
  {
  }

  lemma HexInjective(a: bv8, b: bv8)
    requires Hex(a) == Hex(b)
    ensures a == b
  {
    assert Hex(a)[0] == Hex(b)[0] && Hex(a)[1] == Hex(b)[1];
  }

  /** The position of the first star, or the length of the text. */
  function FirstStar(s: Text): (p: nat)
    ensures p <= |s| && (p < |s| ==> s[p] == STAR) && forall i :: 0 <= i < p ==> s[i] != STAR
  {
    if s == [] || s[0] == STAR then 0 else 1 + FirstStar(s[1..])
  }

  /** What a sentence sums to: everything after its first character up to the first star.
      Nothing shorter than seven characters is summed, and the sum of what starts with a star
      is undefined: there is no first character to go past. */
  function Checksum(s: Text): Option<Text> {
    if |s| < 7 then Some([]) else if s[0] == STAR then None else Some(Hex(Xor(s[1..FirstStar(s)])))
  }

  predicate IsSpace(ch: Code) {
    ch == 0x20 || 9 <= ch <= 13
  }

  function Trim(s: Text): (t: Text)
    ensures t <= s && (t == [] || !IsSpace(t[|t| - 1]))
  {
    if s == [] || !IsSpace(s[|s| - 1]) then s else Trim(s[..|s| - 1])
  }

  /** Trimming drops blanks and the controls from tab to carriage return at the end, and no more. */
  lemma {:induction false} TrimExactly(s: Text)
    ensures forall i :: |Trim(s)| <= i < |s| ==> s[i] in {0x09, 0x0A, 0x0B, 0x0C, 0x0D, 0x20}
    ensures Trim(s) != [] ==> Trim(s)[|Trim(s)| - 1] !in {0x09, 0x0A, 0x0B, 0x0C, 0x0D, 0x20}
  {
    if s != [] && IsSpace(s[|s| - 1]) {
      TrimExactly(s[..|s| - 1]);
      assert Trim(s) == Trim(s[..|s| - 1]);
    }
  }

  /** checkNMEAsum, where it is defined. */
  function Verdict(s: Text): Option<bool> {
    var t := Trim(s);
    var p := FirstStar(t);
    if p == |t| then Some(false)
    else if Checksum(t).None? then None
    else Some(t[p + 1..if p + 3 <= |t| then p + 3 else |t|] == Checksum(t).value)
  }

  predicate Verifies(s: Text) {
    Verdict(s) == Some(true)
  }

  // ----- the loops of the source -----

  method FindStar(s: Text) returns (p: nat)
    ensures p == FirstStar(s)
  {
    p := 0;
    while p < |s| && s[p] != STAR
      invariant 0 <= p <= |s| && forall i :: 0 <= i < p ==> s[i] != STAR
    {
      p := p + 1;
    }
  }

  method NMEAchecksum(sentence: Text) returns (sum: Option<Text>)
    ensures sum == Checksum(sentence)
  {
    if |sentence| < 7 {
      return Some([]);
    }
    var text := sentence;
    var starPos := FindStar(text);
    if starPos < |text| {
      text := text[..starPos];
    }
    if text == [] {
      return None;
    }
    var calculated: bv8 := 0;
    var i := 1;
    while i != |text| && text[i] != STAR
      invariant 1 <= i <= |text| && calculated == Xor(text[1..i])
    {
      XorNext(text, i);
      calculated := calculated ^ LowByte(text[i]);
      i := i + 1;
    }
    assert text[1..i] == sentence[1..FirstStar(sentence)];
    sum := Some(Hex(calculated));
  }

  lemma XorNext(s: Text, i: nat)
    requires 1 <= i < |s|
    ensures Xor(s[1..i + 1]) == Xor(s[1..i]) ^ LowByte(s[i])
  {
    assert s[1..i + 1][..i - 1] == s[1..i];
  }

  method CheckNMEAsum(sentence: Text) returns (correct: Option<bool>)
    ensures correct == Verdict(sentence)
  {
    var trimmed := sentence;
    while trimmed != [] && IsSpace(trimmed[|trimmed| - 1])
      invariant trimmed <= sentence && Trim(trimmed) == Trim(sentence)
    {
      trimmed := trimmed[..|trimmed| - 1];
    }
    var starPos := FindStar(trimmed);
    if starPos == |trimmed| {
      return Some(false);
    }
    var checksum := trimmed[starPos + 1..if starPos + 3 <= |trimmed| then starPos + 3 else |trimmed|];
    var correctSum := NMEAchecksum(trimmed);
    correct := if correctSum.None? then None else Some(checksum == correctSum.value);
  }

  // ----- what it is good for -----

  /** A sentence with a sum behind it. */
  function WithSum(s: Text, sum: Text): Text {
    s + [STAR] + sum
  }

  ghost predicate StarFree(s: Text) {
    forall i :: 0 <= i < |s| ==> s[i] != STAR
  }

  lemma HexIsNoSpace(b: bv8)
    ensures !IsSpace(Hex(b)[1])
  {
  }

  /** When a sentence verifies with the sum of another behind it. */
  lemma VerifiesWith(s: Text, b: bv8)
    requires |s| >= 7 && StarFree(s)
    ensures Trim(WithSum(s, Hex(b))) == WithSum(s, Hex(b))
    ensures Verifies(WithSum(s, Hex(b))) <==> b == Xor(s[1..])
  {
    var t := WithSum(s, Hex(b));
    HexIsNoSpace(b);
    assert t[|t| - 1] == Hex(b)[1];
    assert t[|s|] == STAR && forall i :: 0 <= i < |s| ==> t[i] == s[i];
    assert FirstStar(t) == |s|;
    assert t[1..|s|] == s[1..];
    assert t[|s| + 1..|s| + 3] == Hex(b);
    if Hex(b) == Hex(Xor(s[1..])) {
      HexInjective(b, Xor(s[1..]));
    }
  }

  /** A sentence with its checksum behind it verifies. */
  lemma SumVerifies(s: Text)
    requires |s| >= 7 && StarFree(s)
    ensures Checksum(s).Some? && var t := WithSum(s, Checksum(s).value); Trim(t) == t && Verifies(t)
  {
    SumOfStarFree(s);
    VerifiesWith(s, Xor(s[1..]));
    assert WithSum(s, Checksum(s).value) == WithSum(s, Hex(Xor(s[1..])));
  }

  lemma SumOfStarFree(s: Text)
    requires |s| >= 7 && StarFree(s)
    ensures Checksum(s) == Some(Hex(Xor(s[1..])))
  {
    assert FirstStar(s) == |s|;
    assert s[1..|s|] == s[1..];
  }

  lemma {:induction false} XorChanged(s: Text, i: nat, ch: Code)
    requires i < |s|
    ensures Xor(s[i := ch]) == Xor(s) ^ LowByte(s[i]) ^ LowByte(ch)
  {
    var n := |s| - 1;
    if i < n {
      XorChanged(s[..n], i, ch);
      assert s[i := ch][..n] == s[..n][i := ch];
    } else {
      assert s[i := ch][..n] == s[..n];
    }
  }

  /** After one character other than the first has been changed, and not into a star, the
      sentence still verifies if and only if the two characters have the same low byte. */
  lemma OneChange(s: Text, i: nat, ch: Code)
    requires |s| >= 7 && StarFree(s) && 0 < i < |s| && ch != STAR
    ensures Checksum(s).Some? && Trim(WithSum(s[i := ch], Checksum(s).value)) == WithSum(s[i := ch], Checksum(s).value)
    ensures Verifies(WithSum(s[i := ch], Checksum(s).value)) <==> LowByte(ch) == LowByte(s[i])
  {
    SumOfStarFree(s);
    var sum := Xor(s[1..]);
    VerifiesWith(s[i := ch], sum);
    SumChanges(s, i, ch, sum, Xor(s[i := ch][1..]));
  }

  lemma SumChanges(s: Text, i: nat, ch: Code, sum: bv8, changed: bv8)
    requires 0 < i < |s| && sum == Xor(s[1..]) && changed == Xor(s[i := ch][1..])
    ensures sum == changed <==> LowByte(ch) == LowByte(s[i])
  {
    assert s[i := ch][1..] == s[1..][i - 1 := ch];
    XorChanged(s[1..], i - 1, ch);
    SameXor(sum, changed, LowByte(s[i]), LowByte(ch));
  }

  lemma SameXor(sum: bv8, changed: bv8, a: bv8, b: bv8)
    requires changed == sum ^ a ^ b
    ensures sum == changed <==> b == a
  {
  }

  /** So any change of one eight-bit character is noticed. */
  lemma ChangeNoticed(s: Text, i: nat, ch: Code)
    requires |s| >= 7 && StarFree(s) && 0 < i < |s| && ch != STAR && ch != s[i] && ch < 256 && s[i] < 256
    ensures Checksum(s).Some? && Trim(WithSum(s[i := ch], Checksum(s).value)) == WithSum(s[i := ch], Checksum(s).value)
    ensures !Verifies(WithSum(s[i := ch], Checksum(s).value))
  {
    OneChange(s, i, ch);
  }

  /** What is shorter than seven characters verifies, whatever it is, if and only if its
      first star is its last character: the missing sum then equals the empty one. */
  lemma ShortVerifies(s: Text)
    requires |Trim(s)| < 7
    ensures Verifies(s) <==> Trim(s) != [] && FirstStar(Trim(s)) == |Trim(s)| - 1
  {
    var t := Trim(s);
    var p := FirstStar(t);
    if p < |t| {
      assert |t[p + 1..if p + 3 <= |t| then p + 3 else |t|]| == 0 <==> p == |t| - 1;
    }
  }
}

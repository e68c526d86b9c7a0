/** Counting characters in UTF-8: the first byte of a character tells how many bytes it has. */
module Utf8 {

  newtype Octet = x: int | 0 <= x < 256

  /** The table of sequence lengths, by first byte; 0 where no character starts. */
  function BytesOfCodePoint(b: Octet): nat {
    if b < 0x80 then 1
    else if b < 0xC2 then 0
    else if b < 0xE0 then 2
    else if b < 0xF0 then 3
    else if b < 0xF5 then 4
    else 0
  }

  // ---------- section 4 of RFC 3629 ----------

  predicate Tail(b: Octet) {
    0x80 <= b <= 0xBF
  }

  /** One character: UTF8-1, UTF8-2, UTF8-3 or UTF8-4. */
  predicate IsChar(c: seq<Octet>) {
    || (|c| == 1 && c[0] <= 0x7F)
    || (|c| == 2 && 0xC2 <= c[0] <= 0xDF && Tail(c[1]))
    || (|c| == 3 && Tail(c[2]) &&
        ((c[0] == 0xE0 && 0xA0 <= c[1] <= 0xBF) || (0xE1 <= c[0] <= 0xEC && Tail(c[1])) ||
         (c[0] == 0xED && 0x80 <= c[1] <= 0x9F) || (0xEE <= c[0] <= 0xEF && Tail(c[1]))))
    || (|c| == 4 && Tail(c[2]) && Tail(c[3]) &&
        ((c[0] == 0xF0 && 0x90 <= c[1] <= 0xBF) || (0xF1 <= c[0] <= 0xF3 && Tail(c[1])) ||
          (c[0] == 0xF4 && 0x80 <= c[1] <= 0x8F)))
  }

  /** Code points: everything up to 10FFFF but the surrogates. */
  predicate IsCodePoint(cp: int) {
    0 <= cp <= 0x10FFFF && !(0xD800 <= cp <= 0xDFFF)
  }

  function Encode(cp: int): (c: seq<Octet>)
    requires IsCodePoint(cp)
    ensures IsChar(c)
  {
    if cp < 0x80 then [cp as Octet]
    else if cp < 0x800 then [(0xC0 + cp / 0x40) as Octet, (0x80 + cp % 0x40) as Octet]
    else if cp < 0x1_0000 then [(0xE0 + cp / 0x1000) as Octet, (0x80 + cp / 0x40 % 0x40) as Octet,
      (0x80 + cp % 0x40) as Octet]
    else [(0xF0 + cp / 0x4_0000) as Octet, (0x80 + cp / 0x1000 % 0x40) as Octet, (0x80 + cp / 0x40 % 0x40) as Octet,
      (0x80 + cp % 0x40) as Octet]
  }

  function Decode(c: seq<Octet>): int
    requires IsChar(c)
  {
    if |c| == 1 then c[0] as int
    else if |c| == 2 then (c[0] as int - 0xC0) * 0x40 + (c[1] as int - 0x80)
    else if |c| == 3 then (c[0] as int - 0xE0) * 0x1000 + (c[1] as int - 0x80) * 0x40 + (c[2] as int - 0x80)
    else
      (c[0] as int - 0xF0) * 0x4_0000 + (c[1] as int - 0x80) * 0x1000 +
      (c[2] as int - 0x80) * 0x40 + (c[3] as int - 0x80)
  }

  lemma Over64(m: nat, r: nat)
    requires r < 0x40
    ensures (m * 0x40 + r) / 0x40 == m && (m * 0x40 + r) % 0x40 == r
  {
  }

  lemma Over4096(m: nat, r: nat)
    requires r < 0x1000
    ensures (m * 0x1000 + r) / 0x1000 == m
  {
  }

  lemma Over262144(m: nat, r: nat)
    requires r < 0x4_0000
    ensures (m * 0x4_0000 + r) / 0x4_0000 == m
  {
  }

  /** A number and its base-64 digits. */
  lemma Digits(a: nat, b: nat, c: nat, d: nat)
    requires b < 0x40 && c < 0x40 && d < 0x40
    ensures var n := a * 0x4_0000 + b * 0x1000 + c * 0x40 + d;
      && n % 0x40 == d && n / 0x40 == a * 0x1000 + b * 0x40 + c && n / 0x40 % 0x40 == c
      && n / 0x1000 == a * 0x40 + b && n / 0x1000 % 0x40 == b && n / 0x4_0000 == a
  {
    Over64(a * 0x1000 + b * 0x40 + c, d);
    Over64(a * 0x40 + b, c);
    Over64(a, b);
    Over4096(a * 0x40 + b, c * 0x40 + d);
    Over262144(a, b * 0x1000 + c * 0x40 + d);
  }

  lemma AsDigits(n: nat) returns (a: nat, b: nat, c: nat, d: nat)
    ensures b < 0x40 && c < 0x40 && d < 0x40 && n == a * 0x4_0000 + b * 0x1000 + c * 0x40 + d
  {
    d := n % 0x40;
    var m := n / 0x40;
    c := m % 0x40;
    var l := m / 0x40;
    b, a := l % 0x40, l / 0x40;
  }

  /** The characters of the grammar are exactly the encoded code points. */
  lemma DecodeEncode(cp: int)
    requires IsCodePoint(cp)
    ensures Decode(Encode(cp)) == cp
  {
    var a, b, c, d := AsDigits(cp);
    Digits(a, b, c, d);
  }

  lemma EncodeDecode(c: seq<Octet>)
    requires IsChar(c)
    ensures IsCodePoint(Decode(c)) && Encode(Decode(c)) == c
  {
    if |c| == 2 {
      TwoOctets(c);
    } else if |c| == 3 {
      ThreeOctets(c);
    } else if |c| == 4 {
      FourOctets(c);
    }
  }

  lemma TwoOctets(c: seq<Octet>)
    requires IsChar(c) && |c| == 2
    ensures IsCodePoint(Decode(c)) && Encode(Decode(c)) == c
  {
    Digits(0, 0, c[0] as int - 0xC0, c[1] as int - 0x80);
  }

  lemma ThreeOctets(c: seq<Octet>)
    requires IsChar(c) && |c| == 3
    ensures IsCodePoint(Decode(c)) && Encode(Decode(c)) == c
  {
    Digits(0, c[0] as int - 0xE0, c[1] as int - 0x80, c[2] as int - 0x80);
  }

  lemma FourOctets(c: seq<Octet>)
    requires IsChar(c) && |c| == 4
    ensures IsCodePoint(Decode(c)) && Encode(Decode(c)) == c
  {
    Digits(c[0] as int - 0xF0, c[1] as int - 0x80, c[2] as int - 0x80, c[3] as int - 0x80);
  }

  /** A character is as long as its first byte says. */
  lemma LengthByFirstByte(c: seq<Octet>)
    requires IsChar(c)
    ensures |c| > 0 && BytesOfCodePoint(c[0]) == |c|
  {
  }

  function EncodeAll(cps: seq<int>): seq<Octet>
    requires forall i | 0 <= i < |cps| :: IsCodePoint(cps[i])
  {
    if cps == [] then [] else Encode(cps[0]) + EncodeAll(cps[1..])
  }

  // ---------- counting ----------

  function Skip(b: Octet): nat {
    if BytesOfCodePoint(b) == 0 then 1 else BytesOfCodePoint(b)
  }

  /** How many steps the scan takes from position `i`. */
  function Count(s: seq<Octet>, i: nat): nat
    decreases |s| - i
  {
    if i >= |s| then 0 else 1 + Count(s, i + Skip(s[i]))
  }

  method NumChars(s: seq<Octet>) returns (len: nat)
    ensures len == Count(s, 0)
    ensures |s| <= 4 * len && len <= |s|
  {
    len := 0;
    var i: nat := 0;
    while i < |s|
      invariant len + Count(s, i) == Count(s, 0) && len <= i <= 4 * len && len <= |s|
      decreases |s| - i
    {
      len := len + 1;
      i := i + Skip(s[i]);
    }
  }

  /** Only what lies ahead matters. */
  lemma {:induction false} CountDrop(s: seq<Octet>, k: nat, i: nat)
    requires k <= |s|
    ensures Count(s, k + i) == Count(s[k..], i)
    decreases |s| - i
  {
    if k + i < |s| {
      CountDrop(s, k, i + Skip(s[k + i]));
    }
  }

  /** On encoded text the count is the number of code points, whatever follows is counted on its own. */
  lemma {:induction false} CountEncoded(cps: seq<int>, rest: seq<Octet>)
    requires forall i | 0 <= i < |cps| :: IsCodePoint(cps[i])
    ensures Count(EncodeAll(cps) + rest, 0) == |cps| + Count(rest, 0)
  {
    if cps == [] {
      assert EncodeAll(cps) + rest == rest;
    } else {
      var c := Encode(cps[0]);
      var s := EncodeAll(cps) + rest;
      assert s == c + (EncodeAll(cps[1..]) + rest);
      LengthByFirstByte(c);
      assert s[0] == c[0] && s[|c|..] == EncodeAll(cps[1..]) + rest;
      CountDrop(s, |c|, 0);
      CountEncoded(cps[1..], rest);
    }
  }

  /** Well-formed text: the encoding of some code points. */
  ghost predicate WellFormed(s: seq<Octet>) {
    exists cps :: Encodes(cps, s)
  }

  ghost predicate Encodes(cps: seq<int>, s: seq<Octet>) {
    (forall i | 0 <= i < |cps| :: IsCodePoint(cps[i])) && EncodeAll(cps) == s
  }

  /** Counting well-formed text is counting its code points, and is additive over what follows it. */
  lemma CountWellFormed(s: seq<Octet>, rest: seq<Octet>)
    requires WellFormed(s)
    ensures forall cps | Encodes(cps, s) :: Count(s, 0) == |cps|
    ensures Count(s + rest, 0) == Count(s, 0) + Count(rest, 0)
  {
    forall cps | Encodes(cps, s) ensures Count(s, 0) == |cps| && Count(s + rest, 0) == |cps| + Count(rest, 0) {
      CountEncoded(cps, rest);
      CountEncoded(cps, []);
      assert s + [] == s;
    }
  }

  // ---------- additivity ----------

  /** Where the scan from position `i` stops: at the end of the text, or up to three bytes beyond if the last
      character is cut short. */
  function ScanEnd(s: seq<Octet>, i: nat): (end: nat)
    requires i <= |s|
    ensures |s| <= end <= |s| + 3
    decreases |s| - i
  {
    if i == |s| then i
    else if i + Skip(s[i]) <= |s| then ScanEnd(s, i + Skip(s[i]))
    else i + Skip(s[i])
  }

  lemma {:induction false} CountTo(s: seq<Octet>, rest: seq<Octet>, i: nat)
    requires i <= |s|
    ensures Count(s + rest, i) == Count(s, i) + Count(s + rest, ScanEnd(s, i))
    decreases |s| - i
  {
    if i < |s| && i + Skip(s[i]) <= |s| {
      CountTo(s, rest, i + Skip(s[i]));
    }
  }

  /** What follows a text is counted from where the scan of the text stops. */
  lemma CountConcat(s: seq<Octet>, rest: seq<Octet>)
    ensures Count(s + rest, 0) == Count(s, 0) + Count(rest, ScanEnd(s, 0) - |s|)
  {
    CountTo(s, rest, 0);
    CountDrop(s + rest, |s|, ScanEnd(s, 0) - |s|);
    assert (s + rest)[|s|..] == rest;
  }

  /** The count is additive over whatever follows a text exactly if the scan of the text stops at its end. */
  lemma AdditiveExactly(s: seq<Octet>)
    ensures (forall rest :: Count(s + rest, 0) == Count(s, 0) + Count(rest, 0)) <==> ScanEnd(s, 0) == |s|
  {
    if ScanEnd(s, 0) == |s| {
      forall rest ensures Count(s + rest, 0) == Count(s, 0) + Count(rest, 0) {
        CountConcat(s, rest);
      }
    } else {
      CountConcat(s, [0x41]);
      assert Count([0x41], 0) == 1;
    }
  }

  /** So it does on well-formed text. */
  lemma WellFormedEnds(s: seq<Octet>)
    requires WellFormed(s)
    ensures ScanEnd(s, 0) == |s|
  {
    forall rest ensures Count(s + rest, 0) == Count(s, 0) + Count(rest, 0) {
      CountWellFormed(s, rest);
    }
    AdditiveExactly(s);
  }

  lemma StartsCharacter(s: seq<Octet>)
    requires WellFormed(s) && s != []
    ensures BytesOfCodePoint(s[0]) > 0
  {
    var cps :| Encodes(cps, s);
    LengthByFirstByte(Encode(cps[0]));
    assert s[0] == Encode(cps[0])[0];
  }

  /** A cut character swallows bytes of what follows; a stray tail byte, ill-formed too, does not. */
  lemma CountNotAdditive()
    ensures ScanEnd([0xE4], 0) == 3 && Count([0xE4] + [0x41], 0) == 1 && Count([0xE4], 0) == 1 && Count([0x41], 0) == 1
    ensures !WellFormed([0x80]) && ScanEnd([0x80], 0) == 1
  {
    if WellFormed([0x80]) {
      StartsCharacter([0x80]);
    }
    assert ([0xE4] + [0x41])[0] == 0xE4 as Octet;
  }

  /** Two decodings of one text are the same. */
  lemma {:induction false} EncodingUnique(a: seq<int>, b: seq<int>)
    requires (forall i | 0 <= i < |a| :: IsCodePoint(a[i])) && (forall i | 0 <= i < |b| :: IsCodePoint(b[i]))
    requires EncodeAll(a) == EncodeAll(b)
    ensures a == b
  {
    if a != [] && b != [] {
      var s, c, d := EncodeAll(a), Encode(a[0]), Encode(b[0]);
      LengthByFirstByte(c);
      LengthByFirstByte(d);
      assert s[0] == c[0] && s[0] == d[0];
      assert s[..|c|] == c && s[..|d|] == d;
      DecodeEncode(a[0]);
      DecodeEncode(b[0]);
      assert s[|c|..] == EncodeAll(a[1..]) && s[|d|..] == EncodeAll(b[1..]);
      EncodingUnique(a[1..], b[1..]);
      assert a == [a[0]] + a[1..] && b == [b[0]] + b[1..];
    } else if a != [] {
      LengthByFirstByte(Encode(a[0]));
    } else if b != [] {
      LengthByFirstByte(Encode(b[0]));
    }
  }
}

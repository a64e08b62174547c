/** BitTorrent info-hashes as magnet links spell them: 40 hex digits or 32 base32 characters. */
module InfoHash {
  import opened Octets
  import opened Options
  import opened Text

  // ----- Hex (RFC 4648, section 8) -----

  function HexValue(c: char): Option<int> {
    if '0' <= c <= '9' then Some(c as int - '0' as int)
    else if 'a' <= c <= 'f' then Some(c as int - 'a' as int + 10)
    else if 'A' <= c <= 'F' then Some(c as int - 'A' as int + 10)
    else None
  }

  predicate IsHex(s: string) {
    forall i :: 0 <= i < |s| ==> HexValue(s[i]).Some?
  }

  function HexDigit(n: int): char
    requires 0 <= n < 16
  {
    if n < 10 then n as char + '0' else (n - 10) as char + 'a'
  }

  function HexEncode(bytes: Bytes): string {
    if bytes == [] then "" else [HexDigit(bytes[0] / 16), HexDigit(bytes[0] % 16)] + HexEncode(bytes[1..])
  }

  function HexDecode(s: string): Option<Bytes> {
    if s == "" then Some([])
    else if |s| == 1 then None
    else
      var hi, lo, rest := HexValue(s[0]), HexValue(s[1]), HexDecode(s[2..]);
      if hi.Some? && lo.Some? && rest.Some? then Some([16 * hi.value + lo.value] + rest.value) else None
  }

  // ----- Base32 (RFC 4648, section 6) -----

  function Base32Value(c: char): Option<int> {
    if 'A' <= c <= 'Z' then Some(c as int - 'A' as int)
    else if '2' <= c <= '7' then Some(c as int - '2' as int + 26)
    else None
  }

  predicate IsBase32(s: string) {
    forall i :: 0 <= i < |s| ==> Base32Value(s[i]).Some?
  }

  function Base32Digit(n: int): char
    requires 0 <= n < 32
  {
    if n < 26 then n as char + 'A' else (n - 26) as char + '2'
  }

  /** Five bytes as eight five-bit values. */
  function Fives(b: Bytes): (d: seq<int>)
    requires |b| == 5
    ensures |d| == 8 && forall i :: 0 <= i < 8 ==> 0 <= d[i] < 32
  {
    [b[0] / 8,
     b[0] % 8 * 4 + b[1] / 64,
     b[1] % 64 / 2,
     b[1] % 2 * 16 + b[2] / 16,
     b[2] % 16 * 2 + b[3] / 128,
     b[3] % 128 / 4,
     b[3] % 4 * 8 + b[4] / 32,
     b[4] % 32]
  }

  predicate AreFives(d: seq<int>) {
    forall i :: 0 <= i < |d| ==> 0 <= d[i] < 32
  }

  function Digits(d: seq<int>): (s: string)
    requires AreFives(d)
    ensures |s| == |d|
  {
    seq(|d|, i requires 0 <= i < |d| => Base32Digit(d[i]))
  }

  function Base32Encode(bytes: Bytes): string
    requires |bytes| % 5 == 0
  {
    if bytes == [] then "" else Digits(Fives(bytes[..5])) + Base32Encode(bytes[5..])
  }

  /** The five bytes of eight five-bit values. */
  function Regroup(d: seq<int>): (b: Bytes)
    requires |d| == 8 && AreFives(d)
    ensures |b| == 5
  {
    [d[0] * 8 + d[1] / 4,
     d[1] % 4 * 64 + d[2] * 2 + d[3] / 16,
     d[3] % 16 * 16 + d[4] / 2,
     d[4] % 2 * 128 + d[5] * 4 + d[6] / 8,
     d[6] % 8 * 32 + d[7]]
  }

  function Values(s: string): seq<int>
    requires IsBase32(s)
    ensures |Values(s)| == |s| && AreFives(Values(s))
  {
    seq(|s|, i requires 0 <= i < |s| => Base32Value(s[i]).value)
  }

  /** Decodes text without padding or line breaks. */
  function Base32Decode(s: string): Option<Bytes> {
    if s == "" then Some([])
    else if |s| < 8 || !IsBase32(s[..8]) then None
    else
      var rest := Base32Decode(s[8..]);
      if rest.Some? then Some(Regroup(Values(s[..8])) + rest.value) else None
  }

  // ----- decodeBTIH -----

  function DecodeBTIH(s: string): string {
    if |s| == 40 then
      if HexDecode(s).Some? then Lower(s) else ""
    else if |s| == 32 then
      var b := Base32Decode(Upper(s));
      if b.Some? && |b.value| == 20 then HexEncode(b.value) else ""
    else ""
  }

  /** Equal but for the case of their letters. */
  predicate SameSpelling(s: string, t: string) {
    Lower(s) == Lower(t)
  }

  predicate IsLowerHex(s: string) {
    forall i :: 0 <= i < |s| ==> '0' <= s[i] <= '9' || 'a' <= s[i] <= 'f'
  }

  // ----- Hex round trip -----

  lemma HexDigits(n: int)
    requires 0 <= n < 16
    ensures HexValue(HexDigit(n)) == Some(n) && IsLowerHex([HexDigit(n)])
  {
  }

  lemma {:induction false} HexEncoded(bytes: Bytes)
    ensures |HexEncode(bytes)| == 2 * |bytes| && IsLowerHex(HexEncode(bytes))
    ensures HexDecode(HexEncode(bytes)) == Some(bytes)
  {
    if bytes != [] {
      var b, rest := bytes[0], bytes[1..];
      HexEncoded(rest);
      HexDigits(b / 16);
      HexDigits(b % 16);
      assert HexEncode(bytes)[2..] == HexEncode(rest);
      assert [b] + rest == bytes;
    }
  }

  lemma HexPair(a: char, b: char)
    requires HexValue(a).Some? && HexValue(b).Some?
    ensures var n := 16 * HexValue(a).value + HexValue(b).value;
            0 <= n < 256 && HexDigit(n / 16) == LowerChar(a) && HexDigit(n % 16) == LowerChar(b)
  {
    assert (16 * HexValue(a).value + HexValue(b).value) / 16 == HexValue(a).value;
  }

  lemma HexAndLowerStep(s: string)
    requires |s| >= 2
    ensures IsHex(s) <==> HexValue(s[0]).Some? && HexValue(s[1]).Some? && IsHex(s[2..])
    ensures Lower(s) == [LowerChar(s[0]), LowerChar(s[1])] + Lower(s[2..])
  {
    hide HexValue, LowerChar;
    assert forall i :: 2 <= i < |s| ==> s[i] == s[2..][i - 2];
  }

  lemma {:induction false} HexDecodes(s: string)
    ensures HexDecode(s).Some? <==> IsHex(s) && |s| % 2 == 0
    ensures HexDecode(s).Some? ==> 2 * |HexDecode(s).value| == |s| && HexEncode(HexDecode(s).value) == Lower(s)
    decreases |s|
  {
    hide HexValue, HexDigit, LowerChar, IsHex, Lower;
    if |s| >= 2 {
      HexDecodes(s[2..]);
      HexAndLowerStep(s);
      if HexDecode(s).Some? {
        HexPair(s[0], s[1]);
        assert HexDecode(s).value[1..] == HexDecode(s[2..]).value;
      }
    } else {
      ShortHex(s);
    }
  }

  lemma ShortHex(s: string)
    requires |s| < 2
    ensures s == "" ==> IsHex(s) && Lower(s) == ""
  {
  }

  // ----- Base32 round trip -----

  lemma FirstByte(b0: Byte, b1: Byte)
    ensures b0 / 8 * 8 + (b0 % 8 * 4 + b1 / 64) / 4 == b0
  {
  }

  lemma SecondByte(b0: Byte, b1: Byte, b2: Byte)
    ensures (b0 % 8 * 4 + b1 / 64) % 4 * 64 + b1 % 64 / 2 * 2 + (b1 % 2 * 16 + b2 / 16) / 16 == b1
  {
    assert (b0 % 8 * 4 + b1 / 64) % 4 == b1 / 64 && (b1 % 2 * 16 + b2 / 16) / 16 == b1 % 2;
  }

  lemma ThirdByte(b1: Byte, b2: Byte, b3: Byte)
    ensures (b1 % 2 * 16 + b2 / 16) % 16 * 16 + (b2 % 16 * 2 + b3 / 128) / 2 == b2
  {
  }

  lemma FourthByte(b2: Byte, b3: Byte, b4: Byte)
    ensures (b2 % 16 * 2 + b3 / 128) % 2 * 128 + b3 % 128 / 4 * 4 + (b3 % 4 * 8 + b4 / 32) / 8 == b3
  {
    assert (b2 % 16 * 2 + b3 / 128) % 2 == b3 / 128 && (b3 % 4 * 8 + b4 / 32) / 8 == b3 % 4;
  }

  lemma FifthByte(b3: Byte, b4: Byte)
    ensures (b3 % 4 * 8 + b4 / 32) % 8 * 32 + b4 % 32 == b4
  {
  }

  lemma RegroupIs(d: seq<int>, b: Bytes)
    requires |d| == 8 && AreFives(d) && |b| == 5
    requires d[0] * 8 + d[1] / 4 == b[0] && d[1] % 4 * 64 + d[2] * 2 + d[3] / 16 == b[1]
    requires d[3] % 16 * 16 + d[4] / 2 == b[2] && d[4] % 2 * 128 + d[5] * 4 + d[6] / 8 == b[3]
    requires d[6] % 8 * 32 + d[7] == b[4]
    ensures Regroup(d) == b
  {
  }

  /** Five bytes survive the way through eight values. */
  lemma BytesRoundTrip(b: Bytes)
    requires |b| == 5
    ensures Regroup(Fives(b)) == b
  {
    hide Regroup;
    var b0, b1, b2, b3, b4 := b[0], b[1], b[2], b[3], b[4];
    FirstByte(b0, b1);
    SecondByte(b0, b1, b2);
    ThirdByte(b1, b2, b3);
    FourthByte(b2, b3, b4);
    FifthByte(b3, b4);
    RegroupIs(Fives(b), b);
  }

  /** A value cut in two, and put together again. */
  lemma CutAndJoin(x: int, k: int)
    requires k == 2 || k == 4 || k == 8 || k == 16
    ensures x / k * k + x % k == x
  {
  }

  lemma OuterByte(hi: int, lo: int, k: int)
    requires 0 <= lo < k && k in {2, 4, 8, 16, 32, 64, 128}
    ensures (hi * k + lo) / k == hi && (hi * k + lo) % k == lo
  {
  }

  lemma SecondByteCut(hi: int, mid: int, lo: int)
    requires 0 <= mid < 32 && 0 <= lo < 2
    ensures var b := hi * 64 + mid * 2 + lo; b / 64 == hi && b % 64 / 2 == mid && b % 2 == lo
  {
    OuterByte(hi, mid * 2 + lo, 64);
    OuterByte(mid, lo, 2);
    OuterByte(hi * 32 + mid, lo, 2);
  }

  lemma FourthByteCut(hi: int, mid: int, lo: int)
    requires 0 <= mid < 32 && 0 <= lo < 4
    ensures var b := hi * 128 + mid * 4 + lo; b / 128 == hi && b % 128 / 4 == mid && b % 4 == lo
  {
    OuterByte(hi, mid * 4 + lo, 128);
    OuterByte(mid, lo, 4);
    OuterByte(hi * 32 + mid, lo, 4);
  }

  /** Eight values survive the way through five bytes. */
  lemma ValuesRoundTrip(d: seq<int>)
    requires |d| == 8 && AreFives(d)
    ensures Fives(Regroup(d)) == d
  {
    OuterByte(d[0], d[1] / 4, 8);
    SecondByteCut(d[1] % 4, d[2], d[3] / 16);
    OuterByte(d[3] % 16, d[4] / 2, 16);
    FourthByteCut(d[4] % 2, d[5], d[6] / 8);
    OuterByte(d[6] % 8, d[7], 32);
    CutAndJoin(d[1], 4);
    CutAndJoin(d[3], 16);
    CutAndJoin(d[4], 2);
    CutAndJoin(d[6], 8);
  }

  lemma DigitsAndValues(d: seq<int>)
    requires AreFives(d)
    ensures IsBase32(Digits(d)) && Values(Digits(d)) == d
  {
  }

  lemma ValuesAndDigits(s: string)
    requires IsBase32(s)
    ensures Digits(Values(s)) == s
  {
  }

  lemma EncodeStep(group: Bytes, rest: Bytes)
    requires |group| == 5 && |rest| % 5 == 0
    ensures Base32Encode(group + rest) == Digits(Fives(group)) + Base32Encode(rest)
  {
    assert (group + rest)[..5] == group && (group + rest)[5..] == rest;
    hide Fives, Digits;
  }

  lemma DecodeStep(head: string, rest: string)
    requires |head| == 8
    ensures Base32Decode(head + rest) ==
            if IsBase32(head) && Base32Decode(rest).Some? then Some(Regroup(Values(head)) + Base32Decode(rest).value)
            else None
  {
    assert (head + rest)[..8] == head && (head + rest)[8..] == rest;
    hide Regroup, Values;
  }

  lemma {:induction false} Base32Encoded(bytes: Bytes)
    requires |bytes| % 5 == 0
    ensures 5 * |Base32Encode(bytes)| == 8 * |bytes| && Base32Decode(Base32Encode(bytes)) == Some(bytes)
    ensures IsBase32(Base32Encode(bytes))
    decreases |bytes|
  {
    hide Fives, Digits, Regroup, Values, IsBase32, Base32Encode, Base32Decode;
    if bytes == [] {
      NothingInBase32();
    } else {
      var group, rest := bytes[..5], bytes[5..];
      assert group + rest == bytes;
      Base32Encoded(rest);
      EncodeStep(group, rest);
      BytesRoundTrip(group);
      DigitsAndValues(Fives(group));
      DecodeStep(Digits(Fives(group)), Base32Encode(rest));
      IsBase32Append(Digits(Fives(group)), Base32Encode(rest));
    }
  }

  lemma NothingInBase32()
    ensures Base32Encode([]) == "" && Base32Decode("") == Some([]) && IsBase32("")
  {
  }

  lemma {:induction false} Base32Decodes(s: string)
    ensures Base32Decode(s).Some? <==> IsBase32(s) && |s| % 8 == 0
    ensures Base32Decode(s).Some? ==>
              |Base32Decode(s).value| % 5 == 0 && 8 * |Base32Decode(s).value| == 5 * |s| &&
                Base32Encode(Base32Decode(s).value) == s
    decreases |s|
  {
    if |s| >= 8 {
      DecodesLong(s);
    }
  }

  lemma {:induction false} DecodesLong(s: string)
    requires |s| >= 8
    ensures Base32Decode(s).Some? <==> IsBase32(s) && |s| % 8 == 0
    ensures Base32Decode(s).Some? ==>
              |Base32Decode(s).value| % 5 == 0 && 8 * |Base32Decode(s).value| == 5 * |s| &&
                Base32Encode(Base32Decode(s).value) == s
    decreases |s|, 0
  {
    hide Fives, Digits, Regroup, Values, IsBase32, Base32Encode, Base32Decode;
    var head, rest := s[..8], s[8..];
    assert s == head + rest;
    Base32Decodes(rest);
    DecodeStep(head, rest);
    IsBase32Append(head, rest);
    if Base32Decode(s).Some? {
      ValuesRoundTrip(Values(head));
      ValuesAndDigits(head);
      EncodeStep(Regroup(Values(head)), Base32Decode(rest).value);
    }
  }

  lemma IsBase32Append(a: string, b: string)
    ensures IsBase32(a + b) <==> IsBase32(a) && IsBase32(b)
  {
    if IsBase32(a + b) {
      assert forall i :: 0 <= i < |a| ==> a[i] == (a + b)[i];
      assert forall i :: 0 <= i < |b| ==> b[i] == (a + b)[|a| + i];
    }
  }

  // ----- The normal form -----

  /** Only what has a value in some case is accepted, and case makes no difference to it. */
  lemma CaseIsIrrelevant(s: string, t: string)
    requires SameSpelling(s, t)
    ensures |s| == |t| && Upper(s) == Upper(t) && (IsHex(s) <==> IsHex(t))
  {
    assert |Lower(s)| == |Lower(t)|;
    forall i | 0 <= i < |s|
      ensures LowerChar(s[i]) == LowerChar(t[i])
    {
      assert Lower(s)[i] == Lower(t)[i];
    }
  }

  lemma LowerHexIsItsOwnCase(s: string)
    requires IsLowerHex(s)
    ensures Lower(s) == s
  {
  }

  /** The two spellings of a hash, in any mixture of cases, have the same normal form: its lowercase hex. */
  lemma HashNormalForm(hash: Bytes, s: string)
    requires |hash| == 20
    requires SameSpelling(s, HexEncode(hash)) || SameSpelling(s, Base32Encode(hash))
    ensures DecodeBTIH(s) == HexEncode(hash)
  {
    HexEncoded(hash);
    Base32Encoded(hash);
    hide HexEncode, HexDecode, Base32Encode, Base32Decode;
    if SameSpelling(s, HexEncode(hash)) {
      CaseIsIrrelevant(s, HexEncode(hash));
      HexDecodes(HexEncode(hash));
      HexDecodes(s);
      LowerHexIsItsOwnCase(HexEncode(hash));
    } else {
      CaseIsIrrelevant(s, Base32Encode(hash));
      Base32IsUpper(Base32Encode(hash));
    }
  }

  lemma Base32IsUpper(s: string)
    requires IsBase32(s)
    ensures Upper(s) == s
  {
    forall i | 0 <= i < |s|
      ensures UpperChar(s[i]) == s[i]
    {
      assert Base32Value(s[i]).Some?;
    }
  }

  /** Everything accepted is one of the two spellings of a 20-byte hash, and only those are accepted. */
  lemma AcceptsExactlyTheSpellings(s: string)
    ensures DecodeBTIH(s) != "" <==>
            (|s| == 40 && IsHex(s)) || (|s| == 32 && IsBase32(Upper(s)))
    ensures DecodeBTIH(s) != "" ==>
              exists hash: Bytes ::
                |hash| == 20 && DecodeBTIH(s) == HexEncode(hash) &&
                (SameSpelling(s, HexEncode(hash)) || SameSpelling(s, Base32Encode(hash)))
  {
    if |s| == 40 {
      HexDecodes(s);
      if IsHex(s) {
        var hash := HexDecode(s).value;
        HexEncoded(hash);
        LowerHexIsItsOwnCase(HexEncode(hash));
        assert SameSpelling(s, HexEncode(hash));
      }
    } else if |s| == 32 {
      Base32Decodes(Upper(s));
      if IsBase32(Upper(s)) {
        var hash := Base32Decode(Upper(s)).value;
        HexEncoded(hash);
        LowerOfUpper(s);
        assert SameSpelling(s, Base32Encode(hash));
      }
    }
  }

  lemma LowerOfUpper(s: string)
    ensures Lower(Upper(s)) == Lower(s)
  {
  }

  /** A result is 40 lowercase hex digits and its own normal form. */
  lemma NormalFormIsStable(s: string)
    requires DecodeBTIH(s) != ""
    ensures var r := DecodeBTIH(s); |r| == 40 && IsLowerHex(r) && DecodeBTIH(r) == r
  {
    AcceptsExactlyTheSpellings(s);
    hide DecodeBTIH;
    var hash: Bytes :| |hash| == 20 && DecodeBTIH(s) == HexEncode(hash);
    HexEncoded(hash);
    HashNormalForm(hash, HexEncode(hash));
  }

  /** Two accepted spellings have the same normal form exactly when they spell the same hash. */
  lemma NormalFormIsFaithful(a: Bytes, b: Bytes)
    requires |a| == 20 && |b| == 20
    ensures DecodeBTIH(Base32Encode(a)) == DecodeBTIH(HexEncode(b)) <==> a == b
  {
    HashNormalForm(a, Base32Encode(a));
    HashNormalForm(b, HexEncode(b));
    HexEncoded(a);
    HexEncoded(b);
    hide *;
  }
}

/** API key tokens (lib/apikeys.ts): random bytes as base64url without padding
    (section 5 of RFC 4648), behind a fixed prefix. */
module ApiKeys {
  import opened Lists

  type byte = b: int | 0 <= b < 256

  const KEY_PREFIX := "pc_"
  const PREFIX_DISPLAY_LEN := 11

  // ── The encoding as the RFC has it ──────────────────────────────────────

  function UrlDigit(v: nat): (c: char)
    requires v < 64
    ensures UrlChar(c)
  {
    if v < 26 then 'A' + v as char
    else if v < 52 then 'a' + (v - 26) as char
    else if v < 62 then '0' + (v - 52) as char
    else if v == 62 then '-'
    else '_'
  }

  predicate UrlChar(c: char) {
    'A' <= c <= 'Z' || 'a' <= c <= 'z' || '0' <= c <= '9' || c == '-' || c == '_'
  }

  function ValueOf(c: char): (v: Option<nat>)
    ensures v.Some? <==> UrlChar(c)
    ensures v.Some? ==> v.value < 64
  {
    if 'A' <= c <= 'Z' then Some((c - 'A') as nat)
    else if 'a' <= c <= 'z' then Some((c - 'a') as nat + 26)
    else if '0' <= c <= '9' then Some((c - '0') as nat + 52)
    else if c == '-' then Some(62)
    else if c == '_' then Some(63)
    else None
  }

  lemma DigitReadsBack(v: nat)
    requires v < 64
    ensures ValueOf(UrlDigit(v)) == Some(v)
  {
  }

  // The four sextets of three bytes.

  function First(a: byte): (v: nat)
    ensures v < 64
  {
    a / 4
  }

  function Second(a: byte, b: byte): (v: nat)
    ensures v < 64
  {
    a % 4 * 16 + b / 16
  }

  function Third(b: byte, c: byte): (v: nat)
    ensures v < 64
  {
    b % 16 * 4 + c / 64
  }

  function Fourth(c: byte): (v: nat)
    ensures v < 64
  {
    c % 64
  }

  function UrlGroup(a: byte, b: byte, c: byte): (s: string)
    ensures |s| == 4 && forall i :: 0 <= i < |s| ==> UrlChar(s[i])
  {
    [UrlDigit(First(a)), UrlDigit(Second(a, b)), UrlDigit(Third(b, c)), UrlDigit(Fourth(c))]
  }

  function Base64url(bytes: seq<byte>): (s: string)
    ensures forall i :: 0 <= i < |s| ==> UrlChar(s[i])
  {
    if bytes == [] then ""
    else if |bytes| == 1 then [UrlDigit(First(bytes[0])), UrlDigit(Second(bytes[0], 0))]
    else if |bytes| == 2 then
      [UrlDigit(First(bytes[0])), UrlDigit(Second(bytes[0], bytes[1])), UrlDigit(Third(bytes[1], 0))]
    else UrlGroup(bytes[0], bytes[1], bytes[2]) + Base64url(bytes[3..])
  }

  // ── The encoding as the code has it ─────────────────────────────────────

  predicate Latin1(bin: string) {
    forall i :: 0 <= i < |bin| ==> bin[i] as int < 256
  }

  function Code(c: char): byte
    requires c as int < 256
  {
    c as int
  }

  function Digit(v: nat): char
    requires v < 64
  {
    if v == 62 then '+' else if v == 63 then '/' else UrlDigit(v)
  }

  /** `btoa`, over a string of one character per byte. */
  function Btoa(bin: string): string
    requires Latin1(bin)
  {
    if bin == "" then ""
    else if |bin| == 1 then [Digit(First(Code(bin[0]))), Digit(Second(Code(bin[0]), 0)), '=', '=']
    else if |bin| == 2 then
      [Digit(First(Code(bin[0]))), Digit(Second(Code(bin[0]), Code(bin[1]))), Digit(Third(Code(bin[1]), 0)), '=']
    else Group(Code(bin[0]), Code(bin[1]), Code(bin[2])) + Btoa(bin[3..])
  }

  function Group(a: byte, b: byte, c: byte): (s: string)
    ensures |s| == 4
  {
    [Digit(First(a)), Digit(Second(a, b)), Digit(Third(b, c)), Digit(Fourth(c))]
  }

  function Swap(c: char): char {
    if c == '+' then '-' else if c == '/' then '_' else c
  }

  function Swapped(s: string): (r: string)
    ensures |r| == |s|
  {
    seq(|s|, i requires 0 <= i < |s| => Swap(s[i]))
  }

  /** `replace(/=+$/, "")`. */
  function StripPadding(s: string): string {
    if s != "" && s[|s| - 1] == '=' then StripPadding(s[..|s| - 1]) else s
  }

  function BytesOf(bin: string): seq<byte>
    requires Latin1(bin)
  {
    seq(|bin|, i requires 0 <= i < |bin| => Code(bin[i]))
  }

  lemma SwapDigit(v: nat)
    requires v < 64
    ensures Swap(Digit(v)) == UrlDigit(v)
  {
  }

  function Padding(n: nat): string {
    if n % 3 == 1 then "==" else if n % 3 == 2 then "=" else ""
  }

  lemma {:induction false} SwapGroup(a: byte, b: byte, c: byte)
    ensures Swapped(Group(a, b, c)) == UrlGroup(a, b, c)
  {
    SwapDigit(First(a));
    SwapDigit(Second(a, b));
    SwapDigit(Third(b, c));
    SwapDigit(Fourth(c));
  }

  lemma SwapJoins(a: string, b: string)
    ensures Swapped(a + b) == Swapped(a) + Swapped(b)
  {
  }

  lemma {:induction false} SwappedShort(bin: string)
    requires Latin1(bin) && |bin| < 3
    ensures Swapped(Btoa(bin)) == Base64url(BytesOf(bin)) + Padding(|bin|)
  {
    if |bin| == 1 {
      SwapDigit(First(Code(bin[0])));
      SwapDigit(Second(Code(bin[0]), 0));
    } else if |bin| == 2 {
      SwapDigit(First(Code(bin[0])));
      SwapDigit(Second(Code(bin[0]), Code(bin[1])));
      SwapDigit(Third(Code(bin[1]), 0));
    }
  }

  lemma {:induction false} SwappedIsUrl(bin: string)
    requires Latin1(bin)
    ensures Swapped(Btoa(bin)) == Base64url(BytesOf(bin)) + Padding(|bin|)
  {
    if |bin| < 3 {
      SwappedShort(bin);
    } else {
      var rest := bin[3..];
      SwappedIsUrl(rest);
      PaddingRepeats(|rest|);
      SwappedStep(bin, Padding(|rest|));
    }
  }

  lemma {:induction false} PaddingRepeats(n: nat)
    ensures Padding(n + 3) == Padding(n)
  {
  }

  lemma {:induction false} SwappedStep(bin: string, padding: string)
    requires Latin1(bin) && |bin| >= 3
    requires Swapped(Btoa(bin[3..])) == Base64url(BytesOf(bin[3..])) + padding
    ensures Swapped(Btoa(bin)) == Base64url(BytesOf(bin)) + padding
  {
    var bytes := BytesOf(bin);
    var group, rest := UrlGroup(bytes[0], bytes[1], bytes[2]), Base64url(bytes[3..]);
    assert BytesOf(bin[3..]) == bytes[3..];
    SwapJoins(Group(bytes[0], bytes[1], bytes[2]), Btoa(bin[3..]));
    SwapGroup(bytes[0], bytes[1], bytes[2]);
    assert group + (rest + padding) == group + rest + padding;
  }

  lemma StripOne(s: string)
    ensures StripPadding(s + "=") == StripPadding(s)
  {
    assert (s + "=")[..|s|] == s;
  }

  lemma StripsToUrl(s: string, n: nat)
    requires forall i :: 0 <= i < |s| ==> UrlChar(s[i])
    ensures StripPadding(s + Padding(n)) == s
  {
    StripOne(s);
    StripOne(s + "=");
    assert s + "" == s && s + "==" == s + "=" + "=";
  }

  method BytesToBase64url(bytes: seq<byte>) returns (s: string)
    ensures s == Base64url(bytes)
  {
    var bin := "";
    for i := 0 to |bytes|
      invariant |bin| == i && Latin1(bin)
      invariant forall k :: 0 <= k < i ==> bin[k] as int == bytes[k]
    {
      bin := bin + [bytes[i] as char];
    }
    assert BytesOf(bin) == bytes;
    SwappedIsUrl(bin);
    StripsToUrl(Base64url(bytes), |bytes|);
    s := StripPadding(Swapped(Btoa(bin)));
  }

  // ── Its inverse ─────────────────────────────────────────────────────────

  // The three bytes of four sextets.

  function FirstByte(v: nat, w: nat): (a: byte)
    requires v < 64 && w < 64
  {
    v * 4 + w / 16
  }

  function SecondByte(w: nat, x: nat): (b: byte)
    requires w < 64 && x < 64
  {
    w % 16 * 16 + x / 4
  }

  function ThirdByte(x: nat, y: nat): (c: byte)
    requires x < 64 && y < 64
  {
    x % 4 * 64 + y
  }

  /** A strict reader: whole groups, then two or three characters whose spare
      bits are zero. */
  function Decode(s: string): Option<seq<byte>> {
    if s == "" then Some([])
    else if |s| == 1 then None
    else
      var v, w := ValueOf(s[0]), ValueOf(s[1]);
      if v.None? || w.None? then None
      else if |s| == 2 then DecodeTwo(v.value, w.value)
      else
        var x := ValueOf(s[2]);
        if x.None? then None
        else if |s| == 3 then DecodeThree(v.value, w.value, x.value)
        else
          var y, rest := ValueOf(s[3]), Decode(s[4..]);
          if y.None? || rest.None? then None
          else Some(DecodeFour(v.value, w.value, x.value, y.value) + rest.value)
  }

  function DecodeTwo(v: nat, w: nat): Option<seq<byte>>
    requires v < 64 && w < 64
  {
    if w % 16 == 0 then Some([FirstByte(v, w)]) else None
  }

  function DecodeThree(v: nat, w: nat, x: nat): Option<seq<byte>>
    requires v < 64 && w < 64 && x < 64
  {
    if x % 4 == 0 then Some([FirstByte(v, w), SecondByte(w, x)]) else None
  }

  function DecodeFour(v: nat, w: nat, x: nat, y: nat): seq<byte>
    requires v < 64 && w < 64 && x < 64 && y < 64
  {
    [FirstByte(v, w), SecondByte(w, x), ThirdByte(x, y)]
  }

  lemma LowBits(k: nat, r: nat)
    requires r < 16
    ensures (k * 16 + r) % 16 == r
  {
  }

  lemma HighBits(k: nat, r: nat)
    requires r < 4
    ensures (k * 4 + r) / 4 == k && (k * 4 + r) % 4 == r
  {
  }

  lemma FirstComesBack(a: byte, b: byte)
    ensures FirstByte(First(a), Second(a, b)) == a
  {
  }

  lemma SecondComesBack(a: byte, b: byte, c: byte)
    ensures SecondByte(Second(a, b), Third(b, c)) == b
  {
    LowBits(a % 4, b / 16);
    HighBits(b % 16, c / 64);
  }

  lemma ThirdComesBack(b: byte, c: byte)
    ensures ThirdByte(Third(b, c), Fourth(c)) == c
  {
    HighBits(b % 16, c / 64);
  }

  lemma OneByteComesBack(a: byte)
    ensures DecodeTwo(First(a), Second(a, 0)) == Some([a])
  {
    FirstComesBack(a, 0);
    assert Second(a, 0) % 16 == 0;
  }

  lemma TwoBytesComeBack(a: byte, b: byte)
    ensures DecodeThree(First(a), Second(a, b), Third(b, 0)) == Some([a, b])
  {
    FirstComesBack(a, b);
    SecondComesBack(a, b, 0);
    assert Third(b, 0) % 4 == 0;
  }

  lemma ThreeBytesComeBack(a: byte, b: byte, c: byte)
    ensures DecodeFour(First(a), Second(a, b), Third(b, c), Fourth(c)) == [a, b, c]
  {
    FirstComesBack(a, b);
    SecondComesBack(a, b, c);
    ThirdComesBack(b, c);
  }

  // Reading digits back, whatever sextets they show.

  lemma ReadTwo(v: nat, w: nat)
    requires v < 64 && w < 64
    ensures Decode([UrlDigit(v), UrlDigit(w)]) == DecodeTwo(v, w)
  {
    DigitReadsBack(v);
    DigitReadsBack(w);
  }

  lemma ReadThree(v: nat, w: nat, x: nat)
    requires v < 64 && w < 64 && x < 64
    ensures Decode([UrlDigit(v), UrlDigit(w), UrlDigit(x)]) == DecodeThree(v, w, x)
  {
    DigitReadsBack(v);
    DigitReadsBack(w);
    DigitReadsBack(x);
  }

  lemma {:induction false} ReadFour(v: nat, w: nat, x: nat, y: nat, rest: string)
    requires v < 64 && w < 64 && x < 64 && y < 64 && Decode(rest).Some?
    ensures Decode([UrlDigit(v), UrlDigit(w), UrlDigit(x), UrlDigit(y)] + rest) ==
            Some(DecodeFour(v, w, x, y) + Decode(rest).value)
  {
    DigitReadsBack(v);
    DigitReadsBack(w);
    DigitReadsBack(x);
    DigitReadsBack(y);
    assert ([UrlDigit(v), UrlDigit(w), UrlDigit(x), UrlDigit(y)] + rest)[4..] == rest;
  }

  lemma {:induction false} ReadGroup(a: byte, b: byte, c: byte, rest: string)
    requires Decode(rest).Some?
    ensures Decode(UrlGroup(a, b, c) + rest) == Some([a, b, c] + Decode(rest).value)
  {
    ReadFour(First(a), Second(a, b), Third(b, c), Fourth(c), rest);
    ThreeBytesComeBack(a, b, c);
  }

  lemma {:induction false} LastByteDecodes(bytes: seq<byte>)
    requires |bytes| == 1
    ensures Decode(Base64url(bytes)) == Some(bytes)
  {
    ReadTwo(First(bytes[0]), Second(bytes[0], 0));
    OneByteComesBack(bytes[0]);
    assert bytes == [bytes[0]];
  }

  lemma {:induction false} UrlOfTwo(bytes: seq<byte>)
    requires |bytes| == 2
    ensures Base64url(bytes) ==
            [UrlDigit(First(bytes[0])), UrlDigit(Second(bytes[0], bytes[1])), UrlDigit(Third(bytes[1], 0))]
  {
  }

  lemma {:induction false} LastTwoBytesDecode(bytes: seq<byte>)
    requires |bytes| == 2
    ensures Decode(Base64url(bytes)) == Some(bytes)
  {
    var a, b := bytes[0], bytes[1];
    UrlOfTwo(bytes);
    ReadThree(First(a), Second(a, b), Third(b, 0));
    TwoBytesComeBack(a, b);
    assert bytes == [a, b];
  }

  lemma {:induction false} UrlOfMore(bytes: seq<byte>)
    requires |bytes| > 2
    ensures Base64url(bytes) == UrlGroup(bytes[0], bytes[1], bytes[2]) + Base64url(bytes[3..])
  {
  }

  lemma {:induction false} FirstThreeDecode(bytes: seq<byte>)
    requires |bytes| > 2 && Decode(Base64url(bytes[3..])) == Some(bytes[3..])
    ensures Decode(Base64url(bytes)) == Some(bytes)
  {
    UrlOfMore(bytes);
    ReadGroup(bytes[0], bytes[1], bytes[2], Base64url(bytes[3..]));
    assert bytes == [bytes[0], bytes[1], bytes[2]] + bytes[3..];
  }

  lemma {:induction false} NothingDecodes(bytes: seq<byte>)
    requires bytes == []
    ensures Decode(Base64url(bytes)) == Some(bytes)
  {
  }

  /** Decoding undoes encoding, for every byte sequence. */
  lemma {:induction false} DecodeOfEncode(bytes: seq<byte>)
    ensures Decode(Base64url(bytes)) == Some(bytes)
  {
    if |bytes| == 0 {
      NothingDecodes(bytes);
    } else if |bytes| == 1 {
      LastByteDecodes(bytes);
    } else if |bytes| == 2 {
      LastTwoBytesDecode(bytes);
    } else {
      DecodeOfEncode(bytes[3..]);
      FirstThreeDecode(bytes);
    }
  }

  /** So two byte sequences never share a text, at any length. */
  lemma EncodingIsInjective(a: seq<byte>, b: seq<byte>)
    ensures Base64url(a) == Base64url(b) <==> a == b
  {
    DecodeOfEncode(a);
    DecodeOfEncode(b);
  }

  /** Four characters for three bytes, rounded up. */
  lemma {:induction false} EncodedLength(bytes: seq<byte>)
    ensures |Base64url(bytes)| == (4 * |bytes| + 2) / 3
  {
    if |bytes| >= 3 {
      EncodedLength(bytes[3..]);
    }
  }

  // ── Tokens ──────────────────────────────────────────────────────────────

  datatype GeneratedKey = GeneratedKey(token: string, prefix: string)

  /** `/^pc_[A-Za-z0-9_-]{20,80}$/`. */
  predicate IsApiKeyFormat(token: string) {
    && KEY_PREFIX <= token
    && 20 <= |token| - |KEY_PREFIX| <= 80
    && forall i :: |KEY_PREFIX| <= i < |token| ==> UrlChar(token[i])
  }

  /** The prefix and 20 to 80 letters, digits, dashes and underscores, by ASCII
      code. */
  lemma FormatMeans(token: string)
    ensures IsApiKeyFormat(token) <==>
            exists body :: token == "pc_" + body && 20 <= |body| <= 80 && InAlphabet(body)
  {
    if IsApiKeyFormat(token) {
      var body := token[3..];
      assert token == "pc_" + body;
      assert InAlphabet(body);
    }
    if body :| token == "pc_" + body && 20 <= |body| <= 80 && InAlphabet(body) {
      forall i | 3 <= i < |token| ensures UrlChar(token[i]) {
        assert token[i] == body[i - 3];
      }
    }
  }

  predicate InAlphabet(s: string) {
    forall i :: 0 <= i < |s| ==>
      var c := s[i] as int; 65 <= c <= 90 || 97 <= c <= 122 || 48 <= c <= 57 || c == 45 || c == 95
  }

  method GenerateApiKey(random: seq<byte>) returns (r: GeneratedKey)
    requires |random| == 32
    ensures IsApiKeyFormat(r.token) && |r.token| == 46
    ensures Decode(r.token[|KEY_PREFIX|..]) == Some(random)
    ensures r.prefix <= r.token && |r.prefix| == 11
    ensures r.prefix == "pc_" + Base64url(random[..6])
  {
    var encoded := BytesToBase64url(random);
    EncodedLength(random);
    DecodeOfEncode(random);
    var token := KEY_PREFIX + encoded;
    assert token[|KEY_PREFIX|..] == encoded;
    r := GeneratedKey(token, token[..PREFIX_DISPLAY_LEN]);
    EightCharacters(random);
    assert r.prefix == KEY_PREFIX + encoded[..8];
  }

  lemma {:induction false} EightCharacters(bytes: seq<byte>)
    requires |bytes| >= 6
    ensures |Base64url(bytes)| >= 8 && Base64url(bytes)[..8] == Base64url(bytes[..6])
  {
    var six := bytes[..6];
    assert bytes[3..][3..] == bytes[6..] && six[3..] == bytes[3..6] && six[3..][3..] == [];
    var tail := Base64url(bytes[3..]);
    assert Base64url(bytes) == Base64url(bytes)[..4] + tail;
    assert tail == tail[..4] + Base64url(bytes[3..][3..]);
    assert Base64url(six[3..]) == tail[..4];
  }

  /** The display prefix tells two keys apart exactly when their first six bytes do. */
  lemma PrefixShowsSixBytes(a: seq<byte>, b: seq<byte>)
    requires |a| >= 6 && |b| >= 6
    ensures Take(Base64url(a), 8) == Take(Base64url(b), 8) <==> a[..6] == b[..6]
  {
    EightCharacters(a);
    EightCharacters(b);
    EncodingIsInjective(a[..6], b[..6]);
  }
}

// The loops of the base64 codec, proved against its bit-stream definition: shifts and masks over one
// group of bytes at a time, and an accumulator that is never masked and wraps at 32 bits.
module Base64Codec {
  import opened Wrappers
  import opened Base64

  // --- encoding ---

  lemma {:induction false} BitsConcat(a: seq<Byte>, b: seq<Byte>)
    ensures Bits(a + b) == Bits(a) + Bits(b)
  {
    if a == [] {
      assert a + b == b;
    } else {
      BitsConcat(a[1..], b);
      assert (a + b)[1..] == a[1..] + b;
      Reassociate(ByteBits(a[0]), Bits(a[1..]), Bits(b));
    }
  }

  lemma {:induction false} SextetsConcat(k: nat, a: seq<Bit>, b: seq<Bit>)
    requires |a| == 6 * k
    ensures Sextets(a + b) == Sextets(a) + Sextets(b)
  {
    if k == 0 {
      assert a + b == b;
    } else {
      var s := a + b;
      SextetsConcat(k - 1, a[6..], b);
      assert s[..6] == a[..6] && s[6..] == a[6..] + b;
      Reassociate([SextetOf(a[..6])], Sextets(a[6..]), Sextets(b));
    }
  }

  lemma {:induction false} CharsConcat(a: seq<Sextet>, b: seq<Sextet>, variant: Variant)
    ensures Chars(a + b, variant) == Chars(a, variant) + Chars(b, variant)
  {
    if a == [] {
      assert a + b == b;
    } else {
      CharsConcat(a[1..], b, variant);
      assert (a + b)[1..] == a[1..] + b;
    }
  }

  // Cutting a string of bits in two cuts the number it denotes.
  lemma SplitBits(s: seq<Bit>, m: nat)
    requires m <= |s|
    ensures Read(s) == Shifted(Read(s[..m]), |s| - m) + Read(s[m..])
    ensures s == s[..m] + s[m..]
  {
    assert s == s[..m] + s[m..];
    ReadConcat(s[..m], s[m..]);
  }

  // A byte cut after its first m bits: what the shifts and masks of the codec compute.
  lemma SplitByte(b: Byte, m: nat)
    requires m == 6 || m == 4 || m == 2
    ensures var s, d := ByteBits(b), if m == 6 then 4 else if m == 4 then 16 else 64;
            s == s[..m] + s[m..] && Read(s[..m]) == b / d && Read(s[m..]) == b % d
  {
    Powers();
    var s := ByteBits(b);
    ReadWrite(b, 8);
    SplitBits(s, m);
    Shifts(Read(s[..m]));
  }

  // The four characters' values of a group of three bytes, by shifts and masks; a missing byte counts
  // as zero.
  function Group(b0: Byte, b1: Byte, b2: Byte): seq<Sextet> {
    [b0 / 4, b0 % 4 * 16 + b1 / 16, b1 % 16 * 4 + b2 / 64, b2 % 64]
  }

  // Six bits made of the end of one byte and the start of the next.
  lemma Straddle(a: seq<Bit>, b: seq<Bit>, v: Sextet)
    requires |a| + |b| == 6 && (|b| == 4 || |b| == 2)
    requires v == (if |b| == 4 then 16 else 4) * Read(a) + Read(b)
    ensures SextetBits(v) == a + b && SextetOf(a + b) == v
  {
    ReadConcat(a, b);
    Shifts(Read(a));
    SextetReads(a + b, v);
  }

  lemma GroupBits(b0: Byte, b1: Byte, b2: Byte)
    ensures Stream(Group(b0, b1, b2)) == Bits([b0, b1, b2])
  {
    SplitByte(b0, 6);
    SplitByte(b1, 4);
    SplitByte(b2, 2);
    var x, y, z := ByteBits(b0), ByteBits(b1), ByteBits(b2);
    SextetReads(x[..6], b0 / 4);
    Straddle(x[6..], y[..4], b0 % 4 * 16 + b1 / 16);
    Straddle(y[4..], z[..2], b1 % 16 * 4 + b2 / 64);
    SextetReads(z[2..], b2 % 64);
    ThreeBytes(b0, b1, b2);
    FourSextets(b0 / 4, b0 % 4 * 16 + b1 / 16, b1 % 16 * 4 + b2 / 64, b2 % 64);
    Regroup(x[..6], x[6..], y[..4], y[4..], z[..2], z[2..]);
  }

  lemma Regroup(a: seq<Bit>, b: seq<Bit>, c: seq<Bit>, d: seq<Bit>, e: seq<Bit>, f: seq<Bit>)
    ensures (a + b) + (c + d) + (e + f) == a + (b + c) + (d + e) + f
  {
  }

  lemma SextetReads(s: seq<Bit>, v: Sextet)
    requires |s| == 6 && Read(s) == v
    ensures SextetBits(v) == s && SextetOf(s) == v
  {
    Powers();
    WriteRead(s);
  }

  lemma ThreeBytes(b0: Byte, b1: Byte, b2: Byte)
    ensures Bits([b0, b1, b2]) == ByteBits(b0) + ByteBits(b1) + ByteBits(b2)
  {
    assert [b0, b1, b2][1..] == [b1, b2] && [b1, b2][1..] == [b2] && [b2][1..] == [];
    assert Bits([b2]) == ByteBits(b2) + [] == ByteBits(b2);
  }

  lemma FourSextets(v0: Sextet, v1: Sextet, v2: Sextet, v3: Sextet)
    ensures Stream([v0, v1, v2, v3]) == SextetBits(v0) + SextetBits(v1) + SextetBits(v2) + SextetBits(v3)
  {
    var s: seq<Sextet> := [v0, v1, v2, v3];
    assert s[1..] == [v1, v2, v3] && s[1..][1..] == [v2, v3] && s[1..][1..][1..] == [v3] && s[1..][1..][1..][1..] == [];
    assert Stream([v3]) == SextetBits(v3) + [] == SextetBits(v3);
    assert Stream([v2, v3]) == SextetBits(v2) + Stream([v3]);
    assert Stream([v1, v2, v3]) == SextetBits(v1) + Stream([v2, v3]);
  }

  lemma {:induction false} SextetsOfStream(values: seq<Sextet>)
    ensures Sextets(Stream(values)) == values
  {
    if values != [] {
      var s := Stream(values);
      assert s[..6] == SextetBits(values[0]) && s[6..] == Stream(values[1..]);
      Powers();
      ReadWrite(values[0], 6);
      SextetsOfStream(values[1..]);
    }
  }

  lemma {:induction false} ReadZeros(n: nat)
    ensures Read(Zeros(n)) == 0
  {
    if n > 0 {
      ReadZeros(n - 1);
      LastZero(n);
    }
  }

  lemma {:induction false} LastZero(n: nat)
    requires n > 0
    ensures Zeros(n)[..n - 1] == Zeros(n - 1) && Zeros(n)[n - 1] == 0
  {
    if n > 1 {
      LastZero(n - 1);
    }
  }

  // The values of a last group of one or two bytes, and of a full one.
  lemma OneByte(b0: Byte)
    ensures Sextets(Bits([b0])) == [b0 / 4, b0 % 4 * 16]
  {
    SplitByte(b0, 6);
    var x := ByteBits(b0);
    assert [b0][1..] == [] && Bits([b0]) == x + [] == x;
    Straddle(x[6..], Zeros(4), b0 % 4 * 16) by { ReadZeros(4); }
    SextetReads(x[..6], b0 / 4);
    assert Sextets(x[6..]) == [SextetOf(x[6..] + Zeros(4))];
  }

  lemma TwoBytes(b0: Byte, b1: Byte)
    ensures Sextets(Bits([b0, b1])) == [b0 / 4, b0 % 4 * 16 + b1 / 16, b1 % 16 * 4]
  {
    SplitByte(b0, 6);
    SplitByte(b1, 4);
    var x, y := ByteBits(b0), ByteBits(b1);
    assert [b0, b1][1..] == [b1] && [b1][1..] == [] && Bits([b1]) == y + [] == y;
    var s := x + y;
    assert s[..6] == x[..6] && s[6..][..6] == x[6..] + y[..4] && s[6..][6..] == y[4..];
    SextetReads(x[..6], b0 / 4);
    Straddle(x[6..], y[..4], b0 % 4 * 16 + b1 / 16);
    Straddle(y[4..], Zeros(2), b1 % 16 * 4) by { ReadZeros(2); }
    assert Sextets(y[4..]) == [SextetOf(y[4..] + Zeros(2))];
    assert Sextets(s[6..]) == [SextetOf(s[6..][..6])] + Sextets(y[4..]);
  }

  lemma FullGroup(b0: Byte, b1: Byte, b2: Byte)
    ensures Sextets(Bits([b0, b1, b2])) == Group(b0, b1, b2)
  {
    GroupBits(b0, b1, b2);
    SextetsOfStream(Group(b0, b1, b2));
  }

  lemma PaddingConcat(k: nat, m: nat, n: nat)
    requires m == 3 * k
    ensures Padding(m) == "" && Padding(m + n) == Padding(n)
  {
    assert (m + n) % 3 == n % 3;
  }

  lemma EncodeConcat(k: nat, a: seq<Byte>, b: seq<Byte>)
    requires |a| == 3 * k
    ensures Encode(a + b, Standard) == Encode(a, Standard) + Encode(b, Standard)
  {
    BitsConcat(a, b);
    SextetsConcat(4 * k, Bits(a), Bits(b));
    CharsConcat(Sextets(Bits(a)), Sextets(Bits(b)), Standard);
    PaddingConcat(k, |a|, |b|);
    Reassociate(Chars(Sextets(Bits(a)), Standard), Chars(Sextets(Bits(b)), Standard), Padding(|b|));
  }

  // What the loop appends for one group of one, two or three bytes.
  function GroupChars(bytes: seq<Byte>): string
    requires 0 < |bytes| <= 3
  {
    var b0, b1, b2 := bytes[0], if |bytes| > 1 then bytes[1] else 0, if |bytes| > 2 then bytes[2] else 0;
    [Char(b0 / 4, Standard), Char(b0 % 4 * 16 + b1 / 16, Standard),
     if |bytes| == 1 then '=' else Char(b1 % 16 * 4 + b2 / 64, Standard),
     if |bytes| < 3 then '=' else Char(b2 % 64, Standard)]
  }

  lemma OneByteEncodes(b0: Byte)
    ensures Encode([b0], Standard) == GroupChars([b0])
  {
    OneByte(b0);
    CharsAt(Sextets(Bits([b0])), Standard);
  }

  lemma TwoBytesEncode(b0: Byte, b1: Byte)
    ensures Encode([b0, b1], Standard) == GroupChars([b0, b1])
  {
    TwoBytes(b0, b1);
    CharsAt(Sextets(Bits([b0, b1])), Standard);
  }

  lemma ThreeBytesEncode(b0: Byte, b1: Byte, b2: Byte)
    ensures Encode([b0, b1, b2], Standard) == GroupChars([b0, b1, b2])
  {
    FullGroup(b0, b1, b2);
    CharsAt(Sextets(Bits([b0, b1, b2])), Standard);
  }

  lemma GroupEncodes(bytes: seq<Byte>)
    requires 0 < |bytes| <= 3
    ensures Encode(bytes, Standard) == GroupChars(bytes)
  {
    if |bytes| == 1 {
      OneByteEncodes(bytes[0]);
      assert bytes == [bytes[0]];
    } else if |bytes| == 2 {
      TwoBytesEncode(bytes[0], bytes[1]);
      assert bytes == [bytes[0], bytes[1]];
    } else {
      ThreeBytesEncode(bytes[0], bytes[1], bytes[2]);
      assert bytes == [bytes[0], bytes[1], bytes[2]];
    }
  }

  lemma {:induction false} CharsAt(values: seq<Sextet>, variant: Variant)
    ensures |Chars(values, variant)| == |values|
    ensures forall i :: 0 <= i < |values| ==> Chars(values, variant)[i] == Char(values[i], variant)
  {
    if values != [] {
      CharsAt(values[1..], variant);
    }
  }

  // replaceAll, for one character.
  function Replace(s: string, from: char, to: string): string {
    if s == "" then "" else (if s[0] == from then to else [s[0]]) + Replace(s[1..], from, to)
  }

  lemma {:induction false} ReplaceConcat(a: string, b: string, from: char, to: string)
    ensures Replace(a + b, from, to) == Replace(a, from, to) + Replace(b, from, to)
  {
    if a == "" {
      assert a + b == b;
    } else {
      ReplaceConcat(a[1..], b, from, to);
      assert (a + b)[1..] == a[1..] + b;
      Reassociate(if a[0] == from then to else [a[0]], Replace(a[1..], from, to), Replace(b, from, to));
    }
  }

  function UrlSafe(s: string): string {
    Replace(Replace(Replace(s, '+', "-"), '/', "_"), '=', "")
  }

  lemma UrlSafeConcat(a: string, b: string)
    ensures UrlSafe(a + b) == UrlSafe(a) + UrlSafe(b)
  {
    ReplaceConcat(a, b, '+', "-");
    ReplaceConcat(Replace(a, '+', "-"), Replace(b, '+', "-"), '/', "_");
    ReplaceConcat(Replace(Replace(a, '+', "-"), '/', "_"), Replace(Replace(b, '+', "-"), '/', "_"), '=', "");
  }

  lemma ReplaceOne(c: char, from: char, to: string)
    ensures Replace([c], from, to) == if c == from then to else [c]
  {
    assert [c][1..] == "";
  }

  lemma UrlSafeChar(v: Sextet)
    ensures UrlSafe([Char(v, Standard)]) == [Char(v, Url)]
  {
    var c := Char(v, Standard);
    ReplaceOne(c, '+', "-");
    var d := if c == '+' then '-' else c;
    ReplaceOne(d, '/', "_");
    var e := if d == '/' then '_' else d;
    ReplaceOne(e, '=', "");
  }

  lemma {:induction false} UrlSafeChars(values: seq<Sextet>)
    ensures UrlSafe(Chars(values, Standard)) == Chars(values, Url)
  {
    if values != [] {
      UrlSafeConcat([Char(values[0], Standard)], Chars(values[1..], Standard));
      UrlSafeChar(values[0]);
      UrlSafeChars(values[1..]);
    }
  }

  lemma UrlSafeEncode(bytes: seq<Byte>)
    ensures UrlSafe(Encode(bytes, Standard)) == Encode(bytes, Url)
  {
    var values := Sextets(Bits(bytes));
    UrlSafeConcat(Chars(values, Standard), Padding(|bytes|));
    UrlSafeChars(values);
    assert "="[1..] == "" && "=="[1..] == "=";
    assert UrlSafe("") == "";
    assert Replace("=", '+', "-") == "=" && Replace("=", '/', "_") == "=" && Replace("=", '=', "") == "";
    assert Replace("==", '+', "-") == "==" && Replace("==", '/', "_") == "==" && Replace("==", '=', "") == "";
  }

  function Upto(i: nat, n: nat): nat {
    if i <= n then i else n
  }

  // One turn of the loop extends the encoding by one group.
  lemma GroupExtends(buffer: seq<Byte>, k: nat)
    requires 3 * k < |buffer|
    ensures var i, end := 3 * k, Upto(3 * k + 3, |buffer|);
            Encode(buffer[..end], Standard) == Encode(buffer[..i], Standard) + GroupChars(buffer[i..end])
  {
    var i, end := 3 * k, Upto(3 * k + 3, |buffer|);
    assert buffer[..i] + buffer[i..end] == buffer[..end];
    EncodeConcat(k, buffer[..i], buffer[i..end]);
    GroupEncodes(buffer[i..end]);
  }

  method EncodeGroup(buffer: seq<Byte>, i: nat) returns (s: string)
    requires i < |buffer|
    ensures s == GroupChars(buffer[i..Upto(i + 3, |buffer|)])
  {
    var b0 := buffer[i];
    var has1, has2 := i + 1 < |buffer|, i + 2 < |buffer|;
    var b1 := if has1 then buffer[i + 1] else 0;
    var b2 := if has2 then buffer[i + 2] else 0;
    s := [Char(b0 / 4, Standard), Char(b0 % 4 * 16 + b1 / 16, Standard),
          if has1 then Char(b1 % 16 * 4 + b2 / 64, Standard) else '=', if has2 then Char(b2 % 64, Standard) else '='];
  }

  // Main result: the encoder computes the encoding that sections 4 and 5 of RFC 4648 define.
  method EncodeBase64(buffer: seq<Byte>, variant: Variant) returns (result: string)
    ensures result == Encode(buffer, variant)
  {
    result := "";
    var i := 0;
    ghost var k := 0;
    while i < |buffer|
      invariant i == 3 * k && result == Encode(buffer[..Upto(i, |buffer|)], Standard)
    {
      GroupExtends(buffer, k);
      var group := EncodeGroup(buffer, i);
      result := result + group;
      i := i + 3;
      k := k + 1;
    }
    assert buffer[..|buffer|] == buffer;
    if variant.Url? {
      UrlSafeEncode(buffer);
      result := Replace(Replace(Replace(result, '+', "-"), '/', "_"), '=', "");
    }
  }

  // --- decoding ---

  const TWO32 := 0x1_0000_0000

  // The 32-bit two's complement reading of n.
  function ToInt32(n: int): int {
    var m := n % TWO32;
    if m >= 0x8000_0000 then m - TWO32 else m
  }

  // (buffer << 6) | value: the low six bits of the shift are free.
  function Accumulate(buffer: int, value: Sextet): int {
    ToInt32(buffer * 64) + value
  }

  lemma Wrapped(n: int) returns (q: int)
    ensures ToInt32(n) == n - TWO32 * q
  {
    q := n / TWO32;
    if n % TWO32 >= 0x8000_0000 {
      q := q + 1;
    }
  }

  lemma {:induction false} TranslatedValues(s: string)
    ensures Values(Replace(Replace(s, '-', "+"), '_', "/"), Standard) == Values(s, Url)
  {
    if s != "" {
      var c := s[0];
      TranslatedValues(s[1..]);
      assert s == [c] + s[1..];
      ReplaceConcat([c], s[1..], '-', "+");
      ReplaceOne(c, '-', "+");
      var d := if c == '-' then '+' else c;
      ReplaceConcat([d], Replace(s[1..], '-', "+"), '_', "/");
      ReplaceOne(d, '_', "/");
      var e := if d == '_' then '/' else d;
      ValuesConcat([e], Replace(Replace(s[1..], '-', "+"), '_', "/"), Standard);
      assert [e][1..] == "";
    }
  }

  // What a right shift by n bits divides by.
  function Divisor(n: nat): (d: nat)
    ensures d > 0
  {
    if n == 0 then 1 else if n == 2 then 4 else if n == 4 then 16 else 64
  }

  // Only the low bits of the accumulator matter: above the pending ones it holds anything.
  ghost predicate Pending(buffer: int, bits: nat, pending: seq<Bit>, high: int) {
    |pending| == bits &&
    (bits == 0 || (bits == 2 && buffer == 4 * high + Read(pending)) ||
     (bits == 4 && buffer == 16 * high + Read(pending)) || (bits == 6 && buffer == 64 * high + Read(pending)))
  }

  // The next accumulator under its pending bits; the wrap at 32 bits only changes what lies above.
  lemma Pushed(buffer: int, bits: nat, pending: seq<Bit>, high: int, value: Sextet) returns (h: int)
    requires Pending(buffer, bits, pending, high)
    ensures var next, s := Accumulate(buffer, value), pending + SextetBits(value);
            (bits == 0 ==> next == 64 * h + Read(s)) && (bits == 2 ==> next == 256 * h + Read(s)) &&
            (bits == 4 ==> next == 1024 * h + Read(s)) && (bits == 6 ==> next == 4096 * h + Read(s))
  {
    Powers();
    ReadWrite(value, 6);
    ReadConcat(pending, SextetBits(value));
    Shifts(Read(pending));
    var q := Wrapped(buffer * 64);
    h := if bits == 0 then buffer - 0x400_0000 * q
         else if bits == 2 then high - 0x100_0000 * q
         else if bits == 4 then high - 0x40_0000 * q
         else high - 0x10_0000 * q;
  }

  lemma Div4(q: int, r: nat)
    requires r < 4
    ensures (4 * q + r) / 4 == q
  {
  }

  lemma Div16(q: int, r: nat)
    requires r < 16
    ensures (16 * q + r) / 16 == q
  {
  }

  lemma Mod256(q: int, r: nat)
    requires r < 256
    ensures (256 * q + r) % 256 == r
  {
  }

  // Shifting right and masking takes the octet above the bits left over.
  lemma CutOctet(next: int, left: nat, h: int, octet: Byte, rest: nat)
    requires (left == 0 && rest == 0 && next == 256 * h + octet) ||
             (left == 2 && rest < 4 && next == 1024 * h + 4 * octet + rest) ||
             (left == 4 && rest < 16 && next == 4096 * h + 16 * octet + rest)
    ensures next / Divisor(left) % 256 == octet
  {
    Mod256(h, octet);
    if left == 2 {
      Div4(256 * h + octet, rest);
    } else if left == 4 {
      Div16(256 * h + octet, rest);
    }
  }

  // One more value: six more pending bits, and an octet as soon as there are eight.
  lemma OneMoreValue(buffer: int, bits: nat, pending: seq<Bit>, high: int, value: Sextet) returns (h: int)
    requires Pending(buffer, bits, pending, high)
    ensures var next, s := Accumulate(buffer, value), pending + SextetBits(value);
            if bits + 6 < 8 then Pending(next, bits + 6, s, h)
            else Pending(next, bits - 2, s[8..], h) && ByteOf(s[..8]) == next / Divisor(bits - 2) % 256
  {
    Powers();
    h := Pushed(buffer, bits, pending, high, value);
    var next, s := Accumulate(buffer, value), pending + SextetBits(value);
    if bits + 6 >= 8 {
      SplitBits(s, 8);
      Shifts(Read(s[..8]));
      CutOctet(next, bits - 2, h, ByteOf(s[..8]), Read(s[8..]));
      h := 256 * h + ByteOf(s[..8]);
    }
  }

  lemma OctetsStep(s: seq<Bit>, rest: seq<Bit>)
    requires |s| >= 8
    ensures Octets(s + rest) == [ByteOf(s[..8])] + Octets(s[8..] + rest)
  {
    assert (s + rest)[..8] == s[..8] && (s + rest)[8..] == s[8..] + rest;
  }

  // The bits of the characters from i on.
  function Ahead(input: string, i: nat): seq<Bit>
    requires i <= |input|
  {
    Stream(Values(input[i..], Standard))
  }

  lemma AheadStep(input: string, i: nat, pending: seq<Bit>)
    requires i < |input|
    ensures var value := Value(input[i], Standard);
            pending + Ahead(input, i) == (if value.Some? then pending + SextetBits(value.value) else pending)
                + Ahead(input, i + 1)
  {
    assert input[i..][1..] == input[i + 1..];
    var value, rest := Value(input[i], Standard), Values(input[i + 1..], Standard);
    if value.Some? {
      assert ([value.value] + rest)[1..] == rest;
      Reassociate(pending, SextetBits(value.value), Ahead(input, i + 1));
    } else {
      assert [] + rest == rest;
    }
  }

  // Taking an octet off the pending bits moves it from the octets to come to those written.
  lemma TakeOctet(bytes: seq<Byte>, buffer: int, bits: nat, pending: seq<Bit>, high: int, value: Sextet, rest: seq<Bit>)
      returns (h: int)
    requires Pending(buffer, bits, pending, high)
    ensures var next, s := Accumulate(buffer, value), pending + SextetBits(value);
            if bits + 6 < 8 then Pending(next, bits + 6, s, h)
            else Pending(next, bits - 2, s[8..], h) &&
                 bytes + Octets(s + rest) == bytes + [next / Divisor(bits - 2) % 256] + Octets(s[8..] + rest)
  {
    h := OneMoreValue(buffer, bits, pending, high, value);
    var s := pending + SextetBits(value);
    if bits + 6 >= 8 {
      OctetsStep(s, rest);
      Reassociate(bytes, [ByteOf(s[..8])], Octets(s[8..] + rest));
    }
  }

  // Main result: the decoder, with its unmasked accumulator, computes the octets of the bit stream.
  method DecodeBase64(base64: string, variant: Variant) returns (bytes: seq<Byte>)
    ensures bytes == Decode(base64, variant)
  {
    TranslatedValues(base64);
    var input := if variant.Url? then Replace(Replace(base64, '-', "+"), '_', "/") else base64;
    bytes := [];
    var buffer: int := 0;
    var bits: nat := 0;
    ghost var pending: seq<Bit> := [];
    ghost var high := 0;
    var i := 0;
    assert input[0..] == input && [] + Ahead(input, 0) == Ahead(input, 0);
    while i < |input|
      invariant i <= |input| && Pending(buffer, bits, pending, high)
      invariant bytes + Octets(pending + Ahead(input, i)) == Decode(base64, variant)
    {
      AheadStep(input, i, pending);
      var value := Value(input[i], Standard);
      i := i + 1;
      if value.None? {
        continue;
      }
      high := TakeOctet(bytes, buffer, bits, pending, high, value.value, Ahead(input, i));
      buffer := Accumulate(buffer, value.value);
      bits := bits + 6;
      pending := pending + SextetBits(value.value);
      if bits >= 8 {
        bits := bits - 8;
        bytes := bytes + [buffer / Divisor(bits) % 256];
        pending := pending[8..];
      }
    }
    assert Values("", Standard) == [] && pending + [] == pending;
  }
}

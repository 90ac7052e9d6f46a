// The base64 codec (packages/crypto/src/base64.ts), against the bit stream that sections 4 and 5 of
// RFC 4648 define.
module Base64 {
  import opened Wrappers

  type Byte = b: int | 0 <= b < 256
  type Sextet = v: int | 0 <= v < 64
  type Bit = b: int | 0 <= b < 2

  datatype Variant = Standard | Url

  // --- the bit stream, most significant bit first ---

  function Power(n: nat): (p: nat)
    ensures p > 0
  {
    if n == 0 then 1 else 2 * Power(n - 1)
  }

  // The number a string of bits denotes.
  function Read(s: seq<Bit>): (n: nat)
    ensures n < Power(|s|)
  {
    if s == [] then 0 else 2 * Read(s[..|s| - 1]) + s[|s| - 1] as int
  }

  // The n-bit string that denotes v.
  function Write(v: nat, n: nat): (s: seq<Bit>)
    requires v < Power(n)
    ensures |s| == n
  {
    if n == 0 then [] else Write(v / 2, n - 1) + [v % 2]
  }

  lemma {:induction false} ReadWrite(v: nat, n: nat)
    requires v < Power(n)
    ensures Read(Write(v, n)) == v
  {
    if n > 0 {
      ReadWrite(v / 2, n - 1);
      assert Write(v, n)[..n - 1] == Write(v / 2, n - 1);
    }
  }

  lemma {:induction false} WriteRead(s: seq<Bit>)
    ensures Write(Read(s), |s|) == s
  {
    if s != [] {
      WriteRead(s[..|s| - 1]);
      assert Read(s) / 2 == Read(s[..|s| - 1]) && Read(s) % 2 == s[|s| - 1];
    }
  }

  // v shifted left by n bits.
  function Shifted(v: nat, n: nat): nat {
    if n == 0 then v else 2 * Shifted(v, n - 1)
  }

  lemma {:induction false} ReadConcat(a: seq<Bit>, b: seq<Bit>)
    ensures Read(a + b) == Shifted(Read(a), |b|) + Read(b)
  {
    if b == [] {
      assert a + b == a;
    } else {
      var init, s := b[..|b| - 1], a + b;
      ReadConcat(a, init);
      assert s[..|s| - 1] == a + init;
      assert Read(s) == 2 * Read(a + init) + b[|b| - 1] as int;
    }
  }

  lemma Shifts(v: nat)
    ensures Shifted(v, 2) == 4 * v && Shifted(v, 4) == 16 * v && Shifted(v, 6) == 64 * v
  {
    assert Shifted(v, 1) == 2 * v && Shifted(v, 3) == 8 * v && Shifted(v, 5) == 32 * v;
  }

  lemma Powers()
    ensures Power(2) == 4 && Power(4) == 16 && Power(6) == 64 && Power(8) == 256
  {
  }

  function ByteBits(b: Byte): (s: seq<Bit>)
    ensures |s| == 8
  {
    Powers();
    Write(b, 8)
  }

  function ByteOf(s: seq<Bit>): Byte
    requires |s| == 8
  {
    Powers();
    Read(s)
  }

  function SextetBits(v: Sextet): (s: seq<Bit>)
    ensures |s| == 6
  {
    Powers();
    Write(v, 6)
  }

  function SextetOf(s: seq<Bit>): Sextet
    requires |s| == 6
  {
    Powers();
    Read(s)
  }

  function Zeros(n: nat): (s: seq<Bit>)
    ensures |s| == n
  {
    if n == 0 then [] else [0] + Zeros(n - 1)
  }

  function Bits(bytes: seq<Byte>): (s: seq<Bit>)
    ensures |s| == 8 * |bytes|
  {
    if bytes == [] then [] else ByteBits(bytes[0]) + Bits(bytes[1..])
  }

  function Stream(values: seq<Sextet>): (s: seq<Bit>)
    ensures |s| == 6 * |values|
  {
    if values == [] then [] else SextetBits(values[0]) + Stream(values[1..])
  }

  // Groups of six bits, the last one filled up with zeros.
  function Sextets(bits: seq<Bit>): seq<Sextet>
    decreases |bits|
  {
    if bits == [] then []
    else if |bits| < 6 then [SextetOf(bits + Zeros(6 - |bits|))]
    else [SextetOf(bits[..6])] + Sextets(bits[6..])
  }

  // Whole octets; what is left over is dropped.
  function Octets(bits: seq<Bit>): seq<Byte>
    decreases |bits|
  {
    if |bits| < 8 then [] else [ByteOf(bits[..8])] + Octets(bits[8..])
  }

  lemma ByteRoundTrip(b: Byte)
    ensures ByteOf(ByteBits(b)) == b
  {
    Powers();
    ReadWrite(b, 8);
  }

  lemma SextetRoundTrip(s: seq<Bit>)
    requires |s| == 6
    ensures SextetBits(SextetOf(s)) == s
  {
    Powers();
    WriteRead(s);
  }

  lemma {:induction false} StreamOfSextets(bits: seq<Bit>) returns (z: nat)
    ensures z < 6 && Stream(Sextets(bits)) == bits + Zeros(z)
    decreases |bits|
  {
    if bits == [] {
      z := 0;
    } else if |bits| < 6 {
      z := 6 - |bits|;
      SextetRoundTrip(bits + Zeros(z));
      assert Sextets(bits)[1..] == [];
    } else {
      z := StreamOfSextets(bits[6..]);
      SextetRoundTrip(bits[..6]);
      assert Sextets(bits)[1..] == Sextets(bits[6..]);
      assert bits == bits[..6] + bits[6..];
      Reassociate(bits[..6], bits[6..], Zeros(z));
    }
  }

  lemma {:induction false} OctetsOfBits(bytes: seq<Byte>, rest: seq<Bit>)
    requires |rest| < 8
    ensures Octets(Bits(bytes) + rest) == bytes
  {
    if bytes == [] {
      assert Bits(bytes) + rest == rest;
    } else {
      var s := Bits(bytes) + rest;
      assert s[..8] == ByteBits(bytes[0]);
      assert s[8..] == Bits(bytes[1..]) + rest;
      ByteRoundTrip(bytes[0]);
      OctetsOfBits(bytes[1..], rest);
    }
  }

  // --- characters ---

  // Tables 1 and 2 of RFC 4648.
  function Char(v: Sextet, variant: Variant): char {
    if v < 26 then 'A' + v as char
    else if v < 52 then 'a' + (v - 26) as char
    else if v < 62 then '0' + (v - 52) as char
    else if v == 62 then (if variant.Standard? then '+' else '-')
    else (if variant.Standard? then '/' else '_')
  }

  // What the decoder's lookup table says; the url variant reads '-' and '_' as '+' and '/' first.
  function Value(c: char, variant: Variant): Option<Sextet> {
    if 'A' <= c <= 'Z' then Some((c - 'A') as int)
    else if 'a' <= c <= 'z' then Some(26 + (c - 'a') as int)
    else if '0' <= c <= '9' then Some(52 + (c - '0') as int)
    else if c == '+' || (variant.Url? && c == '-') then Some(62)
    else if c == '/' || (variant.Url? && c == '_') then Some(63)
    else None
  }

  function Chars(values: seq<Sextet>, variant: Variant): string {
    if values == [] then "" else [Char(values[0], variant)] + Chars(values[1..], variant)
  }

  function Values(s: string, variant: Variant): seq<Sextet> {
    if s == "" then []
    else (if Value(s[0], variant).Some? then [Value(s[0], variant).value] else []) + Values(s[1..], variant)
  }

  function Padding(n: nat): string {
    if n % 3 == 1 then "==" else if n % 3 == 2 then "=" else ""
  }

  // Section 4 (padded) and section 5 (url-safe, without padding).
  function Encode(bytes: seq<Byte>, variant: Variant): string {
    Chars(Sextets(Bits(bytes)), variant) + if variant.Standard? then Padding(|bytes|) else ""
  }

  function Decode(s: string, variant: Variant): seq<Byte> {
    Octets(Stream(Values(s, variant)))
  }

  lemma CharValue(v: Sextet, variant: Variant)
    ensures Value(Char(v, variant), variant) == Some(v)
    ensures Value(Char(v, Standard), Url) == Some(v)
    ensures Value('=', variant) == None
  {
  }

  lemma {:induction false} ValuesConcat(a: string, b: string, variant: Variant)
    ensures Values(a + b, variant) == Values(a, variant) + Values(b, variant)
  {
    if a == "" {
      assert a + b == b;
    } else {
      ValuesConcat(a[1..], b, variant);
      assert (a + b)[1..] == a[1..] + b;
      var head := if Value(a[0], variant).Some? then [Value(a[0], variant).value] else [];
      Reassociate(head, Values(a[1..], variant), Values(b, variant));
    }
  }

  // Either reader recovers what the standard alphabet wrote, and each reader its own.
  lemma {:induction false} ValuesOfChars(values: seq<Sextet>, written: Variant, read: Variant)
    requires written == read || read.Url?
    ensures Values(Chars(values, written), read) == values
  {
    if values != [] {
      ValuesOfChars(values[1..], written, read);
      CharValue(values[0], written);
      assert Chars(values, written)[1..] == Chars(values[1..], written);
    }
  }

  lemma PaddingIgnored(n: nat, variant: Variant)
    ensures Values(Padding(n), variant) == []
  {
    assert "="[1..] == "" && "=="[1..] == "=";
    CharValue(0, variant);
  }

  // Main result: decoding what was encoded gives the bytes back, for every byte sequence, in both
  // variants; the url reader also reads the standard encoding.
  lemma RoundTrip(bytes: seq<Byte>, written: Variant, read: Variant)
    requires written == read || read.Url?
    ensures Decode(Encode(bytes, written), read) == bytes
  {
    var values := Sextets(Bits(bytes));
    ValuesOfChars(values, written, read);
    PaddingIgnored(|bytes|, read);
    ValuesConcat(Chars(values, written), if written.Standard? then Padding(|bytes|) else "", read);
    assert values + [] == values;
    var z := StreamOfSextets(Bits(bytes));
    OctetsOfBits(bytes, Zeros(z));
  }

  // Main result: characters outside the alphabet may stand anywhere without changing the result.
  lemma NonAlphabetIgnored(a: string, junk: string, b: string, variant: Variant)
    requires forall c :: c in junk ==> Value(c, variant).None?
    ensures Decode(a + junk + b, variant) == Decode(a + b, variant)
  {
    JunkHasNoValues(junk, variant);
    ValuesConcat(a + junk, b, variant);
    ValuesConcat(a, junk, variant);
    ValuesConcat(a, b, variant);
    assert Values(a, variant) + [] == Values(a, variant);
  }

  lemma {:induction false} JunkHasNoValues(junk: string, variant: Variant)
    requires forall c :: c in junk ==> Value(c, variant).None?
    ensures Values(junk, variant) == []
  {
    if junk != "" {
      assert junk[0] in junk;
      JunkHasNoValues(junk[1..], variant);
    }
  }

  // --- reading with the wrong variant ---

  lemma {:induction false} OctetCount(bits: seq<Bit>)
    ensures |Octets(bits)| == |bits| / 8
    decreases |bits|
  {
    if |bits| >= 8 {
      OctetCount(bits[8..]);
    }
  }

  lemma {:induction false} SextetCount(bits: seq<Bit>)
    ensures |Sextets(bits)| == (|bits| + 5) / 6
    decreases |bits|
  {
    if |bits| >= 6 {
      SextetCount(bits[6..]);
    }
  }

  // A url-safe text loses exactly its '-' and '_' characters to the standard reader.
  lemma {:induction false} StandardReadsUrl(values: seq<Sextet>)
    ensures |Values(Chars(values, Url), Standard)| <= |values|
    ensures forall c :: c in Chars(values, Url) ==> c != '='
    ensures '-' !in Chars(values, Url) && '_' !in Chars(values, Url) <==>
            |Values(Chars(values, Url), Standard)| == |values|
    ensures '-' !in Chars(values, Url) && '_' !in Chars(values, Url) ==> Values(Chars(values, Url), Standard) == values
  {
    if values != [] {
      StandardReadsUrl(values[1..]);
      var s := Chars(values, Url);
      assert s[1..] == Chars(values[1..], Url) && s == [s[0]] + s[1..];
    }
  }

  // Main result: url-safe text read with the standard variant gives the bytes back exactly when it
  // holds no '-' and no '_'; the reader never reports the difference.
  lemma WrongVariant(bytes: seq<Byte>)
    ensures Decode(Encode(bytes, Url), Standard) == bytes <==> '-' !in Encode(bytes, Url) && '_' !in Encode(bytes, Url)
  {
    var values := Sextets(Bits(bytes));
    assert Encode(bytes, Url) == Chars(values, Url);
    StandardReadsUrl(values);
    var read := Values(Chars(values, Url), Standard);
    if |read| == |values| {
      var z := StreamOfSextets(Bits(bytes));
      OctetsOfBits(bytes, Zeros(z));
    } else {
      SextetCount(Bits(bytes));
      OctetCount(Stream(read));
      FewerSextets(|bytes|, |read|);
    }
  }

  lemma FewerSextets(n: nat, k: nat)
    requires k < (8 * n + 5) / 6
    ensures 6 * k / 8 < n
  {
  }
}

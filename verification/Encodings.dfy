/** The byte encodings that identities are digests of: each can be read back in only one way. */
module Encodings {
  import opened Outcomes
  import opened Checksums

  type Bytes = seq<nat>

  function Pow256(width: nat): (p: nat)
    ensures p >= 1
  {
    if width == 0 then 1 else 256 * Pow256(width - 1)
  }

  /** A number in `width` bytes, most significant first. */
  function BigEndian(n: nat, width: nat): (bytes: Bytes)
    ensures |bytes| == width
  {
    if width == 0 then [] else BigEndian(n / 256, width - 1) + [n % 256]
  }

  /** The number that bytes stand for, most significant first. */
  function Value(bytes: Bytes): nat {
    if bytes == [] then 0 else bytes[0] * Pow256(|bytes| - 1) + Value(bytes[1..])
  }

  lemma {:induction false} ValueAppends(bytes: Bytes, b: nat)
    ensures Value(bytes + [b]) == 256 * Value(bytes) + b
  {
    if bytes == [] {
      assert [b][1..] == [];
    } else {
      ValueAppends(bytes[1..], b);
      assert (bytes + [b])[1..] == bytes[1..] + [b];
      assert bytes[0] * Pow256(|bytes|) == 256 * (bytes[0] * Pow256(|bytes| - 1));
    }
  }

  /** Packing a number that fits writes bytes, and they stand for that number. */
  lemma {:induction false} BigEndianValue(n: nat, width: nat)
    requires n < Pow256(width)
    ensures Value(BigEndian(n, width)) == n && forall b | b in BigEndian(n, width) :: b < 256
  {
    if width > 0 {
      BigEndianValue(n / 256, width - 1);
      ValueAppends(BigEndian(n / 256, width - 1), n % 256);
    }
  }

  function U32(n: nat): (bytes: Bytes)
    ensures |bytes| == 4
  {
    BigEndian(n, 4)
  }

  function U64(n: nat): (bytes: Bytes)
    ensures |bytes| == 8
  {
    BigEndian(n, 8)
  }

  /** What packing accepts. */
  predicate Fits32(n: nat) {
    n < Pow256(4)
  }

  predicate Fits64(n: nat) {
    n < Pow256(8)
  }

  lemma {:induction false} BigEndianInjective(n: nat, m: nat, width: nat)
    requires n < Pow256(width) && m < Pow256(width) && BigEndian(n, width) == BigEndian(m, width)
    ensures n == m
  {
    if width > 0 {
      var a, b := BigEndian(n / 256, width - 1), BigEndian(m / 256, width - 1);
      assert (a + [n % 256])[..width - 1] == a && (b + [m % 256])[..width - 1] == b;
      assert (a + [n % 256])[width - 1] == n % 256 && (b + [m % 256])[width - 1] == m % 256;
      BigEndianInjective(n / 256, m / 256, width - 1);
    }
  }

  /** Two concatenations with first parts of equal length agree part by part. */
  lemma SplitAt(a: Bytes, x: Bytes, b: Bytes, y: Bytes)
    requires a + x == b + y && |a| == |b|
    ensures a == b && x == y
  {
    assert a == (a + x)[..|a|] == (b + y)[..|b|] == b;
    assert x == (a + x)[|a|..] == (b + y)[|b|..] == y;
  }

  /** One length-prefixed value. */
  function Framed(v: Bytes): Bytes {
    U64(|v|) + v
  }

  function FramedAll(values: seq<Bytes>): Bytes {
    if values == [] then [] else Framed(values[0]) + FramedAll(values[1..])
  }

  /** A counted list of length-prefixed values. */
  function Sequence(values: seq<Bytes>): Bytes {
    U32(|values|) + FramedAll(values)
  }

  predicate SequenceFits(values: seq<Bytes>) {
    Fits32(|values|) && forall v | v in values :: Fits64(|v|)
  }

  /** A framed value ends where its length says, whatever follows. */
  lemma FramedPrefix(v: Bytes, x: Bytes, w: Bytes, y: Bytes)
    requires Fits64(|v|) && Fits64(|w|) && Framed(v) + x == Framed(w) + y
    ensures v == w && x == y
  {
    hide U64, Fits64;
    assert Framed(v) + x == U64(|v|) + (v + x) && Framed(w) + y == U64(|w|) + (w + y);
    SplitAt(U64(|v|), v + x, U64(|w|), w + y);
    U64Injective(|v|, |w|);
    SplitAt(v, x, w, y);
  }

  lemma U64Injective(n: nat, m: nat)
    requires Fits64(n) && Fits64(m) && U64(n) == U64(m)
    ensures n == m
  {
    BigEndianInjective(n, m, 8);
  }

  lemma U32Injective(n: nat, m: nat)
    requires Fits32(n) && Fits32(m) && U32(n) == U32(m)
    ensures n == m
  {
    BigEndianInjective(n, m, 4);
  }

  lemma {:induction false} FramedAllPrefix(a: seq<Bytes>, x: Bytes, b: seq<Bytes>, y: Bytes)
    requires |a| == |b| && FramedAll(a) + x == FramedAll(b) + y
    requires (forall v | v in a :: Fits64(|v|)) && (forall v | v in b :: Fits64(|v|))
    ensures a == b && x == y
  {
    hide Fits64, Framed;
    if a == [] {
      assert x == [] + x && y == [] + y;
    } else {
      assert FramedAll(a) + x == Framed(a[0]) + (FramedAll(a[1..]) + x);
      assert FramedAll(b) + y == Framed(b[0]) + (FramedAll(b[1..]) + y);
      FramedPrefix(a[0], FramedAll(a[1..]) + x, b[0], FramedAll(b[1..]) + y);
      FramedAllPrefix(a[1..], x, b[1..], y);
      assert a == [a[0]] + a[1..] && b == [b[0]] + b[1..];
    }
  }

  /** A sequence can be read back, also when more bytes follow it. */
  lemma SequenceInjective(a: seq<Bytes>, x: Bytes, b: seq<Bytes>, y: Bytes)
    requires SequenceFits(a) && SequenceFits(b) && Sequence(a) + x == Sequence(b) + y
    ensures a == b && x == y
  {
    hide U32, Fits32, Fits64, FramedAll;
    assert Sequence(a) + x == U32(|a|) + (FramedAll(a) + x) && Sequence(b) + y == U32(|b|) + (FramedAll(b) + y);
    SplitAt(U32(|a|), FramedAll(a) + x, U32(|b|), FramedAll(b) + y);
    U32Injective(|a|, |b|);
    FramedAllPrefix(a, x, b, y);
  }

  datatype Field = Field(name: string, value: Bytes)

  function FieldBytes(f: Field): Bytes {
    U32(|Encode(f.name)|) + Encode(f.name) + Framed(f.value)
  }

  function FieldsBytes(fields: seq<Field>): Bytes {
    if fields == [] then [] else FieldBytes(fields[0]) + FieldsBytes(fields[1..])
  }

  /** A framed record: a fixed prefix, a domain, and named values. The prefix is a parameter. */
  function LengthFrame(prefix: Bytes, domain: string, fields: seq<Field>): Bytes {
    prefix + U32(|Encode(domain)|) + Encode(domain) + U32(|fields|) + FieldsBytes(fields)
  }

  predicate FieldFits(f: Field) {
    Fits32(|Encode(f.name)|) && Fits64(|f.value|)
  }

  predicate FrameFits(domain: string, fields: seq<Field>) {
    Fits32(|Encode(domain)|) && Fits32(|fields|) && forall f | f in fields :: FieldFits(f)
  }

  lemma FieldPrefix(f: Field, x: Bytes, g: Field, y: Bytes)
    requires FieldFits(f) && FieldFits(g) && FieldBytes(f) + x == FieldBytes(g) + y
    ensures f == g && x == y
  {
    hide U32, Fits32, Fits64, Framed, Encode;
    var m, n := Encode(f.name), Encode(g.name);
    assert FieldBytes(f) + x == U32(|m|) + (m + (Framed(f.value) + x));
    assert FieldBytes(g) + y == U32(|n|) + (n + (Framed(g.value) + y));
    SplitAt(U32(|m|), m + (Framed(f.value) + x), U32(|n|), n + (Framed(g.value) + y));
    U32Injective(|m|, |n|);
    SplitAt(m, Framed(f.value) + x, n, Framed(g.value) + y);
    EncodeInjective(f.name, g.name);
    FramedPrefix(f.value, x, g.value, y);
  }

  lemma {:induction false} FieldsPrefix(a: seq<Field>, b: seq<Field>)
    requires |a| == |b| && FieldsBytes(a) == FieldsBytes(b)
    requires (forall f | f in a :: FieldFits(f)) && (forall f | f in b :: FieldFits(f))
    ensures a == b
  {
    hide FieldFits, FieldBytes;
    if a != [] {
      FieldPrefix(a[0], FieldsBytes(a[1..]), b[0], FieldsBytes(b[1..]));
      FieldsPrefix(a[1..], b[1..]);
      assert a == [a[0]] + a[1..] && b == [b[0]] + b[1..];
    }
  }

  /** A frame determines its domain and its fields. */
  lemma LengthFrameInjective(prefix: Bytes, c: string, a: seq<Field>, d: string, b: seq<Field>)
    requires FrameFits(c, a) && FrameFits(d, b) && LengthFrame(prefix, c, a) == LengthFrame(prefix, d, b)
    ensures c == d && a == b
  {
    hide U32, Fits32, FieldsBytes, Encode, FieldFits;
    var m, n := Encode(c), Encode(d);
    assert LengthFrame(prefix, c, a) == prefix + (U32(|m|) + (m + (U32(|a|) + FieldsBytes(a))));
    assert LengthFrame(prefix, d, b) == prefix + (U32(|n|) + (n + (U32(|b|) + FieldsBytes(b))));
    SplitAt(prefix, U32(|m|) + (m + (U32(|a|) + FieldsBytes(a))), prefix, U32(|n|) + (n + (U32(|b|) + FieldsBytes(b))));
    SplitAt(U32(|m|), m + (U32(|a|) + FieldsBytes(a)), U32(|n|), n + (U32(|b|) + FieldsBytes(b)));
    U32Injective(|m|, |n|);
    SplitAt(m, U32(|a|) + FieldsBytes(a), n, U32(|b|) + FieldsBytes(b));
    EncodeInjective(c, d);
    SplitAt(U32(|a|), FieldsBytes(a), U32(|b|), FieldsBytes(b));
    U32Injective(|a|, |b|);
    FieldsPrefix(a, b);
  }

  /** No UTF-8 character begins another. */
  lemma Utf8Prefix(c: char, x: Bytes, d: char, y: Bytes)
    requires Utf8(c) + x == Utf8(d) + y
    ensures c == d && x == y
  {
    var u, v := Utf8(c), Utf8(d);
    assert u[0] == (u + x)[0] == (v + y)[0] == v[0];
    assert |u| == |v| by { Utf8Lead(c); Utf8Lead(d); }
    SplitAt(u, x, v, y);
    Utf8Injective(c, d);
  }

  /** The first byte tells how many follow. */
  lemma Utf8Lead(c: char)
    ensures |Utf8(c)| == if Utf8(c)[0] < 0x80 then 1 else if Utf8(c)[0] < 0xE0 then 2 else if Utf8(c)[0] < 0xF0 then 3 else 4
  {
  }

  /** The code point a character's bytes stand for. */
  function Decoded(b: Bytes): int
    requires 1 <= |b| <= 4
  {
    if |b| == 1 then b[0]
    else if |b| == 2 then (b[0] as int - 0xC0) * 64 + (b[1] as int - 0x80)
    else if |b| == 3 then (b[0] as int - 0xE0) * 4096 + (b[1] as int - 0x80) * 64 + (b[2] as int - 0x80)
    else (b[0] as int - 0xF0) * 262144 + (b[1] as int - 0x80) * 4096 + (b[2] as int - 0x80) * 64 + (b[3] as int - 0x80)
  }

  lemma InBase64(n: nat)
    ensures n == n / 64 * 64 + n % 64
    ensures n == n / 4096 * 4096 + n / 64 % 64 * 64 + n % 64
    ensures n == n / 262144 * 262144 + n / 4096 % 64 * 4096 + n / 64 % 64 * 64 + n % 64
  {
    assert n / 64 / 64 == n / 4096 && n / 4096 / 64 == n / 262144;
  }

  lemma Utf8Decodes(c: char)
    ensures Decoded(Utf8(c)) == c as int
  {
    InBase64(c as int);
  }

  lemma Utf8Injective(c: char, d: char)
    requires Utf8(c) == Utf8(d)
    ensures c == d
  {
    Utf8Decodes(c);
    Utf8Decodes(d);
    hide Utf8, Decoded;
    assert c as int == d as int;
  }

  lemma {:induction false} EncodeInjective(s: string, t: string)
    requires Encode(s) == Encode(t)
    ensures s == t
  {
    if s == "" || t == "" {
      EncodeEmpty(s);
      EncodeEmpty(t);
    } else {
      Utf8Prefix(s[0], Encode(s[1..]), t[0], Encode(t[1..]));
      EncodeInjective(s[1..], t[1..]);
      assert s == [s[0]] + s[1..] && t == [t[0]] + t[1..];
    }
  }

  lemma EncodeEmpty(s: string)
    ensures Encode(s) == [] <==> s == ""
  {
  }

  /** A configured value: a boolean, an integer, a float in its exact hexadecimal notation, or text. */
  datatype Scalar = Bool(b: bool) | Int(n: int) | Float(hex: string) | Text(text: string)

  function Digits(n: nat): (s: string)
    ensures s != "" && forall c | c in s :: '0' <= c <= '9'
  {
    if n < 10 then ['0' + n as char] else Digits(n / 10) + ['0' + (n % 10) as char]
  }

  function Decimal(n: int): string {
    if n < 0 then "-" + Digits(-n) else Digits(n)
  }

  function ScalarBytes(v: Scalar): Bytes {
    match v
    case Bool(b) => Encode("b") + [if b then 1 else 0]
    case Int(n) => Encode("i") + Encode(Decimal(n))
    case Float(hex) => Encode("f") + Encode(hex)
    case Text(text) => Encode("s") + Encode(text)
  }

  lemma {:induction false} DigitsInjective(n: nat, m: nat)
    requires Digits(n) == Digits(m)
    ensures n == m
  {
    var s, t := Digits(n), Digits(m);
    assert s[|s| - 1] == t[|t| - 1];
    assert s[..|s| - 1] == t[..|t| - 1];
    assert ('0' + (n % 10) as char) as int == '0' as int + n % 10 && ('0' + (m % 10) as char) as int == '0' as int + m % 10;
    if n >= 10 && m >= 10 {
      DigitsInjective(n / 10, m / 10);
    }
  }

  /** A scalar is determined by its encoding, its kind included. */
  lemma ScalarInjective(v: Scalar, w: Scalar)
    requires ScalarBytes(v) == ScalarBytes(w)
    ensures v == w
  {
    KindFirst(v);
    KindFirst(w);
    SplitAt([ScalarBytes(v)[0]], ScalarBytes(v)[1..], [ScalarBytes(w)[0]], ScalarBytes(w)[1..]);
    match v {
      case Bool(b) =>
        assert ScalarBytes(v)[1] == ScalarBytes(w)[1];
      case Int(n) =>
        EncodeInjective(Decimal(n), Decimal(w.n));
        DecimalInjective(n, w.n);
      case Float(hex) =>
        EncodeInjective(hex, w.hex);
      case Text(text) =>
        EncodeInjective(text, w.text);
    }
  }

  lemma KindFirst(v: Scalar)
    ensures |ScalarBytes(v)| >= 1
    ensures ScalarBytes(v)[0] == (match v case Bool(_) => 98 case Int(_) => 105 case Float(_) => 102 case Text(_) => 115)
    ensures ScalarBytes(v)[1..] == match v
      case Bool(b) => [if b then 1 else 0]
      case Int(n) => Encode(Decimal(n))
      case Float(hex) => Encode(hex)
      case Text(text) => Encode(text)
  {
    assert Encode("b") == [98] && Encode("i") == [105] && Encode("f") == [102] && Encode("s") == [115];
  }

  lemma DecimalInjective(n: int, m: int)
    requires Decimal(n) == Decimal(m)
    ensures n == m
  {
    if n < 0 && m < 0 {
      assert ("-" + Digits(-n))[1..] == Digits(-n) && ("-" + Digits(-m))[1..] == Digits(-m);
      DigitsInjective(-n, -m);
    } else if n >= 0 && m >= 0 {
      DigitsInjective(n, m);
    } else {
      var p := if n < 0 then m else n;
      assert Digits(p)[0] in Digits(p);
      assert false;
    }
  }
}

/** Time-based one-time passwords (api/src/modules/tickets/totp.service.ts), with the hash left open: any function to 20
    bytes. The methods work as the source does, on strings of bits and buffers of bytes; the functions they are tied to
    follow RFC 4648 section 6, RFC 4226 section 5.3 and RFC 6238 section 4. */
module Totp {
  import opened Wrappers
  import opened Digits

  type Byte = x: nat | x < 256

  type Digest = s: seq<bv8> | |s| == 20 witness seq(20, _ => 0)

  type Hmac = (seq<Byte>, seq<Byte>) -> Digest

  const ALPHABET := "ABCDEFGHIJKLMNOPQRSTUVWXYZ234567"
  const WINDOW := 1
  const STEP := 30

  // ---- bytes and numbers -------------------------------------------------------------------------------------------

  /** Bytes as a number, the most significant first. */
  function Base256(bytes: seq<Byte>): nat {
    if bytes == [] then 0 else 256 * Base256(bytes[..|bytes| - 1]) + bytes[|bytes| - 1]
  }

  /** The last `width` base-256 digits of n, the most significant first. */
  function BigEndian(n: int, width: nat): (bytes: seq<Byte>)
    ensures |bytes| == width
    decreases width, n
  {
    if width == 0 then [] else BigEndian(n / 256, width - 1) + [n % 256]
  }

  function Power2(k: nat): (p: nat)
    ensures p >= 1
  {
    if k == 0 then 1 else 2 * Power2(k - 1)
  }

  lemma {:induction false} Power2Adds(a: nat, b: nat)
    ensures Power2(a + b) == Power2(a) * Power2(b)
  {
    if b > 0 {
      Power2Adds(a, b - 1);
    }
  }

  lemma Power2Of8(k: nat)
    ensures Power2(k + 8) == 256 * Power2(k)
  {
    assert Power2(8) == 256;
    Power2Adds(k, 8);
  }

  /** The big-endian bytes of n are those of a number equal to n modulo 2^(8 * width). */
  lemma {:induction false} BigEndianValue(n: int, width: nat)
    ensures Base256(BigEndian(n, width)) == n % Power2(8 * width)
    decreases width
  {
    if width > 0 {
      var q, p := n / 256, Power2(8 * (width - 1));
      BigEndianValue(q, width - 1);
      Power2Of8(8 * (width - 1));
      assert Power2(8 * width) == 256 * p;
      assert BigEndian(n, width)[..width - 1] == BigEndian(q, width - 1);
      ModOfPair(q, n % 256, p);
    }
  }

  lemma ModOfPair(q: int, r: nat, p: nat)
    requires r < 256 && p >= 1
    ensures (256 * q + r) % (256 * p) == 256 * (q % p) + r
  {
    var d, m := q / p, q % p;
    assert 256 * q + r == (256 * p) * d + (256 * m + r);
    assert 0 <= 256 * m + r < 256 * p;
    RemainderUnique(256 * p, d, 256 * m + r);
  }

  lemma RemainderUnique(b: nat, d: int, r: nat)
    requires b >= 1 && r < b
    ensures (b * d + r) % b == r && (b * d + r) / b == d
  {
    var n := b * d + r;
    var e := n / b - d;
    assert n == b * (n / b) + n % b;
    assert b * e == r - n % b;
    Multiple(b, e);
  }

  lemma Multiple(b: nat, e: int)
    requires b >= 1
    ensures e >= 1 ==> b * e >= b
    ensures e <= -1 ==> b * e + b <= 0
  {
    assert b * e == b + b * (e - 1);
    assert b * e + b == b * (e + 1);
  }

  // ---- strings of bits ---------------------------------------------------------------------------------------------

  predicate AllBits(s: string) {
    forall i :: 0 <= i < |s| ==> s[i] == '0' || s[i] == '1'
  }

  /** `n.toString(2)` */
  function Binary(n: nat): (s: string)
    ensures AllBits(s) && |s| >= 1
  {
    if n < 2 then [Digit(n)] else Binary(n / 2) + [Digit(n % 2)]
  }

  /** `parseInt(s, 2)` on a run of bits. */
  function Bits(s: string): nat
    requires AllBits(s)
  {
    if s == [] then 0 else 2 * Bits(s[..|s| - 1]) + if s[|s| - 1] == '1' then 1 else 0
  }

  lemma {:induction false} BitsBound(s: string)
    requires AllBits(s)
    ensures Bits(s) < Power2(|s|)
  {
    if s != [] {
      BitsBound(s[..|s| - 1]);
    }
  }

  lemma Twice(x: nat, p: nat)
    ensures 2 * (x * p) == x * (2 * p)
  {
  }

  lemma {:induction false} BitsConcat(a: string, b: string)
    requires AllBits(a) && AllBits(b)
    ensures AllBits(a + b) && Bits(a + b) == Bits(a) * Power2(|b|) + Bits(b)
  {
    if b == [] {
      assert a + b == a;
    } else {
      var last := |b| - 1;
      BitsConcat(a, b[..last]);
      assert (a + b)[..|a| + last] == a + b[..last];
      assert Bits(a + b) == 2 * Bits(a + b[..last]) + if b[last] == '1' then 1 else 0;
      Twice(Bits(a), Power2(last));
    }
  }

  function ShiftRight(n: nat, k: nat): nat {
    if k == 0 then n else ShiftRight(n / 2, k - 1)
  }

  lemma {:induction false} ShiftDivides(n: nat, k: nat)
    ensures ShiftRight(n, k) == n / Power2(k)
  {
    if k > 0 {
      ShiftDivides(n / 2, k - 1);
      HalfFirst(n, Power2(k - 1));
    }
  }

  lemma HalfFirst(n: nat, p: nat)
    requires p >= 1
    ensures n / 2 / p == n / (2 * p)
  {
    var h := n / 2;
    var d, m := h / p, h % p;
    assert h == p * d + m;
    Twice(d, p);
    assert n == (2 * p) * d + (2 * m + n % 2);
    RemainderUnique(2 * p, d, 2 * m + n % 2);
  }

  /** The leading bits of a run are its value with the rest shifted out. */
  lemma {:induction false} BitsPrefix(s: string, n: nat)
    requires AllBits(s) && n <= |s|
    ensures Bits(s[..n]) == ShiftRight(Bits(s), |s| - n)
  {
    if n == |s| {
      assert s[..n] == s;
    } else {
      var last := |s| - 1;
      assert s[..last][..n] == s[..n];
      BitsPrefix(s[..last], n);
      assert Bits(s) / 2 == Bits(s[..last]);
    }
  }

  lemma {:induction false} BinaryBits(n: nat, k: nat)
    requires n < Power2(k) && k >= 1
    ensures Bits(Binary(n)) == n && |Binary(n)| <= k
  {
    if n < 2 {
      assert [Digit(n)][..0] == [];
    } else {
      assert Binary(n)[..|Binary(n)| - 1] == Binary(n / 2);
      BinaryBits(n / 2, k - 1);
    }
  }

  lemma {:induction false} PaddedBits(s: string, width: nat)
    requires AllBits(s)
    ensures AllBits(PadStart(s, width)) && Bits(PadStart(s, width)) == Bits(s)
    decreases width - |s|
  {
    if |s| < width {
      BitsConcat("0", s);
      assert "0"[..0] == "";
      PaddedBits("0" + s, width);
    }
  }

  // ---- the key: base 32, RFC 4648 section 6 ------------------------------------------------------------------------

  function UpperChar(c: char): char {
    if 'a' <= c <= 'z' then (c as int - 32) as char else c
  }

  /** `s.indexOf(c)` */
  function IndexOf(s: string, c: char): (i: int)
    ensures -1 <= i < |s| && (i == -1 <==> c !in s)
    ensures i >= 0 ==> s[i] == c && c !in s[..i]
  {
    if c !in s then -1
    else if s[|s| - 1] == c && c !in s[..|s| - 1] then |s| - 1
    else IndexOf(s[..|s| - 1], c)
  }

  type Symbol = n: nat | n < 32

  /** The value of a symbol, -1 for any other character: RFC 4648, table 3. */
  function SymbolValue(c: char): (value: int)
    ensures -1 <= value < 32
  {
    if 'A' <= c <= 'Z' then c as int - 'A' as int else if '2' <= c <= '7' then c as int - '2' as int + 26 else -1
  }

  lemma AlphabetIsTable(c: char)
    ensures IndexOf(ALPHABET, c) == SymbolValue(c)
  {
    Letters();
    var value := SymbolValue(c);
    if value >= 0 {
      assert ALPHABET[value] == c;
    }
  }

  lemma Letters()
    ensures forall i :: 0 <= i < 26 ==> ALPHABET[i] == ('A' as int + i) as char
    ensures forall i :: 26 <= i < 32 ==> ALPHABET[i] == ('2' as int + i - 26) as char
  {
  }

  /** The symbols of a secret, in either case; other characters are skipped. */
  function Symbols(secret: string): seq<Symbol> {
    if secret == [] then []
    else
      var before, value := Symbols(secret[..|secret| - 1]), SymbolValue(UpperChar(secret[|secret| - 1]));
      if value == -1 then before else before + [value]
  }

  function Base32(symbols: seq<Symbol>): nat {
    if symbols == [] then 0 else 32 * Base32(symbols[..|symbols| - 1]) + symbols[|symbols| - 1]
  }

  /** The key: as many whole bytes as the symbols' five bits each fill, the bits left over cut off. */
  function Key(secret: string): (key: seq<Byte>)
    ensures |key| == 5 * |Symbols(secret)| / 8
  {
    var n := |Symbols(secret)|;
    BigEndian(ShiftRight(Base32(Symbols(secret)), 5 * n % 8), 5 * n / 8)
  }

  method BitString(secret: string) returns (bits: string)
    ensures AllBits(bits) && |bits| == 5 * |Symbols(secret)| && Bits(bits) == Base32(Symbols(secret))
  {
    bits := "";
    for i := 0 to |secret|
      invariant AllBits(bits) && |bits| == 5 * |Symbols(secret[..i])| && Bits(bits) == Base32(Symbols(secret[..i]))
    {
      assert secret[..i + 1][..i] == secret[..i];
      var value := IndexOf(ALPHABET, UpperChar(secret[i]));
      AlphabetIsTable(UpperChar(secret[i]));
      if value != -1 {
        var five := PadStart(Binary(value), 5);
        FiveBits(value);
        BitsConcat(bits, five);
        bits := bits + five;
      }
    }
    assert secret[..|secret|] == secret;
  }

  lemma FiveBits(value: nat)
    requires value < 32
    ensures
      var five := PadStart(Binary(value), 5);
      AllBits(five) && |five| == 5 && Bits(five) == value && Power2(5) == 32
  {
    assert Power2(5) == 32;
    BinaryBits(value, 5);
    PaddedBits(Binary(value), 5);
  }

  lemma NextByte(bits: string, i: nat)
    requires AllBits(bits) && 8 * i + 8 <= |bits|
    ensures Bits(bits[8 * i..8 * i + 8]) < 256
    ensures Bits(bits[..8 * (i + 1)]) == 256 * Bits(bits[..8 * i]) + Bits(bits[8 * i..8 * i + 8])
  {
    var head, slice := bits[..8 * i], bits[8 * i..8 * i + 8];
    assert bits[..8 * (i + 1)] == head + slice;
    EightBitsMore(head, slice);
  }

  lemma EightBitsMore(head: string, slice: string)
    requires AllBits(head) && AllBits(slice) && |slice| == 8
    ensures Bits(slice) < 256 && Bits(head + slice) == 256 * Bits(head) + Bits(slice)
  {
    assert Power2(8) == 256;
    BitsBound(slice);
    BitsConcat(head, slice);
  }

  lemma OneByteMore(n: nat, b: nat, width: nat)
    requires b < 256
    ensures BigEndian(256 * n + b, width + 1) == BigEndian(n, width) + [b]
  {
    assert (256 * n + b) / 256 == n && (256 * n + b) % 256 == b;
  }

  method Pack(bits: string) returns (bytes: array<Byte>)
    requires AllBits(bits)
    ensures fresh(bytes) && bytes.Length == |bits| / 8
    ensures bytes[..] == BigEndian(ShiftRight(Bits(bits), |bits| % 8), |bits| / 8)
  {
    bytes := new Byte[|bits| / 8];
    for i := 0 to bytes.Length
      invariant bytes[..i] == BigEndian(Bits(bits[..8 * i]), i)
    {
      NextByte(bits, i);
      OneByteMore(Bits(bits[..8 * i]), Bits(bits[8 * i..8 * i + 8]), i);
      bytes[i] := Bits(bits[8 * i..8 * i + 8]);
      assert bytes[..i + 1] == bytes[..i] + [bytes[i]];
    }
    BitsPrefix(bits, 8 * bytes.Length);
  }

  // ---- the counter -------------------------------------------------------------------------------------------------

  /** `c & 0xff` and `Math.floor(c / 256)` for the last byte first. */
  method CounterBytes(counter: int) returns (bytes: array<Byte>)
    ensures fresh(bytes) && bytes.Length == 8
    ensures bytes[..] == BigEndian(counter, 8)
  {
    bytes := new Byte[8];
    var c := counter;
    var i := 7;
    while i >= 0
      invariant -1 <= i <= 7
      invariant BigEndian(counter, 8) == BigEndian(c, i + 1) + bytes[i + 1..]
    {
      bytes[i] := c % 256;
      c := c / 256;
      i := i - 1;
    }
  }

  // ---- truncation: RFC 4226 section 5.3 ----------------------------------------------------------------------------

  /** Four bytes from the place the last byte's low four bits give, the first without its top bit. */
  function Truncated(digest: Digest): nat {
    var o := digest[19] as int % 16;
    0x100_0000 * (digest[o] as int % 128) + 0x1_0000 * digest[o + 1] as int + 0x100 * digest[o + 2] as int
    + digest[o + 3] as int
  }

  function Numbers(bytes: seq<bv8>): seq<Byte> {
    seq(|bytes|, i requires 0 <= i < |bytes| => bytes[i] as int)
  }

  /** That is, the last 31 bits of the four bytes read as one number. */
  lemma TruncatedIsLow31Bits(digest: Digest)
    ensures
      var o := digest[19] as int % 16;
      Truncated(digest) == Base256(Numbers(digest[o..o + 4])) % 0x8000_0000
  {
    var o := digest[19] as int % 16;
    var (w, x, y, z) := (digest[o] as int, digest[o + 1] as int, digest[o + 2] as int, digest[o + 3] as int);
    assert Numbers(digest[o..o + 4]) == [w, x, y, z];
    FourNumbers(w, x, y, z);
  }

  lemma FourNumbers(w: Byte, x: Byte, y: Byte, z: Byte)
    ensures Base256([w, x, y, z]) % 0x8000_0000
         == 0x100_0000 * (w as int % 128) + 0x1_0000 * x as int + 0x100 * y as int + z as int
  {
    var s: seq<Byte> := [w, x, y, z];
    assert s[..3] == [w, x, y] && [w, x, y][..2] == [w, x] && [w, x][..1] == [w] && [w][..0] == [];
    assert Base256([w]) == w as int;
    assert Base256([w, x]) == 256 * w as int + x as int;
    assert Base256([w, x, y]) == 256 * (256 * w as int + x as int) + y as int;
    var low := 0x100_0000 * (w as int % 128) + 0x1_0000 * x as int + 0x100 * y as int + z as int;
    assert Base256(s) == 0x8000_0000 * (w as int / 128) + low && low < 0x8000_0000;
  }

  lemma LowBits(x: bv8)
    ensures (x & 0xf) as int == x as int % 16
  {
  }

  lemma Assembled(a: bv8, b: bv8, c: bv8, d: bv8)
    ensures (((a & 0x7f) as bv32 << 24) | (((b & 0xff) as bv32) << 16)
             | (((c & 0xff) as bv32) << 8) | ((d & 0xff) as bv32)) as int
         == 0x100_0000 * (a as int % 128) + 0x1_0000 * b as int + 0x100 * c as int + d as int
  {
  }

  /** The offset by a mask, the code by masks, shifts and ors. */
  method Truncate(digest: Digest) returns (code: nat)
    ensures code == Truncated(digest)
  {
    var last := digest[|digest| - 1];
    LowBits(last);
    var offset := (last & 0xf) as int;
    code := Assemble(digest[offset], digest[offset + 1], digest[offset + 2], digest[offset + 3]);
  }

  method Assemble(a: bv8, b: bv8, c: bv8, d: bv8) returns (code: nat)
    ensures code == 0x100_0000 * (a as int % 128) + 0x1_0000 * b as int + 0x100 * c as int + d as int
  {
    Assembled(a, b, c, d);
    code := (((a & 0x7f) as bv32 << 24) | (((b & 0xff) as bv32) << 16)
             | (((c & 0xff) as bv32) << 8) | ((d & 0xff) as bv32)) as int;
  }

  // ---- tokens ------------------------------------------------------------------------------------------------------

  function Token(hmac: Hmac, secret: string, counter: int): (otp: string)
    ensures AllDigits(otp)
  {
    PadStart(Decimal(Truncated(hmac(Key(secret), BigEndian(counter, 8))) % 1000000), 6)
  }

  /** Always six digits, and reading them gives the truncated digest modulo 10^6. */
  lemma SixDigits(hmac: Hmac, secret: string, counter: int)
    ensures |Token(hmac, secret, counter)| == 6
    ensures Value(Token(hmac, secret, counter)) == Truncated(hmac(Key(secret), BigEndian(counter, 8))) % 1000000
  {
    var code := Truncated(hmac(Key(secret), BigEndian(counter, 8))) % 1000000;
    assert Power10(6) == 1000000;
    PaddedWidth(code, 6);
    PaddedRoundTrip(code, 6);
  }

  method ComputeTotp(hmac: Hmac, secret: string, counter: int) returns (otp: string)
    ensures otp == Token(hmac, secret, counter)
  {
    var bits := BitString(secret);
    var bytes := Pack(bits);
    var counterBytes := CounterBytes(counter);
    var digest := hmac(bytes[..], counterBytes[..]);
    var code := Truncate(digest);
    otp := PadStart(Decimal(code % 1000000), 6);
  }

  /** `fakeEpoch || Math.floor(Date.now() / 1000)`: no epoch, or zero, means now. */
  function EpochOf(fakeEpoch: Option<int>, now: int): int {
    if fakeEpoch.Some? && fakeEpoch.value != 0 then fakeEpoch.value else now
  }

  method GenerateToken(hmac: Hmac, secret: string, fakeEpoch: Option<int>, now: int) returns (otp: string)
    ensures otp == Token(hmac, secret, EpochOf(fakeEpoch, now) / STEP)
  {
    var counter := EpochOf(fakeEpoch, now) / STEP;
    otp := ComputeTotp(hmac, secret, counter);
  }

  /** Whether verifyToken accepts the token at time `now`. */
  ghost predicate Accepts(hmac: Hmac, secret: string, token: string, now: int) {
    exists c :: now / STEP - WINDOW <= c <= now / STEP + WINDOW && Token(hmac, secret, c) == token
  }

  method VerifyToken(hmac: Hmac, token: string, secret: string, now: int) returns (ok: bool)
    ensures ok <==> Accepts(hmac, secret, token, now)
  {
    var counter := now / STEP;
    for i := -WINDOW to WINDOW + 1
      invariant forall c :: counter - WINDOW <= c < counter + i ==> Token(hmac, secret, c) != token
    {
      var otp := ComputeTotp(hmac, secret, counter + i);
      if otp == token {
        return true;
      }
    }
    return false;
  }

  /** A token made at t is accepted at every time within 30 seconds of t. */
  lemma AcceptedNearby(hmac: Hmac, secret: string, t: int, now: int)
    requires -STEP <= now - t <= STEP
    ensures Accepts(hmac, secret, Token(hmac, secret, t / STEP), now)
  {
    assert now / STEP - WINDOW <= t / STEP <= now / STEP + WINDOW;
  }

  /** A token made at t is accepted at 60 seconds or more from t only if its digits are those of another counter. */
  lemma AcceptedFarOnlyByCollision(hmac: Hmac, secret: string, t: int, now: int)
    requires now - t >= 2 * STEP || t - now >= 2 * STEP
    ensures Accepts(hmac, secret, Token(hmac, secret, t / STEP), now) ==>
      exists c :: c != t / STEP && Token(hmac, secret, c) == Token(hmac, secret, t / STEP)
  {
    if Accepts(hmac, secret, Token(hmac, secret, t / STEP), now) {
      var c :| now / STEP - WINDOW <= c <= now / STEP + WINDOW
               && Token(hmac, secret, c) == Token(hmac, secret, t / STEP);
      assert c != t / STEP;
    }
  }

  /** The decoded key, and the counter's bytes, as the numbers the standards say. */
  lemma KeyAndCounterValues(secret: string, counter: int)
    ensures Base256(Key(secret)) == Base32(Symbols(secret)) / Power2(5 * |Symbols(secret)| % 8)
    ensures Base256(BigEndian(counter, 8)) == counter % 0x1_0000_0000_0000_0000
  {
    var n, value := |Symbols(secret)|, Base32(Symbols(secret));
    Base32Bound(Symbols(secret));
    ShiftDivides(value, 5 * n % 8);
    Power2Adds(8 * (5 * n / 8), 5 * n % 8);
    BigEndianValue(ShiftRight(value, 5 * n % 8), 5 * n / 8);
    QuotientBound(value, Power2(8 * (5 * n / 8)), Power2(5 * n % 8));
    BigEndianValue(counter, 8);
    Power2Of64();
  }

  lemma QuotientBound(n: nat, p: nat, q: nat)
    requires q >= 1 && n < p * q
    ensures n / q < p && (n / q) % p == n / q
  {
    var d := n / q;
    assert n == d * q + n % q;
    assert d * q < p * q;
    Below(d, p, q);
    RemainderUnique(p, 0, d);
  }

  lemma Below(d: nat, p: nat, q: nat)
    requires q >= 1 && d * q < p * q
    ensures d < p
  {
    assert (d - p) * q < 0;
  }

  lemma Power2Of64()
    ensures Power2(64) == 0x1_0000_0000_0000_0000
  {
    assert Power2(8) == 256;
    Power2Adds(8, 8);
    assert Power2(16) == 0x1_0000;
    Power2Adds(16, 16);
    assert Power2(32) == 0x1_0000_0000;
    Power2Adds(32, 32);
  }

  lemma {:induction false} Base32Bound(symbols: seq<Symbol>)
    ensures Base32(symbols) < Power2(5 * |symbols|)
  {
    if symbols != [] {
      Base32Bound(symbols[..|symbols| - 1]);
      Power2Adds(5 * (|symbols| - 1), 5);
      assert Power2(5) == 32;
    }
  }
}

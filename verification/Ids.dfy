/** Identifiers: validation, sanitising, and the file names of client keys. */
module Ids {
  import opened Records

  // ---------------------------------------------------------------- validate_id and sanitize_id

  predicate AsciiAlphanumeric(c: char) {
    '0' <= c <= '9' || 'a' <= c <= 'z' || 'A' <= c <= 'Z'
  }

  predicate IdChar(c: char) { AsciiAlphanumeric(c) || c == '-' || c == '_' }

  const MAX_ID := 128

  predicate ValidId(id: string) {
    0 < |id| <= MAX_ID && forall i :: 0 <= i < |id| ==> IdChar(id[i])
  }

  /** Every raw id is turned into a valid one, character by character: letters, digits, `-` and `_` stay, all else
      becomes `_`, and what is beyond the 128th is cut off; nothing at all becomes "id". A valid id is left alone. */
  function SanitizeId(raw: string): (id: string)
    ensures ValidId(id)
    ensures ValidId(raw) ==> id == raw
    ensures raw == "" ==> id == "id"
    ensures raw != "" ==> |id| == if |raw| <= 128 then |raw| else 128
    ensures raw != "" ==> forall i :: 0 <= i < |id| ==>
              var c := raw[i];
              var plain := 'a' <= c <= 'z' || 'A' <= c <= 'Z' || '0' <= c <= '9' || c == '-' || c == '_';
              (plain ==> id[i] == c) && (!plain ==> id[i] == '_')
  {
    var s := seq(|raw|, i requires 0 <= i < |raw| => if IdChar(raw[i]) then raw[i] else '_');
    var s := if s == [] then "id" else s;
    if |s| > MAX_ID then s[..MAX_ID] else s
  }

  // ---------------------------------------------------------------- client_filename

  function HexDigit(n: nat): (c: char)
    requires n < 16
    ensures c != 'h'
  {
    "0123456789abcdef"[n]
  }

  function HexByte(b: Byte): (s: string)
    ensures |s| == 2 && s[0] != 'h' && s[1] != 'h'
  {
    [HexDigit(b / 16), HexDigit(b % 16)]
  }

  /** Two lower-case hexadecimal digits per byte. */
  function Hex(key: seq<Byte>): (s: string)
    ensures |s| == 2 * |key|
    ensures forall i :: 0 <= i < |s| ==> s[i] != 'h'
  {
    if key == [] then "" else HexByte(key[0]) + Hex(key[1..])
  }

  const FNV_OFFSET: nat := 0xcbf2_9ce4_8422_2325
  const FNV_PRIME: nat := 0x0100_0000_01b3
  const TWO64: nat := 0x1_0000_0000_0000_0000

  /** Exclusive or of the low `k` bits. */
  function XorBits(a: nat, b: nat, k: nat): nat {
    if k == 0 then 0 else 2 * XorBits(a / 2, b / 2, k - 1) + (a % 2 + b % 2) % 2
  }

  function PowerOfTwo(k: nat): nat { if k == 0 then 1 else 2 * PowerOfTwo(k - 1) }

  lemma {:induction false} XorBitsBound(a: nat, b: nat, k: nat)
    ensures XorBits(a, b, k) < PowerOfTwo(k)
  {
    if k > 0 { XorBitsBound(a / 2, b / 2, k - 1); }
  }

  lemma ByteBits()
    ensures PowerOfTwo(8) == 256
  {
    assert PowerOfTwo(4) == 16;
    assert PowerOfTwo(8) == 16 * PowerOfTwo(4);
  }

  function Xor(a: Byte, b: Byte): Byte {
    ByteBits();
    XorBitsBound(a, b, 8);
    XorBits(a, b, 8)
  }

  /** Bit `k` of a number, the lowest being bit 0. */
  predicate Bit(n: nat, k: nat) {
    if k == 0 then n % 2 == 1 else Bit(n / 2, k - 1)
  }

  lemma {:induction false} XorBitsMeaning(a: nat, b: nat, k: nat, i: nat)
    requires i < k
    ensures Bit(XorBits(a, b, k), i) <==> Bit(a, i) != Bit(b, i)
    decreases k
  {
    Halved(XorBits(a / 2, b / 2, k - 1), (a % 2 + b % 2) % 2);
    if i > 0 { XorBitsMeaning(a / 2, b / 2, k - 1, i - 1); }
  }

  lemma Halved(q: nat, r: nat)
    requires r < 2
    ensures (2 * q + r) / 2 == q && (2 * q + r) % 2 == r
  {
  }

  /** Exclusive or of two octets: each of the eight bits is set exactly when the two differ there. */
  lemma XorMeaning(a: Byte, b: Byte, k: nat)
    requires k < 8
    ensures Bit(Xor(a, b), k) <==> Bit(a, k) != Bit(b, k)
  {
    XorBitsMeaning(a, b, 8, k);
  }

  /** The eight bits determine the octet. */
  lemma BitsDetermine(a: Byte, b: Byte)
    requires forall k: nat :: k < 8 ==> (Bit(a, k) <==> Bit(b, k))
    ensures a == b
  {
    ByteBits();
    SameBits(a, b, 8);
  }

  lemma {:induction false} SameBits(a: nat, b: nat, n: nat)
    requires a < PowerOfTwo(n) && b < PowerOfTwo(n)
    requires forall k: nat :: k < n ==> (Bit(a, k) <==> Bit(b, k))
    ensures a == b
  {
    if n > 0 {
      assert Bit(a, 0) <==> Bit(b, 0);
      forall k: nat | k < n - 1 ensures Bit(a / 2, k) <==> Bit(b / 2, k) {
        assert Bit(a, k + 1) <==> Bit(b, k + 1);
      }
      SameBits(a / 2, b / 2, n - 1);
    }
  }

  function XorLowByte(h: nat, b: Byte): (r: nat)
    requires h < TWO64
    ensures r < TWO64
  {
    h - h % 256 + Xor(h % 256, b)
  }

  function FnvStep(h: nat, b: Byte): (r: nat)
    requires h < TWO64
    ensures r < TWO64
  {
    XorLowByte(h, b) * FNV_PRIME % TWO64
  }

  /** 64-bit FNV-1a with wrap-around multiplication. */
  function Fnv1a(key: seq<Byte>, h: nat): (r: nat)
    requires h < TWO64
    ensures r < TWO64
    decreases |key|
  {
    if key == [] then h else Fnv1a(key[1..], FnvStep(h, key[0]))
  }

  function Hex64(n: nat, digits: nat): (s: string)
    ensures |s| == digits
  {
    if digits == 0 then "" else Hex64(n / 16, digits - 1) + [HexDigit(n % 16)]
  }

  function ClientFilename(key: seq<Byte>): string {
    if |Hex(key)| <= 200 then Hex(key) else "h" + Hex64(Fnv1a(key, FNV_OFFSET), 16)
  }

  /** The two loops of the source: hexadecimal digits first, and a rolling hash only when they are too long. */
  method BuildClientFilename(key: seq<Byte>) returns (name: string)
    ensures name == ClientFilename(key)
  {
    name := "";
    for i := 0 to |key|
      invariant name + Hex(key[i..]) == Hex(key)
    {
      assert key[i..][1..] == key[i + 1..];
      name := name + HexByte(key[i]);
    }
    if |name| <= 200 { return; }
    var h: nat := FNV_OFFSET;
    for i := 0 to |key|
      invariant h < TWO64 && Fnv1a(key[i..], h) == Fnv1a(key, FNV_OFFSET)
    {
      assert key[i..][1..] == key[i + 1..];
      h := FnvStep(h, key[i]);
    }
    name := "h" + Hex64(h, 16);
  }

  lemma HexDigitInjective(a: nat, b: nat)
    requires a < 16 && b < 16 && HexDigit(a) == HexDigit(b)
    ensures a == b
  {
    var d := "0123456789abcdef";
    assert forall i, j :: 0 <= i < j < 16 ==> d[i] != d[j];
  }

  lemma {:induction false} HexInjective(a: seq<Byte>, b: seq<Byte>)
    requires Hex(a) == Hex(b)
    ensures a == b
  {
    if a == [] || b == [] {
    } else {
      assert Hex(a)[0] == Hex(b)[0] && Hex(a)[1] == Hex(b)[1];
      HexDigitInjective(a[0] / 16, b[0] / 16);
      HexDigitInjective(a[0] % 16, b[0] % 16);
      assert Hex(a)[2..] == Hex(a[1..]) && Hex(b)[2..] == Hex(b[1..]);
      HexInjective(a[1..], b[1..]);
      assert a == [a[0]] + a[1..] && b == [b[0]] + b[1..];
    }
  }

  /** Keys of at most 100 bytes get distinct files, none of which a longer key can ever reach. */
  lemma ClientFilenameSeparates(a: seq<Byte>, b: seq<Byte>)
    requires |a| <= 100 && a != b
    ensures ClientFilename(a) != ClientFilename(b)
  {
    if |b| <= 100 {
      if Hex(a) == Hex(b) { HexInjective(a, b); }
    } else {
      assert ClientFilename(b)[0] == 'h';
      if |ClientFilename(a)| > 0 { assert ClientFilename(a)[0] != 'h'; }
    }
  }

  // ---------------------------------------------------------------- what the names look like

  /** The value of a lower-case hexadecimal digit. */
  function DigitValue(c: char): int {
    if '0' <= c <= '9' then c as int - '0' as int
    else if 'a' <= c <= 'f' then c as int - 'a' as int + 10
    else -1
  }

  lemma HexDigitMeaning(n: nat)
    requires n < 16
    ensures DigitValue(HexDigit(n)) == n
  {
    var d := "0123456789abcdef";
    assert d[0] == '0' && d[1] == '1' && d[2] == '2' && d[3] == '3' && d[4] == '4' && d[5] == '5' && d[6] == '6' &&
           d[7] == '7' && d[8] == '8' && d[9] == '9';
    assert d[10] == 'a' && d[11] == 'b' && d[12] == 'c' && d[13] == 'd' && d[14] == 'e' && d[15] == 'f';
  }

  /** Two digits per byte, high half first. */
  lemma {:induction false} HexMeaning(key: seq<Byte>, i: nat)
    requires i < |key|
    ensures 16 * DigitValue(Hex(key)[2 * i]) + DigitValue(Hex(key)[2 * i + 1]) == key[i]
  {
    HexDigitMeaning(key[0] / 16);
    HexDigitMeaning(key[0] % 16);
    if i > 0 {
      HexMeaning(key[1..], i - 1);
      assert Hex(key)[2..] == Hex(key[1..]);
      assert Hex(key)[2 * i] == Hex(key)[2..][2 * (i - 1)] && Hex(key)[2 * i + 1] == Hex(key)[2..][2 * (i - 1) + 1];
    }
  }

  function Power16(k: nat): nat { if k == 0 then 1 else 16 * Power16(k - 1) }

  function NumberOf(s: string): int {
    if s == "" then 0 else 16 * NumberOf(s[..|s| - 1]) + DigitValue(s[|s| - 1])
  }

  /** Read as a number, the digits give back what was written. */
  lemma {:induction false} Hex64Meaning(n: nat, digits: nat)
    requires n < Power16(digits)
    ensures NumberOf(Hex64(n, digits)) == n
  {
    if digits > 0 {
      Hex64Meaning(n / 16, digits - 1);
      HexDigitMeaning(n % 16);
      var s := Hex64(n, digits);
      assert s[..|s| - 1] == Hex64(n / 16, digits - 1);
    }
  }

  /** Keys of at most 100 bytes are written out; longer ones become `h` and sixteen digits. */
  lemma ClientFilenameMeaning(key: seq<Byte>)
    ensures |key| <= 100 ==> ClientFilename(key) == Hex(key)
    ensures |key| > 100 ==> |ClientFilename(key)| == 17 && ClientFilename(key)[0] == 'h'
    ensures |key| > 100 ==> NumberOf(ClientFilename(key)[1..]) == Fnv1a(key, FNV_OFFSET)
  {
    if |key| > 100 {
      Sixteen();
      Hex64Meaning(Fnv1a(key, FNV_OFFSET), 16);
      assert ClientFilename(key)[1..] == Hex64(Fnv1a(key, FNV_OFFSET), 16);
    }
  }

  lemma Sixteen()
    ensures Power16(16) == TWO64
  {
    assert Power16(4) == 0x1_0000;
    assert Power16(8) == 0x1_0000 * Power16(4);
    assert Power16(16) == 0x1_0000_0000 * Power16(8);
  }

  /** The hash takes one byte at a time, starting from the offset basis of 64-bit FNV-1a. */
  lemma FnvMeaning(key: seq<Byte>, h: nat)
    requires h < TWO64
    ensures FNV_OFFSET == 14695981039346656037 && FNV_PRIME == 1099511628211
    ensures Fnv1a([], h) == h
    ensures key != [] ==> Fnv1a(key, h) == Fnv1a(key[1..], FnvStep(h, key[0]))
  {
  }

  /** First the exclusive or into the lowest byte, then the product with the prime, modulo 2 to the 64. */
  lemma FnvStepMeaning(h: nat, b: Byte)
    requires h < TWO64
    ensures exists mixed: nat :: Mixes(h, b, mixed) && FnvStep(h, b) == mixed * FNV_PRIME % TWO64
  {
    Rounded(h, Xor(h % 256, b));
    assert Mixes(h, b, XorLowByte(h, b));
  }

  /** The lowest byte is combined with `b`, the others stay. */
  predicate Mixes(h: nat, b: Byte, mixed: nat) {
    mixed / 256 == h / 256 && mixed % 256 == Xor(h % 256, b)
  }

  lemma Rounded(h: nat, low: nat)
    requires low < 256
    ensures (h - h % 256 + low) / 256 == h / 256 && (h - h % 256 + low) % 256 == low
  {
  }
}

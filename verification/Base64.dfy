/** Base64 with padding, as section 4 of RFC 4648 defines it. */
module Base64 {
  import opened Models

  type sextet = i: int | 0 <= i < 64

  const PAD := '='

  function Symbol(i: sextet): char {
    if i < 26 then ('A' as int + i) as char
    else if i < 52 then ('a' as int + i - 26) as char
    else if i < 62 then ('0' as int + i - 52) as char
    else if i == 62 then '+'
    else '/'
  }

  predicate InAlphabet(c: char) {
    'A' <= c <= 'Z' || 'a' <= c <= 'z' || '0' <= c <= '9' || c == '+' || c == '/'
  }

  function Value(c: char): sextet
    requires InAlphabet(c)
  {
    if 'A' <= c <= 'Z' then c as int - 'A' as int
    else if 'a' <= c <= 'z' then c as int - 'a' as int + 26
    else if '0' <= c <= '9' then c as int - '0' as int + 52
    else if c == '+' then 62
    else 63
  }

  lemma SymbolsAreRead(i: sextet)
    ensures InAlphabet(Symbol(i)) && Value(Symbol(i)) == i
  {
  }

  function EncodeQuantum(a: byte, b: byte, c: byte): string {
    [Symbol(a / 4), Symbol(a % 4 * 16 + b / 16), Symbol(b % 16 * 4 + c / 64), Symbol(c % 64)]
  }

  function Encode(data: Bytes): string {
    if |data| == 0 then ""
    else if |data| == 1 then EncodeQuantum(data[0], 0, 0)[..2] + [PAD, PAD]
    else if |data| == 2 then EncodeQuantum(data[0], data[1], 0)[..3] + [PAD]
    else EncodeQuantum(data[0], data[1], data[2]) + Encode(data[3..])
  }

  predicate FullQuantum(q: string) {
    |q| == 4 && forall k | 0 <= k < 4 :: InAlphabet(q[k])
  }

  /** The last quantum may end in one or two pad characters. */
  predicate LastQuantum(q: string) {
    && |q| == 4 && InAlphabet(q[0]) && InAlphabet(q[1])
    && (InAlphabet(q[2]) || q[2] == PAD)
    && (if q[2] == PAD then q[3] == PAD else InAlphabet(q[3]) || q[3] == PAD)
  }

  predicate WellFormed(text: string) {
    || text == ""
    || LastQuantum(text)
    || (4 < |text| && FullQuantum(text[..4]) && WellFormed(text[4..]))
  }

  function DecodeQuantum(q: string): Bytes
    requires LastQuantum(q)
  {
    var x, y := Value(q[0]), Value(q[1]);
    if q[2] == PAD then [x * 4 + y / 16]
    else
      var z := Value(q[2]);
      if q[3] == PAD then [x * 4 + y / 16, y % 16 * 16 + z / 4]
      else [x * 4 + y / 16, y % 16 * 16 + z / 4, z % 4 * 64 + Value(q[3])]
  }

  function Decode(text: string): Bytes
    requires WellFormed(text)
  {
    if text == "" then []
    else if LastQuantum(text) then DecodeQuantum(text)
    else DecodeQuantum(text[..4]) + Decode(text[4..])
  }

  /** The six-bit groups of three bytes put back together. */
  lemma GroupsRejoin(a: byte, b: byte, c: byte)
    ensures a / 4 * 4 + (a % 4 * 16 + b / 16) / 16 == a
    ensures (a % 4 * 16 + b / 16) % 16 * 16 + (b % 16 * 4 + c / 64) / 4 == b
    ensures (b % 16 * 4 + c / 64) % 4 * 64 + c % 64 == c
  {
  }

  lemma {:induction false} QuantumRoundTrip(a: byte, b: byte, c: byte)
    ensures FullQuantum(EncodeQuantum(a, b, c))
    ensures DecodeQuantum(EncodeQuantum(a, b, c)) == [a, b, c]
  {
    QuantumIsRead(a, b, c);
    GroupsRejoin(a, b, c);
  }

  /** Each symbol of a quantum reads back as its six bits. */
  lemma {:induction false} QuantumIsRead(a: byte, b: byte, c: byte)
    ensures var q := EncodeQuantum(a, b, c);
            && FullQuantum(q) && q[2] != PAD && q[3] != PAD
            && Value(q[0]) == a / 4 && Value(q[1]) == a % 4 * 16 + b / 16
            && Value(q[2]) == b % 16 * 4 + c / 64 && Value(q[3]) == c % 64
  {
    SymbolsAreRead(a / 4);
    SymbolsAreRead(a % 4 * 16 + b / 16);
    SymbolsAreRead(b % 16 * 4 + c / 64);
    SymbolsAreRead(c % 64);
  }

  lemma {:induction false} DecodeCons(head: string, rest: string)
    requires FullQuantum(head) && WellFormed(rest)
    ensures WellFormed(head + rest)
    ensures Decode(head + rest) == DecodeQuantum(head) + Decode(rest)
  {
    var text := head + rest;
    assert text[..4] == head && text[4..] == rest;
    if rest == "" {
      assert text == head;
    }
  }

  lemma {:induction false} PaddedRoundTrip(data: Bytes)
    requires 1 <= |data| <= 2
    ensures WellFormed(Encode(data)) && Decode(Encode(data)) == data
  {
    var b := if |data| == 2 then data[1] else 0;
    QuantumRoundTrip(data[0], b, 0);
    var q, text := EncodeQuantum(data[0], b, 0), Encode(data);
    assert text[0] == q[0] && text[1] == q[1];
    assert |data| == 2 ==> text[2] == q[2];
    SymbolsAreRead(data[0] / 4);
    SymbolsAreRead(data[0] % 4 * 16 + b / 16);
    SymbolsAreRead(b % 16 * 4);
    assert LastQuantum(text);
  }

  /** Decoding what was encoded gives back every byte, whatever the padding. */
  lemma {:induction false} RoundTrip(data: Bytes)
    ensures WellFormed(Encode(data)) && Decode(Encode(data)) == data
  {
    if 1 <= |data| <= 2 {
      PaddedRoundTrip(data);
    } else if 3 <= |data| {
      QuantumRoundTrip(data[0], data[1], data[2]);
      RoundTrip(data[3..]);
      DecodeCons(EncodeQuantum(data[0], data[1], data[2]), Encode(data[3..]));
      assert data == [data[0], data[1], data[2]] + data[3..];
    }
  }

  lemma {:induction false} FirstQuantum(text: string)
    requires WellFormed(text) && 4 < |text|
    ensures FullQuantum(text[..4]) && WellFormed(text[4..])
  {
  }

  lemma JoinsBehind(head: string, rest: string, right: string)
    requires FullQuantum(head) && WellFormed(rest) && WellFormed(right) && WellFormed(rest + right)
    requires Decode(rest + right) == Decode(rest) + Decode(right)
    ensures WellFormed(head + rest) && WellFormed(head + (rest + right))
    ensures Decode(head + (rest + right)) == Decode(head + rest) + Decode(right)
  {
    DecodeCons(head, rest);
    DecodeCons(head, rest + right);
    BytesJoin(DecodeQuantum(head), Decode(rest), Decode(right));
  }

  lemma BytesJoin(x: Bytes, y: Bytes, z: Bytes)
    ensures x + (y + z) == x + y + z
  {
  }

  lemma {:induction false} DecodeJoins(left: string, right: string)
    requires WellFormed(left + right) && |left| % 4 == 0
    ensures WellFormed(left) && WellFormed(right)
    ensures Decode(left + right) == Decode(left) + Decode(right)
  {
    if left == "" {
      assert left + right == right;
    } else if right == "" {
      assert left + right == left;
    } else {
      var head, rest := left[..4], left[4..];
      assert (left + right)[..4] == head && (left + right)[4..] == rest + right;
      FirstQuantum(left + right);
      DecodeJoins(rest, right);
      JoinsBehind(head, rest, right);
      assert left == head + rest && left + right == head + (rest + right);
    }
  }

  /** Cutting at any quantum boundary leaves two well-formed texts whose decodings are the
      two halves of the whole decoding. */
  lemma DecodeSplits(text: string, cut: nat)
    requires WellFormed(text) && cut % 4 == 0 && cut <= |text|
    ensures WellFormed(text[..cut]) && WellFormed(text[cut..])
    ensures Decode(text) == Decode(text[..cut]) + Decode(text[cut..])
  {
    assert text == text[..cut] + text[cut..];
    DecodeJoins(text[..cut], text[cut..]);
  }

  lemma {:induction false} DecodedLength(text: string)
    requires WellFormed(text)
    ensures |text| % 4 == 0 && |Decode(text)| <= |text| / 4 * 3
    ensures text != "" ==> Decode(text) != []
  {
    if 4 < |text| {
      DecodedLength(text[4..]);
    }
  }

  // ---- The alphabet and the bits ----

  /** The capitals, the small letters and the digits in a row, then two signs. */
  lemma SymbolsAreInOrder(i: sextet)
    ensures Symbol(0) == 'A' && Symbol(26) == 'a' && Symbol(52) == '0' && Symbol(62) == '+' && Symbol(63) == '/'
    ensures i !in [0, 26, 52, 62, 63] ==> Symbol(i) as int == Symbol(i - 1) as int + 1
  {
  }

  /** Three bytes as one number of 24 bits; missing bytes are zero. */
  function Bits(data: Bytes): int {
    var a: int, b: int, c: int := if |data| > 0 then data[0] else 0, if |data| > 1 then data[1] else 0,
        if |data| > 2 then data[2] else 0;
    a * 65536 + b * 256 + c
  }

  /** These four places in the alphabet are the digits of the bytes' number to base 64. */
  predicate AreDigits(i: int, j: int, k: int, l: int, data: Bytes) {
    0 <= i < 64 && 0 <= j < 64 && 0 <= k < 64 && 0 <= l < 64 && i * 262144 + j * 4096 + k * 64 + l == Bits(data)
  }

  /** Four characters spell up to three bytes; every missing byte costs a character. */
  predicate QuantumSpells(q: string, i: int, j: int, k: int, l: int, data: Bytes) {
    && AreDigits(i, j, k, l, data) && |q| == 4 && q[0] == Symbol(i) && q[1] == Symbol(j)
    && q[2] == (if |data| > 1 then Symbol(k) else '=') && q[3] == (if |data| > 2 then Symbol(l) else '=')
  }

  ghost predicate Spells(text: string, data: Bytes)
    decreases |data|
  {
    if data == [] then text == ""
    else
      && 4 <= |text| && (exists i, j, k, l :: QuantumSpells(text[..4], i, j, k, l, data))
      && Spells(text[4..], if |data| > 3 then data[3..] else [])
  }

  lemma DigitsOf(a: byte, b: byte, c: byte)
    ensures (a / 4) * 262144 + (a % 4 * 16 + b / 16) * 4096 + (b % 16 * 4 + c / 64) * 64 + c % 64
         == a * 65536 + b * 256 + c
  {
  }

  lemma FirstQuantumSpells(data: Bytes)
    requires data != []
    ensures |Encode(data)| >= 4
    ensures exists i, j, k, l :: QuantumSpells(Encode(data)[..4], i, j, k, l, data)
  {
    var a, b, c := data[0], if |data| > 1 then data[1] else 0, if |data| > 2 then data[2] else 0;
    DigitsOf(a, b, c);
    var i, j, k, l := a / 4, a % 4 * 16 + b / 16, b % 16 * 4 + c / 64, c % 64;
    assert AreDigits(i, j, k, l, data);
    assert QuantumSpells(Encode(data)[..4], i, j, k, l, data);
  }

  /** The encoding spells its bytes, three at a time. */
  lemma {:induction false} EncodeSpells(data: Bytes)
    ensures Spells(Encode(data), data)
  {
    if data != [] {
      FirstQuantumSpells(data);
      if |data| > 3 {
        EncodeSpells(data[3..]);
        assert Encode(data)[4..] == Encode(data[3..]);
      } else {
        assert |Encode(data)| == 4 && Encode(data)[4..] == "";
      }
    }
  }
}

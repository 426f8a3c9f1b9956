/** A GID as text: 32 hexadecimal digits for 128 bits, printed and parsed as four
    32-bit words that a little-endian host swaps byte by byte. */
module Gid {

  datatype Endian = Little | Big

  type Byte = x: int | 0 <= x < 256

  // ----------------------------------------------------------------- digits

  /** The digit that `%x` prints. */
  function Digit(n: nat): char
    requires n < 16
  {
    if n < 10 then '0' + n as char else 'a' + (n - 10) as char
  }

  predicate IsLowerHex(c: char) {
    '0' <= c <= '9' || 'a' <= c <= 'f'
  }

  predicate IsHex(c: char) {
    IsLowerHex(c) || 'A' <= c <= 'F'
  }

  /** The value that `%x` reads. */
  function Value(c: char): (n: nat)
    requires IsHex(c)
    ensures n < 16
  {
    if c <= '9' then c as int - '0' as int
    else if c <= 'F' then c as int - 'A' as int + 10
    else c as int - 'a' as int + 10
  }

  lemma DigitValue(n: nat)
    requires n < 16
    ensures IsLowerHex(Digit(n)) && Value(Digit(n)) == n
  {
  }

  lemma ValueDigit(c: char)
    requires IsLowerHex(c)
    ensures Digit(Value(c)) == c
  {
  }

  function Pow16(n: nat): nat {
    if n == 0 then 1 else 16 * Pow16(n - 1)
  }

  /** `n` digits, with leading zeros. */
  function Print(v: nat, n: nat): (s: string)
    ensures |s| == n
  {
    if n == 0 then "" else Print(v / 16, n - 1) + [Digit(v % 16)]
  }

  predicate AllHex(s: string) {
    forall i :: 0 <= i < |s| ==> IsHex(s[i])
  }

  predicate AllLowerHex(s: string) {
    forall i :: 0 <= i < |s| ==> IsLowerHex(s[i])
  }

  function Parse(s: string): nat
    requires AllHex(s)
  {
    if s == "" then 0 else Parse(s[..|s| - 1]) * 16 + Value(s[|s| - 1])
  }

  lemma {:induction false} PrintIsLowerHex(v: nat, n: nat)
    ensures AllLowerHex(Print(v, n))
  {
    if n > 0 {
      PrintIsLowerHex(v / 16, n - 1);
      DigitValue(v % 16);
    }
  }

  lemma {:induction false} ParsePrint(v: nat, n: nat)
    requires v < Pow16(n)
    ensures AllHex(Print(v, n)) && Parse(Print(v, n)) == v
  {
    PrintIsLowerHex(v, n);
    if n > 0 {
      ParsePrint(v / 16, n - 1);
      assert Print(v, n)[..n - 1] == Print(v / 16, n - 1);
      DigitValue(v % 16);
    }
  }

  lemma PrintOne(v: nat, n: nat, d: nat)
    requires d < 16
    ensures Print(v * 16 + d, n + 1) == Print(v, n) + [Digit(d)]
  {
    assert (v * 16 + d) / 16 == v && (v * 16 + d) % 16 == d;
  }

  lemma {:induction false} PrintParse(s: string)
    requires AllLowerHex(s)
    ensures Parse(s) < Pow16(|s|) && Print(Parse(s), |s|) == s
  {
    if s != "" {
      var front, c := s[..|s| - 1], s[|s| - 1];
      PrintParse(front);
      ValueDigit(c);
      PrintOne(Parse(front), |front|, Value(c));
      assert s == front + [c];
    }
  }

  // ------------------------------------------------------------ words and bytes

  /** The word whose bytes, most significant first, are `b`. */
  function Join(b: seq<Byte>): (v: nat)
    requires |b| == 4
  {
    (((b[0] as int) * 256 + b[1]) * 256 + b[2]) * 256 + b[3]
  }

  function Split(v: nat): (b: seq<Byte>)
    ensures |b| == 4
  {
    [v / 256 / 256 / 256 % 256, v / 256 / 256 % 256, v / 256 % 256, v % 256]
  }

  function Reverse(b: seq<Byte>): (r: seq<Byte>)
    requires |b| == 4
    ensures |r| == 4
  {
    [b[3], b[2], b[1], b[0]]
  }

  lemma ByteOut(a: nat, b: nat)
    requires b < 256
    ensures (a * 256 + b) / 256 == a && (a * 256 + b) % 256 == b
  {
  }

  lemma SplitJoin(b: seq<Byte>)
    requires |b| == 4
    ensures Split(Join(b)) == b && Join(b) < 256 * 256 * 256 * 256
  {
    ByteOut(((b[0] as int) * 256 + b[1]) * 256 + b[2], b[3]);
    ByteOut((b[0] as int) * 256 + b[1], b[2]);
    ByteOut(b[0], b[1]);
  }

  lemma JoinSplit(v: nat)
    requires v < 256 * 256 * 256 * 256
    ensures Join(Split(v)) == v
  {
  }

  /** A word of memory, as a host of either byte order reads it. */
  function Load(b: seq<Byte>, e: Endian): nat
    requires |b| == 4
  {
    if e == Big then Join(b) else Join(Reverse(b))
  }

  function Store(v: nat, e: Endian): (b: seq<Byte>)
    ensures |b| == 4
  {
    if e == Big then Split(v) else Reverse(Split(v))
  }

  /** `htobe32` and `be32toh`. */
  function ToBigEndian(v: nat, e: Endian): nat {
    if e == Big then v else Join(Reverse(Split(v)))
  }

  /** A loaded word, swapped if need be, reads its bytes most significant first. */
  lemma LoadedWord(b: seq<Byte>, e: Endian)
    requires |b| == 4
    ensures ToBigEndian(Load(b, e), e) == Join(b)
  {
    if e == Little {
      SplitJoin(Reverse(b));
      assert Reverse(Reverse(b)) == b;
    }
  }

  lemma StoredWord(v: nat, e: Endian)
    ensures Store(ToBigEndian(v, e), e) == Split(v)
  {
    if e == Little {
      SplitJoin(Reverse(Split(v)));
      assert Reverse(Reverse(Split(v))) == Split(v);
    }
  }

  // ------------------------------------------------------------------------ text

  /** The text of `n` words of memory. */
  function Text(bytes: seq<Byte>, n: nat): (s: string)
    requires |bytes| == 4 * n
    ensures |s| == 8 * n
  {
    if n == 0 then "" else Text(bytes[..4 * (n - 1)], n - 1) + Print(Join(bytes[4 * (n - 1)..]), 8)
  }

  function Bytes(s: string, n: nat): (b: seq<Byte>)
    requires |s| == 8 * n && AllHex(s)
    ensures |b| == 4 * n
  {
    if n == 0 then [] else Bytes(s[..8 * (n - 1)], n - 1) + Split(Parse(s[8 * (n - 1)..]))
  }

  lemma TwoDigits(n: nat)
    requires n >= 2
    ensures Pow16(n) == 256 * Pow16(n - 2)
  {
  }

  lemma EightDigits(n: nat)
    requires n == 8
    ensures Pow16(n) == 256 * 256 * 256 * 256
  {
    TwoDigits(n);
    TwoDigits(n - 2);
    TwoDigits(n - 4);
    TwoDigits(n - 6);
  }

  lemma AppendText(s: string, word: string, n: nat)
    requires n > 0 && |s| == 8 * (n - 1) && |word| == 8 && AllHex(s) && AllHex(word)
    ensures AllHex(s + word) && Bytes(s + word, n) == Bytes(s, n - 1) + Split(Parse(word))
  {
    assert (s + word)[..8 * (n - 1)] == s && (s + word)[8 * (n - 1)..] == word;
  }

  lemma AppendBytes(b: seq<Byte>, word: seq<Byte>, n: nat)
    requires n > 0 && |b| == 4 * (n - 1) && |word| == 4
    ensures Text(b + word, n) == Text(b, n - 1) + Print(Join(word), 8)
  {
    assert (b + word)[..4 * (n - 1)] == b && (b + word)[4 * (n - 1)..] == word;
  }

  lemma OneMoreWord(front: seq<Byte>, word: seq<Byte>, n: nat)
    requires n > 0 && |front| == 4 * (n - 1) && |word| == 4
    requires AllHex(Text(front, n - 1)) && Bytes(Text(front, n - 1), n - 1) == front
    ensures AllHex(Text(front + word, n)) && Bytes(Text(front + word, n), n) == front + word
  {
    SplitJoin(word);
    EightDigits(8);
    ParsePrint(Join(word), 8);
    AppendBytes(front, word, n);
    AppendText(Text(front, n - 1), Print(Join(word), 8), n);
  }

  /** Parsing undoes printing, for every memory. */
  lemma {:induction false} BytesOfText(bytes: seq<Byte>, n: nat)
    requires |bytes| == 4 * n
    ensures AllHex(Text(bytes, n)) && Bytes(Text(bytes, n), n) == bytes
  {
    if n > 0 {
      var front, word := bytes[..4 * (n - 1)], bytes[4 * (n - 1)..];
      BytesOfText(front, n - 1);
      OneMoreWord(front, word, n);
      assert bytes == front + word;
    }
  }

  /** Printing undoes parsing, for every text of lower-case digits. */
  lemma {:induction false} TextOfBytes(s: string, n: nat)
    requires |s| == 8 * n && AllLowerHex(s)
    ensures Text(Bytes(s, n), n) == s
  {
    if n > 0 {
      var front, word := s[..8 * (n - 1)], s[8 * (n - 1)..];
      TextOfBytes(front, n - 1);
      PrintParse(word);
      EightDigits(8);
      JoinSplit(Parse(word));
      AppendBytes(Bytes(front, n - 1), Split(Parse(word)), n);
      assert s == front + word;
    }
  }

  // ------------------------------------------------------- which digits are which

  const LOWER: string := "0123456789abcdef"
  const UPPER: string := "0123456789ABCDEF"

  /** `c` is the hexadecimal digit of value `v`, in lower case. */
  predicate Shows(c: char, v: nat) { v < 16 && c == LOWER[v] }

  /** Or in either case. */
  predicate Reads(c: char, v: nat) { v < 16 && (c == LOWER[v] || c == UPPER[v]) }

  lemma DigitShows(n: nat)
    requires n < 16
    ensures Shows(Digit(n), n)
  {
  }

  lemma ValueReads(c: char)
    requires IsHex(c)
    ensures Reads(c, Value(c))
  {
  }

  lemma PrintByte(v: nat, b: Byte, n: nat)
    ensures Print(v * 256 + b, n + 2) == Print(v, n) + [Digit(b / 16), Digit(b % 16)]
  {
    PrintOne(v * 16 + b / 16, n + 1, b % 16);
    PrintOne(v, n, b / 16);
  }

  function Digits(b: Byte): string { [Digit(b / 16), Digit(b % 16)] }

  lemma PrintBytes(v: nat, b: Byte, n: nat, s: string)
    requires Print(v, n) == s
    ensures Print(v * 256 + b, n + 2) == s + Digits(b)
  {
    PrintByte(v, b, n);
  }

  lemma PrintWord(b: seq<Byte>)
    requires |b| == 4
    ensures Print(Join(b), 8) == Digits(b[0]) + Digits(b[1]) + Digits(b[2]) + Digits(b[3])
  {
    var one, two := b[0] as int, (b[0] as int) * 256 + b[1];
    PrintBytes(0, b[0], 0, "");
    assert "" + Digits(b[0]) == Digits(b[0]);
    PrintBytes(one, b[1], 2, Digits(b[0]));
    PrintBytes(two, b[2], 4, Digits(b[0]) + Digits(b[1]));
    PrintBytes(two * 256 + b[2], b[3], 6, Digits(b[0]) + Digits(b[1]) + Digits(b[2]));
  }

  lemma WordDigits(b: seq<Byte>, i: nat)
    requires |b| == 4 && i < 4
    ensures Shows(Print(Join(b), 8)[2 * i], b[i] / 16) && Shows(Print(Join(b), 8)[2 * i + 1], b[i] % 16)
  {
    PrintWord(b);
    DigitShows(b[i] / 16);
    DigitShows(b[i] % 16);
  }

  /** The bytes come in their order in memory, each as its high and its low digit. */
  lemma {:induction false} TextDigits(bytes: seq<Byte>, n: nat, i: nat)
    requires |bytes| == 4 * n && i < 4 * n
    ensures Shows(Text(bytes, n)[2 * i], bytes[i] / 16) && Shows(Text(bytes, n)[2 * i + 1], bytes[i] % 16)
  {
    if i < 4 * (n - 1) {
      TextDigits(bytes[..4 * (n - 1)], n - 1, i);
    } else {
      WordDigits(bytes[4 * (n - 1)..], i - 4 * (n - 1));
    }
  }

  lemma ParseByte(s: string, t: string, a: char, c: char)
    requires AllHex(t) && IsHex(a) && IsHex(c) && s == t + [a, c]
    ensures AllHex(s) && Parse(s) == Parse(t) * 256 + 16 * Value(a) + Value(c)
  {
    assert s[..|s| - 1] == t + [a] && (t + [a])[..|t|] == t;
  }

  function ByteAt(s: string, i: nat): Byte
    requires AllHex(s) && 2 * i + 1 < |s|
  {
    16 * Value(s[2 * i]) + Value(s[2 * i + 1])
  }

  lemma ParseWord(s: string)
    requires |s| == 8 && AllHex(s)
    ensures Parse(s) == Join([ByteAt(s, 0), ByteAt(s, 1), ByteAt(s, 2), ByteAt(s, 3)])
  {
    ParseByte(s[..2], [], s[0], s[1]);
    ParseByte(s[..4], s[..2], s[2], s[3]);
    ParseByte(s[..6], s[..4], s[4], s[5]);
    ParseByte(s, s[..6], s[6], s[7]);
  }

  lemma SplitWord(s: string, i: nat)
    requires |s| == 8 && AllHex(s) && i < 4
    ensures Split(Parse(s))[i] == ByteAt(s, i)
  {
    ParseWord(s);
    SplitJoin([ByteAt(s, 0), ByteAt(s, 1), ByteAt(s, 2), ByteAt(s, 3)]);
  }

  lemma HighLow(a: nat, b: nat)
    requires b < 16
    ensures (16 * a + b) / 16 == a && (16 * a + b) % 16 == b
  {
  }

  lemma ByteReads(s: string, i: nat)
    requires AllHex(s) && 2 * i + 1 < |s|
    ensures Reads(s[2 * i], ByteAt(s, i) / 16) && Reads(s[2 * i + 1], ByteAt(s, i) % 16)
  {
    HighLow(Value(s[2 * i]), Value(s[2 * i + 1]));
    ValueReads(s[2 * i]);
    ValueReads(s[2 * i + 1]);
  }

  lemma WordBytes(s: string, i: nat)
    requires |s| == 8 && AllHex(s) && i < 4
    ensures Reads(s[2 * i], Split(Parse(s))[i] / 16) && Reads(s[2 * i + 1], Split(Parse(s))[i] % 16)
  {
    SplitWord(s, i);
    ByteReads(s, i);
  }

  /** Each byte is read from two digits, the high one first. */
  lemma {:induction false} BytesDigits(s: string, n: nat, i: nat)
    requires |s| == 8 * n && AllHex(s) && i < 4 * n
    ensures Reads(s[2 * i], Bytes(s, n)[i] / 16) && Reads(s[2 * i + 1], Bytes(s, n)[i] % 16)
  {
    if i < 4 * (n - 1) {
      BytesDigits(s[..8 * (n - 1)], n - 1, i);
    } else {
      WordBytes(s[8 * (n - 1)..], i - 4 * (n - 1));
    }
  }

  /** The same text on hosts of either byte order. */
  method GidToWireGid(gid: seq<Byte>, e: Endian) returns (wgid: string)
    requires |gid| == 16
    ensures wgid == Text(gid, 4)
  {
    wgid := "";
    for i := 0 to 4
      invariant wgid == Text(gid[..4 * i], i)
    {
      var word := gid[4 * i..4 * (i + 1)];
      LoadedWord(word, e);
      assert gid[..4 * (i + 1)][..4 * i] == gid[..4 * i];
      assert gid[..4 * (i + 1)][4 * i..] == word;
      wgid := wgid + Print(ToBigEndian(Load(word, e), e), 8);
    }
    assert gid[..16] == gid;
  }

  method WireGidToGid(wgid: string, e: Endian) returns (gid: seq<Byte>)
    requires |wgid| == 32 && AllHex(wgid)
    ensures gid == Bytes(wgid, 4)
  {
    gid := [];
    for i := 0 to 4
      invariant gid == Bytes(wgid[..8 * i], i)
    {
      var word := wgid[8 * i..8 * (i + 1)];
      StoredWord(Parse(word), e);
      assert wgid[..8 * (i + 1)][..8 * i] == wgid[..8 * i];
      assert wgid[..8 * (i + 1)][8 * i..] == word;
      gid := gid + Store(ToBigEndian(Parse(word), e), e);
    }
    assert wgid[..32] == wgid;
  }

  /** There and back, between hosts of any byte orders. */
  method RoundTrip(gid: seq<Byte>, from: Endian, to: Endian) returns (back: seq<Byte>)
    requires |gid| == 16
    ensures back == gid
  {
    var wgid := GidToWireGid(gid, from);
    BytesOfText(gid, 4);
    back := WireGidToGid(wgid, to);
  }
}

/**
 The COMPARE_n macros the keyword generator emits: characters compared as
 16-, 32- or 64-bit words loaded from the bytes of the source buffer.
 */
module KeywordCompare {
  import opened KeywordTrie

  /** The CPU() cases the macros distinguish. */
  datatype Cpu = NeedsAlignedAccess | BigEndian | LittleEndian | X86_64

  /** LChar is one byte, UChar is two. */
  datatype Unit = LChar | UChar {
    function Limit(): nat {
      if LChar? then 0x100 else 0x1_0000
    }
  }

  predicate Fits(u: Unit, s: Word) {
    forall i :: 0 <= i < |s| ==> s[i] < u.Limit()
  }

  // ----- Memory and loads

  /** The bytes of one character in memory order. */
  function Bytes(cpu: Cpu, u: Unit, c: nat): (b: seq<nat>)
  {
    if u.LChar? then [c]
    else if cpu.BigEndian? then [c / 0x100, c % 0x100]
    else [c % 0x100, c / 0x100]
  }

  function Memory(cpu: Cpu, u: Unit, s: Word): (b: seq<nat>)
  {
    if s == [] then [] else Bytes(cpu, u, s[0]) + Memory(cpu, u, s[1..])
  }

  /** An unsigned load of all of `b`. */
  function Load(cpu: Cpu, b: seq<nat>): (w: nat)
  {
    if b == [] then 0
    else if cpu.BigEndian? then Load(cpu, b[..|b| - 1]) * 0x100 + b[|b| - 1]
    else b[0] + Load(cpu, b[1..]) * 0x100
  }

  /** reinterpret_cast<const uintN_t*>(code + at)[0] over `n` characters. */
  function LoadAt(cpu: Cpu, u: Unit, code: Word, at: nat, n: nat): (w: nat)
    requires at + n <= |code|
  {
    Load(cpu, Memory(cpu, u, code[at..at + n]))
  }

  // ----- The constants the characters of a keyword are packed into

  function U16(x: nat): nat { x % 0x1_0000 }
  function U32(x: nat): nat { x % 0x1_0000_0000 }
  function U64(x: nat): nat { x % 0x1_0000_0000_0000_0000 }

  /** CHARPAIR_TOUINT16 and UCHARPAIR_TOUINT32. */
  function Pair(cpu: Cpu, u: Unit, a: nat, b: nat): (w: nat)
  {
    var hi := if cpu.BigEndian? then a else b;
    var lo := if cpu.BigEndian? then b else a;
    if u.LChar? then U16(hi) * 0x100 + U16(lo)
    else U32(U32(U32(hi) * 0x1_0000) + U32(lo))
  }

  /** The shift-and-add of the quad macros. */
  function Join(u: Unit, lo: nat, hi: nat): (w: nat)
  {
    if u.LChar? then U32(U32(U32(hi) * 0x1_0000) + lo) else U64(U64(U64(hi) * 0x1_0000_0000) + lo)
  }

  /** The little-endian CHARQUAD_TOUINT32 and UCHARQUAD_TOUINT64; no other CPU expands them. */
  function Quad(u: Unit, a: nat, b: nat, c: nat, d: nat): (w: nat)
  {
    Join(u, Pair(X86_64, u, a, b), Pair(X86_64, u, c, d))
  }

  // ----- The macros

  predicate Compare2(cpu: Cpu, u: Unit, code: Word, at: nat, a: nat, b: nat)
    requires at + 2 <= |code|
  {
    if cpu.NeedsAlignedAccess? then code[at] == a && code[at + 1] == b
    else LoadAt(cpu, u, code, at, 2) == Pair(cpu, u, a, b)
  }

  predicate Compare4(cpu: Cpu, u: Unit, code: Word, at: nat, a: nat, b: nat, c: nat, d: nat)
    requires at + 4 <= |code|
  {
    if cpu.X86_64? then LoadAt(cpu, u, code, at, 4) == Quad(u, a, b, c, d)
    else Compare2(cpu, u, code, at, a, b) && Compare2(cpu, u, code, at + 2, c, d)
  }

  /** The test emitted for the characters `k` at `code + at`: `==` for one, COMPARE_n for two to eight. */
  predicate Compare(cpu: Cpu, u: Unit, code: Word, at: nat, k: Word)
    requires 1 <= |k| <= 8 && at + |k| <= |code|
  {
    match |k|
    case 1 => code[at] == k[0]
    case 2 => Compare2(cpu, u, code, at, k[0], k[1])
    case 3 => Compare2(cpu, u, code, at, k[0], k[1]) && code[at + 2] == k[2]
    case 4 => Compare4(cpu, u, code, at, k[0], k[1], k[2], k[3])
    case 5 => Compare4(cpu, u, code, at, k[0], k[1], k[2], k[3]) && code[at + 4] == k[4]
    case 6 => Compare4(cpu, u, code, at, k[0], k[1], k[2], k[3]) && Compare2(cpu, u, code, at + 4, k[4], k[5])
    // The seventh character is reached by a second load that overlaps the first.
    case 7 => Compare4(cpu, u, code, at, k[0], k[1], k[2], k[3])
              && Compare4(cpu, u, code, at + 3, k[3], k[4], k[5], k[6])
    case _ => Compare4(cpu, u, code, at, k[0], k[1], k[2], k[3])
              && Compare4(cpu, u, code, at + 4, k[4], k[5], k[6], k[7])
  }

  // ----- Packed comparison is character-by-character comparison

  lemma Keeps(x: nat, m: nat)
    requires x < m
    ensures x % m == x
  {
  }

  /** Within their limits the casts change nothing: a packed pair is a two-digit number. */
  lemma PairValue(cpu: Cpu, u: Unit, a: nat, b: nat)
    requires a < u.Limit() && b < u.Limit()
    ensures Pair(cpu, u, a, b) == if cpu.BigEndian? then a * u.Limit() + b else a + b * u.Limit()
    ensures Pair(cpu, u, a, b) < u.Limit() * u.Limit()
  {
    var hi := if cpu.BigEndian? then a else b;
    var lo := if cpu.BigEndian? then b else a;
    if u.LChar? {
      Keeps(hi, 0x1_0000);
      Keeps(lo, 0x1_0000);
    } else {
      Keeps(hi, 0x1_0000_0000);
      Keeps(lo, 0x1_0000_0000);
      Keeps(hi * 0x1_0000, 0x1_0000_0000);
      Keeps(hi * 0x1_0000 + lo, 0x1_0000_0000);
    }
  }

  lemma JoinValue(u: Unit, lo: nat, hi: nat)
    requires lo < u.Limit() * u.Limit() && hi < u.Limit() * u.Limit()
    ensures Join(u, lo, hi) == lo + hi * (u.Limit() * u.Limit())
  {
    if u.LChar? {
      Keeps(hi, 0x1_0000_0000);
      Keeps(hi * 0x1_0000, 0x1_0000_0000);
      Keeps(hi * 0x1_0000 + lo, 0x1_0000_0000);
    } else {
      Keeps(hi, 0x1_0000_0000_0000_0000);
      Keeps(hi * 0x1_0000_0000, 0x1_0000_0000_0000_0000);
      Keeps(hi * 0x1_0000_0000 + lo, 0x1_0000_0000_0000_0000);
    }
  }

  lemma QuadValue(u: Unit, a: nat, b: nat, c: nat, d: nat)
    requires a < u.Limit() && b < u.Limit() && c < u.Limit() && d < u.Limit()
    ensures Quad(u, a, b, c, d) == Pair(X86_64, u, a, b) + Pair(X86_64, u, c, d) * (u.Limit() * u.Limit())
  {
    PairValue(X86_64, u, a, b);
    PairValue(X86_64, u, c, d);
    JoinValue(u, Pair(X86_64, u, a, b), Pair(X86_64, u, c, d));
  }

  /** Two digits below the base determine a number and are determined by it. */
  lemma TwoDigits(base: nat, a: nat, b: nat, c: nat, d: nat)
    requires a < base && c < base
    ensures a + b * base == c + d * base <==> a == c && b == d
  {
    if b < d {
      assert d * base >= (b + 1) * base == b * base + base;
    } else if d < b {
      assert b * base >= (d + 1) * base == d * base + base;
    }
  }

  /** A load of two characters is the packed pair of what it reads. */
  lemma LoadPair(cpu: Cpu, u: Unit, s: Word)
    requires |s| == 2 && Fits(u, s)
    ensures Load(cpu, Memory(cpu, u, s)) == Pair(cpu, u, s[0], s[1])
  {
    var b0, b1 := Bytes(cpu, u, s[0]), Bytes(cpu, u, s[1]);
    assert Memory(cpu, u, s[1..]) == b1 + Memory(cpu, u, s[1..][1..]);
    assert Memory(cpu, u, s) == b0 + b1;
    PairValue(cpu, u, s[0], s[1]);
    if u.LChar? {
      LoadTwo(cpu, b0 + b1);
    } else {
      assert s[0] == s[0] / 0x100 * 0x100 + s[0] % 0x100;
      assert s[1] == s[1] / 0x100 * 0x100 + s[1] % 0x100;
      LoadFour(cpu, b0 + b1);
    }
  }

  lemma LoadTwo(cpu: Cpu, b: seq<nat>)
    requires |b| == 2
    ensures Load(cpu, b) == if cpu.BigEndian? then b[0] * 0x100 + b[1] else b[0] + b[1] * 0x100
  {
    assert Load(cpu, b[..1]) == b[0];
    assert Load(cpu, b[1..]) == b[1];
  }

  lemma LoadFour(cpu: Cpu, b: seq<nat>)
    requires |b| == 4
    ensures Load(cpu, b) == if cpu.BigEndian? then ((b[0] * 0x100 + b[1]) * 0x100 + b[2]) * 0x100 + b[3]
                            else b[0] + (b[1] + (b[2] + b[3] * 0x100) * 0x100) * 0x100
  {
    if cpu.BigEndian? {
      LoadTwo(cpu, b[..2]);
      assert b[..3][..2] == b[..2];
      assert Load(cpu, b[..3]) == Load(cpu, b[..2]) * 0x100 + b[2];
    } else {
      LoadTwo(cpu, b[2..]);
      assert b[1..][1..] == b[2..];
      assert Load(cpu, b[1..]) == b[1] + Load(cpu, b[2..]) * 0x100;
    }
  }

  /** A little-endian load splits into the loads of its halves. */
  lemma {:induction false} LoadSplit(b: seq<nat>, c: seq<nat>)
    ensures Load(X86_64, b + c) == Load(X86_64, b) + Load(X86_64, c) * Weight(|b|)
  {
    if b == [] {
      assert b + c == c;
    } else {
      assert (b + c)[1..] == b[1..] + c;
      LoadSplit(b[1..], c);
      ShiftByte(Load(X86_64, b[1..]), Load(X86_64, c), Weight(|b| - 1));
    }
  }

  lemma ShiftByte(x: nat, y: nat, k: nat)
    ensures (x + y * k) * 0x100 == x * 0x100 + y * (k * 0x100)
  {
  }

  /** Place value of a byte. */
  function Weight(n: nat): nat {
    if n == 0 then 1 else Weight(n - 1) * 0x100
  }

  lemma {:induction false} MemorySplit(cpu: Cpu, u: Unit, s: Word, t: Word)
    ensures Memory(cpu, u, s + t) == Memory(cpu, u, s) + Memory(cpu, u, t)
    ensures |Memory(cpu, u, s)| == |s| * if u.LChar? then 1 else 2
  {
    if s == [] {
      assert s + t == t;
    } else {
      assert (s + t)[1..] == s[1..] + t;
      MemorySplit(cpu, u, s[1..], t);
    }
  }

  /** A 64-bit-CPU load of four characters is the packed quad of what it reads. */
  lemma LoadQuad(u: Unit, s: Word)
    requires |s| == 4 && Fits(u, s)
    ensures Load(X86_64, Memory(X86_64, u, s)) == Quad(u, s[0], s[1], s[2], s[3])
  {
    var lo, hi := s[..2], s[2..];
    assert s == lo + hi;
    MemorySplit(X86_64, u, lo, hi);
    LoadSplit(Memory(X86_64, u, lo), Memory(X86_64, u, hi));
    LoadPair(X86_64, u, lo);
    LoadPair(X86_64, u, hi);
    QuadValue(u, s[0], s[1], s[2], s[3]);
    assert Weight(1) == 0x100 && Weight(2) == 0x1_0000 && Weight(3) == 0x100_0000 && Weight(4) == 0x1_0000_0000;
  }

  /** Packing two characters loses nothing. */
  lemma PairInjective(cpu: Cpu, u: Unit, s: Word, k: Word)
    requires |s| == |k| == 2 && Fits(u, s) && Fits(u, k)
    ensures Pair(cpu, u, s[0], s[1]) == Pair(cpu, u, k[0], k[1]) <==> s == k
  {
    PairValue(cpu, u, s[0], s[1]);
    PairValue(cpu, u, k[0], k[1]);
    TwoDigits(u.Limit(), s[0], s[1], k[0], k[1]);
    TwoDigits(u.Limit(), s[1], s[0], k[1], k[0]);
  }

  /** Packing four characters loses nothing. */
  lemma QuadInjective(u: Unit, s: Word, k: Word)
    requires |s| == |k| == 4 && Fits(u, s) && Fits(u, k)
    ensures Quad(u, s[0], s[1], s[2], s[3]) == Quad(u, k[0], k[1], k[2], k[3]) <==> s == k
  {
    QuadValue(u, s[0], s[1], s[2], s[3]);
    QuadValue(u, k[0], k[1], k[2], k[3]);
    PairValue(X86_64, u, s[0], s[1]);
    PairValue(X86_64, u, k[0], k[1]);
    TwoDigits(u.Limit() * u.Limit(), Pair(X86_64, u, s[0], s[1]), Pair(X86_64, u, s[2], s[3]),
              Pair(X86_64, u, k[0], k[1]), Pair(X86_64, u, k[2], k[3]));
    PairInjective(X86_64, u, s[..2], k[..2]);
    PairInjective(X86_64, u, s[2..], k[2..]);
    assert s == s[..2] + s[2..] && k == k[..2] + k[2..];
  }

  lemma Compare2IsEqual(cpu: Cpu, u: Unit, code: Word, at: nat, a: nat, b: nat)
    requires at + 2 <= |code| && Fits(u, code) && Fits(u, [a, b])
    ensures Compare2(cpu, u, code, at, a, b) <==> code[at..at + 2] == [a, b]
  {
    var s := code[at..at + 2];
    assert s == [s[0], s[1]];
    LoadPair(cpu, u, s);
    PairInjective(cpu, u, s, [a, b]);
  }

  lemma Compare4IsEqual(cpu: Cpu, u: Unit, code: Word, at: nat, k: Word)
    requires |k| == 4 && at + 4 <= |code| && Fits(u, code) && Fits(u, k)
    ensures Compare4(cpu, u, code, at, k[0], k[1], k[2], k[3]) <==> code[at..at + 4] == k
  {
    var s := code[at..at + 4];
    if cpu.X86_64? {
      LoadQuad(u, s);
      QuadInjective(u, s, k);
    } else {
      Compare2IsEqual(cpu, u, code, at, k[0], k[1]);
      Compare2IsEqual(cpu, u, code, at + 2, k[2], k[3]);
      assert s == code[at..at + 2] + code[at + 2..at + 4] && k == [k[0], k[1]] + [k[2], k[3]];
    }
  }

  /** Equality of words is equality of a head and a tail that cover them, overlapping or not. */
  lemma Cover(s: Word, k: Word, head: nat, tail: nat)
    requires |s| == |k| && tail <= head <= |k|
    ensures s == k <==> s[..head] == k[..head] && s[tail..] == k[tail..]
  {
    assert s == s[..head] + s[tail..][head - tail..] && k == k[..head] + k[tail..][head - tail..];
  }

  /** On every CPU and for both character widths, an emitted test is exactly equality of the characters. */
  lemma CompareIsEqual(cpu: Cpu, u: Unit, code: Word, at: nat, k: Word)
    requires 1 <= |k| <= 8 && at + |k| <= |code| && Fits(u, code) && Fits(u, k)
    ensures Compare(cpu, u, code, at, k) <==> code[at..at + |k|] == k
  {
    if |k| <= 3 {
      CompareShort(cpu, u, code, at, k);
    } else if |k| <= 6 {
      CompareMiddle(cpu, u, code, at, k);
    } else {
      CompareLong(cpu, u, code, at, k);
    }
  }

  /** Four characters in one test and up to two behind them. */
  lemma CompareMiddle(cpu: Cpu, u: Unit, code: Word, at: nat, k: Word)
    requires 4 <= |k| <= 6 && at + |k| <= |code| && Fits(u, code) && Fits(u, k)
    ensures Compare(cpu, u, code, at, k) <==> code[at..at + |k|] == k
  {
    var s := code[at..at + |k|];
    Compare4IsEqual(cpu, u, code, at, k[..4]);
    Cover(s, k, 4, 4);
    assert s[..4] == code[at..at + 4] && s[4..] == code[at + 4..at + |k|];
    if |k| == 5 {
      assert code[at + 4..at + 5] == [code[at + 4]] && k[4..] == [k[4]];
    } else if |k| == 6 {
      Compare2IsEqual(cpu, u, code, at + 4, k[4], k[5]);
      assert k[4..] == [k[4], k[5]];
    }
  }

  /** Two tests of four characters, overlapping in one when there are seven. */
  lemma CompareLong(cpu: Cpu, u: Unit, code: Word, at: nat, k: Word)
    requires 7 <= |k| <= 8 && at + |k| <= |code| && Fits(u, code) && Fits(u, k)
    ensures Compare(cpu, u, code, at, k) <==> code[at..at + |k|] == k
  {
    var s, tail := code[at..at + |k|], |k| - 4;
    Compare4IsEqual(cpu, u, code, at, k[..4]);
    Compare4IsEqual(cpu, u, code, at + tail, k[tail..]);
    Cover(s, k, 4, tail);
    assert s[..4] == code[at..at + 4] && s[tail..] == code[at + tail..at + |k|];
  }

  lemma CompareShort(cpu: Cpu, u: Unit, code: Word, at: nat, k: Word)
    requires 1 <= |k| <= 3 && at + |k| <= |code| && Fits(u, code) && Fits(u, k)
    ensures Compare(cpu, u, code, at, k) <==> code[at..at + |k|] == k
  {
    if |k| >= 2 {
      Compare2IsEqual(cpu, u, code, at, k[0], k[1]);
      assert code[at..at + |k|] == code[at..at + 2] + code[at + 2..at + |k|] && k == [k[0], k[1]] + k[2..];
    }
  }
}

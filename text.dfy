/** The few Go library primitives the shortener relies on (strings.Trim, strings.HasPrefix,
    strings.Index, strings.Split, strings.SplitN, strings.Join, strconv.Atoi, fmt's %d and
    len on a string), stated over Dafny strings.

    A Dafny `char` is a Unicode scalar value, which is what Go yields when it ranges over a
    valid UTF-8 string; `ByteLen` gives back the byte count Go's `len` reports. */
module Text {

  datatype Option<+T> = None | Some(value: T)

  predicate HasPrefix(s: string, p: string) {
    |p| <= |s| && forall i :: 0 <= i < |p| ==> s[i] == p[i]
  }

  /** The position of the first character of `s` at or after `i` that is not in `cut`. */
  function SkipFrom(s: string, cut: set<char>, i: nat): (k: nat)
    requires i <= |s|
    ensures i <= k <= |s|
    decreases |s| - i
  {
    if i < |s| && s[i] in cut then SkipFrom(s, cut, i + 1) else i
  }

  /** The length of the first `n` characters of `s` once the characters in `cut` at their end
      are dropped. */
  function KeepUpTo(s: string, cut: set<char>, n: nat): (k: nat)
    requires n <= |s|
    ensures k <= n
  {
    if n > 0 && s[n - 1] in cut then KeepUpTo(s, cut, n - 1) else n
  }

  /** strings.TrimLeft(s, cutset): drop leading characters that are in `cut`. */
  function TrimLeft(s: string, cut: set<char>): string {
    s[SkipFrom(s, cut, 0)..]
  }

  /** strings.TrimRight(s, cutset): drop trailing characters that are in `cut`. */
  function TrimRight(s: string, cut: set<char>): string {
    s[..KeepUpTo(s, cut, |s|)]
  }

  /** strings.Trim(s, cutset). */
  function Trim(s: string, cut: set<char>): string {
    TrimRight(TrimLeft(s, cut), cut)
  }

  lemma {:induction false} SkipFromSkips(s: string, cut: set<char>, i: nat)
    requires i <= |s|
    ensures SkipFrom(s, cut, i) < |s| ==> s[SkipFrom(s, cut, i)] !in cut
    ensures forall j :: i <= j < SkipFrom(s, cut, i) ==> s[j] in cut
    decreases |s| - i
  {
    if i < |s| && s[i] in cut {
      SkipFromSkips(s, cut, i + 1);
    }
  }

  lemma {:induction false} KeepUpToDrops(s: string, cut: set<char>, n: nat)
    requires n <= |s|
    ensures KeepUpTo(s, cut, n) > 0 ==> s[KeepUpTo(s, cut, n) - 1] !in cut
    ensures forall j :: KeepUpTo(s, cut, n) <= j < n ==> s[j] in cut
  {
    if n > 0 && s[n - 1] in cut {
      KeepUpToDrops(s, cut, n - 1);
    }
  }

  /** TrimLeft drops a run of cutset characters from the front and stops at the first other
      character. */
  lemma TrimLeftTrims(s: string, cut: set<char>)
    ensures |TrimLeft(s, cut)| <= |s| && TrimLeft(s, cut) == s[|s| - |TrimLeft(s, cut)|..]
    ensures TrimLeft(s, cut) != [] ==> TrimLeft(s, cut)[0] !in cut
    ensures forall i :: 0 <= i < |s| - |TrimLeft(s, cut)| ==> s[i] in cut
  {
    SkipFromSkips(s, cut, 0);
  }

  /** TrimRight drops a run of cutset characters from the back and stops at the last other
      character. */
  lemma TrimRightTrims(s: string, cut: set<char>)
    ensures |TrimRight(s, cut)| <= |s| && TrimRight(s, cut) == s[..|TrimRight(s, cut)|]
    ensures TrimRight(s, cut) != [] ==> TrimRight(s, cut)[|TrimRight(s, cut)| - 1] !in cut
    ensures forall i :: |TrimRight(s, cut)| <= i < |s| ==> s[i] in cut
  {
    KeepUpToDrops(s, cut, |s|);
  }

  /** Trimming `p + s` keeps the prefix `p` whole when `p` starts and ends outside the cutset. */
  lemma TrimKeepsPrefix(p: string, s: string, cut: set<char>)
    requires p != [] && p[0] !in cut && p[|p| - 1] !in cut
    ensures HasPrefix(Trim(p + s, cut), p)
  {
    var ps := p + s;
    assert ps[0] == p[0];
    assert TrimLeft(ps, cut) == ps;
    var r := TrimRight(ps, cut);
    TrimRightTrims(ps, cut);
    assert |r| >= |p| by {
      assert ps[|p| - 1] == p[|p| - 1];
    }
    assert r[..|p|] == ps[..|p|];
    assert ps[..|p|] == p;
  }

  /** strings.Index(s, sub): the first position where `sub` occurs, or -1. */
  function IndexOf(s: string, sub: string): (r: int)
    ensures -1 <= r <= |s|
    ensures r >= 0 ==> r + |sub| <= |s| && s[r..r + |sub|] == sub
    decreases |s|
  {
    if |s| < |sub| then -1
    else if s[..|sub|] == sub then 0
    else
      var k := IndexOf(s[1..], sub);
      if k < 0 then -1 else k + 1
  }

  /** An occurrence at `i` means strings.Index finds one no later than `i`. */
  lemma {:induction false} IndexOfFinds(s: string, sub: string, i: nat)
    requires i + |sub| <= |s| && s[i..i + |sub|] == sub
    ensures 0 <= IndexOf(s, sub) <= i
    decreases i
  {
    if s[..|sub|] != sub {
      assert i > 0;
      assert s[1..][i - 1..i - 1 + |sub|] == s[i..i + |sub|];
      IndexOfFinds(s[1..], sub, i - 1);
    }
  }

  /** `sub` occurs in `s` starting at `j`. */
  predicate OccursAt(s: string, sub: string, j: nat) {
    j + |sub| <= |s| && s[j..j + |sub|] == sub
  }

  /** IndexOf finds the first occurrence: none starts before it. */
  lemma IndexOfFirst(s: string, sub: string)
    ensures forall j: nat :: j < IndexOf(s, sub) ==> !OccursAt(s, sub, j)
  {
    forall j: nat | j < IndexOf(s, sub)
      ensures !OccursAt(s, sub, j)
    {
      if OccursAt(s, sub, j) {
        IndexOfFinds(s, sub, j);
      }
    }
  }

  /** strings.Split(s, sep) for a one-character separator. */
  function Split(s: string, sep: char): (parts: seq<string>)
    ensures |parts| >= 1
    ensures forall i :: 0 <= i < |parts| ==> sep !in parts[i]
  {
    if s == [] then [""]
    else
      var rest := Split(s[1..], sep);
      if s[0] == sep then [""] + rest else [[s[0]] + rest[0]] + rest[1..]
  }

  /** A character that is not in `s` is in none of its pieces. */
  lemma {:induction false} SplitAvoids(s: string, sep: char, c: char)
    requires c !in s
    ensures forall i :: 0 <= i < |Split(s, sep)| ==> c !in Split(s, sep)[i]
  {
    if s != [] {
      assert c !in s[1..];
      SplitAvoids(s[1..], sep, c);
    }
  }

  /** strings.SplitN(s, sep, n) for n > 0: at most n pieces, the last one unsplit. */
  function SplitN(s: string, sep: char, n: nat): (parts: seq<string>)
    requires n >= 1
    ensures 1 <= |parts| <= n
  {
    if n == 1 || s == [] then [s]
    else if s[0] == sep then [""] + SplitN(s[1..], sep, n - 1)
    else
      var rest := SplitN(s[1..], sep, n);
      [[s[0]] + rest[0]] + rest[1..]
  }

  /** strings.Join(parts, sep). */
  function Join(parts: seq<string>, sep: char): string {
    if |parts| == 0 then ""
    else if |parts| == 1 then parts[0]
    else parts[0] + [sep] + Join(parts[1..], sep)
  }

  lemma {:induction false} SplitNoSeparator(a: string, sep: char)
    requires sep !in a
    ensures Split(a, sep) == [a]
  {
    if a != [] {
      SplitNoSeparator(a[1..], sep);
      assert [a[0]] + a[1..] == a;
    }
  }

  lemma {:induction false} SplitAtSeparator(a: string, sep: char, b: string)
    requires sep !in a
    ensures Split(a + [sep] + b, sep) == [a] + Split(b, sep)
  {
    if a == [] {
      assert a + [sep] + b == [sep] + b;
      assert ([sep] + b)[1..] == b;
    } else {
      assert (a + [sep] + b)[1..] == a[1..] + [sep] + b;
      SplitAtSeparator(a[1..], sep, b);
      assert [a[0]] + a[1..] == a;
    }
  }

  /** Splitting undoes joining, for pieces that do not hold the separator. */
  lemma {:induction false} SplitJoin(parts: seq<string>, sep: char)
    requires |parts| >= 1
    requires forall i :: 0 <= i < |parts| ==> sep !in parts[i]
    ensures Split(Join(parts, sep), sep) == parts
  {
    if |parts| == 1 {
      SplitNoSeparator(parts[0], sep);
    } else {
      SplitJoin(parts[1..], sep);
      SplitAtSeparator(parts[0], sep, Join(parts[1..], sep));
      assert [parts[0]] + parts[1..] == parts;
    }
  }

  /** Joining undoes splitting. */
  lemma {:induction false} JoinSplit(s: string, sep: char)
    ensures Join(Split(s, sep), sep) == s
  {
    if s != [] {
      JoinSplit(s[1..], sep);
      var rest := Split(s[1..], sep);
      if s[0] == sep {
        assert ([""] + rest)[1..] == rest;
      } else {
        var parts := [[s[0]] + rest[0]] + rest[1..];
        if |rest| == 1 {
          assert Join(parts, sep) == [s[0]] + rest[0];
        } else {
          assert parts[1..] == rest[1..];
          assert Join(rest, sep) == rest[0] + [sep] + Join(rest[1..], sep);
        }
        assert [s[0]] + s[1..] == s;
      }
    }
  }

  lemma {:induction false} SplitNAtSeparator(a: string, sep: char, b: string, n: nat)
    requires n >= 2 && sep !in a
    ensures SplitN(a + [sep] + b, sep, n) == [a] + SplitN(b, sep, n - 1)
  {
    if a == [] {
      assert a + [sep] + b == [sep] + b;
      assert ([sep] + b)[1..] == b;
    } else {
      assert (a + [sep] + b)[1..] == a[1..] + [sep] + b;
      SplitNAtSeparator(a[1..], sep, b, n);
      assert [a[0]] + a[1..] == a;
    }
  }

  // Generic facts about sequence slices, proved once for every element type so that proofs
  // over sequences of strings need not reason about string equality.

  lemma PrefixStep<T>(s: seq<T>, i: nat)
    requires i < |s|
    ensures s[..i + 1] == s[..i] + [s[i]]
    ensures s[..i + 1][..i] == s[..i] && s[..i + 1][i] == s[i]
  {
  }

  lemma TakeAll<T>(s: seq<T>)
    ensures s[..|s|] == s && s[..0] == []
  {
  }

  lemma DropLastConcat<T>(a: seq<T>, b: seq<T>)
    requires b != []
    ensures (a + b)[..|a + b| - 1] == a + b[..|b| - 1] && (a + b)[|a + b| - 1] == b[|b| - 1]
  {
  }

  lemma Singleton<T>(x: T)
    ensures [x][..0] == [] && [x][0] == x && |[x]| == 1
  {
  }

  lemma UpdateLast<T>(s: seq<T>, x: T)
    requires s != []
    ensures s[|s| - 1 := x] == s[..|s| - 1] + [x]
  {
  }

  lemma Assoc<T>(a: seq<T>, b: seq<T>, c: seq<T>)
    ensures a + (b + c) == (a + b) + c
  {
  }

  lemma ConcatEmpty<T>(a: seq<T>)
    ensures a + [] == a && [] + a == a
  {
  }

  lemma Split3<T>(s: seq<T>, i: nat)
    requires i < |s|
    ensures s == s[..i] + [s[i]] + s[i + 1..]
  {
  }

  predicate IsDigit(c: char) {
    '0' <= c <= '9'
  }

  function DigitChar(d: nat): (c: char)
    requires d < 10
    ensures IsDigit(c) && c as int - '0' as int == d
  {
    ('0' as int + d) as char
  }

  /** The value of a non-empty string of decimal digits, read left to right; None when the
      string is empty or holds anything but digits. */
  function Digits(s: string): (r: Option<nat>)
    ensures r.Some? ==> s != []
  {
    if s == [] || !IsDigit(s[|s| - 1]) then None
    else
      var d := s[|s| - 1] as int - '0' as int;
      if |s| == 1 then Some(d)
      else match Digits(s[..|s| - 1])
        case None => None
        case Some(v) => Some(v * 10 + d)
  }

  /** fmt's %d of a non-negative integer. */
  function NatToDecimal(n: nat): (r: string)
    ensures r != []
  {
    if n < 10 then [DigitChar(n)] else NatToDecimal(n / 10) + [DigitChar(n % 10)]
  }

  /** fmt's %d of an integer: a minus sign, then the digits of the magnitude. */
  function IntToDecimal(n: int): string {
    if n < 0 then "-" + NatToDecimal(-n) else NatToDecimal(n)
  }

  const MinInt64: int := -0x8000_0000_0000_0000
  const MaxInt64: int := 0x7fff_ffff_ffff_ffff

  /** strconv.Atoi on a 64-bit platform: an optional sign, then at least one decimal digit and
      nothing else, with a value that fits in 64 bits; anything else is an error (None). */
  function Atoi(s: string): (r: Option<int>)
  {
    var signed := s != [] && (s[0] == '-' || s[0] == '+');
    match Digits(if signed then s[1..] else s)
    case None => None
    case Some(magnitude) =>
      var v: int := if s[0] == '-' then -(magnitude as int) else magnitude;
      if MinInt64 <= v <= MaxInt64 then Some(v) else None
  }

  /** Atoi accepts only an optional sign followed by digits, and only 64-bit values. */
  lemma AtoiAccepts(s: string)
    requires Atoi(s).Some?
    ensures MinInt64 <= Atoi(s).value <= MaxInt64
    ensures s != [] && (Digits(s).Some? || ((s[0] == '-' || s[0] == '+') && Digits(s[1..]).Some?))
  {
  }

  /** Reading back the digits %d wrote gives the number. */
  lemma {:induction false} DecimalValue(n: nat)
    ensures Digits(NatToDecimal(n)) == Some(n)
  {
    if n >= 10 {
      DecimalValue(n / 10);
      var s := NatToDecimal(n / 10) + [DigitChar(n % 10)];
      assert s[..|s| - 1] == NatToDecimal(n / 10);
    }
  }

  /** strconv.Atoi reads back what %d wrote, for every 64-bit integer. */
  lemma AtoiDecimal(n: int)
    requires MinInt64 <= n <= MaxInt64
    ensures Atoi(IntToDecimal(n)) == Some(n)
  {
    if n < 0 {
      var digits := NatToDecimal(-n);
      DecimalValue(-n);
      var s := "-" + digits;
      assert s[0] == '-' && s[1..] == digits;
    } else {
      var digits := NatToDecimal(n);
      DecimalValue(n);
      DigitsLead(digits);
    }
  }

  /** A string of digits starts with a digit. */
  lemma {:induction false} DigitsLead(s: string)
    requires Digits(s).Some?
    ensures IsDigit(s[0])
  {
    if |s| > 1 {
      DigitsLead(s[..|s| - 1]);
    }
  }

  /** len(s) in Go: the number of bytes of the UTF-8 encoding. */
  function ByteLen(s: string): (n: nat)
    ensures n >= |s|
  {
    if s == [] then 0
    else
      var c := s[|s| - 1] as int;
      ByteLen(s[..|s| - 1]) + (if c < 0x80 then 1 else if c < 0x800 then 2 else if c < 0x1_0000 then 3 else 4)
  }
}

/** Searching, trimming and decimal numbers on byte strings. */
module Text {
  import opened Arithmetic

  const CRLF: string := "\r\n"

  predicate CrlfAt(s: string, i: int) {
    0 <= i < |s| - 1 && s[i] == '\r' && s[i + 1] == '\n'
  }

  predicate NoCrlf(s: string) {
    forall i :: 0 <= i < |s| ==> !CrlfAt(s, i)
  }

  /** `std::search` for CR LF: the first occurrence, or the end (see `FindCrlfIff`). */
  function FindCrlf(s: string): (i: nat)
    ensures i <= |s| && (i < |s| ==> i + 1 < |s|)
  {
    if s == "" || CrlfAt(s, 0) then 0 else FindCrlf(s[1..]) + 1
  }

  /** `std::find`: the first position of `c`, or the end (see `FindIff`). */
  function Find(s: string, c: char): (i: nat)
    ensures i <= |s|
  {
    if s == "" || s[0] == c then 0 else Find(s[1..], c) + 1
  }

  lemma {:induction false} FindCrlfIff(s: string, i: nat)
    ensures FindCrlf(s) == i <==>
      i <= |s| && (i < |s| ==> CrlfAt(s, i)) && forall j :: 0 <= j < i ==> !CrlfAt(s, j)
  {
    if s != "" {
      forall j | 0 < j < |s| ensures CrlfAt(s, j) == CrlfAt(s[1..], j - 1) {}
      if i > 0 {
        FindCrlfIff(s[1..], i - 1);
        assert (forall j :: 0 <= j < i ==> !CrlfAt(s, j)) <==>
          !CrlfAt(s, 0) && forall j :: 0 <= j < i - 1 ==> !CrlfAt(s[1..], j) by {
          if !CrlfAt(s, 0) && forall j :: 0 <= j < i - 1 ==> !CrlfAt(s[1..], j) {
            forall j | 0 <= j < i ensures !CrlfAt(s, j) { assert j > 0 ==> !CrlfAt(s[1..], j - 1); }
          }
          if forall j :: 0 <= j < i ==> !CrlfAt(s, j) {
            forall j | 0 <= j < i - 1 ensures !CrlfAt(s[1..], j) { assert !CrlfAt(s, j + 1); }
          }
        }
      }
    }
  }

  lemma {:induction false} FindIff(s: string, c: char, i: nat)
    ensures Find(s, c) == i <==> i <= |s| && (i < |s| ==> s[i] == c) && c !in s[..i]
  {
    if s != "" && i > 0 {
      FindIff(s[1..], c, i - 1);
      assert i <= |s| ==> s[..i] == [s[0]] + s[1..][..i - 1];
    }
  }

  /** The first CR LF stays where it is when bytes arrive behind it. */
  lemma FindCrlfAppend(s: string, t: string)
    requires FindCrlf(s) < |s|
    ensures FindCrlf(s + t) == FindCrlf(s)
  {
    var i := FindCrlf(s);
    FindCrlfIff(s, i);
    forall j | 0 <= j < i ensures !CrlfAt(s + t, j) { assert !CrlfAt(s, j); }
    FindCrlfIff(s + t, i);
  }

  /** A line without CR LF ends where its terminator begins, even if its last byte is CR. */
  lemma FindCrlfLine(line: string, rest: string)
    requires NoCrlf(line)
    ensures FindCrlf(line + CRLF + rest) == |line|
  {
    var s := line + CRLF + rest;
    assert CrlfAt(s, |line|);
    forall j | 0 <= j < |line| ensures !CrlfAt(s, j) { assert !CrlfAt(line, j); }
    FindCrlfIff(s, |line|);
  }

  lemma FindAppend(s: string, c: char, t: string)
    requires c !in s
    ensures Find(s + [c] + t, c) == |s|
  {
    assert (s + [c] + t)[..|s|] == s;
    FindIff(s + [c] + t, c, |s|);
  }

  // ---------------------------------------------------------------- white space

  /** `isspace` in the C locale. */
  predicate IsSpace(c: char) {
    c == ' ' || '\t' <= c <= '\r'
  }

  /** How many white-space bytes a string begins with, and ends with. */
  function Leading(s: string): (n: nat)
    ensures n <= |s|
  {
    if s != "" && IsSpace(s[0]) then Leading(s[1..]) + 1 else 0
  }

  function Trailing(s: string): (n: nat)
    ensures n <= |s|
  {
    if s != "" && IsSpace(s[|s| - 1]) then Trailing(s[..|s| - 1]) + 1 else 0
  }

  function TrimLeft(s: string): string { s[Leading(s)..] }

  function TrimRight(s: string): string { s[..|s| - Trailing(s)] }

  /** What `addHeader` keeps of the bytes behind the colon. */
  function Trim(s: string): string { TrimRight(TrimLeft(s)) }

  predicate Trimmed(s: string) {
    s == "" || (!IsSpace(s[0]) && !IsSpace(s[|s| - 1]))
  }

  lemma SkipOne(s: string)
    requires s != "" && IsSpace(s[0])
    ensures TrimLeft(s) == TrimLeft(s[1..])
  {
    assert s[1..][Leading(s[1..])..] == s[Leading(s[1..]) + 1..];
  }

  lemma DropOne(s: string)
    requires s != "" && IsSpace(s[|s| - 1])
    ensures TrimRight(s) == TrimRight(s[..|s| - 1])
  {
    var t := s[..|s| - 1];
    assert t[..|t| - Trailing(t)] == s[..|t| - Trailing(t)];
  }

  lemma NothingToSkip(s: string)
    ensures s == "" || !IsSpace(s[0]) <==> TrimLeft(s) == s
  {
    if s == "" || !IsSpace(s[0]) { assert s[0..] == s; } else { assert |TrimLeft(s)| < |s|; }
  }

  lemma NothingToDrop(s: string)
    ensures s == "" || !IsSpace(s[|s| - 1]) <==> TrimRight(s) == s
  {
    if s == "" || !IsSpace(s[|s| - 1]) { assert s[..|s|] == s; } else { assert |TrimRight(s)| < |s|; }
  }

  lemma TrimIffTrimmed(s: string)
    ensures Trim(s) == s <==> Trimmed(s)
    ensures Trim(" " + s) == Trim(s)
  {
    assert (" " + s)[1..] == s;
    SkipOne(" " + s);
    NothingToSkip(s);
    NothingToDrop(s);
    assert |TrimRight(TrimLeft(s))| <= |TrimLeft(s)| <= |s|;
  }

  predicate AllSpace(s: string) {
    forall i :: 0 <= i < |s| ==> IsSpace(s[i])
  }

  lemma {:induction false} SkipAll(a: string, t: string)
    requires AllSpace(a)
    ensures TrimLeft(a + t) == TrimLeft(t)
  {
    if a == "" {
      assert a + t == t;
    } else {
      SkipOne(a + t);
      assert (a + t)[1..] == a[1..] + t;
      SkipAll(a[1..], t);
    }
  }

  lemma {:induction false} DropAll(t: string, b: string)
    requires AllSpace(b)
    ensures TrimRight(t + b) == TrimRight(t)
  {
    if b == "" {
      assert t + b == t;
    } else {
      var n := |b| - 1;
      DropOne(t + b);
      assert (t + b)[..|t + b| - 1] == t + b[..n];
      DropAll(t, b[..n]);
    }
  }

  /** What trimming leaves of white space, a value that neither begins nor ends with any, and white
      space again, is that value. */
  lemma TrimKeepsInner(a: string, t: string, b: string)
    requires AllSpace(a) && AllSpace(b) && Trimmed(t)
    ensures Trim(a + t + b) == t
  {
    assert a + t + b == a + (t + b);
    SkipAll(a, t + b);
    if t == "" {
      assert t + b == b == b + "" && TrimLeft("") == "";
      SkipAll(b, "");
    } else {
      NothingToSkip(t + b);
      DropAll(t, b);
      NothingToDrop(t);
    }
  }

  // ---------------------------------------------------------------- the order of strings

  /** `operator<` of `std::string`. */
  predicate Below(a: string, b: string) {
    b != "" && (a == "" || a[0] < b[0] || (a[0] == b[0] && Below(a[1..], b[1..])))
  }

  lemma {:induction false} BelowIsTotal(a: string, b: string)
    ensures a == b || Below(a, b) || Below(b, a)
    ensures !(a == b && Below(a, b)) && !(Below(a, b) && Below(b, a))
  {
    if a != "" && b != "" && a[0] == b[0] {
      BelowIsTotal(a[1..], b[1..]);
      assert a == [a[0]] + a[1..] && b == [b[0]] + b[1..];
    }
  }

  lemma {:induction false} BelowIsTransitive(a: string, b: string, c: string)
    requires Below(a, b) && Below(b, c)
    ensures Below(a, c)
  {
    if a != "" && a[0] == b[0] == c[0] { BelowIsTransitive(a[1..], b[1..], c[1..]); }
  }

  ghost predicate Ascending(ks: seq<string>) {
    forall i, j :: 0 <= i < j < |ks| ==> Below(ks[i], ks[j])
  }

  lemma FirstIsLeast(ks: seq<string>, x: string)
    requires Ascending(ks) && x in ks
    ensures x == ks[0] || Below(ks[0], x)
  {
  }

  /** There is one ascending list of the elements of a set. */
  lemma {:induction false} AscendingIsUnique(ks: seq<string>, ls: seq<string>)
    requires Ascending(ks) && Ascending(ls) && forall x :: x in ks <==> x in ls
    ensures ks == ls
  {
    assert (ks != [] ==> ks[0] in ks) && (ls != [] ==> ls[0] in ls);
    if ks != [] {
      FirstIsLeast(ks, ls[0]);
      FirstIsLeast(ls, ks[0]);
      BelowIsTotal(ks[0], ls[0]);
      forall x ensures x in ks[1..] <==> x in ls[1..] {
        RestOfAscending(ks, x);
        RestOfAscending(ls, x);
      }
      AscendingIsUnique(ks[1..], ls[1..]);
      assert ks == [ks[0]] + ks[1..] && ls == [ls[0]] + ls[1..];
    }
  }

  lemma RestOfAscending(ks: seq<string>, x: string)
    requires Ascending(ks) && ks != []
    ensures x in ks[1..] <==> x in ks && x != ks[0]
  {
    BelowIsTotal(ks[0], x);
    if x in ks[1..] {
      var i :| 0 <= i < |ks| - 1 && ks[1..][i] == x;
      assert ks[i + 1] == x;
    }
    if x in ks && x != ks[0] {
      var i :| 0 <= i < |ks| && ks[i] == x;
      assert ks[1..][i - 1] == x;
    }
  }

  /** The first key of an ordered map. */
  method Least(keys: set<string>) returns (least: string)
    requires keys != {}
    ensures least in keys && forall x :: x in keys ==> x == least || Below(least, x)
  {
    least :| least in keys;
    var left := keys - {least};
    while left != {}
      invariant left <= keys && least in keys
      invariant forall x :: x in keys && x !in left ==> x == least || Below(least, x)
      decreases |left|
    {
      var k :| k in left;
      BelowIsTotal(least, k);
      if Below(k, least) {
        forall x | x in keys && x !in left && Below(least, x) ensures Below(k, x) {
          BelowIsTransitive(k, least, x);
        }
        least := k;
      }
      left := left - {k};
    }
  }

  // ---------------------------------------------------------------- decimal numbers

  const LONG_MAX: int := 0x7FFF_FFFF_FFFF_FFFF

  predicate IsDigit(c: char) { '0' <= c <= '9' }

  function Digit(d: nat): char
    requires d < 10
  {
    '0' + d as char
  }

  /** `std::to_string` of an unsigned number; also `%d` and `%zd` of a non-negative one. */
  function Decimal(n: nat): (s: string)
    ensures s != "" && forall i :: 0 <= i < |s| ==> IsDigit(s[i])
  {
    if n < 10 then [Digit(n)] else Decimal(n / 10) + [Digit(n % 10)]
  }

  function ReadDigits(s: string, acc: nat): nat {
    if s != "" && IsDigit(s[0]) then ReadDigits(s[1..], 10 * acc + (s[0] - '0') as nat) else acc
  }

  function Clamp(n: int): int {
    if n > LONG_MAX then LONG_MAX else if n < -LONG_MAX - 1 then -LONG_MAX - 1 else n
  }

  /** `strtol` in base ten, before it is clamped to a `long`. */
  function ReadNumber(s: string): int {
    if s != "" && s[0] == '-' then 0 - ReadDigits(s[1..], 0)
    else if s != "" && s[0] == '+' then ReadDigits(s[1..], 0)
    else ReadDigits(s, 0)
  }

  /** `atoi`: `strtol`, narrowed to `int`. */
  function Atoi(s: string): int { ToInt32(Clamp(ReadNumber(TrimLeft(s)))) }

  lemma {:induction false} ReadDigitsAppend(s: string, c: char, acc: nat)
    requires IsDigit(c) && forall i :: 0 <= i < |s| ==> IsDigit(s[i])
    ensures ReadDigits(s + [c], acc) == 10 * ReadDigits(s, acc) + (c - '0') as nat
  {
    if s == "" {
      assert (s + [c])[1..] == "";
    } else {
      assert (s + [c])[1..] == s[1..] + [c];
      ReadDigitsAppend(s[1..], c, 10 * acc + (s[0] - '0') as nat);
    }
  }

  lemma {:induction false} ReadDecimal(n: nat)
    ensures ReadDigits(Decimal(n), 0) == n
  {
    if n >= 10 {
      ReadDecimal(n / 10);
      ReadDigitsAppend(Decimal(n / 10), Digit(n % 10), 0);
    } else {
      assert ReadDigits([Digit(n)], 0) == ReadDigits([], n);
    }
  }

  lemma Int32Exact(n: int)
    requires 0 <= n
    ensures ToInt32(Clamp(n)) == n <==> n < 0x8000_0000
  {
    if n <= LONG_MAX {
      assert ToInt32(n) < 0x8000_0000;
    } else {
      assert ToInt32(LONG_MAX) == -1;
    }
  }

  lemma NumberOfDigits(s: string)
    requires s != "" && IsDigit(s[0])
    ensures ReadNumber(TrimLeft(s)) == ReadDigits(s, 0)
  {
    NothingToSkip(s);
  }

  /** A length printed in decimal is read back by `atoi` exactly when it fits an `int`. */
  lemma AtoiDecimal(n: nat)
    ensures Atoi(Decimal(n)) == n <==> n < 0x8000_0000
  {
    ReadDecimal(n);
    NumberOfDigits(Decimal(n));
    Int32Exact(n);
  }

  /** With a minus sign in front, it is read back as the negative number exactly when that fits. */
  lemma AtoiNegative(n: nat)
    ensures Atoi("-" + Decimal(n)) == 0 - n <==> n <= 0x8000_0000
  {
    var s := "-" + Decimal(n);
    ReadDecimal(n);
    assert s[1..] == Decimal(n);
    NothingToSkip(s);
    NegativeExact(n);
  }

  lemma NegativeExact(n: nat)
    ensures ToInt32(Clamp(0 - n)) == 0 - n <==> n <= 0x8000_0000
  {
    if n <= LONG_MAX + 1 {
      assert ToInt32(0 - n) >= -0x8000_0000;
    } else {
      assert ToInt32(-LONG_MAX - 1) == 0;
    }
  }

  lemma {:induction false} DecimalLength(n: nat, k: nat)
    requires 0 < k && n < Power10(k)
    ensures |Decimal(n)| <= k
  {
    if n >= 10 { DecimalLength(n / 10, k - 1); }
  }

  lemma {:induction false} DecimalAtLeast(n: nat, k: nat)
    requires n >= Power10(k)
    ensures |Decimal(n)| > k
  {
    if k > 0 { DecimalAtLeast(n / 10, k - 1); }
  }

  function Power10(k: nat): nat { if k == 0 then 1 else 10 * Power10(k - 1) }
}

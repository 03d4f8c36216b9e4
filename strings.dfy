/**
 * The handful of Python string operations the workflow nodes use, on
 * `string` = `seq<char>` (Unicode scalar values, as Python's `str`).
 */
module Strings {

  /** `c.isspace()` in Python: exactly the characters Python treats as whitespace. */
  predicate IsSpace(c: char) {
    || c == ' ' || c == '\t' || c == '\n' || c == '\U{000B}' || c == '\U{000C}' || c == '\r'
    || ('\U{001C}' <= c <= '\U{001F}') || c == '\U{0085}' || c == '\U{00A0}' || c == '\U{1680}'
    || ('\U{2000}' <= c <= '\U{200A}') || c == '\U{2028}' || c == '\U{2029}' || c == '\U{202F}'
    || c == '\U{205F}' || c == '\U{3000}'
  }

  predicate IsUpper(c: char) { 'A' <= c <= 'Z' }

  /** Lower-casing, restricted to ASCII letters. */
  function LowerChar(c: char): char {
    if IsUpper(c) then (c as int + 32) as char else c
  }

  /** `s.lower()`, restricted to ASCII letters. */
  function Lower(s: string): (r: string)
    ensures |r| == |s|
  {
    seq(|s|, i requires 0 <= i < |s| => LowerChar(s[i]))
  }

  predicate NoUpper(s: string) {
    forall i :: 0 <= i < |s| ==> !IsUpper(s[i])
  }

  /** Neither end of `s` is whitespace. */
  predicate Stripped(s: string) {
    s == [] || (!IsSpace(s[0]) && !IsSpace(s[|s| - 1]))
  }

  /** Every whitespace character of `s` is a plain space, and none is followed by whitespace. */
  predicate SingleSpaced(s: string)
    decreases |s|
  {
    s == [] ||
    ((IsSpace(s[0]) ==> s[0] == ' ' && (|s| == 1 || !IsSpace(s[1]))) && SingleSpaced(s[1..]))
  }

  /** `s.lstrip()`. */
  function TrimLeft(s: string): string {
    if s != [] && IsSpace(s[0]) then TrimLeft(s[1..]) else s
  }

  /** `s.rstrip()`. */
  function TrimRight(s: string): string {
    if s != [] && IsSpace(s[|s| - 1]) then TrimRight(s[..|s| - 1]) else s
  }

  /** `s.strip()`. */
  function Strip(s: string): string {
    TrimRight(TrimLeft(s))
  }

  /** `lstrip` removes exactly the leading whitespace: a suffix remains that starts with none. */
  lemma {:induction false} TrimLeftShape(s: string)
    ensures var r := TrimLeft(s);
      && |r| <= |s| && r == s[|s| - |r|..]
      && (r == [] || !IsSpace(r[0]))
      && (forall i :: 0 <= i < |s| - |r| ==> IsSpace(s[i]))
  {
    if s != [] && IsSpace(s[0]) {
      var t := s[1..];
      TrimLeftShape(t);
      var r := TrimLeft(t);
      assert t[|t| - |r|..] == s[|s| - |r|..];
      forall i | 0 <= i < |s| - |r| ensures IsSpace(s[i]) {
        if i > 0 { assert s[i] == t[i - 1]; }
      }
    }
  }

  /** `rstrip` removes exactly the trailing whitespace: a prefix remains that ends with none. */
  lemma {:induction false} TrimRightShape(s: string)
    ensures var r := TrimRight(s);
      && |r| <= |s| && r == s[..|r|]
      && (r == [] || !IsSpace(r[|r| - 1]))
      && (forall i :: |r| <= i < |s| ==> IsSpace(s[i]))
  {
    if s != [] && IsSpace(s[|s| - 1]) {
      var t := s[..|s| - 1];
      TrimRightShape(t);
      var r := TrimRight(t);
      assert t[..|r|] == s[..|r|];
      forall i | |r| <= i < |s| ensures IsSpace(s[i]) {
        if i < |s| - 1 { assert s[i] == t[i]; }
      }
    }
  }

  /** `strip` leaves no whitespace at either end, and keeps a slice of its input. */
  lemma StripShape(s: string)
    ensures Stripped(Strip(s))
    ensures exists i, j :: 0 <= i <= j <= |s| && Strip(s) == s[i..j]
  {
    var l := TrimLeft(s);
    TrimLeftShape(s);
    TrimRightShape(l);
    var r := TrimRight(l);
    assert r == s[|s| - |l|..][..|r|] == s[|s| - |l|..|s| - |l| + |r|];
    if r != [] {
      assert r[0] == l[0];
    }
  }

  lemma {:induction false} StripOfStripped(s: string)
    requires Stripped(s)
    ensures Strip(s) == s
  {
  }

  lemma LowerOfNoUpper(s: string)
    requires NoUpper(s)
    ensures Lower(s) == s
  {
  }

  /** `re.sub(r'\s+', ' ', s)`: every maximal run of whitespace becomes one space. */
  function CollapseSpaces(s: string): string
    decreases |s|
  {
    if s == [] then []
    else if IsSpace(s[0]) then
      TrimLeftShape(s);
      [' '] + CollapseSpaces(TrimLeft(s))
    else [s[0]] + CollapseSpaces(s[1..])
  }

  /**
   * After collapsing, whitespace is single plain spaces; the ends are
   * whitespace only if they were before; no upper-case letter appears.
   */
  lemma {:induction false} CollapseSpacesShape(s: string)
    ensures var r := CollapseSpaces(s);
      && SingleSpaced(r)
      && ((s == [] || !IsSpace(s[0])) ==> (r == [] || !IsSpace(r[0])))
      && ((s == [] || !IsSpace(s[|s| - 1])) ==> (r == [] || !IsSpace(r[|r| - 1])))
      && (s == [] <==> r == [])
      && (NoUpper(s) ==> NoUpper(r))
    decreases |s|
  {
    if s != [] {
      if IsSpace(s[0]) {
        var t := TrimLeft(s);
        TrimLeftShape(s);
        CollapseSpacesShape(t);
        SingleSpacedCons(' ', CollapseSpaces(t));
        if !IsSpace(s[|s| - 1]) {
          assert t != [] && t[|t| - 1] == s[|s| - 1];
        }
      } else {
        CollapseSpacesShape(s[1..]);
        SingleSpacedCons(s[0], CollapseSpaces(s[1..]));
      }
    }
  }

  lemma SingleSpacedCons(x: char, s: string)
    requires SingleSpaced(s)
    requires IsSpace(x) ==> x == ' ' && (s == [] || !IsSpace(s[0]))
    ensures SingleSpaced([x] + s)
  {
    assert ([x] + s)[1..] == s;
  }

  lemma {:induction false} CollapseOfSingleSpaced(s: string)
    requires SingleSpaced(s)
    ensures CollapseSpaces(s) == s
    decreases |s|
  {
    if s != [] {
      if IsSpace(s[0]) {
        assert TrimLeft(s[1..]) == s[1..];
      }
      CollapseOfSingleSpaced(s[1..]);
    }
  }

  /** Whether `pat` occurs in `s` at index `i`. */
  predicate IsAt(s: string, pat: string, i: int) {
    0 <= i && i + |pat| <= |s| && s[i..i + |pat|] == pat
  }

  /** The first index at or after `from` where `pat` occurs in `s`: `s.find(pat, from)`. */
  function FindFrom(s: string, pat: string, from: nat): (r: int)
    ensures r == -1 || (from <= r && IsAt(s, pat, r))
    ensures forall j :: from <= j && (r == -1 || j < r) ==> !IsAt(s, pat, j)
    decreases |s| - from
  {
    if from + |pat| > |s| then -1
    else if s[from..from + |pat|] == pat then from
    else FindFrom(s, pat, from + 1)
  }

  /** The first occurrence at or after `from` is the one at `m` when none lies between. */
  lemma FindFromIs(s: string, pat: string, from: nat, m: nat)
    requires from <= m && IsAt(s, pat, m)
    requires forall j :: from <= j < m ==> !IsAt(s, pat, j)
    ensures FindFrom(s, pat, from) == m
  {
  }

  /** `pat in s` for strings. */
  predicate Contains(s: string, pat: string) {
    FindFrom(s, pat, 0) != -1
  }

  lemma ContainsAt(s: string, pat: string, i: int)
    requires IsAt(s, pat, i)
    ensures Contains(s, pat)
  {
  }

  /** `re.split('[...]', s)` for a character class `seps`; `s.split(c)` when `seps == {c}`. */
  function SplitOn(s: string, seps: set<char>): (r: seq<string>)
    ensures |r| >= 1
    decreases |s|
  {
    if s == [] then [[]]
    else if s[0] in seps then [[]] + SplitOn(s[1..], seps)
    else var rest := SplitOn(s[1..], seps); [[s[0]] + rest[0]] + rest[1..]
  }

  /** No character of `s` is in `cs`. */
  predicate NoneOf(s: string, cs: set<char>) {
    forall i :: 0 <= i < |s| ==> s[i] !in cs
  }

  /** No piece of a split holds a separator. */
  lemma {:induction false} SplitOnPieces(s: string, seps: set<char>)
    ensures forall k :: 0 <= k < |SplitOn(s, seps)| ==> NoneOf(SplitOn(s, seps)[k], seps)
    decreases |s|
  {
    if s != [] {
      SplitOnPieces(s[1..], seps);
      var rest := SplitOn(s[1..], seps);
      var r := SplitOn(s, seps);
      forall k | 0 <= k < |r| ensures NoneOf(r[k], seps) {
        if s[0] in seps {
          if k > 0 {
            assert r[k] == rest[k - 1];
          }
        } else if k == 0 {
          assert NoneOf(rest[0], seps);
          assert r[0] == [s[0]] + rest[0];
        } else {
          assert r[k] == rest[k];
        }
      }
    }
  }

  /** `sep.join(pieces)`. */
  function Join(pieces: seq<string>, sep: string): string {
    if pieces == [] then []
    else if |pieces| == 1 then pieces[0]
    else pieces[0] + sep + Join(pieces[1..], sep)
  }

  /** Splitting on one character and joining with it gives the text back. */
  lemma {:induction false} JoinSplit(s: string, c: char)
    ensures Join(SplitOn(s, {c}), [c]) == s
    decreases |s|
  {
    if s != [] {
      JoinSplit(s[1..], c);
      var rest := SplitOn(s[1..], {c});
      if s[0] == c {
        JoinCons([], rest, [c]);
      } else {
        JoinExtendHead(s[0], rest, [c]);
      }
      assert s == [s[0]] + s[1..];
    }
  }

  lemma JoinCons(a: string, rest: seq<string>, sep: string)
    requires rest != []
    ensures Join([a] + rest, sep) == a + sep + Join(rest, sep)
  {
    assert ([a] + rest)[1..] == rest;
  }

  /** Prepending a character to the first piece prepends it to the joined text. */
  lemma JoinExtendHead(x: char, pieces: seq<string>, sep: string)
    requires pieces != []
    ensures Join([[x] + pieces[0]] + pieces[1..], sep) == [x] + Join(pieces, sep)
  {
    if |pieces| > 1 {
      JoinCons([x] + pieces[0], pieces[1..], sep);
      JoinCons(pieces[0], pieces[1..], sep);
      assert pieces == [pieces[0]] + pieces[1..];
    }
  }

  /** `s.replace(a, b)` for single characters. */
  function ReplaceChar(s: string, a: char, b: char): (r: string)
    ensures |r| == |s|
    ensures forall i :: 0 <= i < |s| ==> r[i] == (if s[i] == a then b else s[i])
  {
    seq(|s|, i requires 0 <= i < |s| => if s[i] == a then b else s[i])
  }

  /** The first `n` characters, `s[:n]` in Python. */
  function Prefix(s: string, n: nat): (r: string)
    ensures |r| == if |s| < n then |s| else n
  {
    if |s| <= n then s else s[..n]
  }

  // ---- Python's `sorted` on strings: code-point lexicographic order ----

  /** `a <= b` on Python strings. */
  predicate LexLe(a: string, b: string)
    decreases |a|
  {
    a == [] || (b != [] && (a[0] < b[0] || (a[0] == b[0] && LexLe(a[1..], b[1..]))))
  }

  lemma {:induction false} LexLeTotal(a: string, b: string)
    ensures LexLe(a, b) || LexLe(b, a)
    decreases |a|
  {
    if a != [] && b != [] && a[0] == b[0] {
      LexLeTotal(a[1..], b[1..]);
    }
  }

  lemma {:induction false} LexLeTrans(a: string, b: string, c: string)
    requires LexLe(a, b) && LexLe(b, c)
    ensures LexLe(a, c)
    decreases |a|
  {
    if a != [] && a[0] == b[0] && b[0] == c[0] {
      LexLeTrans(a[1..], b[1..], c[1..]);
    }
  }

  predicate Sorted(s: seq<string>) {
    forall i, j :: 0 <= i < j < |s| ==> LexLe(s[i], s[j])
  }

  /** Inserting `x` before the first element it does not exceed. */
  function Insert(x: string, s: seq<string>): seq<string> {
    if s == [] then [x]
    else if LexLe(x, s[0]) then [x] + s
    else [s[0]] + Insert(x, s[1..])
  }

  lemma {:induction false} InsertPerm(x: string, s: seq<string>)
    ensures multiset(Insert(x, s)) == multiset(s) + multiset{x}
  {
    if s != [] && !LexLe(x, s[0]) {
      InsertPerm(x, s[1..]);
      assert s == [s[0]] + s[1..];
    }
  }

  /** Every element of `s` is at least `y`. */
  predicate AllAtLeast(y: string, s: seq<string>) {
    forall j :: 0 <= j < |s| ==> LexLe(y, s[j])
  }

  lemma {:induction false} InsertAtLeast(y: string, x: string, s: seq<string>)
    requires LexLe(y, x) && AllAtLeast(y, s)
    ensures AllAtLeast(y, Insert(x, s))
  {
    if s != [] && !LexLe(x, s[0]) {
      InsertAtLeast(y, x, s[1..]);
    }
  }

  /** A sorted list with a first element no greater than the rest is sorted. */
  lemma SortedCons(y: string, t: seq<string>)
    requires AllAtLeast(y, t) && Sorted(t)
    ensures Sorted([y] + t)
  {
    var r := [y] + t;
    forall a, b | 0 <= a < b < |r| ensures LexLe(r[a], r[b]) {
      if a > 0 { assert r[a] == t[a - 1] && r[b] == t[b - 1]; }
      else { assert r[b] == t[b - 1]; }
    }
  }

  lemma {:induction false} InsertSorted(x: string, s: seq<string>)
    requires Sorted(s)
    ensures Sorted(Insert(x, s))
  {
    if s == [] {
    } else if LexLe(x, s[0]) {
      forall j | 0 <= j < |s| ensures LexLe(x, s[j]) {
        if j > 0 { LexLeTrans(x, s[0], s[j]); }
      }
      SortedCons(x, s);
    } else {
      LexLeTotal(x, s[0]);
      InsertSorted(x, s[1..]);
      assert AllAtLeast(s[0], s[1..]);
      InsertAtLeast(s[0], x, s[1..]);
      SortedCons(s[0], Insert(x, s[1..]));
    }
  }

  /** `sorted(s)` for a list of strings. */
  function Sort(s: seq<string>): (r: seq<string>)
    ensures Sorted(r)
    ensures multiset(r) == multiset(s)
  {
    if s == [] then []
    else
      var t := Sort(s[1..]);
      InsertSorted(s[0], t);
      InsertPerm(s[0], t);
      assert multiset(s) == multiset(s[1..]) + multiset{s[0]} by {
        assert s == [s[0]] + s[1..];
      }
      Insert(s[0], t)
  }

  // ---- decimal formatting of integers, as `str(n)` / f"{n}" ----

  function DigitChar(d: nat): char
    requires d < 10
  {
    ('0' as int + d) as char
  }

  function DigitValue(c: char): nat {
    if '0' <= c <= '9' then (c as int - '0' as int) else 0
  }

  /** The decimal digits of `n`, without leading zeros. */
  function NatToString(n: nat): (r: string)
    ensures r != []
    ensures forall i :: 0 <= i < |r| ==> '0' <= r[i] <= '9'
    ensures n >= 10 ==> r[0] != '0'
  {
    if n < 10 then [DigitChar(n)] else NatToString(n / 10) + [DigitChar(n % 10)]
  }

  /** `str(n)` for any integer. */
  function IntToString(n: int): string {
    if n < 0 then "-" + NatToString(-n) else NatToString(n)
  }

  /** The value of a string of decimal digits. */
  function ParseDigits(s: string): nat {
    if s == [] then 0 else ParseDigits(s[..|s| - 1]) * 10 + DigitValue(s[|s| - 1])
  }

  /** Formatting a natural number and reading it back gives the number. */
  lemma {:induction false} ParseNatToString(n: nat)
    ensures ParseDigits(NatToString(n)) == n
  {
    if n >= 10 {
      ParseNatToString(n / 10);
      var s := NatToString(n);
      assert s[..|s| - 1] == NatToString(n / 10);
      assert DigitValue(s[|s| - 1]) == n % 10;
      assert (n / 10) * 10 + n % 10 == n;
    }
  }

  /** `f"{n:02d}"` for a natural number: at least two digits, zero-padded. */
  function Pad2(n: nat): (r: string)
    ensures |r| >= 2
    ensures ParseDigits(r) == n
  {
    ParseNatToString(n);
    if n < 10 then
      assert ParseDigits("0" + NatToString(n)) == n by {
        assert ("0" + NatToString(n))[..1] == "0";
      }
      "0" + NatToString(n)
    else NatToString(n)
  }
}

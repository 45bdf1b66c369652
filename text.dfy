/**
 * String operations the harness relies on, stated on `seq<char>`:
 * prefixes and suffixes, Python's substring test, `os.path.basename`,
 * `os.path.join`, `str.strip`, `str.split(sep)`, Rust's `split_whitespace`
 * and `u64::from_str`, and the lexicographic order that both Python's
 * `sorted` and Rust's `sort` use on file names.
 */
module Text {
  import opened Wrappers

  // ---------------------------------------------------------------------
  // Prefixes, suffixes, substrings
  // ---------------------------------------------------------------------

  predicate StartsWith(s: string, prefix: string) {
    |prefix| <= |s| && s[..|prefix|] == prefix
  }

  predicate EndsWith(s: string, suffix: string) {
    |suffix| <= |s| && s[|s| - |suffix|..] == suffix
  }

  /** Python's `sub in s`: true when `sub` occurs anywhere in `s` (always for ""). */
  predicate Contains(s: string, sub: string)
    decreases |s|
  {
    StartsWith(s, sub) || (|s| > 0 && Contains(s[1..], sub))
  }

  /** `sub` occurs in `s` starting at index `i`. */
  predicate OccursAt(s: string, sub: string, i: nat) {
    i + |sub| <= |s| && s[i..i + |sub|] == sub
  }

  lemma {:induction false} ContainsAt(s: string, sub: string, i: nat)
    requires OccursAt(s, sub, i)
    ensures Contains(s, sub)
    decreases i
  {
    if i > 0 {
      assert s[1..][i - 1..i - 1 + |sub|] == sub;
      assert OccursAt(s[1..], sub, i - 1);
      ContainsAt(s[1..], sub, i - 1);
    }
  }

  lemma {:induction false} ContainsWitness(s: string, sub: string) returns (i: nat)
    requires Contains(s, sub)
    ensures OccursAt(s, sub, i)
    decreases |s|
  {
    if StartsWith(s, sub) {
      i := 0;
    } else {
      var j := ContainsWitness(s[1..], sub);
      i := j + 1;
      assert s[i..i + |sub|] == s[1..][j..j + |sub|];
    }
  }

  /** `Contains` is exactly "occurs at some position". */
  lemma ContainsIff(s: string, sub: string)
    ensures Contains(s, sub) <==> exists i: nat :: OccursAt(s, sub, i)
  {
    if Contains(s, sub) {
      var i := ContainsWitness(s, sub);
    }
    if exists i: nat :: OccursAt(s, sub, i) {
      var i: nat :| OccursAt(s, sub, i);
      ContainsAt(s, sub, i);
    }
  }

  /** The first `n` characters, or all of them (Python's `s[:n]`). */
  function Take(s: string, n: nat): (r: string)
    ensures |r| == if |s| < n then |s| else n
    ensures StartsWith(s, r)
  {
    if |s| <= n then s else s[..n]
  }

  // ---------------------------------------------------------------------
  // Paths
  // ---------------------------------------------------------------------

  /** `os.path.basename`: everything after the last '/'. */
  function Basename(p: string): string {
    if |p| == 0 then ""
    else if p[|p| - 1] == '/' then ""
    else Basename(p[..|p| - 1]) + [p[|p| - 1]]
  }

  /** The basename has no '/', ends the path, and is either the whole path or
      comes right after a '/'. */
  lemma {:induction false} BasenameMeaning(p: string)
    ensures '/' !in Basename(p)
    ensures EndsWith(p, Basename(p))
    ensures Basename(p) == p || p[|p| - |Basename(p)| - 1] == '/'
  {
    if |p| > 0 && p[|p| - 1] != '/' {
      BasenameMeaning(p[..|p| - 1]);
      SuffixSnoc(p, Basename(p[..|p| - 1]));
    }
  }

  /** A suffix of `p` without its last character, followed by that character, is
      a suffix of `p`. */
  lemma SuffixSnoc(p: string, b: string)
    requires |p| > 0 && EndsWith(p[..|p| - 1], b)
    ensures EndsWith(p, b + [p[|p| - 1]])
  {
    assert p == p[..|p| - 1] + [p[|p| - 1]];
    assert p[|p| - |b| - 1..] == p[..|p| - 1][|p| - 1 - |b|..] + [p[|p| - 1]];
  }

  /** `os.path.join(dir, name)` for two components. */
  function Join(dir: string, name: string): string {
    if StartsWith(name, "/") then name
    else if dir == [] || EndsWith(dir, "/") then dir + name
    else dir + "/" + name
  }

  /** A name without '/' is its own basename. */
  lemma {:induction false} BasenameNoSlash(name: string)
    requires '/' !in name
    ensures Basename(name) == name
  {
    if name != [] {
      BasenameNoSlash(name[..|name| - 1]);
      assert name == name[..|name| - 1] + [name[|name| - 1]];
    }
  }

  /** What follows the last '/' is the basename. */
  lemma {:induction false} BasenameAfterSlash(pre: string, name: string)
    requires '/' !in name
    ensures Basename(pre + "/" + name) == name
  {
    var p := pre + "/" + name;
    if name != [] {
      assert p[..|p| - 1] == pre + "/" + name[..|name| - 1];
      BasenameAfterSlash(pre, name[..|name| - 1]);
      assert name == name[..|name| - 1] + [name[|name| - 1]];
    } else {
      assert p[|p| - 1] == '/';
    }
  }

  /** A name without '/' joined to a directory keeps that name as its basename. */
  lemma BasenameOfJoin(dir: string, name: string)
    requires '/' !in name && name != []
    ensures Basename(Join(dir, name)) == name
  {
    assert !StartsWith(name, "/") by { assert name[0] in name; }
    if dir == [] {
      assert dir + name == name;
      BasenameNoSlash(name);
    } else if EndsWith(dir, "/") {
      assert dir == dir[..|dir| - 1] + "/";
      BasenameAfterSlash(dir[..|dir| - 1], name);
    } else {
      BasenameAfterSlash(dir, name);
    }
  }

  // ---------------------------------------------------------------------
  // Stripping
  // ---------------------------------------------------------------------

  function TrimLeft(s: string, drop: set<char>): string {
    if s == [] || s[0] !in drop then s else TrimLeft(s[1..], drop)
  }

  /** `TrimLeft` removes exactly the longest prefix made of `drop` characters. */
  lemma {:induction false} TrimLeftMeaning(s: string, drop: set<char>)
    ensures EndsWith(s, TrimLeft(s, drop))
    ensures TrimLeft(s, drop) == [] || TrimLeft(s, drop)[0] !in drop
    ensures forall i :: 0 <= i < |s| - |TrimLeft(s, drop)| ==> s[i] in drop
  {
    if s != [] && s[0] in drop {
      var t := s[1..];
      TrimLeftMeaning(t, drop);
      var r := TrimLeft(t, drop);
      assert TrimLeft(s, drop) == r;
      assert s[|s| - |r|..] == t[|t| - |r|..];
      forall i | 0 <= i < |s| - |r|
        ensures s[i] in drop
      {
        if i > 0 {
          assert s[i] == t[i - 1];
        }
      }
    }
  }

  function TrimRight(s: string, drop: set<char>): string {
    if s == [] || s[|s| - 1] !in drop then s else TrimRight(s[..|s| - 1], drop)
  }

  /** `TrimRight` removes exactly the longest suffix made of `drop` characters. */
  lemma {:induction false} TrimRightMeaning(s: string, drop: set<char>)
    ensures StartsWith(s, TrimRight(s, drop))
    ensures TrimRight(s, drop) == [] || TrimRight(s, drop)[|TrimRight(s, drop)| - 1] !in drop
    ensures forall i :: |TrimRight(s, drop)| <= i < |s| ==> s[i] in drop
  {
    if s != [] && s[|s| - 1] in drop {
      var t := s[..|s| - 1];
      TrimRightMeaning(t, drop);
      var r := TrimRight(t, drop);
      assert TrimRight(s, drop) == r;
      assert s[..|r|] == t[..|r|];
      forall i | |r| <= i < |s|
        ensures s[i] in drop
      {
        if i < |s| - 1 {
          assert s[i] == t[i];
        }
      }
    }
  }

  /** Python's `s.strip(chars)`: drop every leading and trailing character of `drop`. */
  function Strip(s: string, drop: set<char>): string {
    TrimRight(TrimLeft(s, drop), drop)
  }

  /** `r` sits at position `i` of `s`, and everything before and after it is a
      character of `drop`. */
  predicate StrippedAt(s: string, r: string, i: nat, drop: set<char>) {
    && OccursAt(s, r, i)
    && (forall k :: 0 <= k < i ==> s[k] in drop)
    && (forall k :: i + |r| <= k < |s| ==> s[k] in drop)
  }

  /** The stripped string is `s` with only leading and trailing characters of
      `drop` removed, and neither starts nor ends with one of them. */
  lemma StripMeaning(s: string, drop: set<char>)
    ensures var r := Strip(s, drop); r == [] || (r[0] !in drop && r[|r| - 1] !in drop)
    ensures exists i: nat :: StrippedAt(s, Strip(s, drop), i, drop)
  {
    var l := TrimLeft(s, drop);
    var r := TrimRight(l, drop);
    TrimLeftMeaning(s, drop);
    TrimRightMeaning(l, drop);
    if r != [] {
      assert r[0] == l[0];
    }
    var i := |s| - |l|;
    assert s[i..][..|r|] == r;
    assert s[i..i + |r|] == r;
    forall k | i + |r| <= k < |s|
      ensures s[k] in drop
    {
      assert s[k] == s[i..][k - i] == l[k - i];
    }
    assert StrippedAt(s, r, i, drop);
  }

  /** The characters Python's `str.strip()` and `str.isspace()` treat as blank
      (the Latin-1 part of Unicode's whitespace). */
  const PySpace: set<char> := {' ', '\t', '\n', '\r', '\U{B}', '\U{C}',
                               '\U{1C}', '\U{1D}', '\U{1E}', '\U{1F}', '\U{85}', '\U{A0}'}

  /** The characters Rust's `char::is_whitespace` accepts (Latin-1 part). */
  const RustSpace: set<char> := {' ', '\t', '\n', '\r', '\U{B}', '\U{C}', '\U{85}', '\U{A0}'}

  // ---------------------------------------------------------------------
  // Splitting
  // ---------------------------------------------------------------------

  /** Python's `s.split(sep)` for a one-character separator: never empty. */
  function Split(s: string, sep: char): (parts: seq<string>)
    ensures |parts| >= 1
    ensures forall k :: 0 <= k < |parts| ==> sep !in parts[k]
  {
    if s == [] then [""]
    else
      var rest := Split(s[1..], sep);
      if s[0] == sep then [""] + rest
      else [[s[0]] + rest[0]] + rest[1..]
  }

  /** `sep.join(parts)`. */
  function JoinWith(parts: seq<string>, sep: char): string
    requires |parts| >= 1
  {
    if |parts| == 1 then parts[0] else parts[0] + [sep] + JoinWith(parts[1..], sep)
  }

  /** Splitting loses nothing: joining the pieces gives the string back. */
  lemma {:induction false} SplitJoin(s: string, sep: char)
    ensures JoinWith(Split(s, sep), sep) == s
  {
    if s != [] {
      var rest := Split(s[1..], sep);
      SplitJoin(s[1..], sep);
      if s[0] != sep {
        if |rest| == 1 {
        } else {
          assert JoinWith(rest, sep) == rest[0] + [sep] + JoinWith(rest[1..], sep);
          assert ([[s[0]] + rest[0]] + rest[1..])[1..] == rest[1..];
        }
      }
    }
  }

  // ---------------------------------------------------------------------
  // Whitespace-separated tokens (Rust's `str::split_whitespace`)
  // ---------------------------------------------------------------------

  /** The longest prefix of `s` that holds no character of `space`. */
  function Word(s: string, space: set<char>): (w: string)
    ensures StartsWith(s, w)
    ensures forall c :: c in w ==> c !in space
    ensures |w| == |s| || s[|w|] in space
  {
    if s == [] || s[0] in space then [] else [s[0]] + Word(s[1..], space)
  }

  /** The maximal runs of non-space characters, in order. */
  function Tokens(s: string, space: set<char>): (ts: seq<string>)
    ensures forall k :: 0 <= k < |ts| ==> ts[k] != [] && forall c :: c in ts[k] ==> c !in space
    decreases |s|
  {
    if s == [] then []
    else if s[0] in space then Tokens(s[1..], space)
    else
      var w := Word(s, space);
      [w] + Tokens(s[|w|..], space)
  }

  lemma {:induction false} WordOfJoin(w: string, rest: string, space: set<char>)
    requires forall c :: c in w ==> c !in space
    requires rest == [] || rest[0] in space
    ensures Word(w + rest, space) == w
    decreases |w|
  {
    if w != [] {
      assert (w + rest)[1..] == w[1..] + rest;
      WordOfJoin(w[1..], rest, space);
    }
  }

  lemma {:induction false} TokensSkipSpace(pre: string, s: string, space: set<char>)
    requires forall c :: c in pre ==> c in space
    ensures Tokens(pre + s, space) == Tokens(s, space)
    decreases |pre|
  {
    if pre != [] {
      assert pre[0] in pre;
      assert (pre + s)[0] == pre[0] && (pre + s)[1..] == pre[1..] + s;
      assert forall c :: c in pre[1..] ==> c in pre;
      TokensSkipSpace(pre[1..], s, space);
      assert Tokens(pre + s, space) == Tokens((pre + s)[1..], space);
    } else {
      assert pre + s == s;
    }
  }

  /** Tokens of a word followed by blank space and more text. */
  lemma TokensCons(w: string, gap: string, rest: string, space: set<char>)
    requires w != [] && forall c :: c in w ==> c !in space
    requires gap != [] && forall c :: c in gap ==> c in space
    ensures Tokens(w + gap + rest, space) == [w] + Tokens(rest, space)
  {
    var s := w + gap + rest;
    assert s == w + (gap + rest);
    WordOfJoin(w, gap + rest, space);
    assert s[|w|..] == gap + rest;
    TokensSkipSpace(gap, rest, space);
  }

  // ---------------------------------------------------------------------
  // Decimal numbers (Rust's `u64::from_str`)
  // ---------------------------------------------------------------------

  const U64Limit: nat := 0x1_0000_0000_0000_0000

  predicate IsDigit(c: char) { '0' <= c <= '9' }

  predicate AllDigits(s: string) { forall i :: 0 <= i < |s| ==> IsDigit(s[i]) }

  function DigitValue(c: char): nat
    requires IsDigit(c)
  {
    (c - '0') as nat
  }

  /** The value of a string of decimal digits, most significant first. */
  function DecimalValue(s: string): nat
    requires AllDigits(s)
  {
    if s == [] then 0 else 10 * DecimalValue(s[..|s| - 1]) + DigitValue(s[|s| - 1])
  }

  /** `s.parse::<u64>()`: an optional '+', at least one digit, nothing else,
      and a value below 2^64. */
  function ParseU64(s: string): (r: Option<nat>)
    ensures r.Some? ==> r.value < U64Limit
  {
    var digits := if StartsWith(s, "+") then s[1..] else s;
    if digits == [] || !AllDigits(digits) then None
    else if DecimalValue(digits) >= U64Limit then None
    else Some(DecimalValue(digits))
  }

  function DigitChar(d: nat): (c: char)
    requires d < 10
    ensures IsDigit(c) && DigitValue(c) == d
  {
    ('0' as int + d) as char
  }

  /** The decimal rendering of `n` with no leading zeros ("0" for zero). */
  function NatToString(n: nat): (s: string)
    ensures s != [] && AllDigits(s)
    ensures s[0] != '+'
  {
    if n < 10 then [DigitChar(n)] else NatToString(n / 10) + [DigitChar(n % 10)]
  }

  lemma {:induction false} DecimalOfNatToString(n: nat)
    ensures DecimalValue(NatToString(n)) == n
  {
    if n >= 10 {
      DecimalOfNatToString(n / 10);
      var s := NatToString(n);
      assert s[..|s| - 1] == NatToString(n / 10);
    }
  }

  /** Printing a 64-bit number and parsing it back gives the number. */
  lemma ParseNatToString(n: nat)
    requires n < U64Limit
    ensures ParseU64(NatToString(n)) == Some(n)
  {
    var s := NatToString(n);
    assert !StartsWith(s, "+") by {
      assert s[..1][0] == s[0] != '+';
    }
    DecimalOfNatToString(n);
  }

  // ---------------------------------------------------------------------
  // Lexicographic order on strings
  // ---------------------------------------------------------------------

  /** `a <= b` on Python strings (code points) and on Rust file names (UTF-8
      bytes, which order the same way). */
  predicate LexLe(a: string, b: string)
    decreases |a|
  {
    if a == [] then true
    else if b == [] then false
    else if a[0] != b[0] then a[0] < b[0]
    else LexLe(a[1..], b[1..])
  }

  predicate LexLt(a: string, b: string) { LexLe(a, b) && a != b }

  lemma LexLeTotal(a: string, b: string)
    ensures LexLe(a, b) || LexLe(b, a)
  {}

  lemma {:induction false} LexLeAntisym(a: string, b: string)
    requires LexLe(a, b) && LexLe(b, a)
    ensures a == b
    decreases |a|
  {
    if a != [] && b != [] {
      LexLeAntisym(a[1..], b[1..]);
      assert a == [a[0]] + a[1..] && b == [b[0]] + b[1..];
    }
  }

  lemma {:induction false} LexLeTrans(a: string, b: string, c: string)
    requires LexLe(a, b) && LexLe(b, c)
    ensures LexLe(a, c)
    decreases |a|
  {
    if a != [] && b != [] && c != [] && a[0] == b[0] && b[0] == c[0] {
      LexLeTrans(a[1..], b[1..], c[1..]);
    }
  }

  predicate SortedStrings(s: seq<string>) {
    forall i, j :: 0 <= i < j < |s| ==> LexLe(s[i], s[j])
  }

  predicate StrictlySortedStrings(s: seq<string>) {
    forall i, j :: 0 <= i < j < |s| ==> LexLt(s[i], s[j])
  }

  /** Insert `x` after every leading element that is not above it. */
  function Insert(x: string, s: seq<string>): seq<string> {
    if s == [] then [x]
    else if LexLe(x, s[0]) then [x] + s
    else [s[0]] + Insert(x, s[1..])
  }

  /** Putting in front of a sorted list a string not above any of its strings keeps it sorted. */
  lemma SortedCons(a: string, s: seq<string>)
    requires SortedStrings(s)
    requires forall k :: 0 <= k < |s| ==> LexLe(a, s[k])
    ensures SortedStrings([a] + s)
  {
    var r := [a] + s;
    forall i, j | 0 <= i < j < |r| ensures LexLe(r[i], r[j]) {
      assert r[j] == s[j - 1];
      if i > 0 {
        assert r[i] == s[i - 1];
      }
    }
  }

  /** Inserting adds exactly `x`. */
  lemma {:induction false} InsertPerm(x: string, s: seq<string>)
    ensures multiset(Insert(x, s)) == multiset(s) + multiset{x}
  {
    if s != [] && !LexLe(x, s[0]) {
      InsertPerm(x, s[1..]);
      assert s == [s[0]] + s[1..];
    }
  }

  /** Inserting into a sorted list keeps it sorted and adds exactly `x`. */
  lemma {:induction false} InsertMeaning(x: string, s: seq<string>)
    requires SortedStrings(s)
    ensures SortedStrings(Insert(x, s))
    ensures multiset(Insert(x, s)) == multiset(s) + multiset{x}
  {
    InsertPerm(x, s);
    if s == [] {
    } else if LexLe(x, s[0]) {
      forall j | 0 <= j < |s| ensures LexLe(x, s[j]) {
        if j > 0 { LexLeTrans(x, s[0], s[j]); }
      }
      SortedCons(x, s);
    } else {
      var t := s[1..];
      var rest := Insert(x, t);
      assert SortedStrings(t) by {
        forall i, j | 0 <= i < j < |t| ensures LexLe(t[i], t[j]) {
          assert t[i] == s[i + 1] && t[j] == s[j + 1];
        }
      }
      InsertMeaning(x, t);
      LexLeTotal(x, s[0]);
      forall k | 0 <= k < |rest| ensures LexLe(s[0], rest[k]) {
        assert rest[k] in multiset(rest);
        if rest[k] != x {
          assert rest[k] in multiset(t);
          var m :| 0 <= m < |t| && t[m] == rest[k];
          assert s[m + 1] == rest[k];
        }
      }
      SortedCons(s[0], rest);
    }
  }

  /** Python's `sorted(names)` and Rust's `names.sort()` on strings. */
  function Sort(s: seq<string>): seq<string> {
    if s == [] then [] else Insert(s[|s| - 1], Sort(s[..|s| - 1]))
  }

  /** Sorting keeps exactly the strings it is given. */
  lemma {:induction false} SortPerm(s: seq<string>)
    ensures multiset(Sort(s)) == multiset(s)
  {
    if s != [] {
      var init := s[..|s| - 1];
      SortPerm(init);
      InsertPerm(s[|s| - 1], Sort(init));
      assert s == init + [s[|s| - 1]];
    }
  }

  /** The sorted list is in lexicographic order and a permutation of its input. */
  lemma {:induction false} SortMeaning(s: seq<string>)
    ensures SortedStrings(Sort(s))
    ensures multiset(Sort(s)) == multiset(s)
  {
    if s != [] {
      var init := s[..|s| - 1];
      SortMeaning(init);
      InsertMeaning(s[|s| - 1], Sort(init));
      assert s == init + [s[|s| - 1]];
    }
  }

  /** Insert `x` unless it is already present. */
  function InsertUnique(x: string, s: seq<string>): (r: seq<string>)
    requires StrictlySortedStrings(s)
    ensures StrictlySortedStrings(r)
    ensures forall y :: y in r <==> y == x || y in s
  {
    if s == [] then [x]
    else if x == s[0] then s
    else if LexLe(x, s[0]) then
      assert forall j :: 0 <= j < |s| ==> LexLt(x, s[j]) by {
        forall j | 0 <= j < |s| ensures LexLt(x, s[j]) {
          if j > 0 {
            LexLeTrans(x, s[0], s[j]);
            if x == s[j] { LexLeAntisym(s[0], s[j]); }
          }
        }
      }
      [x] + s
    else
      var rest := InsertUnique(x, s[1..]);
      LexLeTotal(x, s[0]);
      assert s == [s[0]] + s[1..];
      assert forall k :: 0 <= k < |rest| ==> LexLt(s[0], rest[k]) by {
        forall k | 0 <= k < |rest| ensures LexLt(s[0], rest[k]) {
          assert rest[k] in rest;
        }
      }
      [s[0]] + rest
  }

  /** Python's `sorted(set(names))`: each distinct name once, ascending. */
  function SortedDistinct(s: seq<string>): (r: seq<string>)
    ensures StrictlySortedStrings(r)
    ensures forall y :: y in r <==> y in s
  {
    if s == [] then [] else
      assert s == s[..|s| - 1] + [s[|s| - 1]];
      InsertUnique(s[|s| - 1], SortedDistinct(s[..|s| - 1]))
  }
}

/** String helpers shared by the dashboard and the tool server: substring
    search (`includes`), `split` on a separator character, ASCII case mapping
    and the lexicographic order used for every sort in the system. */
module Strings {
  import opened Wrappers

  /** `t` occurs in `s` as a contiguous block: JavaScript's `s.includes(t)`. */
  predicate Contains(s: string, t: string) {
    exists i | 0 <= i <= |s| - |t| :: OccursAt(s, t, i)
  }

  /** A possibly missing string that is present and non-empty: the strings
      JavaScript treats as true in a condition. */
  predicate IsSet(o: Option<string>) {
    o.Some? && o.value != ""
  }

  /** `t` occurs in `s` starting at position `i`. */
  predicate OccursAt(s: string, t: string, i: int) {
    0 <= i <= |s| - |t| && s[i..i + |t|] == t
  }

  lemma ContainsAt(s: string, t: string, i: nat)
    requires i + |t| <= |s| && s[i..i + |t|] == t
    ensures Contains(s, t)
  {
    assert OccursAt(s, t, i);
  }

  /** A character of `t` that never occurs in `s` rules out `t` occurring in `s`. */
  lemma NotContainsByChar(s: string, t: string, c: char)
    requires c in t && c !in s
    ensures !Contains(s, t)
  {
    var k :| 0 <= k < |t| && t[k] == c;
    forall i | 0 <= i <= |s| - |t| ensures !OccursAt(s, t, i) {
      assert s[i + k] in s;
      assert s[i..i + |t|][k] == s[i + k];
    }
  }

  lemma ContainsInPrefix(s: string, t: string, u: string)
    requires Contains(s, t)
    ensures Contains(s + u, t)
  {
    var i :| 0 <= i <= |s| - |t| && OccursAt(s, t, i);
    assert (s + u)[i..i + |t|] == s[i..i + |t|];
    assert OccursAt(s + u, t, i);
  }

  // ---------------------------------------------------------------------
  // ASCII case mapping (`toLowerCase`, `toUpperCase` on ASCII letters)
  // ---------------------------------------------------------------------

  predicate IsUpper(c: char) { 'A' <= c <= 'Z' }

  predicate IsLower(c: char) { 'a' <= c <= 'z' }

  function LowerChar(c: char): char {
    if IsUpper(c) then (c as int + 32) as char else c
  }

  function UpperChar(c: char): char {
    if IsLower(c) then (c as int - 32) as char else c
  }

  /** `s.toLowerCase()`: every ASCII capital replaced by its small letter. */
  function ToLower(s: string): (r: string)
    ensures |r| == |s|
    ensures forall i :: 0 <= i < |s| ==> r[i] == LowerChar(s[i])
  {
    if |s| == 0 then "" else [LowerChar(s[0])] + ToLower(s[1..])
  }

  /** A string without capitals is its own lower-case form. */
  lemma ToLowerOfLower(s: string)
    requires forall c | c in s :: !IsUpper(c)
    ensures ToLower(s) == s
  {
    forall i | 0 <= i < |s| ensures ToLower(s)[i] == s[i] {
      assert s[i] in s;
    }
  }

  /** Lower-casing is idempotent. */
  lemma ToLowerIdempotent(s: string)
    ensures ToLower(ToLower(s)) == ToLower(s)
  {
  }

  /** `s.charAt(0).toUpperCase() + s.slice(1)`. */
  function UpperFirst(s: string): (r: string)
    ensures |r| == |s|
    ensures |s| > 0 ==> r[0] == UpperChar(s[0]) && r[1..] == s[1..]
  {
    if |s| == 0 then "" else [UpperChar(s[0])] + s[1..]
  }

  /** `s.replace(/x/g, y)` for single characters `x` and `y`. */
  function ReplaceAll(s: string, x: char, y: char): (r: string)
    ensures |r| == |s|
    ensures forall i :: 0 <= i < |s| ==> r[i] == (if s[i] == x then y else s[i])
  {
    if |s| == 0 then "" else [if s[0] == x then y else s[0]] + ReplaceAll(s[1..], x, y)
  }

  // ---------------------------------------------------------------------
  // `split` on a separator character
  // ---------------------------------------------------------------------

  /** Position of the first `c` in `s`, if any. */
  function IndexOf(s: string, c: char): (r: Option<nat>)
    ensures r.None? <==> c !in s
    ensures r.Some? ==> r.value < |s| && s[r.value] == c && c !in s[..r.value]
  {
    if |s| == 0 then None
    else if s[0] == c then Some(0)
    else match IndexOf(s[1..], c)
      case None => None
      case Some(i) =>
        assert s[..i + 1] == [s[0]] + s[1..][..i];
        Some(i + 1)
  }

  /** A position holding `c` with no `c` before it is what IndexOf finds. */
  lemma IndexOfUnique(s: string, c: char, j: nat)
    requires j < |s| && s[j] == c && c !in s[..j]
    ensures IndexOf(s, c) == Some(j)
  {
  }

  /** `s.split(sep)`: the maximal `sep`-free pieces of `s`, in order; never empty. */
  function Split(s: string, sep: char): (r: seq<string>)
    ensures |r| >= 1
    ensures forall k :: 0 <= k < |r| ==> sep !in r[k]
    decreases |s|
  {
    match IndexOf(s, sep)
    case None => [s]
    case Some(i) => [s[..i]] + Split(s[i + 1..], sep)
  }

  /** `parts.join(sep)`. */
  function Join(parts: seq<string>, sep: char): string
    requires |parts| >= 1
  {
    if |parts| == 1 then parts[0] else parts[0] + [sep] + Join(parts[1..], sep)
  }

  /** Joining the pieces of a split gives back the string. */
  lemma {:induction false} JoinSplit(s: string, sep: char)
    ensures Join(Split(s, sep), sep) == s
    decreases |s|
  {
    match IndexOf(s, sep)
    case None =>
    case Some(i) =>
      var tail := s[i + 1..];
      JoinSplit(tail, sep);
      SplitAt(s, sep, i);
      JoinCons(s[..i], Split(tail, sep), sep);
      assert s == s[..i] + [sep] + tail;
  }

  lemma SplitAt(s: string, sep: char, i: nat)
    requires IndexOf(s, sep) == Some(i)
    ensures i < |s| && Split(s, sep) == [s[..i]] + Split(s[i + 1..], sep)
  {
    assert i < |s|;
  }

  lemma JoinCons(part: string, rest: seq<string>, sep: char)
    requires |rest| >= 1
    ensures Join([part] + rest, sep) == part + [sep] + Join(rest, sep)
  {
    assert ([part] + rest)[1..] == rest;
  }

  /** Splitting a join of separator-free pieces gives back the pieces. */
  lemma {:induction false} SplitJoin(parts: seq<string>, sep: char)
    requires |parts| >= 1
    requires forall k :: 0 <= k < |parts| ==> sep !in parts[k]
    ensures Split(Join(parts, sep), sep) == parts
  {
    if |parts| == 1 {
      assert IndexOf(parts[0], sep).None?;
    } else {
      var p := parts[0];
      var rest := Join(parts[1..], sep);
      var s := p + [sep] + rest;
      assert Join(parts, sep) == s;
      assert s[..|p|] == p;
      IndexOfUnique(s, sep, |p|);
      assert s[|p| + 1..] == rest;
      SplitJoin(parts[1..], sep);
      assert Split(s, sep) == [p] + Split(rest, sep);
      assert parts == [p] + parts[1..];
    }
  }

  /** `s.split(sep)[0]`: the text before the first `sep`, or all of `s`. */
  function FirstPiece(s: string, sep: char): (r: string)
    ensures sep !in r
    ensures |r| <= |s| && s[..|r|] == r
    ensures |r| == |s| || s[|r|] == sep
  {
    var parts := Split(s, sep);
    JoinSplit(s, sep);
    assert |parts| > 1 ==> Join(parts, sep) == parts[0] + [sep] + Join(parts[1..], sep);
    parts[0]
  }

  /** The first piece is determined by the three facts FirstPiece promises. */
  lemma FirstPieceUnique(s: string, sep: char, p: string)
    requires sep !in p
    requires |p| <= |s| && s[..|p|] == p
    requires |p| == |s| || s[|p|] == sep
    ensures FirstPiece(s, sep) == p
  {
    var r := FirstPiece(s, sep);
    assert |r| == |p|;
  }

  /** The first piece of `p + sep + rest`, for a `sep`-free `p`, is `p`. */
  lemma FirstPieceOfQualified(p: string, sep: char, rest: string)
    requires sep !in p
    ensures FirstPiece(p + [sep] + rest, sep) == p
  {
    FirstPieceUnique(p + [sep] + rest, sep, p);
  }

  /** A `sep`-free string is its own first piece. */
  lemma FirstPieceOfPlain(p: string, sep: char)
    requires sep !in p
    ensures FirstPiece(p, sep) == p
  {
    FirstPieceUnique(p, sep, p);
  }

  /** `s.split(sep)[1]`: the second piece, absent when `s` has no `sep`. */
  function SecondPiece(s: string, sep: char): (r: Option<string>)
    ensures r.None? <==> sep !in s
    ensures r.Some? ==> |FirstPiece(s, sep)| < |s| && r.value == FirstPiece(s[|FirstPiece(s, sep)| + 1..], sep)
  {
    var parts := Split(s, sep);
    match IndexOf(s, sep)
    case None => None
    case Some(i) =>
      assert parts == [s[..i]] + Split(s[i + 1..], sep);
      Some(parts[1])
  }

  /** The second piece of `p + sep + q + ...` is `q`. */
  lemma SecondPieceOfQualified(p: string, sep: char, q: string, rest: seq<string>)
    requires sep !in p && sep !in q
    requires forall k :: 0 <= k < |rest| ==> sep !in rest[k]
    ensures SecondPiece(Join([p, q] + rest, sep), sep) == Some(q)
  {
    SplitJoin([p, q] + rest, sep);
  }

  // ---------------------------------------------------------------------
  // Lexicographic order by character code
  // ---------------------------------------------------------------------

  /** `a` sorts no later than `b`, comparing character codes left to right. */
  predicate LexLe(a: string, b: string)
    decreases |a|
  {
    |a| == 0 || (|b| > 0 && (a[0] < b[0] || (a[0] == b[0] && LexLe(a[1..], b[1..]))))
  }

  lemma LexLeTotal(a: string, b: string)
    ensures LexLe(a, b) || LexLe(b, a)
    decreases |a|
  {
    if |a| > 0 && |b| > 0 && a[0] == b[0] {
      LexLeTotal(a[1..], b[1..]);
    }
  }

  lemma LexLeTransitive(a: string, b: string, c: string)
    requires LexLe(a, b) && LexLe(b, c)
    ensures LexLe(a, c)
    decreases |a|
  {
    if |a| > 0 && a[0] == b[0] && b[0] == c[0] {
      LexLeTransitive(a[1..], b[1..], c[1..]);
    }
  }

  lemma LexLeAntisymmetric(a: string, b: string)
    requires LexLe(a, b) && LexLe(b, a)
    ensures a == b
    decreases |a|
  {
    if |a| > 0 {
      LexLeAntisymmetric(a[1..], b[1..]);
      assert a == [a[0]] + a[1..] && b == [b[0]] + b[1..];
    }
  }

  /** Order on pairs: first components by LexLe, ties broken on the second
      (SQL `ORDER BY x, y`, and a comparator that falls through on equality). */
  predicate PairLe(a1: string, a2: string, b1: string, b2: string) {
    if a1 != b1 then LexLe(a1, b1) else LexLe(a2, b2)
  }

  lemma PairLeTotal(a1: string, a2: string, b1: string, b2: string)
    ensures PairLe(a1, a2, b1, b2) || PairLe(b1, b2, a1, a2)
  {
    LexLeTotal(a1, b1);
    LexLeTotal(a2, b2);
  }

  lemma PairLeTransitive(a1: string, a2: string, b1: string, b2: string, c1: string, c2: string)
    requires PairLe(a1, a2, b1, b2) && PairLe(b1, b2, c1, c2)
    ensures PairLe(a1, a2, c1, c2)
  {
    if a1 != b1 && b1 != c1 {
      LexLeTransitive(a1, b1, c1);
      if a1 == c1 { LexLeAntisymmetric(a1, b1); }
    } else if a1 != b1 {
    } else if b1 != c1 {
    } else {
      LexLeTransitive(a2, b2, c2);
    }
  }

  // ---------------------------------------------------------------------
  // Decimal rendering (template literals with a number)
  // ---------------------------------------------------------------------

  function DigitChar(d: nat): char
    requires d < 10
  {
    ('0' as int + d) as char
  }

  /** `String(n)` for a natural number. */
  function NatToString(n: nat): (r: string)
    ensures |r| >= 1
    ensures forall c | c in r :: '0' <= c <= '9'
  {
    if n < 10 then [DigitChar(n)] else NatToString(n / 10) + [DigitChar(n % 10)]
  }
}

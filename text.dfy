/**
 * The string operations of Python and JavaScript that the core relies on:
 * substring search, `split`, `join`, `replace`, `strip` and lower-casing.
 */
module Text {
  import opened PyValues

  /** `p` occurs in `s` starting at index `i`. */
  predicate OccursAt(s: string, p: string, i: int)
  {
    0 <= i && i + |p| <= |s| && s[i..i + |p|] == p
  }

  /** Python `p in s` / JavaScript `s.includes(p)`. */
  predicate Contains(s: string, p: string)
  {
    exists i | 0 <= i <= |s| - |p| :: OccursAt(s, p, i)
  }

  predicate StartsWith(s: string, p: string)
  {
    |p| <= |s| && s[..|p|] == p
  }

  predicate EndsWith(s: string, p: string)
  {
    |p| <= |s| && s[|s| - |p|..] == p
  }

  /** `s.find(p)`: the first index at which `p` occurs, or None. */
  function IndexOf(s: string, p: string): (r: Option<nat>)
    ensures r.Some? ==> OccursAt(s, p, r.value)
    ensures r.Some? ==> forall j | 0 <= j < r.value :: !OccursAt(s, p, j)
    ensures r.None? <==> !Contains(s, p)
  {
    IndexFrom(s, p, 0)
  }

  function IndexFrom(s: string, p: string, start: nat): (r: Option<nat>)
    requires forall j | 0 <= j < start :: !OccursAt(s, p, j)
    ensures r.Some? ==> start <= r.value && OccursAt(s, p, r.value)
    ensures r.Some? ==> forall j | 0 <= j < r.value :: !OccursAt(s, p, j)
    ensures r.None? <==> !Contains(s, p)
    decreases |s| - start
  {
    if start + |p| > |s| then
      assert forall j :: !OccursAt(s, p, j) by {
        forall j ensures !OccursAt(s, p, j) {
          if 0 <= j < start {
          }
        }
      }
      None
    else if s[start..start + |p|] == p then
      assert OccursAt(s, p, start);
      Some(start)
    else IndexFrom(s, p, start + 1)
  }

  /** `sep.join(parts)`. */
  function Join(sep: string, parts: seq<string>): string
  {
    if |parts| == 0 then ""
    else if |parts| == 1 then parts[0]
    else parts[0] + sep + Join(sep, parts[1..])
  }

  /** `s.split(sep)` for a non-empty separator: the pieces between the leftmost non-overlapping occurrences. */
  function Split(s: string, sep: string): (parts: seq<string>)
    requires |sep| > 0
    ensures |parts| >= 1
    decreases |s|
  {
    match IndexOf(s, sep)
    case None => [s]
    case Some(i) => [s[..i]] + Split(s[i + |sep|..], sep)
  }

  /** Joining the pieces of a split with the same separator gives back the original text. */
  lemma {:induction false} JoinSplit(s: string, sep: string)
    requires |sep| > 0
    ensures Join(sep, Split(s, sep)) == s
    decreases |s|
  {
    match IndexOf(s, sep)
    case None =>
    case Some(i) =>
      var rest := s[i + |sep|..];
      var tail := Split(rest, sep);
      var parts := [s[..i]] + tail;
      assert Split(s, sep) == parts;
      JoinSplit(rest, sep);
      assert parts[1..] == tail;
      assert Join(sep, parts) == s[..i] + sep + Join(sep, tail);
      assert s == s[..i] + s[i..i + |sep|] + rest;
  }

  /** A one-character text occurs exactly where that character does. */
  lemma ContainsChar(s: string, c: char)
    ensures Contains(s, [c]) <==> c in s
  {
    if c in s {
      var k :| 0 <= k < |s| && s[k] == c;
      assert OccursAt(s, [c], k);
    }
    if Contains(s, [c]) {
      var k :| 0 <= k <= |s| - 1 && OccursAt(s, [c], k);
      assert s[k] == s[k..k + 1][0];
    }
  }

  /** Splitting a join gives back the pieces when no piece holds the separator's first character. */
  lemma {:induction false} SplitJoin(parts: seq<string>, sep: string)
    requires |parts| >= 1 && |sep| > 0
    requires forall k | 0 <= k < |parts| :: sep[0] !in parts[k]
    ensures Split(Join(sep, parts), sep) == parts
  {
    var p0 := parts[0];
    if |parts| == 1 {
      LeadAbsent(p0, sep);
      SplitWithoutSeparator(p0, sep);
    } else {
      var tail := parts[1..];
      var rest := Join(sep, tail);
      var joined := p0 + sep + rest;
      assert Join(sep, parts) == joined;
      FirstSepAfter(p0, sep, rest);
      assert joined[..|p0|] == p0;
      assert joined[|p0| + |sep|..] == rest;
      assert Split(joined, sep) == [p0] + Split(rest, sep);
      SplitJoin(tail, sep);
      assert parts == [p0] + tail;
    }
  }

  /** A text without the first character of `sep` does not contain `sep`. */
  lemma LeadAbsent(p: string, sep: string)
    requires |sep| > 0 && sep[0] !in p
    ensures !Contains(p, sep)
  {
    forall j | 0 <= j <= |p| - |sep| ensures !OccursAt(p, sep, j) {
      assert p[j..j + |sep|][0] == p[j];
    }
  }

  /** The first `sep` of `p + sep + rest` is the one after `p` when `p` lacks its first character. */
  lemma FirstSepAfter(p: string, sep: string, rest: string)
    requires |sep| > 0 && sep[0] !in p
    ensures IndexOf(p + sep + rest, sep) == Some(|p|)
  {
    var joined := p + sep + rest;
    assert joined[|p|..|p| + |sep|] == sep;
    assert OccursAt(joined, sep, |p|);
    forall j | 0 <= j < |p| ensures !OccursAt(joined, sep, j) {
      assert joined[j] == p[j];
      if j + |sep| <= |joined| {
        assert joined[j..j + |sep|][0] == joined[j];
      }
    }
  }

  /** A text without the separator splits into itself alone. */
  lemma SplitWithoutSeparator(s: string, sep: string)
    requires |sep| > 0 && !Contains(s, sep)
    ensures Split(s, sep) == [s]
  {
  }

  /** `s.replace(pat, rep)` for a non-empty `pat`: every leftmost non-overlapping occurrence is replaced. */
  function ReplaceAll(s: string, pat: string, rep: string): string
    requires |pat| > 0
    decreases |s|
  {
    match IndexOf(s, pat)
    case None => s
    case Some(i) => s[..i] + rep + ReplaceAll(s[i + |pat|..], pat, rep)
  }

  /** Replacing a text that does not occur leaves the string as it is. */
  lemma ReplaceAbsent(s: string, pat: string, rep: string)
    requires |pat| > 0 && !Contains(s, pat)
    ensures ReplaceAll(s, pat, rep) == s
  {
  }

  /** A text that does not occur in `s` does not occur in a suffix of it. */
  lemma SuffixLacks(s: string, q: string, from: nat)
    requires from <= |s| && !Contains(s, q)
    ensures !Contains(s[from..], q)
  {
    var t := s[from..];
    forall j | 0 <= j <= |t| - |q| ensures !OccursAt(t, q, j) {
      assert t[j..j + |q|] == s[from + j..from + j + |q|];
      assert !OccursAt(s, q, from + j);
    }
  }

  /** A prefix of `s` lacks `q` when no occurrence of `q` in `s` starts before the prefix ends. */
  lemma PrefixLacks(s: string, q: string, n: nat)
    requires |q| > 0 && n <= |s| && forall j | 0 <= j < n :: !OccursAt(s, q, j)
    ensures !Contains(s[..n], q)
  {
    var a := s[..n];
    forall j | 0 <= j <= |a| - |q| ensures !OccursAt(a, q, j) {
      assert a[j..j + |q|] == s[j..j + |q|];
      assert !OccursAt(s, q, j);
    }
  }

  /**
   * `q` cannot straddle a non-empty `rep` none of whose characters it has,
   * so it occurs in `a + rep + tail` only where it occurs in `a` or `tail`.
   */
  lemma NoStraddle(a: string, rep: string, tail: string, q: string)
    requires |rep| > 0 && |q| > 0
    requires forall c | c in rep :: c !in q
    requires !Contains(a, q) && !Contains(tail, q)
    ensures !Contains(a + rep + tail, q)
  {
    var r := a + rep + tail;
    forall j | 0 <= j <= |r| - |q| ensures !OccursAt(r, q, j) {
      if j + |q| <= |a| {
        assert r[j..j + |q|] == a[j..j + |q|];
        assert !OccursAt(a, q, j);
      } else if j < |a| + |rep| {
        var k := if j < |a| then |a| else j;
        assert r[k] == rep[k - |a|] && rep[k - |a|] in rep;
        assert r[j..j + |q|][k - j] == r[k];
      } else {
        var t := j - |a| - |rep|;
        assert r == (a + rep) + tail;
        assert r[|a| + |rep|..] == tail;
        assert r[j..j + |q|] == r[|a| + |rep|..][t..t + |q|];
        assert r[j..j + |q|] == tail[t..t + |q|];
        assert !OccursAt(tail, q, t);
      }
    }
  }

  /**
   * After `replace(pat, rep)`, `q` does not occur, when `q` is `pat` itself
   * or did not occur before, and no character of the non-empty `rep` is in `q`.
   */
  lemma {:induction false} ReplaceLeavesNone(s: string, pat: string, rep: string, q: string)
    requires |pat| > 0 && |rep| > 0 && |q| > 0
    requires forall c | c in rep :: c !in q
    requires q == pat || !Contains(s, q)
    ensures !Contains(ReplaceAll(s, pat, rep), q)
    decreases |s|
  {
    match IndexOf(s, pat)
    case None =>
    case Some(i) =>
      var rest := s[i + |pat|..];
      if q != pat {
        SuffixLacks(s, q, i + |pat|);
      }
      ReplaceLeavesNone(rest, pat, rep, q);
      var a := s[..i];
      assert forall j | 0 <= j < i :: !OccursAt(s, q, j);
      PrefixLacks(s, q, i);
      NoStraddle(a, rep, ReplaceAll(rest, pat, rep), q);
  }

  /** No piece of `s.split(c)` contains `c`. */
  lemma {:induction false} SplitPiecesFree(s: string, c: char)
    ensures forall k | 0 <= k < |Split(s, [c])| :: c !in Split(s, [c])[k]
    decreases |s|
  {
    match IndexOf(s, [c])
    case None =>
      ContainsChar(s, c);
    case Some(i) =>
      var rest := s[i + 1..];
      SplitPiecesFree(rest, c);
      assert c !in s[..i] by {
        forall k | 0 <= k < i ensures s[k] != c {
          assert !OccursAt(s, [c], k);
          assert s[k..k + 1] == [s[k]];
        }
      }
      assert Split(s, [c]) == [s[..i]] + Split(rest, [c]);
  }

  /** Every character `a` of `s` turned into `b`, the rest kept. */
  function MapChar(s: string, a: char, b: char): (r: string)
    ensures |r| == |s|
    ensures forall k | 0 <= k < |s| :: r[k] == (if s[k] == a then b else s[k])
  {
    if |s| == 0 then "" else [if s[0] == a then b else s[0]] + MapChar(s[1..], a, b)
  }

  /** Replacing a single character is a character-by-character map. */
  lemma {:induction false} ReplaceOneChar(s: string, a: char, b: char)
    ensures ReplaceAll(s, [a], [b]) == MapChar(s, a, b)
    decreases |s|
  {
    match IndexOf(s, [a])
    case None =>
      ContainsChar(s, a);
      assert MapChar(s, a, b) == s;
    case Some(i) =>
      var rest := s[i + 1..];
      ReplaceOneChar(rest, a, b);
      forall k | 0 <= k < i ensures s[k] != a {
        assert !OccursAt(s, [a], k);
      }
      assert s[i] == a by {
        assert s[i..i + 1] == [a];
      }
      assert ReplaceAll(s, [a], [b]) == s[..i] + [b] + ReplaceAll(rest, [a], [b]);
      MapCharAt(s, a, b, i);
  }

  /** Mapping around the first `a`: the text before it, `b`, and the map of the rest. */
  lemma MapCharAt(s: string, a: char, b: char, i: nat)
    requires i < |s| && s[i] == a && forall k | 0 <= k < i :: s[k] != a
    ensures MapChar(s, a, b) == s[..i] + [b] + MapChar(s[i + 1..], a, b)
  {
    var r := s[..i] + [b] + MapChar(s[i + 1..], a, b);
    var m := MapChar(s, a, b);
    forall k | 0 <= k < |s| ensures r[k] == m[k] {
      if k > i {
        assert r[k] == MapChar(s[i + 1..], a, b)[k - i - 1];
      }
    }
  }

  /** Python's `str.isspace` for one character. */
  predicate IsSpace(c: char)
  {
    c == ' ' || c == '\t' || c == '\n' || c == '\r' || c == '\U{000B}' || c == '\U{000C}'
    || ('\U{001C}' <= c <= '\U{001F}') || c == '\U{0085}' || c == '\U{00A0}' || c == '\U{1680}'
    || ('\U{2000}' <= c <= '\U{200A}') || c == '\U{2028}' || c == '\U{2029}' || c == '\U{202F}'
    || c == '\U{205F}' || c == '\U{3000}'
  }

  /** `s.lstrip()`. */
  function LStrip(s: string): (r: string)
    ensures |r| <= |s| && r == s[|s| - |r|..]
    ensures |r| > 0 ==> !IsSpace(r[0])
    ensures forall k | 0 <= k < |s| - |r| :: IsSpace(s[k])
  {
    if |s| > 0 && IsSpace(s[0]) then LStrip(s[1..]) else s
  }

  /** `s.rstrip()`. */
  function RStrip(s: string): (r: string)
    ensures |r| <= |s| && r == s[..|r|]
    ensures |r| > 0 ==> !IsSpace(r[|r| - 1])
    ensures forall k | |r| <= k < |s| :: IsSpace(s[k])
  {
    if |s| > 0 && IsSpace(s[|s| - 1]) then RStrip(s[..|s| - 1]) else s
  }

  /** `s.strip()`. */
  function Strip(s: string): string
  {
    LStrip(RStrip(s))
  }

  /** The stripped text is the slice of the input between its leading and trailing whitespace, and has none of its own at either end. */
  lemma StripShape(s: string)
    ensures var t := RStrip(s); var r := Strip(s);
      |r| <= |t| <= |s| && r == s[|t| - |r|..|t|]
      && (forall k | 0 <= k < |t| - |r| :: IsSpace(s[k]))
      && (forall k | |t| <= k < |s| :: IsSpace(s[k]))
    ensures var r := Strip(s);
      |r| > 0 ==> !IsSpace(r[0]) && !IsSpace(r[|r| - 1])
  {
    var t := RStrip(s);
    var r := LStrip(t);
    assert forall k | 0 <= k < |t| - |r| :: s[k] == t[k];
    if |r| > 0 {
      assert r[|r| - 1] == t[|t| - 1];
    }
  }

  /** Whitespace only (or empty): the text whose `strip()` is empty. */
  predicate Blank(s: string)
  {
    forall k | 0 <= k < |s| :: IsSpace(s[k])
  }

  /** `s.strip()` is empty exactly when `s` is blank. */
  lemma StripEmptyIffBlank(s: string)
    ensures Strip(s) == "" <==> Blank(s)
  {
    StripShape(s);
    var t := RStrip(s);
    var r := Strip(s);
    if r != "" {
      assert !IsSpace(s[|t| - |r|]);
    }
  }

  /** Stripping twice is stripping once. */
  lemma StripIdempotent(s: string)
    ensures Strip(Strip(s)) == Strip(s)
  {
    StripShape(s);
    var r := Strip(s);
    if |r| > 0 {
      assert RStrip(r) == r;
      assert LStrip(r) == r;
    }
  }

  /** ASCII lower-casing of one character. */
  function LowerChar(c: char): char
  {
    if 'A' <= c <= 'Z' then (c as int + 32) as char else c
  }

  /** `s.lower()` / `s.toLowerCase()` on the ASCII letters. */
  function Lower(s: string): (r: string)
    ensures |r| == |s|
    ensures forall k | 0 <= k < |s| :: r[k] == LowerChar(s[k])
  {
    if |s| == 0 then "" else [LowerChar(s[0])] + Lower(s[1..])
  }

  /** Lower-casing is idempotent and ignores the case of its input. */
  lemma LowerIdempotent(s: string)
    ensures Lower(Lower(s)) == Lower(s)
  {
    assert forall k | 0 <= k < |s| :: LowerChar(LowerChar(s[k])) == LowerChar(s[k]);
  }
}

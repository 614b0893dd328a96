/**
 * The string operations the skill borrows from Python's `str`: `lower`, `strip`,
 * `' '.join(s.split())`, `replace(pat, '')`, the substring test `sub in s`, plus the
 * first-match search and `max` that the matchers are built from.
 * `lower` folds only the ASCII letters 'A'..'Z'; whitespace is every character Python's
 * `str.isspace` accepts.
 */
module Text {

  /**
   * Whitespace as `str.split()` and `str.strip()` see it: the ASCII controls tab to
   * carriage return and 0x1C to 0x1F, the space, NEL, no-break space and the Unicode
   * space separators, line and paragraph separators.
   */
  predicate IsSpace(c: char) {
    || '\t' <= c <= '\r' || '\U{1C}' <= c <= ' ' || c == '\U{85}' || c == '\U{A0}' || c == '\U{1680}'
    || '\U{2000}' <= c <= '\U{200A}' || c == '\U{2028}' || c == '\U{2029}' || c == '\U{202F}'
    || c == '\U{205F}' || c == '\U{3000}'
  }

  /** Index of the first element satisfying `p`, or `|s|` when there is none. */
  function FirstIndex<T>(s: seq<T>, p: T -> bool): (k: nat)
    ensures k <= |s|
    ensures k < |s| ==> p(s[k])
    ensures forall j :: 0 <= j < k ==> !p(s[j])
  {
    if s == [] then 0
    else if p(s[0]) then 0
    else 1 + FirstIndex(s[1..], p)
  }

  /** The largest element of a non-empty sequence (Python's `max`). */
  function Max(s: seq<real>): (m: real)
    requires s != []
    ensures m in s
    ensures forall i :: 0 <= i < |s| ==> s[i] <= m
  {
    if |s| == 1 then s[0]
    else
      var rest := Max(s[1..]);
      if s[0] < rest then rest else s[0]
  }

  // ---------------------------------------------------------------- substrings

  /** `sub` occurs in `s` starting at index `i`. */
  predicate OccursAt(s: string, sub: string, i: nat) {
    i + |sub| <= |s| && s[i..i + |sub|] == sub
  }

  /** Python's `sub in s`. */
  predicate Contains(s: string, sub: string) {
    exists i: nat | i <= |s| :: OccursAt(s, sub, i)
  }

  /** Python's `s.startswith(prefix)`. */
  predicate StartsWith(s: string, prefix: string) {
    OccursAt(s, prefix, 0)
  }

  /** Python's `s.endswith(suffix)`, which is also `s[-n:] == suffix` for a non-empty `s`. */
  predicate EndsWith(s: string, suffix: string) {
    |suffix| <= |s| && s[|s| - |suffix|..] == suffix
  }

  /** Removing the first character of `s` loses no occurrence of `pat` unless one starts there. */
  lemma ContainsTail(s: string, pat: string)
    requires s != [] && !StartsWith(s, pat)
    ensures Contains(s, pat) <==> Contains(s[1..], pat)
  {
    if Contains(s, pat) {
      var i: nat :| i <= |s| && OccursAt(s, pat, i);
      assert i > 0;
      assert s[1..][i - 1..i - 1 + |pat|] == s[i..i + |pat|];
      assert OccursAt(s[1..], pat, i - 1);
    }
    if Contains(s[1..], pat) {
      var i: nat :| i <= |s[1..]| && OccursAt(s[1..], pat, i);
      assert s[i + 1..i + 1 + |pat|] == s[1..][i..i + |pat|];
      assert OccursAt(s, pat, i + 1);
    }
  }

  // ---------------------------------------------------------------- lower

  function LowerChar(c: char): char {
    if 'A' <= c <= 'Z' then (c as int + 32) as char else c
  }

  /** Python's `s.lower()` restricted to ASCII letters. */
  function Lower(s: string): (r: string)
    ensures |r| == |s|
    ensures forall i :: 0 <= i < |s| ==> r[i] == LowerChar(s[i])
  {
    if s == [] then [] else [LowerChar(s[0])] + Lower(s[1..])
  }

  // ---------------------------------------------------------------- strip

  /** Python's `s.lstrip()`: the suffix left after dropping the leading whitespace. */
  function TrimLeft(s: string): (r: string)
    ensures r == [] || !IsSpace(r[0])
    ensures |r| <= |s| && r == s[|s| - |r|..]
    ensures forall i :: 0 <= i < |s| - |r| ==> IsSpace(s[i])
    decreases |s|
  {
    if s != [] && IsSpace(s[0]) then TrimLeft(s[1..]) else s
  }

  /** Python's `s.rstrip()`: the prefix left after dropping the trailing whitespace. */
  function TrimRight(s: string): (r: string)
    ensures r == [] || !IsSpace(r[|r| - 1])
    ensures |r| <= |s| && r == s[..|r|]
    ensures forall i :: |r| <= i < |s| ==> IsSpace(s[i])
    decreases |s|
  {
    if s != [] && IsSpace(s[|s| - 1]) then TrimRight(s[..|s| - 1]) else s
  }

  /**
   * Python's `s.strip()`: the slice of `s` left when the whitespace before and after it
   * is dropped, which neither starts nor ends with whitespace.
   */
  function Strip(s: string): (r: string)
    ensures r == [] || (!IsSpace(r[0]) && !IsSpace(r[|r| - 1]))
    ensures exists a: nat :: StripsTo(s, a, r)
  {
    var t := TrimLeft(s);
    var r := TrimRight(t);
    TrimsStrip(s, t, r);
    r
  }

  /** Trimming the left and then the right end leaves the middle slice between two whitespace runs. */
  lemma TrimsStrip(s: string, t: string, r: string)
    requires |t| <= |s| && t == s[|s| - |t|..] && (t == [] || !IsSpace(t[0]))
    requires forall i :: 0 <= i < |s| - |t| ==> IsSpace(s[i])
    requires |r| <= |t| && r == t[..|r|] && (r == [] || !IsSpace(r[|r| - 1]))
    requires forall i :: |r| <= i < |t| ==> IsSpace(t[i])
    ensures r == [] || (!IsSpace(r[0]) && !IsSpace(r[|r| - 1]))
    ensures StripsTo(s, |s| - |t|, r)
  {
    var a := |s| - |t|;
    assert s[a..a + |r|] == t[..|r|];
    forall i | a + |r| <= i < |s|
      ensures IsSpace(s[i])
    {
      assert s[i] == t[i - a];
    }
    if r != [] {
      assert r[0] == t[0];
    }
  }

  /** `r` is the slice of `s` at `a`, and only whitespace lies before and after it. */
  predicate StripsTo(s: string, a: nat, r: string) {
    && a + |r| <= |s| && r == s[a..a + |r|]
    && (forall i :: 0 <= i < a ==> IsSpace(s[i]))
    && (forall i :: a + |r| <= i < |s| ==> IsSpace(s[i]))
  }

  // ---------------------------------------------------------------- replace

  /**
   * Python's `s.replace(pat, '')`: scanning from the left, every non-overlapping
   * occurrence of `pat` is dropped. What is left may contain `pat` again
   * (`"plplayay"` becomes `"play"`).
   */
  function RemoveAll(s: string, pat: string): (r: string)
    requires pat != []
    ensures |r| <= |s|
    ensures (|s| - |r|) % |pat| == 0
    ensures Contains(s, pat) ==> |r| <= |s| - |pat|
    decreases |s|
  {
    if s == [] then []
    else if StartsWith(s, pat) then
      var rest := RemoveAll(s[|pat|..], pat);
      ModShift(|s[|pat|..]| - |rest|, |pat|);
      assert OccursAt(s, pat, 0);
      rest
    else
      ContainsTail(s, pat);
      var rest := RemoveAll(s[1..], pat);
      assert |s| - |[s[0]] + rest| == |s[1..]| - |rest|;
      [s[0]] + rest
  }

  /** `k` whole multiples of a positive `p` are at least `p`. */
  lemma MulAtLeast(k: int, p: int)
    requires k >= 1 && p > 0
    ensures k * p >= p
  {
    var j := k - 1;
    assert j * p >= 0;
    assert k * p == j * p + p;
  }

  /** The remainder of `q * p + m` is `m` whenever `0 <= m < p`. */
  lemma ModUnique(a: int, p: int, q: int, m: int)
    requires p > 0 && 0 <= m < p && a == q * p + m
    ensures a % p == m
  {
    var q', m' := a / p, a % p;
    assert a == q' * p + m' && 0 <= m' < p;
    assert (q - q') * p == m' - m by {
      assert (q - q') * p == q * p - q' * p;
    }
    if q > q' {
      MulAtLeast(q - q', p);
    } else if q < q' {
      MulAtLeast(q' - q, p);
    }
  }

  /** Adding the modulus does not change the remainder. */
  lemma ModShift(x: int, p: int)
    requires p > 0
    ensures (x + p) % p == x % p
  {
    ModUnique(x + p, p, x / p + 1, x % p);
  }

  /** `replace` leaves a string unchanged exactly when the pattern does not occur in it. */
  lemma {:induction false} RemoveAllUnchanged(s: string, pat: string)
    requires pat != []
    ensures RemoveAll(s, pat) == s <==> !Contains(s, pat)
    decreases |s|
  {
    if s == [] {
    } else if StartsWith(s, pat) {
      assert OccursAt(s, pat, 0);
    } else {
      RemoveAllUnchanged(s[1..], pat);
      ContainsTail(s, pat);
      var r := RemoveAll(s[1..], pat);
      assert RemoveAll(s, pat) == [s[0]] + r;
      if [s[0]] + r == s {
        assert r == ([s[0]] + r)[1..];
      }
      if r == s[1..] {
        assert [s[0]] + s[1..] == s;
      }
    }
  }

  // ---------------------------------------------------------------- split / join

  /** A word as `str.split()` produces it: non-empty and free of whitespace. */
  predicate IsWord(w: string) {
    w != [] && forall i :: 0 <= i < |w| ==> !IsSpace(w[i])
  }

  /** `''.join(ws)`. */
  function Concat(ws: seq<string>): string {
    if ws == [] then "" else ws[0] + Concat(ws[1..])
  }

  /** `s` with every whitespace character taken out. */
  function DropSpaces(s: string): string {
    if s == [] then "" else (if IsSpace(s[0]) then "" else [s[0]]) + DropSpaces(s[1..])
  }

  /** Taking out whitespace works piecewise. */
  lemma {:induction false} DropSpacesAppend(a: string, b: string)
    ensures DropSpaces(a + b) == DropSpaces(a) + DropSpaces(b)
  {
    if a == [] {
      assert a + b == b;
    } else {
      assert (a + b)[0] == a[0] && (a + b)[1..] == a[1..] + b;
      DropSpacesAppend(a[1..], b);
    }
  }

  /** Only whitespace leaves nothing; no whitespace leaves everything. */
  lemma {:induction false} DropSpacesOf(s: string)
    ensures (forall i :: 0 <= i < |s| ==> IsSpace(s[i])) ==> DropSpaces(s) == ""
    ensures (forall i :: 0 <= i < |s| ==> !IsSpace(s[i])) ==> DropSpaces(s) == s
  {
    if s != [] {
      DropSpacesOf(s[1..]);
      assert forall i :: 0 <= i < |s[1..]| ==> s[1..][i] == s[i + 1];
    }
  }

  /** Leading whitespace leaves nothing behind once whitespace is taken out. */
  lemma DropSpacesLead(s: string, t: string)
    requires |t| <= |s| && t == s[|s| - |t|..]
    requires forall i :: 0 <= i < |s| - |t| ==> IsSpace(s[i])
    ensures DropSpaces(s) == DropSpaces(t)
  {
    var lead := s[..|s| - |t|];
    assert s == lead + t;
    DropSpacesAppend(lead, t);
    DropSpacesOf(lead);
  }

  /** Without its whitespace, text starts with its whitespace-free prefix. */
  lemma DropSpacesWord(t: string, n: nat)
    requires n <= |t| && forall i :: 0 <= i < n ==> !IsSpace(t[i])
    ensures DropSpaces(t) == t[..n] + DropSpaces(t[n..])
  {
    assert t == t[..n] + t[n..];
    DropSpacesAppend(t[..n], t[n..]);
    DropSpacesOf(t[..n]);
  }

  /** Putting a word in front keeps a list of words, and runs it in front of their concatenation. */
  lemma WordsCons(w: string, rest: seq<string>)
    requires IsWord(w) && forall i :: 0 <= i < |rest| ==> IsWord(rest[i])
    ensures forall i :: 0 <= i < |[w] + rest| ==> IsWord(([w] + rest)[i])
    ensures Concat([w] + rest) == w + Concat(rest)
  {
    assert ([w] + rest)[1..] == rest;
    forall i | 0 < i < |[w] + rest|
      ensures IsWord(([w] + rest)[i])
    {
      assert ([w] + rest)[i] == rest[i - 1];
    }
  }

  /**
   * Python's `s.split()` with no separator: the maximal runs of non-whitespace. The
   * words run together are `s` without its whitespace, and there are none exactly
   * when `s` is all whitespace.
   */
  function Words(s: string): (ws: seq<string>)
    ensures forall i :: 0 <= i < |ws| ==> IsWord(ws[i])
    ensures Concat(ws) == DropSpaces(s)
    ensures ws == [] <==> forall i :: 0 <= i < |s| ==> IsSpace(s[i])
    decreases |s|
  {
    var t := TrimLeft(s);
    DropSpacesLead(s, t);
    if t == [] then []
    else
      var n := FirstIndex(t, IsSpace);
      assert n > 0 by {
        assert !IsSpace(t[0]);
      }
      var w := t[..n];
      assert IsWord(w) by {
        forall i | 0 <= i < n
          ensures !IsSpace(w[i])
        {
          assert w[i] == t[i];
        }
      }
      var rest := Words(t[n..]);
      WordsCons(w, rest);
      DropSpacesWord(t, n);
      assert !IsSpace(s[|s| - |t|]) by {
        assert s[|s| - |t|] == t[0];
      }
      [w] + rest
  }

  /** Python's `' '.join(ws)`. */
  function JoinSpace(ws: seq<string>): string {
    if ws == [] then ""
    else if |ws| == 1 then ws[0]
    else ws[0] + " " + JoinSpace(ws[1..])
  }

  /** `' '.join(s.split())`: whitespace collapsed to single spaces and trimmed. */
  function Collapse(s: string): string {
    JoinSpace(Words(s))
  }

  /** Every whitespace character of `r` is a single space between two non-space characters. */
  predicate IsCollapsed(r: string) {
    forall i :: 0 <= i < |r| && IsSpace(r[i]) ==>
      r[i] == ' ' && 0 < i < |r| - 1 && !IsSpace(r[i - 1]) && !IsSpace(r[i + 1])
  }

  /** Leading whitespace does not change the split. */
  lemma WordsSkipSpace(c: char, s: string)
    requires IsSpace(c)
    ensures Words([c] + s) == Words(s)
  {
    assert ([c] + s)[1..] == s;
    assert TrimLeft([c] + s) == TrimLeft(s);
  }

  lemma ConsTail<T>(s: seq<T>)
    requires s != []
    ensures [s[0]] + s[1..] == s
  {
  }

  /** A word followed by whitespace (or nothing) is split off as the first word. */
  lemma WordsPrefix(w: string, tail: string)
    requires IsWord(w)
    requires tail == [] || IsSpace(tail[0])
    ensures Words(w + tail) == [w] + Words(tail)
  {
    var s := w + tail;
    assert s[0] == w[0];
    assert TrimLeft(s) == s;
    var n := FirstIndex(s, IsSpace);
    forall j | 0 <= j < |w|
      ensures !IsSpace(s[j])
    {
      assert s[j] == w[j];
    }
    if tail != [] {
      assert s[|w|] == tail[0];
    }
    assert n == |w|;
    assert s[..n] == w;
    assert s[n..] == tail;
  }

  /** A single word splits into itself. */
  lemma WordsOfWord(w: string)
    requires IsWord(w)
    ensures Words(w) == [w]
  {
    var none: string := [];
    assert w + none == w;
    assert Words(none) == [] by {
      assert TrimLeft(none) == [];
    }
    WordsPrefix(w, none);
    assert [w] + Words(none) == [w];
  }

  /** A word, a space and more text split into that word and the split of the text. */
  lemma WordsAfterWord(w: string, rest: string)
    requires IsWord(w)
    ensures Words(w + " " + rest) == [w] + Words(rest)
  {
    var tail := [' '] + rest;
    assert w + " " + rest == w + tail;
    WordsPrefix(w, tail);
    WordsSkipSpace(' ', rest);
  }

  /** Splitting a joined list of words gives the words back. */
  lemma {:induction false} WordsOfJoin(ws: seq<string>)
    requires forall i :: 0 <= i < |ws| ==> IsWord(ws[i])
    ensures Words(JoinSpace(ws)) == ws
  {
    if |ws| == 1 {
      WordsOfWord(ws[0]);
    } else if |ws| > 1 {
      WordsOfJoin(ws[1..]);
      WordsAfterWord(ws[0], JoinSpace(ws[1..]));
      ConsTail(ws);
    }
  }

  /** A join of words starts with the first word, and is collapsed. */
  lemma {:induction false} JoinSpaceShape(ws: seq<string>)
    requires forall i :: 0 <= i < |ws| ==> IsWord(ws[i])
    ensures ws != [] ==> |JoinSpace(ws)| >= |ws[0]| > 0 && JoinSpace(ws)[..|ws[0]|] == ws[0]
    ensures ws != [] ==> !IsSpace(JoinSpace(ws)[0]) && !IsSpace(JoinSpace(ws)[|JoinSpace(ws)| - 1])
    ensures IsCollapsed(JoinSpace(ws))
  {
    if |ws| == 1 {
      assert JoinSpace(ws) == ws[0];
    } else if |ws| > 1 {
      var w := ws[0];
      var rest := JoinSpace(ws[1..]);
      JoinSpaceShape(ws[1..]);
      var s := w + " " + rest;
      assert JoinSpace(ws) == s;
      assert s[..|w|] == w;
      assert s[|s| - 1] == rest[|rest| - 1];
      forall i | 0 <= i < |s| && IsSpace(s[i])
        ensures s[i] == ' ' && 0 < i < |s| - 1 && !IsSpace(s[i - 1]) && !IsSpace(s[i + 1])
      {
        if i < |w| {
          assert false;
        } else if i == |w| {
          assert s[i - 1] == w[|w| - 1];
          assert s[i + 1] == rest[0];
        } else {
          var k := i - |w| - 1;
          assert s[i] == rest[k] && IsSpace(rest[k]);
          assert 0 < k < |rest| - 1;
          assert s[i - 1] == rest[k - 1];
          assert s[i + 1] == rest[k + 1];
        }
      }
    }
  }

  /** `' '.join(s.split())` produces a collapsed string with no surrounding whitespace. */
  lemma CollapseShape(s: string)
    ensures IsCollapsed(Collapse(s))
    ensures Collapse(s) == [] || (!IsSpace(Collapse(s)[0]) && !IsSpace(Collapse(s)[|Collapse(s)| - 1]))
  {
    JoinSpaceShape(Words(s));
  }

  /** Normalising whitespace twice is the same as once. */
  lemma CollapseIdempotent(s: string)
    ensures Collapse(Collapse(s)) == Collapse(s)
  {
    WordsOfJoin(Words(s));
  }
}

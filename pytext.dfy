/**
 * The Python `str` operations the prompt pipeline relies on: `lower`,
 * `in` (substring search), `split` with an explicit separator, and
 * `replace` of a single character.
 */
module PyText {
  import opened Wrappers

  /** `c.lower()` for ASCII letters; every other character is left alone. */
  function LowerChar(c: char): char {
    if 'A' <= c <= 'Z' then (c as int + 32) as char else c
  }

  predicate IsUpper(c: char) {
    'A' <= c <= 'Z'
  }

  /** `s.lower()`, restricted to the ASCII letters. */
  function Lower(s: string): (r: string)
    ensures |r| == |s|
    ensures forall i :: 0 <= i < |s| ==> r[i] == LowerChar(s[i])
    ensures forall i :: 0 <= i < |r| ==> !IsUpper(r[i])
  {
    if s == [] then [] else [LowerChar(s[0])] + Lower(s[1..])
  }

  /** Lower-casing twice is lower-casing once. */
  lemma {:induction false} LowerIdempotent(s: string)
    ensures Lower(Lower(s)) == Lower(s)
  {
    if s != [] {
      LowerIdempotent(s[1..]);
      assert Lower(s)[1..] == Lower(s[1..]);
    }
  }

  /** `sep` occurs in `s` starting at index `i`. */
  predicate Occurs(s: string, sep: string, i: int) {
    0 <= i && i + |sep| <= |s| && s[i..i + |sep|] == sep
  }

  lemma OccursShift(s: string, sep: string, j: int)
    requires |s| > 0 && 0 <= j
    ensures Occurs(s, sep, j + 1) <==> Occurs(s[1..], sep, j)
  {
    if j + 1 + |sep| <= |s| {
      assert s[j + 1..j + 1 + |sep|] == s[1..][j..j + |sep|];
    }
  }

  /** `s.find(sep)`, with `None` in place of Python's -1: the first index at which `sep` occurs. */
  function Find(s: string, sep: string): (r: Option<nat>)
    ensures r.Some? ==> Occurs(s, sep, r.value)
    ensures r.Some? ==> forall j :: 0 <= j < r.value ==> !Occurs(s, sep, j)
    ensures r.None? ==> forall j :: !Occurs(s, sep, j)
    decreases |s|
  {
    if |s| < |sep| then None
    else if s[..|sep|] == sep then Some(0)
    else
      var rest := Find(s[1..], sep);
      assert forall j :: 0 <= j ==> (Occurs(s, sep, j + 1) <==> Occurs(s[1..], sep, j)) by {
        forall j | 0 <= j ensures Occurs(s, sep, j + 1) <==> Occurs(s[1..], sep, j) {
          OccursShift(s, sep, j);
        }
      }
      assert !Occurs(s, sep, 0);
      match rest
      case None =>
        assert forall j :: !Occurs(s, sep, j) by {
          forall j ensures !Occurs(s, sep, j) {
            if j > 0 { assert !Occurs(s[1..], sep, j - 1); }
          }
        }
        None
      case Some(j) =>
        assert forall k :: 0 <= k < j + 1 ==> !Occurs(s, sep, k) by {
          forall k | 0 <= k < j + 1 ensures !Occurs(s, sep, k) {
            if k > 0 { assert !Occurs(s[1..], sep, k - 1); }
          }
        }
        Some(j + 1)
  }

  /** Python's `sep in s`. */
  predicate Contains(s: string, sep: string) {
    Find(s, sep).Some?
  }

  /** Reference definition of `sep in s`: some position holds `sep`. */
  ghost predicate HasSubstring(s: string, sep: string) {
    exists i :: Occurs(s, sep, i)
  }

  /** The search agrees with the reference definition. */
  lemma ContainsIff(s: string, sep: string)
    ensures Contains(s, sep) <==> HasSubstring(s, sep)
  {
    if Contains(s, sep) {
      assert Occurs(s, sep, Find(s, sep).value);
    }
  }

  /** A substring placed between any two strings is found. */
  lemma ContainsInfix(p: string, needle: string, q: string)
    ensures Contains(p + needle + q, needle)
  {
    var s := p + needle + q;
    assert s[|p|..|p| + |needle|] == needle;
    assert Occurs(s, needle, |p|);
  }

  /** Three pieces in a row, between any two strings, are found together. */
  lemma ContainsInfix3(p: string, a: string, b: string, c: string, q: string)
    ensures Contains(p + a + b + c + q, a + b + c)
  {
    ContainsInfix(p, a + b + c, q);
    assert p + (a + b + c) + q == p + a + b + c + q;
  }

  /** A string that contains `needle` still does once text is added around it. */
  lemma ContainsWiden(p: string, s: string, q: string, needle: string)
    requires Contains(s, needle)
    ensures Contains(p + s + q, needle)
  {
    var i := Find(s, needle).value;
    var w := p + s + q;
    assert w[|p| + i..|p| + i + |needle|] == s[i..i + |needle|];
    assert Occurs(w, needle, |p| + i);
  }

  /** What a prefix contains, the whole string contains. */
  lemma ContainsPrefix(s: string, k: nat, needle: string)
    requires k <= |s| && Contains(s[..k], needle)
    ensures Contains(s, needle)
  {
    var i := Find(s[..k], needle).value;
    assert s[..k][i..i + |needle|] == s[i..i + |needle|];
    assert Occurs(s, needle, i);
  }

  /** Containment is transitive. */
  lemma ContainsTransitive(s: string, m: string, n: string)
    requires Contains(s, m) && Contains(m, n)
    ensures Contains(s, n)
  {
    var i := Find(s, m).value;
    var j := Find(m, n).value;
    assert s[i..i + |m|] == m && m[j..j + |n|] == n;
    forall k | 0 <= k < |n| ensures s[i + j..i + j + |n|][k] == n[k] {
      assert s[i + j + k] == s[i..i + |m|][j + k];
      assert n[k] == m[j..j + |n|][k];
    }
    assert s[i + j..i + j + |n|] == n;
    assert Occurs(s, n, i + j);
  }

  /** `sep.join(parts)`. */
  function Join(parts: seq<string>, sep: string): string {
    if parts == [] then ""
    else if |parts| == 1 then parts[0]
    else parts[0] + sep + Join(parts[1..], sep)
  }

  /** `s.split(sep)` for a non-empty separator: the pieces between the left-to-right occurrences of `sep`. */
  function Split(s: string, sep: string): (r: seq<string>)
    requires |sep| > 0
    ensures |r| >= 1
    ensures forall k :: 0 <= k < |r| ==> !Contains(r[k], sep)
    decreases |s|
  {
    match Find(s, sep)
    case None => [s]
    case Some(i) =>
      var head := s[..i];
      assert !Contains(head, sep) by {
        if Contains(head, sep) {
          var j := Find(head, sep).value;
          assert head[j..j + |sep|] == s[j..j + |sep|];
          assert Occurs(s, sep, j);
          assert false;
        }
      }
      [head] + Split(s[i + |sep|..], sep)
  }

  /** Joining the pieces of a split with the separator gives back the text: `sep.join(s.split(sep)) == s`. */
  lemma {:induction false} SplitJoin(s: string, sep: string)
    requires |sep| > 0
    ensures Join(Split(s, sep), sep) == s
    decreases |s|
  {
    match Find(s, sep)
    case None =>
    case Some(i) =>
      var head, tail := s[..i], s[i + |sep|..];
      var parts, rest := Split(s, sep), Split(tail, sep);
      SplitJoin(tail, sep);
      assert parts == [head] + rest;
      assert |parts| >= 2 && parts[0] == head && parts[1..] == rest;
      assert Join(parts, sep) == head + sep + Join(rest, sep);
      assert s == head + sep + tail by {
        assert s[i..i + |sep|] == sep;
        assert s == s[..i] + s[i..i + |sep|] + s[i + |sep|..];
      }
  }

  /** `s.startswith(p)`. */
  predicate StartsWith(s: string, p: string) {
    |p| <= |s| && s[..|p|] == p
  }

  /** `s.endswith(p)`. */
  predicate EndsWith(s: string, p: string) {
    |p| <= |s| && s[|s| - |p|..] == p
  }

  /** `s.split(sep)[0]`: the text before the first `sep`, or all of it. */
  function FirstPiece(s: string, sep: string): (r: string)
    requires |sep| > 0
    ensures !Contains(r, sep)
    ensures !Contains(s, sep) ==> r == s
  {
    Split(s, sep)[0]
  }

  /** The first piece is followed by the first separator, or by nothing. */
  lemma SplitHead(s: string, sep: string) returns (rest: string)
    requires |sep| > 0
    ensures s == FirstPiece(s, sep) + rest
    ensures rest == "" || StartsWith(rest, sep)
  {
    match Find(s, sep)
    case None =>
      rest := "";
    case Some(i) =>
      rest := s[i..];
      assert s == s[..i] + s[i..];
  }

  /** The last piece of a split follows the last separator. */
  lemma {:induction false} JoinLast(parts: seq<string>, sep: string)
    requires |parts| >= 2
    ensures Join(parts, sep) == Join(parts[..|parts| - 1], sep) + sep + parts[|parts| - 1]
    decreases |parts|
  {
    if |parts| > 2 {
      JoinLast(parts[1..], sep);
      assert parts[1..][..|parts| - 2] == parts[..|parts| - 1][1..];
    }
  }

  /** `s.split(sep)[-1]`. */
  function LastPiece(s: string, sep: string): (r: string)
    requires |sep| > 0
    ensures !Contains(r, sep)
    ensures !Contains(s, sep) ==> r == s
  {
    var parts := Split(s, sep);
    parts[|parts| - 1]
  }

  /** The last piece of a split is the text after the last separator the split found. */
  lemma SplitLast(s: string, sep: string) returns (before: string)
    requires |sep| > 0
    ensures s == before + LastPiece(s, sep)
    ensures before == "" || EndsWith(before, sep)
  {
    var parts := Split(s, sep);
    SplitJoin(s, sep);
    if |parts| == 1 {
      before := "";
    } else {
      JoinLast(parts, sep);
      before := Join(parts[..|parts| - 1], sep) + sep;
    }
  }

  /** `s.split(a)[-1].split(b)[0]`: the text after the last `a`, up to the first `b` that follows it. */
  function AfterLastUntil(s: string, a: string, b: string): (r: string)
    requires |a| > 0 && |b| > 0
    ensures !Contains(r, a) && !Contains(r, b)
    ensures !Contains(s, a) && !Contains(s, b) ==> r == s
  {
    var last := LastPiece(s, a);
    var first := FirstPiece(last, b);
    assert !Contains(first, a) by {
      var rest := SplitHead(last, b);
      if Contains(first, a) {
        assert last[..|first|] == first;
        ContainsPrefix(last, |first|, a);
      }
    }
    first
  }

  /**
   * The cut leaves a piece that follows an `a` (or starts the text), has
   * no `a` in it or after it, and is followed by `b` (or ends the text).
   */
  lemma SplitLastThenHead(s: string, a: string, b: string) returns (before: string, after: string)
    requires |a| > 0 && |b| > 0
    ensures s == before + AfterLastUntil(s, a, b) + after
    ensures before == "" || EndsWith(before, a)
    ensures !Contains(AfterLastUntil(s, a, b) + after, a)
    ensures after == "" || StartsWith(after, b)
  {
    var last := LastPiece(s, a);
    before := SplitLast(s, a);
    after := SplitHead(last, b);
    assert AfterLastUntil(s, a, b) == FirstPiece(last, b);
    assert s == before + (FirstPiece(last, b) + after);
  }

  /** The number of occurrences of the character `c` in `s`. */
  function Count(s: string, c: char): nat {
    if s == [] then 0 else (if s[0] == c then 1 else 0) + Count(s[1..], c)
  }

  /** `s.replace(c, repl)` where the searched text is the single character `c`. */
  function ReplaceChar(s: string, c: char, repl: string): (r: string)
    ensures |r| == |s| + Count(s, c) * (|repl| - 1)
    ensures Count(s, c) == 0 ==> r == s
  {
    if s == [] then ""
    else (if s[0] == c then repl else [s[0]]) + ReplaceChar(s[1..], c, repl)
  }
}

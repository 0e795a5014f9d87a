/**
 * The Python `str` operations the program relies on, written over `seq<char>`:
 * `startswith`, `in`, `lower`, `strip`, `split(sep)`, `split()[-1]`, `sep.join`
 * and the code-point order that `sorted` uses on strings.
 */
module Strings {

  /** `s.startswith(p)` */
  predicate StartsWith(s: string, p: string) {
    |p| <= |s| && s[..|p|] == p
  }

  /** `sub in s` */
  predicate Contains(s: string, sub: string)
    decreases |s|
  {
    StartsWith(s, sub) || (|s| > 0 && Contains(s[1..], sub))
  }

  /** `sub in s` holds exactly when `sub` occurs at some position of `s`. */
  lemma {:induction false} ContainsIff(s: string, sub: string, i: nat)
    requires i + |sub| <= |s|
    requires s[i..i + |sub|] == sub
    ensures Contains(s, sub)
    decreases i
  {
    if i > 0 {
      assert s[1..][i - 1..i - 1 + |sub|] == s[i..i + |sub|];
      ContainsIff(s[1..], sub, i - 1);
    } else {
      assert s[..|sub|] == s[0..|sub|];
    }
  }

  /** `str.lower` on one character (ASCII letters only). */
  function LowerChar(c: char): (r: char)
    ensures 'A' <= c <= 'Z' ==> 'a' <= r <= 'z' && r as int - c as int == 32
    ensures !('A' <= c <= 'Z') ==> r == c
  {
    if 'A' <= c <= 'Z' then (c as int + 32) as char else c
  }

  /** `s.lower()` */
  function Lower(s: string): (r: string)
    ensures |r| == |s|
    ensures forall i :: 0 <= i < |s| ==> r[i] == LowerChar(s[i])
  {
    seq(|s|, i requires 0 <= i < |s| => LowerChar(s[i]))
  }

  /** `c.isspace()`: the characters Python treats as whitespace in `strip` and `split()`. */
  predicate IsSpace(c: char) {
    || c == ' '
    || ('\t' <= c <= '\r')
    || ('\U{1C}' <= c <= '\U{1F}')
    || c == '\U{85}' || c == '\U{A0}' || c == '\U{1680}'
    || ('\U{2000}' <= c <= '\U{200A}')
    || c == '\U{2028}' || c == '\U{2029}' || c == '\U{202F}' || c == '\U{205F}' || c == '\U{3000}'
  }

  predicate AllSpace(s: string) {
    forall k :: 0 <= k < |s| ==> IsSpace(s[k])
  }

  predicate NoSpace(s: string) {
    forall k :: 0 <= k < |s| ==> !IsSpace(s[k])
  }

  /** The number of whitespace characters at the front of `s`. */
  function LeadingSpaces(s: string): (n: nat)
    ensures n <= |s|
    ensures forall k :: 0 <= k < n ==> IsSpace(s[k])
    ensures n < |s| ==> !IsSpace(s[n])
    decreases |s|
  {
    if |s| > 0 && IsSpace(s[0]) then 1 + LeadingSpaces(s[1..]) else 0
  }

  /** The length of the longest suffix of `s` whose characters are all whitespace (`space`) or all not (`!space`). */
  function TrailingRun(s: string, space: bool): (n: nat)
    ensures n <= |s|
    ensures forall k :: |s| - n <= k < |s| ==> IsSpace(s[k]) == space
    ensures n < |s| ==> IsSpace(s[|s| - 1 - n]) != space
    decreases |s|
  {
    if |s| > 0 && IsSpace(s[|s| - 1]) == space then 1 + TrailingRun(s[..|s| - 1], space) else 0
  }

  /** `s.strip()` */
  function Strip(s: string): (r: string)
    ensures r == [] || (!IsSpace(r[0]) && !IsSpace(r[|r| - 1]))
  {
    var t := s[LeadingSpaces(s)..];
    t[..|t| - TrailingRun(t, true)]
  }

  lemma {:induction false} LeadingSpacesAppend(a: string, x: string)
    requires AllSpace(a)
    ensures LeadingSpaces(a + x) == |a| + LeadingSpaces(x)
    decreases |a|
  {
    if a == [] {
      assert a + x == x;
    } else {
      assert (a + x)[1..] == a[1..] + x;
      LeadingSpacesAppend(a[1..], x);
    }
  }

  lemma {:induction false} TrailingRunAppend(x: string, y: string, space: bool)
    requires forall k :: 0 <= k < |y| ==> IsSpace(y[k]) == space
    ensures TrailingRun(x + y, space) == |y| + TrailingRun(x, space)
    decreases |y|
  {
    if y == [] {
      assert x + y == x;
    } else {
      assert (x + y)[..|x + y| - 1] == x + y[..|y| - 1];
      TrailingRunAppend(x, y[..|y| - 1], space);
    }
  }

  /** Trailing whitespace after a text that neither starts nor ends with whitespace is all that strip removes from it. */
  lemma StripTail(m: string, b: string)
    requires AllSpace(b)
    requires m != [] && !IsSpace(m[0]) && !IsSpace(m[|m| - 1])
    ensures LeadingSpaces(m + b) == 0
    ensures (m + b)[..|m + b| - TrailingRun(m + b, true)] == m
  {
    assert (m + b)[0] == m[0];
    TrailingRunAppend(m, b, true);
  }

  /** A text of whitespace only strips to nothing. */
  lemma StripAllSpace(s: string)
    requires AllSpace(s)
    ensures Strip(s) == []
  {
    assert s + [] == s;
    LeadingSpacesAppend(s, []);
  }

  /**
   * `strip` removes exactly the surrounding whitespace: whatever whitespace
   * surrounds a text that neither starts nor ends with whitespace, stripping
   * gives back that text.
   */
  lemma StripExact(a: string, m: string, b: string)
    requires AllSpace(a) && AllSpace(b)
    requires m == [] || (!IsSpace(m[0]) && !IsSpace(m[|m| - 1]))
    ensures Strip(a + m + b) == m
  {
    var s := a + m + b;
    if m == [] {
      assert s == a + b;
      assert AllSpace(s) by {
        forall k | 0 <= k < |s| ensures IsSpace(s[k]) {
          if k < |a| { assert s[k] == a[k]; } else { assert s[k] == b[k - |a|]; }
        }
      }
      StripAllSpace(s);
    } else {
      assert s == a + (m + b);
      LeadingSpacesAppend(a, m + b);
      StripTail(m, b);
      assert s[LeadingSpaces(s)..] == m + b;
    }
  }

  /** `strip` is idempotent. */
  lemma StripIdempotent(s: string)
    ensures Strip(Strip(s)) == Strip(s)
  {
    var r := Strip(s);
    assert [] + r + [] == r;
    StripExact([], r, []);
  }

  /** `sep.join(parts)` */
  function Join(parts: seq<string>, sep: string): string
    decreases |parts|
  {
    if |parts| == 0 then ""
    else if |parts| == 1 then parts[0]
    else parts[0] + sep + Join(parts[1..], sep)
  }

  /** The joined text is as long as its parts plus one separator between each two. */
  lemma {:induction false} JoinLength(parts: seq<string>, sep: string)
    requires |parts| >= 1
    ensures |Join(parts, sep)| == TotalLength(parts) + (|parts| - 1) * |sep|
    decreases |parts|
  {
    if |parts| > 1 {
      JoinLength(parts[1..], sep);
    }
  }

  /** Joining one more part adds the separator and that part. */
  lemma {:induction false} JoinAppend(parts: seq<string>, p: string, sep: string)
    requires |parts| >= 1
    ensures Join(parts + [p], sep) == Join(parts, sep) + sep + p
    decreases |parts|
  {
    if |parts| > 1 {
      assert (parts + [p])[1..] == parts[1..] + [p];
      JoinAppend(parts[1..], p, sep);
    } else {
      assert (parts + [p])[1..] == [p];
    }
  }

  function TotalLength(parts: seq<string>): nat
    decreases |parts|
  {
    if |parts| == 0 then 0 else |parts[0]| + TotalLength(parts[1..])
  }

  /** The first position of `c` in `s`. */
  function IndexOf(s: string, c: char): (i: nat)
    requires c in s
    ensures i < |s| && s[i] == c && c !in s[..i]
    decreases |s|
  {
    if s[0] == c then 0
    else
      var j := IndexOf(s[1..], c);
      assert s[..j + 1] == [s[0]] + s[1..][..j];
      j + 1
  }

  /** `s.split(sep)` for a one-character separator: never empty, one more part than separators. */
  function Split(s: string, sep: char): (parts: seq<string>)
    ensures |parts| >= 1
    decreases |s|
  {
    if sep !in s then [s]
    else
      var i := IndexOf(s, sep);
      [s[..i]] + Split(s[i + 1..], sep)
  }

  /** No part of a split contains the separator. */
  lemma {:induction false} SplitPartsFree(s: string, sep: char)
    ensures forall k :: 0 <= k < |Split(s, sep)| ==> sep !in Split(s, sep)[k]
    decreases |s|
  {
    if sep in s {
      var i := IndexOf(s, sep);
      SplitPartsFree(s[i + 1..], sep);
    }
  }

  /** Joining the parts of a split with the separator gives back the text. */
  lemma {:induction false} JoinSplit(s: string, sep: char)
    ensures Join(Split(s, sep), [sep]) == s
    decreases |s|
  {
    if sep in s {
      var i := IndexOf(s, sep);
      var rest := Split(s[i + 1..], sep);
      JoinSplit(s[i + 1..], sep);
      assert ([s[..i]] + rest)[1..] == rest;
      assert s == s[..i] + [sep] + s[i + 1..];
    }
  }

  /** The first occurrence of `c` is where it occurs with none before. */
  lemma {:induction false} IndexOfAt(s: string, c: char, j: nat)
    requires j < |s| && s[j] == c && c !in s[..j]
    ensures c in s && IndexOf(s, c) == j
    decreases j
  {
    assert s[j] in s;
    if j > 0 {
      assert s[0] == s[..j][0];
      assert s[1..][..j - 1] == s[..j][1..];
      IndexOfAt(s[1..], c, j - 1);
    }
  }

  /** Splitting a join of separator-free parts gives back the parts. */
  lemma {:induction false} SplitJoin(parts: seq<string>, sep: char)
    requires |parts| >= 1
    requires forall k :: 0 <= k < |parts| ==> sep !in parts[k]
    ensures Split(Join(parts, [sep]), sep) == parts
    decreases |parts|
  {
    var p := parts[0];
    assert sep !in p;
    if |parts| == 1 {
      assert Join(parts, [sep]) == p;
      assert Split(p, sep) == [p];
    } else {
      var rest := parts[1..];
      var j := Join(rest, [sep]);
      var s := p + [sep] + j;
      assert Join(parts, [sep]) == s;
      assert s[..|p|] == p;
      IndexOfAt(s, sep, |p|);
      assert s[|p| + 1..] == j;
      assert Split(s, sep) == [p] + Split(j, sep);
      assert forall k :: 0 <= k < |rest| ==> sep !in rest[k] by {
        forall k | 0 <= k < |rest| ensures sep !in rest[k] {
          assert rest[k] == parts[k + 1];
        }
      }
      SplitJoin(rest, sep);
      assert parts == [p] + rest;
    }
  }

  predicate HasNonSpace(s: string) {
    exists k :: 0 <= k < |s| && !IsSpace(s[k])
  }

  /**
   * `w` is the last element of `s.split()`: a non-empty run of
   * non-whitespace in `s` that starts `s` or follows whitespace, with only
   * whitespace after it.
   */
  ghost predicate IsLastWord(s: string, w: string) {
    w != [] && NoSpace(w) && exists i :: LastWordAt(s, w, i)
  }

  /** `w` occurs in `s` at `i`, after the start or whitespace, and only whitespace follows it. */
  predicate LastWordAt(s: string, w: string, i: int) {
    0 <= i && i + |w| <= |s| && s[i..i + |w|] == w && (i == 0 || IsSpace(s[i - 1])) && AllSpace(s[i + |w|..])
  }

  /** `s.split()[-1]`: the last whitespace-separated word (`split()` of an all-blank text is empty, which Python indexes with an error). */
  function LastWord(s: string): (w: string)
    requires HasNonSpace(s)
    ensures IsLastWord(s, w)
  {
    var e := |s| - TrailingRun(s, true);
    var t := s[..e];
    assert t != [] by {
      var k :| 0 <= k < |s| && !IsSpace(s[k]);
      assert k < |t|;
    }
    var i := |t| - TrailingRun(t, false);
    var w := t[i..];
    assert s[i..i + |w|] == w;
    assert i > 0 ==> IsSpace(s[i - 1]) by {
      if i > 0 { assert s[i - 1] == t[i - 1]; }
    }
    assert AllSpace(s[i + |w|..]) by {
      forall k | 0 <= k < |s[e..]| ensures IsSpace(s[e..][k]) {
        assert s[e..][k] == s[e + k];
      }
    }
    assert LastWordAt(s, w, i);
    w
  }

  /** A text has at most one last word, so `IsLastWord` determines `LastWord`. */
  lemma LastWordUnique(s: string, w1: string, w2: string)
    requires IsLastWord(s, w1) && IsLastWord(s, w2)
    ensures w1 == w2
  {
    var i1 :| LastWordAt(s, w1, i1);
    var i2 :| LastWordAt(s, w2, i2);
    EndsAgree(s, i1, w1, i2, w2);
    EndsAgree(s, i2, w2, i1, w1);
    StartsAgree(s, i1, w1, i2, w2);
    StartsAgree(s, i2, w2, i1, w1);
  }

  /** The word that ends first cannot be followed by only whitespace if another word ends later. */
  lemma EndsAgree(s: string, i1: int, w1: string, i2: int, w2: string)
    requires 0 <= i1 && i1 + |w1| <= |s| && s[i1..i1 + |w1|] == w1 && AllSpace(s[i1 + |w1|..])
    requires 0 <= i2 && i2 + |w2| <= |s| && s[i2..i2 + |w2|] == w2 && w2 != [] && NoSpace(w2)
    ensures i2 + |w2| <= i1 + |w1|
  {
    var e1, e2 := i1 + |w1|, i2 + |w2|;
    assert forall k :: e1 <= k < |s| ==> IsSpace(s[k]) by {
      forall k | e1 <= k < |s| ensures IsSpace(s[k]) {
        assert s[k] == s[e1..][k - e1];
      }
    }
    assert !IsSpace(s[e2 - 1]) by {
      assert s[e2 - 1] == w2[|w2| - 1];
    }
  }

  /** Of two words ending together, the one starting later cannot follow whitespace inside the other. */
  lemma StartsAgree(s: string, i1: int, w1: string, i2: int, w2: string)
    requires 0 <= i1 && i1 + |w1| <= |s| && s[i1..i1 + |w1|] == w1 && NoSpace(w1)
    requires 0 <= i2 && i2 + |w2| <= |s| && s[i2..i2 + |w2|] == w2 && (i2 == 0 || IsSpace(s[i2 - 1]))
    requires i1 + |w1| == i2 + |w2|
    ensures i2 <= i1
  {
    assert forall k :: i1 <= k < i1 + |w1| ==> !IsSpace(s[k]) by {
      forall k | i1 <= k < i1 + |w1| ensures !IsSpace(s[k]) {
        assert s[k] == w1[k - i1];
      }
    }
  }

  /** The last word of a text that ends in whitespace followed by a word is that word. */
  lemma LastWordOfAppend(prefix: string, w: string)
    requires prefix != [] && IsSpace(prefix[|prefix| - 1])
    requires w != [] && NoSpace(w)
    ensures HasNonSpace(prefix + w)
    ensures LastWord(prefix + w) == w
  {
    var s := prefix + w;
    assert s[|s| - 1] == w[|w| - 1];
    assert TrailingRun(s, true) == 0;
    assert s[..|s| - TrailingRun(s, true)] == s;
    assert TrailingRun(prefix, false) == 0;
    TrailingRunAppend(prefix, w, false);
    assert s[|s| - TrailingRun(s, false)..] == w;
  }

  /** Python's `<=` on strings: lexicographic by code point, a proper prefix first. */
  predicate LexLe(a: string, b: string)
    decreases |a|
  {
    |a| == 0 || (|b| > 0 && (a[0] < b[0] || (a[0] == b[0] && LexLe(a[1..], b[1..]))))
  }

  lemma {:induction false} LexLeTotal(a: string, b: string)
    ensures LexLe(a, b) || LexLe(b, a)
    decreases |a|
  {
    if |a| > 0 && |b| > 0 && a[0] == b[0] {
      LexLeTotal(a[1..], b[1..]);
    }
  }

  lemma {:induction false} LexLeTrans(a: string, b: string, c: string)
    requires LexLe(a, b) && LexLe(b, c)
    ensures LexLe(a, c)
    decreases |a|
  {
    if |a| > 0 && a[0] == b[0] && b[0] == c[0] {
      LexLeTrans(a[1..], b[1..], c[1..]);
    }
  }

  lemma {:induction false} LexLeAntisym(a: string, b: string)
    requires LexLe(a, b) && LexLe(b, a)
    ensures a == b
    decreases |a|
  {
    if |a| > 0 {
      LexLeAntisym(a[1..], b[1..]);
      assert a == [a[0]] + a[1..] && b == [b[0]] + b[1..];
    }
  }
}

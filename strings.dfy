/** The JavaScript string operations the dashboard relies on: relational
    comparison (`<=`, `>=`), `split` on one character, `trim`, removal of one
    character (`replace(/c/g, '')`), ASCII case mapping and `endsWith`. */
module Strings {
  import opened Seqs

  /** JavaScript `a <= b` on strings: character by character, and a proper prefix
      is smaller. Characters compare by UTF-16 code unit; `char` stands for one
      code unit here, so a character above U+FFFF is its two surrogates. */
  predicate LexLe(a: string, b: string)
    decreases |a|
  {
    |a| == 0 || (|b| > 0 && (a[0] < b[0] || (a[0] == b[0] && LexLe(a[1..], b[1..]))))
  }

  /** JavaScript `a < b` on strings. */
  predicate LexLt(a: string, b: string) {
    !LexLe(b, a)
  }

  lemma {:induction false} LexLeReflexive(a: string)
    ensures LexLe(a, a)
    decreases |a|
  {
    if |a| > 0 {
      LexLeReflexive(a[1..]);
    }
  }

  lemma {:induction false} LexLeAntisymmetric(a: string, b: string)
    requires LexLe(a, b) && LexLe(b, a)
    ensures a == b
    decreases |a|
  {
    if |a| > 0 {
      LexLeAntisymmetric(a[1..], b[1..]);
      assert a == [a[0]] + a[1..] && b == [b[0]] + b[1..];
    }
  }

  lemma {:induction false} LexLeTransitive(a: string, b: string, c: string)
    requires LexLe(a, b) && LexLe(b, c)
    ensures LexLe(a, c)
    decreases |a|
  {
    if |a| > 0 && a[0] == b[0] == c[0] {
      LexLeTransitive(a[1..], b[1..], c[1..]);
    }
  }

  lemma {:induction false} LexLeTotal(a: string, b: string)
    ensures LexLe(a, b) || LexLe(b, a)
    decreases |a|
  {
    if |a| > 0 && |b| > 0 && a[0] == b[0] {
      LexLeTotal(a[1..], b[1..]);
    }
  }

  /** `s.split(c)`: the maximal pieces of `s` between occurrences of `c`. */
  function Split(s: string, c: char): (parts: seq<string>)
    ensures |parts| >= 1
    ensures forall i :: 0 <= i < |parts| ==> c !in parts[i]
    ensures c in s <==> |parts| >= 2
    ensures parts[0] <= s
    ensures |parts[0]| == |s| || s[|parts[0]|] == c
    decreases |s|
  {
    if |s| == 0 then [""]
    else
      var rest := Split(s[1..], c);
      if s[0] == c then [""] + rest
      else
        var parts := [[s[0]] + rest[0]] + rest[1..];
        assert forall i :: 1 <= i < |parts| ==> parts[i] == rest[i];
        assert c in s ==> c in s[1..] by {
          if c in s {
            var j :| 0 <= j < |s| && s[j] == c;
            assert s[1..][j - 1] == c;
          }
        }
        parts
  }

  /** `parts.join(sep)`. */
  function Join(parts: seq<string>, sep: string): string
    decreases |parts|
  {
    if |parts| == 0 then "" else if |parts| == 1 then parts[0] else parts[0] + sep + Join(parts[1..], sep)
  }

  /** Splitting loses nothing: joining the pieces with the separator gives `s` back. */
  lemma {:induction false} JoinSplit(s: string, c: char)
    ensures Join(Split(s, c), [c]) == s
    decreases |s|
  {
    if |s| > 0 {
      var rest := Split(s[1..], c);
      JoinSplit(s[1..], c);
      SplitFirst(s, c);
      if s[0] == c {
        JoinAfterEmpty(rest, c);
      } else {
        JoinAfterChar(s[0], rest, c);
      }
    }
  }

  /** The first character of `s` either ends an empty first piece or starts
      the first piece of the rest. */
  lemma {:induction false} SplitFirst(s: string, c: char)
    requires |s| > 0
    ensures Split(s, c) == if s[0] == c then [""] + Split(s[1..], c)
                           else [[s[0]] + Split(s[1..], c)[0]] + Split(s[1..], c)[1..]
  {
  }

  /** An empty first piece contributes only the separator. */
  lemma {:induction false} JoinAfterEmpty(rest: seq<string>, c: char)
    requires |rest| >= 1
    ensures Join([""] + rest, [c]) == [c] + Join(rest, [c])
  {
    assert ([""] + rest)[1..] == rest;
  }

  /** A character put in front of the first piece comes first in the join. */
  lemma {:induction false} JoinAfterChar(x: char, rest: seq<string>, c: char)
    requires |rest| >= 1
    ensures Join([[x] + rest[0]] + rest[1..], [c]) == [x] + Join(rest, [c])
  {
    var parts := [[x] + rest[0]] + rest[1..];
    assert |parts| == |rest| && parts[0] == [x] + rest[0];
    if |rest| > 1 {
      var tail := Join(rest[1..], [c]);
      assert parts[1..] == rest[1..];
      assert Join(parts, [c]) == ([x] + rest[0]) + [c] + tail;
      assert Join(rest, [c]) == rest[0] + [c] + tail;
      assert ([x] + rest[0]) + [c] + tail == [x] + (rest[0] + [c] + tail);
    } else {
      assert Join(parts, [c]) == [x] + rest[0];
      assert Join(rest, [c]) == rest[0];
    }
  }

  /** Pieces without the separator come back out of `split` after `join`. */
  lemma {:induction false} SplitJoin(parts: seq<string>, c: char)
    requires |parts| >= 1
    requires forall i :: 0 <= i < |parts| ==> c !in parts[i]
    ensures Split(Join(parts, [c]), c) == parts
    decreases |parts|
  {
    if |parts| == 1 {
      SplitWithout(parts[0], c);
    } else {
      SplitJoin(parts[1..], c);
      SplitPrefix(parts[0], Join(parts[1..], [c]), c);
      assert parts == [parts[0]] + parts[1..];
    }
  }

  lemma {:induction false} SplitWithout(w: string, c: char)
    requires c !in w
    ensures Split(w, c) == [w]
    decreases |w|
  {
    if |w| > 0 {
      SplitWithout(w[1..], c);
      assert w == [w[0]] + w[1..];
    }
  }

  lemma {:induction false} SplitPrefix(w: string, t: string, c: char)
    requires c !in w
    ensures Split(w + [c] + t, c) == [w] + Split(t, c)
    decreases |w|
  {
    if |w| == 0 {
      assert (w + [c] + t)[1..] == t;
    } else {
      var s := w + [c] + t;
      assert s[1..] == w[1..] + [c] + t;
      SplitPrefix(w[1..], t, c);
      var rest := Split(s[1..], c);
      assert rest[0] == w[1..] && rest[1..] == Split(t, c);
      assert s[0] == w[0] != c;
      assert Split(s, c) == [[w[0]] + rest[0]] + rest[1..];
      assert w == [w[0]] + w[1..];
    }
  }

  /** The characters `String.prototype.trim` removes: ECMAScript WhiteSpace
      (TAB, VT, FF, ZWNBSP and the Unicode space separators) and LineTerminator
      (LF, CR, LS, PS). */
  predicate IsWhiteSpace(ch: char) {
    var n := ch as int;
    n == 0x09 || n == 0x0A || n == 0x0B || n == 0x0C || n == 0x0D || n == 0x20
    || n == 0xA0 || n == 0x1680 || (0x2000 <= n <= 0x200A) || n == 0x2028 || n == 0x2029
    || n == 0x202F || n == 0x205F || n == 0x3000 || n == 0xFEFF
  }

  /** The number of white-space characters `s` starts with. */
  function ContentStart(s: string): (n: nat)
    ensures n <= |s| && forall i :: 0 <= i < n ==> IsWhiteSpace(s[i])
    ensures n < |s| ==> !IsWhiteSpace(s[n])
    decreases |s|
  {
    if |s| > 0 && IsWhiteSpace(s[0]) then
      var n := ContentStart(s[1..]);
      assert forall i :: 1 <= i < n + 1 ==> s[i] == s[1..][i - 1];
      n + 1
    else 0
  }

  /** The index where the white space `s` ends with begins. */
  function ContentEnd(s: string): (n: nat)
    ensures n <= |s| && forall i :: n <= i < |s| ==> IsWhiteSpace(s[i])
    ensures n > 0 ==> !IsWhiteSpace(s[n - 1])
    decreases |s|
  {
    if |s| > 0 && IsWhiteSpace(s[|s| - 1]) then ContentEnd(s[..|s| - 1]) else |s|
  }

  /** `s.trim()`: the slice of `s` that starts where its leading white space
      ends (`ContentStart`) and is followed only by white space; it neither
      starts nor ends with white space. */
  function Trim(s: string): (r: string)
    ensures ContentStart(s) + |r| <= |s| && r == s[ContentStart(s)..ContentStart(s) + |r|]
    ensures forall i :: ContentStart(s) + |r| <= i < |s| ==> IsWhiteSpace(s[i])
    ensures |r| > 0 ==> !IsWhiteSpace(r[0]) && !IsWhiteSpace(r[|r| - 1])
    ensures |s| > 0 && !IsWhiteSpace(s[0]) && !IsWhiteSpace(s[|s| - 1]) ==> r == s
  {
    var a, b := ContentStart(s), ContentEnd(s);
    if a < b then s[a..b] else []
  }

  /** The test that keeps every character other than `c`. */
  function AllBut(c: char): char -> bool {
    ch => ch != c
  }

  /** `s.replace(/c/g, '')`: every other character, in order. */
  function RemoveAll(s: string, c: char): (r: string)
    ensures Selects(r, s, AllBut(c))
    ensures c !in r
    ensures c !in s ==> r == s
  {
    var r := Filter(s, AllBut(c));
    assert forall i :: 0 <= i < |r| ==> r[i] != c;
    if c !in s then
      FilterKeepsAll(s, AllBut(c));
      r
    else r
  }

  function UpperChar(ch: char): char {
    if 'a' <= ch <= 'z' then (ch as int - 'a' as int + 'A' as int) as char else ch
  }

  function LowerChar(ch: char): char {
    if 'A' <= ch <= 'Z' then (ch as int - 'A' as int + 'a' as int) as char else ch
  }

  /** `s.toUpperCase()`, for the ASCII letters. */
  function Upper(s: string): (r: string)
    ensures |r| == |s| && forall i :: 0 <= i < |s| ==> r[i] == UpperChar(s[i])
  {
    seq(|s|, i requires 0 <= i < |s| => UpperChar(s[i]))
  }

  /** `s.toLowerCase()`, for the ASCII letters. */
  function Lower(s: string): (r: string)
    ensures |r| == |s| && forall i :: 0 <= i < |s| ==> r[i] == LowerChar(s[i])
  {
    seq(|s|, i requires 0 <= i < |s| => LowerChar(s[i]))
  }

  /** `s.endsWith(suffix)`. */
  predicate EndsWith(s: string, suffix: string) {
    |suffix| <= |s| && s[|s| - |suffix|..] == suffix
  }
}

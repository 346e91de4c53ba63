/** The string operations the pipeline uses: `Split`, `string.Join`, `ToLower`, `EndsWith`. */
module Text {

  /** `s.Split(c)`: the pieces between separators; always at least one piece, "" gives [""]. */
  function Split(s: string, c: char): (r: seq<string>)
    ensures |r| >= 1
    ensures forall k :: 0 <= k < |r| ==> c !in r[k] && |r[k]| <= |s|
  {
    if s == [] then [""]
    else
      var rest := Split(s[1..], c);
      if s[0] == c then [""] + rest
      else [[s[0]] + rest[0]] + rest[1..]
  }

  /** `string.Join(sep, parts)` with a one-character separator; no parts give "". */
  function Join(parts: seq<string>, c: char): string
  {
    if |parts| == 0 then ""
    else if |parts| == 1 then parts[0]
    else parts[0] + [c] + Join(parts[1..], c)
  }

  /** Joining the pieces of a split gives the string back. */
  lemma {:induction false} JoinSplit(s: string, c: char)
    ensures Join(Split(s, c), c) == s
  {
    if s != [] {
      var rest := Split(s[1..], c);
      JoinSplit(s[1..], c);
      if s[0] == c {
        assert Split(s, c) == [""] + rest;
        assert (["" ] + rest)[1..] == rest;
      } else {
        var r := Split(s, c);
        assert r == [[s[0]] + rest[0]] + rest[1..];
        if |rest| > 1 {
          assert r[1..] == rest[1..];
          assert Join(rest, c) == rest[0] + [c] + Join(rest[1..], c);
        }
      }
    }
  }

  /** Splitting a piece with no separator in front of the rest extends the first piece. */
  lemma {:induction false} SplitAfterPiece(x: string, t: string, c: char)
    requires c !in x
    ensures Split(x + t, c) == [x + Split(t, c)[0]] + Split(t, c)[1..]
  {
    if x != [] {
      SplitAfterPiece(x[1..], t, c);
      var st := Split(t, c);
      var r := Split(x[1..] + t, c);
      assert (x + t)[0] == x[0] != c;
      assert (x + t)[1..] == x[1..] + t;
      assert Split(x + t, c) == [[x[0]] + r[0]] + r[1..];
      assert r[0] == x[1..] + st[0] && r[1..] == st[1..];
      assert [x[0]] + (x[1..] + st[0]) == x + st[0];
    } else {
      assert x + t == t;
      assert x + Split(t, c)[0] == Split(t, c)[0];
      assert Split(t, c) == [Split(t, c)[0]] + Split(t, c)[1..];
    }
  }

  /** Splitting a join gives the parts back, provided no part holds the separator. */
  lemma {:induction false} SplitJoin(parts: seq<string>, c: char)
    requires |parts| >= 1
    requires forall k :: 0 <= k < |parts| ==> c !in parts[k]
    ensures Split(Join(parts, c), c) == parts
  {
    if |parts| == 1 {
      SplitAfterPiece(parts[0], "", c);
      assert parts[0] + "" == parts[0];
    } else {
      var tail := Join(parts[1..], c);
      SplitJoin(parts[1..], c);
      assert Join(parts, c) == parts[0] + ([c] + tail);
      SplitAfterPiece(parts[0], [c] + tail, c);
      assert ([c] + tail)[1..] == tail;
      assert Split([c] + tail, c) == [""] + parts[1..];
      assert parts[0] + "" == parts[0];
    }
  }

  /** Joining several parts puts the separator right before the last one. */
  lemma {:induction false} JoinLast(parts: seq<string>, c: char)
    requires |parts| >= 2
    ensures Join(parts, c) == Join(parts[..|parts| - 1], c) + [c] + parts[|parts| - 1]
  {
    if |parts| > 2 {
      JoinLast(parts[1..], c);
      assert parts[1..][..|parts| - 2] == parts[..|parts| - 1][1..];
    }
  }

  /** `s.Split('/').LastOrDefault()`: the last '/'-separated segment of `s`. */
  function LastSegment(s: string): (r: string)
    ensures '/' !in r && |r| <= |s|
  {
    var parts := Split(s, '/');
    parts[|parts| - 1]
  }

  /** The last segment is exactly what follows the last '/' of `s` (all of `s` when it has none). */
  lemma LastSegmentFollowsLastSlash(s: string)
    ensures '/' !in LastSegment(s)
    ensures |LastSegment(s)| <= |s| && s[|s| - |LastSegment(s)|..] == LastSegment(s)
    ensures |LastSegment(s)| < |s| ==> s[|s| - |LastSegment(s)| - 1] == '/'
  {
    var parts := Split(s, '/');
    JoinSplit(s, '/');
    if |parts| >= 2 {
      JoinLast(parts, '/');
    }
  }

  /** ASCII lower-casing of one character. */
  function LowerChar(ch: char): char
  {
    if 'A' <= ch <= 'Z' then (ch as int + 32) as char else ch
  }

  /** `s.ToLower()`, restricted to ASCII letters. */
  function ToLower(s: string): (r: string)
    ensures |r| == |s|
    ensures forall i :: 0 <= i < |s| ==> r[i] == LowerChar(s[i])
  {
    seq(|s|, i requires 0 <= i < |s| => LowerChar(s[i]))
  }

  /** `s.EndsWith(suffix)`, compared character by character. */
  predicate EndsWith(s: string, suffix: string)
  {
    |suffix| <= |s| && s[|s| - |suffix|..] == suffix
  }
}

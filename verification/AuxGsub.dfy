/** Substring replacement: every leftmost, non-overlapping occurrence of a pattern. */
module AuxGsub {
  import opened AuxBuffer

  /** strstr: the position of the first occurrence of `p`, or -1. */
  function FirstAt(s: string, p: string): (i: int)
    ensures -1 <= i <= |s|
    ensures i >= 0 ==> i + |p| <= |s| && s[i..i + |p|] == p
  {
    if p <= s then 0
    else if s == "" then -1
    else
      var i := FirstAt(s[1..], p);
      if i < 0 then -1
      else
        assert s[1..][i..i + |p|] == s[i + 1..i + 1 + |p|];
        i + 1
  }

  predicate OccursAt(s: string, p: string, i: nat) { i + |p| <= |s| && s[i..i + |p|] == p }

  /** strstr finds an occurrence if there is one, and none comes before it. */
  lemma {:induction false} FirstIsLeast(s: string, p: string)
    ensures forall k: nat :: OccursAt(s, p, k) ==> 0 <= FirstAt(s, p) <= k
    decreases |s|
  {
    if !(p <= s) {
      if s != "" { FirstIsLeast(s[1..], p); }
      forall k: nat | OccursAt(s, p, k) ensures 0 <= FirstAt(s, p) <= k {
        assert k > 0;
        assert s[1..][k - 1..k - 1 + |p|] == s[k..k + |p|];
        assert OccursAt(s[1..], p, k - 1);
      }
    }
  }

  /** What luaL_gsub returns. */
  function Replace(s: string, p: string, r: string): string
    requires p != ""
    decreases |s|
  {
    var i := FirstAt(s, p);
    if i < 0 then s else s[..i] + r + Replace(s[i + |p|..], p, r)
  }

  /** The pieces of `s` around the occurrences that are replaced. */
  function Pieces(s: string, p: string): (ps: seq<string>)
    requires p != ""
    ensures ps != []
    decreases |s|
  {
    var i := FirstAt(s, p);
    if i < 0 then [s] else [s[..i]] + Pieces(s[i + |p|..], p)
  }

  function Join(ps: seq<string>, sep: string): string
    requires ps != []
  {
    if |ps| == 1 then ps[0] else ps[0] + sep + Join(ps[1..], sep)
  }

  /** Splitting from the left: the pattern first occurs right after every piece but the
      last, and not at all in the last. */
  predicate FirstAfter(x: string, p: string) { FirstAt(x + p, p) == |x| }

  predicate LeftmostSplit(ps: seq<string>, p: string) {
    && ps != []
    && (forall k :: 0 <= k < |ps| - 1 ==> FirstAfter(ps[k], p))
    && FirstAt(ps[|ps| - 1], p) < 0
  }

  /** Text after the first occurrence does not move it. */
  lemma FirstInPrefix(x: string, y: string, p: string)
    requires p != ""
    ensures FirstAt(x + p, p) == |x| <==> FirstAt(x + p + y, p) == |x|
  {
    FirstIsLeast(x + p, p);
    FirstIsLeast(x + p + y, p);
    assert OccursAt(x + p, p, |x|) && OccursAt(x + p + y, p, |x|);
    var i, j := FirstAt(x + p, p), FirstAt(x + p + y, p);
    assert (x + p + y)[i..i + |p|] == (x + p)[i..i + |p|];
    assert OccursAt(x + p + y, p, i);
    if j <= |x| {
      assert (x + p)[j..j + |p|] == (x + p + y)[j..j + |p|];
      assert OccursAt(x + p, p, j);
    }
  }

  /** The result joins the pieces of the leftmost splitting with the replacement, and the
      string itself joins the same pieces with the pattern. */
  lemma {:induction false} ReplaceJoins(s: string, p: string, r: string)
    requires p != ""
    ensures LeftmostSplit(Pieces(s, p), p)
    ensures Join(Pieces(s, p), p) == s
    ensures Join(Pieces(s, p), r) == Replace(s, p, r)
    decreases |s|
  {
    hide FirstAt, Pieces, Replace;
    var i := FirstAt(s, p);
    if i >= 0 {
      var rest := s[i + |p|..];
      var ps := Pieces(rest, p);
      ReplaceJoins(rest, p, r);
      assert s == s[..i] + p + rest;
      PiecesFrom(s, p, s[..i], rest);
      ReplaceStep(s, p, r);
      FirstInPrefix(s[..i], rest, p);
      assert ([s[..i]] + ps)[1..] == ps;
      SplitMore(s[..i], ps, p);
    } else {
      PiecesEnd(s, p);
      ReplaceEnd(s, p, r);
    }
  }

  lemma SplitMore(x: string, ps: seq<string>, p: string)
    requires LeftmostSplit(ps, p) && FirstAfter(x, p)
    ensures LeftmostSplit([x] + ps, p)
  {
    hide FirstAt, FirstAfter;
    assert forall k :: 1 <= k < |ps| + 1 ==> ([x] + ps)[k] == ps[k - 1];
  }

  /** There is only one such splitting. */
  lemma {:induction false} SplitUnique(ps: seq<string>, p: string)
    requires p != "" && LeftmostSplit(ps, p)
    ensures ps == Pieces(Join(ps, p), p)
    decreases |ps|
  {
    hide FirstAt, Pieces;
    if |ps| > 1 {
      var s, rest := Join(ps, p), Join(ps[1..], p);
      assert FirstAfter(ps[0], p);
      FirstInPrefix(ps[0], rest, p);
      assert s == ps[0] + p + rest;
      assert LeftmostSplit(ps[1..], p) by { assert forall k :: 0 <= k < |ps| - 1 ==> ps[1..][k] == ps[k + 1]; }
      SplitUnique(ps[1..], p);
      PiecesFrom(s, p, ps[0], rest);
    } else {
      PiecesEnd(ps[0], p);
    }
  }

  lemma PiecesFrom(s: string, p: string, x: string, rest: string)
    requires p != "" && s == x + p + rest && FirstAt(s, p) == |x|
    ensures Pieces(s, p) == [x] + Pieces(rest, p)
  {
    assert s[..|x|] == x && s[|x| + |p|..] == rest;
  }

  lemma PiecesEnd(s: string, p: string)
    requires p != "" && FirstAt(s, p) < 0
    ensures Pieces(s, p) == [s]
  {}

  // ----- the loop -----

  /** One turn of the loop on what is left of the string and the buffer. */
  function Turn(s: string, p: string, r: string, done: string): (string, string)
    requires FirstAt(s, p) >= 0
  {
    var i := FirstAt(s, p);
    (s[i + |p|..], done + s[..i] + r)
  }

  /** The loop makes progress exactly when the pattern is not empty: an empty one is found at
      the front again. */
  lemma ProgressIff(s: string, p: string, r: string, done: string)
    requires FirstAt(s, p) >= 0
    ensures p == "" ==> Turn(s, p, r, done) == (s, done + r)
    ensures p != "" <==> |Turn(s, p, r, done).0| < |s|
  {
    if p == "" { assert s[0..] == s && done + s[..0] + r == done + r; }
  }

  function Copies(r: string, n: nat): (t: string)
    ensures |t| == n * |r|
  {
    if n == 0 then "" else r + Copies(r, n - 1)
  }

  /** What is left of the string, and the buffer, after `n` turns with an empty pattern. */
  function Turns(s: string, r: string, done: string, n: nat): (string, string)
    decreases n
  {
    if n == 0 then (s, done)
    else
      var (s', done') := Turn(s, "", r, done);
      Turns(s', r, done', n - 1)
  }

  /** With an empty pattern no number of turns gets anywhere: the string stays as it is, the
      pattern still occurs in it, and the buffer holds ever more copies of the replacement. Only
      the error for a buffer that is too large can end the loop. */
  lemma {:induction false} EmptyPatternTurns(s: string, r: string, done: string, n: nat)
    ensures Turns(s, r, done, n) == (s, done + Copies(r, n)) && FirstAt(Turns(s, r, done, n).0, "") == 0
    decreases n
  {
    hide FirstAt, Turn;
    PatternFound(s);
    if n > 0 {
      ProgressIff(s, "", r, done);
      EmptyPatternTurns(s, r, done + r, n - 1);
      assert done + r + Copies(r, n - 1) == done + (r + Copies(r, n - 1));
    } else { assert done + Copies(r, 0) == done; }
  }

  lemma PatternFound(s: string)
    ensures FirstAt(s, "") == 0
  {}

  lemma ReplaceStep(s: string, p: string, r: string)
    requires p != "" && FirstAt(s, p) >= 0
    ensures var i := FirstAt(s, p); Replace(s, p, r) == s[..i] + r + Replace(s[i + |p|..], p, r)
  {}

  /** luaL_gsub on a non-empty pattern. An error is raised only for a result of at least 2^62
      characters. */
  method Gsub(s: string, p: string, r: string, buffersize: nat, stack: seq<SVal>) returns (ok: bool, result: string,
      stack': seq<SVal>)
    requires p != "" && 0 < buffersize < SIZE_LIMIT / 4
    requires |s| < SIZE_LIMIT && |p| < SIZE_LIMIT && |r| < SIZE_LIMIT
    ensures ok ==> result == Replace(s, p, r) && stack' == stack + [Str(result)]
    ensures !ok ==> |Replace(s, p, r)| >= SIZE_LIMIT / 4
  {
    hide Replace, TooLarge, FirstAt;
    result, stack' := "", stack;
    var b := new Buffer(buffersize, stack);
    var rest := s;
    var wild := FirstAt(rest, p);
    while wild >= 0
      invariant b.Valid() && b.Above(stack) && fresh(b) && fresh(b.b) && b.Lean() && b.initb.Length == buffersize
      invariant wild == FirstAt(rest, p) && |rest| <= |s|
      invariant b.Contents() + Replace(rest, p, r) == Replace(s, p, r)
      decreases |rest|
    {
      ReplaceStep(rest, p, r);
      ghost var done, x, tail := b.Contents(), rest[..wild], Replace(rest[wild + |p|..], p, r);
      Regroup(done, x, r, tail);
      ErrorIsLarge(b, wild);
      ok := b.AddLString(rest[..wild], stack);
      if !ok { return; }
      ErrorIsLarge(b, |r|);
      ok := b.AddLString(r, stack);
      if !ok { return; }
      rest := rest[wild + |p|..];
      wild := FirstAt(rest, p);
    }
    ReplaceEnd(rest, p, r);
    ErrorIsLarge(b, |rest|);
    ok := b.AddLString(rest, stack);
    if !ok { return; }
    b.PushResult(stack);
    result := b.b[..b.n];
    stack' := b.stack;
  }

  lemma Regroup(a: string, b: string, c: string, d: string)
    ensures a + (b + c + d) == a + b + c + d && |a + (b + c + d)| == |a| + |b| + |c| + |d|
  {}

  lemma ReplaceEnd(s: string, p: string, r: string)
    requires p != "" && FirstAt(s, p) < 0
    ensures Replace(s, p, r) == s
  {}

  /** A lean buffer only overflows when its content is large. */
  lemma ErrorIsLarge(b: Buffer, sz: nat)
    requires b.Valid() && b.Lean() && b.initb.Length < SIZE_LIMIT / 4 && sz < SIZE_LIMIT
    ensures b.size - b.n < sz && TooLarge(b.size, b.n, sz) ==> b.n + sz >= SIZE_LIMIT / 4
  {}
}

/** How the chat page cuts one decoded response chunk into candidate JSON
    frames: `chunk.split(/(?<=\})\s*(?=\{)/)`
    (client/src/components/chat-page/page.tsx:127-130), following the
    `String.prototype.split` algorithm for a regular-expression separator. */
module FrameSplit {
  import opened Js

  /** End of the maximal run of white space starting at `q`: where greedy
      `\s*` stops. */
  function WsEnd(s: string, q: nat): (e: nat)
    requires q <= |s|
    ensures q <= e <= |s|
    ensures forall k :: q <= k < e ==> IsJsWhitespace(s[k])
    ensures e < |s| ==> !IsJsWhitespace(s[e])
    decreases |s| - q
  {
    if q < |s| && IsJsWhitespace(s[q]) then WsEnd(s, q + 1) else q
  }

  /** The separator matches at `q`: a `}` just before, then white space up
      to a `{` (the look-ahead). Since `{` is not white space, the greedy
      run is the only way to reach it. */
  predicate IsCut(s: string, q: nat)
    requires q <= |s|
  {
    0 < q && s[q - 1] == '}' && WsEnd(s, q) < |s| && s[WsEnd(s, q)] == '{'
  }

  /** The split loop: `p` is the start of the current piece, `q` the
      position tried next. A match that would end where the current piece
      starts (an empty match at `p`) is skipped, as the algorithm requires. */
  function SplitScan(s: string, p: nat, q: nat): (pieces: seq<string>)
    requires p <= q <= |s|
    ensures |pieces| >= 1
    decreases |s| - q, if q == p then 0 else 1
  {
    if q >= |s| then [s[p..]]
    else if IsCut(s, q) && WsEnd(s, q) != p then [s[p..q]] + SplitScan(s, WsEnd(s, q), WsEnd(s, q))
    else SplitScan(s, p, q + 1)
  }

  /** The white space dropped at each cut, in order. */
  function SplitGaps(s: string, p: nat, q: nat): (gaps: seq<string>)
    requires p <= q <= |s|
    ensures |gaps| + 1 == |SplitScan(s, p, q)|
    decreases |s| - q, if q == p then 0 else 1
  {
    if q >= |s| then []
    else if IsCut(s, q) && WsEnd(s, q) != p then [s[q..WsEnd(s, q)]] + SplitGaps(s, WsEnd(s, q), WsEnd(s, q))
    else SplitGaps(s, p, q + 1)
  }

  /** The pieces of one chunk. */
  function SplitFrames(chunk: string): seq<string> {
    SplitScan(chunk, 0, 0)
  }

  /** The pieces put back together with the given gaps between them. */
  function Rejoin(pieces: seq<string>, gaps: seq<string>): string
    requires |pieces| == |gaps| + 1
  {
    if |gaps| == 0 then pieces[0] else pieces[0] + gaps[0] + Rejoin(pieces[1..], gaps[1..])
  }

  predicate EndsWithClose(t: string) {
    |t| > 0 && t[|t| - 1] == '}'
  }

  predicate StartsWithOpen(t: string) {
    |t| > 0 && t[0] == '{'
  }

  /** The text a greedy `\s*` run consumes is white space. */
  lemma WsRunIsWhitespace(s: string, q: nat)
    requires q <= |s|
    ensures AllWhitespace(s[q..WsEnd(s, q)])
  {
    var e := WsEnd(s, q);
    forall k | 0 <= k < e - q ensures IsJsWhitespace(s[q..e][k]) {
      assert s[q..e][k] == s[q + k];
    }
  }

  lemma {:induction false} SplitScanRejoin(s: string, p: nat, q: nat)
    requires p <= q <= |s|
    ensures Rejoin(SplitScan(s, p, q), SplitGaps(s, p, q)) == s[p..]
    ensures forall g :: g in SplitGaps(s, p, q) ==> AllWhitespace(g)
    decreases |s| - q, if q == p then 0 else 1
  {
    if q >= |s| {
    } else if IsCut(s, q) && WsEnd(s, q) != p {
      var e := WsEnd(s, q);
      SplitScanRejoin(s, e, e);
      var ps := SplitScan(s, p, q);
      var gs := SplitGaps(s, p, q);
      assert ps[1..] == SplitScan(s, e, e);
      assert gs[1..] == SplitGaps(s, e, e);
      SliceThree(s, p, q, e);
      WsRunIsWhitespace(s, q);
      assert Rejoin(ps, gs) == s[p..q] + s[q..e] + Rejoin(ps[1..], gs[1..]);
      assert forall g :: g in gs ==> g == gs[0] || g in gs[1..];
    } else {
      SplitScanRejoin(s, p, q + 1);
    }
  }

  /** Splitting drops nothing but the white space at each cut: the pieces,
      with the dropped white space put back between them, give the chunk. */
  lemma SplitDropsOnlyWhitespace(chunk: string)
    ensures Rejoin(SplitFrames(chunk), SplitGaps(chunk, 0, 0)) == chunk
    ensures forall g :: g in SplitGaps(chunk, 0, 0) ==> AllWhitespace(g)
  {
    SplitScanRejoin(chunk, 0, 0);
  }

  lemma {:induction false} SplitScanBraces(s: string, p: nat, q: nat)
    requires p <= q <= |s|
    requires p == 0 || (p < |s| && s[p] == '{')
    ensures forall i :: 0 <= i < |SplitScan(s, p, q)| - 1 ==> EndsWithClose(SplitScan(s, p, q)[i])
    ensures forall i :: 0 <= i < |SplitScan(s, p, q)| && (i > 0 || p > 0) ==> StartsWithOpen(SplitScan(s, p, q)[i])
    decreases |s| - q, if q == p then 0 else 1
  {
    if q >= |s| {
      if p > 0 {
        assert s[p..][0] == s[p];
      }
    } else if IsCut(s, q) && WsEnd(s, q) != p {
      var e := WsEnd(s, q);
      SplitScanBraces(s, e, e);
      var x := s[p..q];
      assert q != p;
      assert x[|x| - 1] == s[q - 1];
      if p > 0 {
        assert x[0] == s[p];
      }
      assert SplitScan(s, p, q) == [x] + SplitScan(s, e, e);
      BracedCons(x, SplitScan(s, e, e), p > 0);
    } else {
      SplitScanBraces(s, p, q + 1);
    }
  }

  /** A piece that ends with `}` (and starts with `{` when `open`) in front
      of pieces that all start with `{` and, but the last, end with `}`. */
  lemma BracedCons(x: string, rest: seq<string>, open: bool)
    requires EndsWithClose(x) && (open ==> StartsWithOpen(x))
    requires forall i :: 0 <= i < |rest| - 1 ==> EndsWithClose(rest[i])
    requires forall i :: 0 <= i < |rest| ==> StartsWithOpen(rest[i])
    ensures var ps := [x] + rest;
      (forall i :: 0 <= i < |ps| - 1 ==> EndsWithClose(ps[i]))
      && (forall i :: 0 <= i < |ps| && (i > 0 || open) ==> StartsWithOpen(ps[i]))
  {
    var ps := [x] + rest;
    assert forall i :: 0 < i < |ps| ==> ps[i] == rest[i - 1];
  }

  /** The chunk is cut only between a `}` and a following `{`: every piece
      but the last ends with `}` and every piece but the first starts with `{`. */
  lemma SplitCutsBetweenBraces(chunk: string)
    ensures var ps := SplitFrames(chunk);
      (forall i :: 0 <= i < |ps| - 1 ==> EndsWithClose(ps[i])) &&
      (forall i :: 0 < i < |ps| ==> StartsWithOpen(ps[i]))
  {
    SplitScanBraces(chunk, 0, 0);
  }

  /** There is no buffering across reads: a frame that arrives in two chunks
      is seen as two fragments, neither of which is the frame. */
  lemma ChunkBoundaryMatters()
    ensures SplitFrames("{}{x") == ["{}", "{x"]
    ensures SplitFrames("}") == ["}"]
    ensures SplitFrames("{}{x" + "}") == ["{}", "{x}"]
    ensures SplitFrames("{}{x") + SplitFrames("}") != SplitFrames("{}{x" + "}")
  {
    var a := "{}{x";
    assert WsEnd(a, 1) == 1 && !IsCut(a, 1);
    assert WsEnd(a, 2) == 2 && IsCut(a, 2);
    assert SplitScan(a, 2, 2) == SplitScan(a, 2, 3) == SplitScan(a, 2, 4) == ["{x"];
    assert a[0..2] == "{}";
    assert SplitScan(a, 0, 2) == ["{}"] + SplitScan(a, 2, 2);
    assert SplitScan(a, 0, 0) == SplitScan(a, 0, 1) == SplitScan(a, 0, 2);
    var b := "{}{x}";
    assert WsEnd(b, 1) == 1 && !IsCut(b, 1);
    assert WsEnd(b, 2) == 2 && IsCut(b, 2);
    assert WsEnd(b, 4) == 4 && !IsCut(b, 4);
    assert SplitScan(b, 2, 2) == SplitScan(b, 2, 3) == SplitScan(b, 2, 4) == SplitScan(b, 2, 5) == ["{x}"];
    assert b[0..2] == "{}";
    assert SplitScan(b, 0, 2) == ["{}"] + SplitScan(b, 2, 2);
    assert SplitScan(b, 0, 0) == SplitScan(b, 0, 1) == SplitScan(b, 0, 2);
    assert "{}{x" + "}" == b;
    assert SplitScan("}", 0, 0) == SplitScan("}", 0, 1);
  }

  lemma {:induction false} WsEndInPrefix(a: string, b: string, q: nat)
    requires EndsWithClose(a) && q < |a|
    ensures WsEnd(a + b, q) == WsEnd(a, q) < |a|
    decreases |a| - q
  {
    assert (a + b)[q] == a[q];
    if IsJsWhitespace(a[q]) {
      WsEndInPrefix(a, b, q + 1);
    }
  }

  lemma {:induction false} WsEndInSuffix(a: string, b: string, q: nat)
    requires q <= |b|
    ensures WsEnd(a + b, |a| + q) == |a| + WsEnd(b, q)
    decreases |b| - q
  {
    if q < |b| {
      assert (a + b)[|a| + q] == b[q];
      if IsJsWhitespace(b[q]) {
        WsEndInSuffix(a, b, q + 1);
      }
    }
  }

  lemma CutInSuffix(a: string, b: string, q: nat)
    requires 0 < q < |b|
    ensures IsCut(a + b, |a| + q) == IsCut(b, q)
  {
    var s := a + b;
    WsEndInSuffix(a, b, q);
    assert s[|a| + q - 1] == b[q - 1];
    if WsEnd(b, q) < |b| {
      assert s[WsEnd(s, |a| + q)] == b[WsEnd(b, q)];
    }
  }

  /** Behind a chunk starting with `{`, the split of the longer text cuts
      where the split of the chunk alone does. */
  lemma SuffixCutsAgree(a: string, b: string, p: nat, q: nat)
    requires StartsWithOpen(b)
    requires p <= q < |b|
    requires q == 0 ==> p == 0
    ensures WsEnd(a + b, |a| + q) == |a| + WsEnd(b, q)
    ensures (IsCut(a + b, |a| + q) && WsEnd(a + b, |a| + q) != |a| + p) == (IsCut(b, q) && WsEnd(b, q) != p)
  {
    WsEndInSuffix(a, b, q);
    if q == 0 {
      assert WsEnd(b, 0) == 0;
    } else {
      CutInSuffix(a, b, q);
    }
  }

  /** A cut in the chunk is a cut in the longer text, with the same piece. */
  lemma SuffixCutStep(a: string, b: string, p: nat, q: nat)
    requires StartsWithOpen(b)
    requires p <= q < |b|
    requires q == 0 ==> p == 0
    requires IsCut(b, q) && WsEnd(b, q) != p
    requires SplitScan(a + b, |a| + WsEnd(b, q), |a| + WsEnd(b, q)) == SplitScan(b, WsEnd(b, q), WsEnd(b, q))
    ensures SplitScan(a + b, |a| + p, |a| + q) == SplitScan(b, p, q)
  {
    var s, e := a + b, WsEnd(b, q);
    SuffixCutsAgree(a, b, p, q);
    SliceOfSuffix(a, b, p, q);
    ScanCut(s, |a| + p, |a| + q);
    ScanCut(b, p, q);
  }

  /** One step of the split at a cut. */
  lemma ScanCut(s: string, p: nat, q: nat)
    requires p <= q < |s| && IsCut(s, q) && WsEnd(s, q) != p
    ensures SplitScan(s, p, q) == [s[p..q]] + SplitScan(s, WsEnd(s, q), WsEnd(s, q))
  {
  }

  lemma SliceOfSuffix<T>(a: seq<T>, b: seq<T>, i: nat, j: nat)
    requires i <= j <= |b|
    ensures (a + b)[|a| + i..|a| + j] == b[i..j]
  {
  }

  /** No cut in the chunk is no cut in the longer text. */
  lemma SuffixNoCutStep(a: string, b: string, p: nat, q: nat)
    requires StartsWithOpen(b)
    requires p <= q < |b|
    requires q == 0 ==> p == 0
    requires !(IsCut(b, q) && WsEnd(b, q) != p)
    requires SplitScan(a + b, |a| + p, |a| + q + 1) == SplitScan(b, p, q + 1)
    ensures SplitScan(a + b, |a| + p, |a| + q) == SplitScan(b, p, q)
  {
    SuffixCutsAgree(a, b, p, q);
  }

  lemma {:induction false} SplitScanSuffix(a: string, b: string, p: nat, q: nat)
    requires StartsWithOpen(b)
    requires p <= q <= |b|
    requires q == 0 ==> p == 0
    ensures SplitScan(a + b, |a| + p, |a| + q) == SplitScan(b, p, q)
    decreases |b| - q, if q == p then 0 else 1
  {
    if q == |b| {
      assert (a + b)[|a| + p..] == b[p..];
    } else if IsCut(b, q) && WsEnd(b, q) != p {
      SplitScanSuffix(a, b, WsEnd(b, q), WsEnd(b, q));
      SuffixCutStep(a, b, p, q);
    } else {
      SplitScanSuffix(a, b, p, q + 1);
      SuffixNoCutStep(a, b, p, q);
    }
  }

  lemma {:induction false} SplitScanPrefix(a: string, b: string, p: nat, q: nat)
    requires EndsWithClose(a) && StartsWithOpen(b)
    requires p <= q <= |a| && p < |a|
    ensures SplitScan(a + b, p, q) == SplitScan(a, p, q) + SplitScan(a + b, |a|, |a|)
    decreases |a| - q, if q == p then 0 else 1
  {
    var s := a + b;
    var tail := SplitScan(s, |a|, |a|);
    if q < |a| {
      WsEndInPrefix(a, b, q);
      var e := WsEnd(a, q);
      if q > 0 {
        assert s[q - 1] == a[q - 1];
        assert s[e] == a[e];
      }
      assert IsCut(s, q) == IsCut(a, q);
      if IsCut(a, q) && e != p {
        SplitScanPrefix(a, b, e, e);
        assert s[p..q] == a[p..q];
        assert SplitScan(s, p, q) == [a[p..q]] + (SplitScan(a, e, e) + tail);
        assert SplitScan(a, p, q) == [a[p..q]] + SplitScan(a, e, e);
        ConsAppend(a[p..q], SplitScan(a, e, e), tail);
      } else {
        SplitScanPrefix(a, b, p, q + 1);
        assert SplitScan(s, p, q) == SplitScan(s, p, q + 1);
        assert SplitScan(a, p, q) == SplitScan(a, p, q + 1);
      }
    } else {
      WsEndInSuffix(a, b, 0);
      assert WsEnd(b, 0) == 0;
      assert s[|a| - 1] == '}' && s[|a|] == '{';
      assert IsCut(s, |a|);
      assert s[p..|a|] == a[p..];
      assert SplitScan(s, p, q) == [a[p..]] + tail;
    }
  }

  lemma ConsAppend<T>(x: T, u: seq<T>, v: seq<T>)
    ensures [x] + (u + v) == [x] + u + v
  {
  }

  /** When a read ends right after a `}` and the next begins with `{`, the
      two chunks give exactly the pieces of their concatenation. */
  lemma AlignedChunksSplitAsOne(a: string, b: string)
    requires EndsWithClose(a) && StartsWithOpen(b)
    ensures SplitFrames(a + b) == SplitFrames(a) + SplitFrames(b)
  {
    SplitScanPrefix(a, b, 0, 0);
    SplitScanSuffix(a, b, 0, 0);
  }
}

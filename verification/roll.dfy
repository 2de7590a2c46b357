/** Pre-/post-roll padding of the working directory
    (`TimelapseRenderJob._apply_pre_post_roll`). The directory is a map from
    frame index to frame; `shutil.move` and `shutil.copy` of a missing source
    raise IOError. */
module Roll {
  import opened Wrappers
  import opened Errors

  const MissingFile := Foreign("IOError")
  const SameFile := Foreign("shutil.Error")

  /** `shutil.move(path(src), path(dst))` for distinct indices. */
  function Move<F>(d: map<int, F>, src: int, dst: int): map<int, F>
    requires src in d
  {
    d[dst := d[src]] - {src}
  }

  /** The renaming loop: frames i, i-1, ..., 0 (last to first) each move up
      by n positions. */
  function ShiftUp<F>(d: map<int, F>, i: int, n: int): Result<map<int, F>, Exception>
    requires n > 0
    decreases i + 1
  {
    if i < 0 then Ok(d)
    else if i !in d then Err(MissingFile)
    else ShiftUp(Move(d, i, i + n), i - 1, n)
  }

  /** Copies the frame at `src` into positions lo, lo+1, ..., hi-1 in turn. */
  function CopyRange<F>(d: map<int, F>, src: int, lo: int, hi: int): Result<map<int, F>, Exception>
    decreases hi - lo
  {
    if hi <= lo then Ok(d)
    else if src !in d then Err(MissingFile)
    else if src == lo then Err(SameFile)
    else CopyRange(d[lo := d[src]], src, lo + 1, hi)
  }

  /** Pre-roll: for `pre > 0`, shift the `count` frames up by `pre`, then
      copy the moved first frame (now at `pre`) into 0 .. pre-1. With no
      frame to move the first-image path stays empty and the copy fails. */
  function PreRoll<F>(d: map<int, F>, count: int, pre: int): (r: Result<map<int, F>, Exception>)
    ensures r.Err? ==> r.error == MissingFile
  {
    if pre > 0 then
      ShiftUpFailsOnlyOnMissing(d, count - 1, pre);
      var shifted :- ShiftUp(d, count - 1, pre);
      if count <= 0 then Err(MissingFile)
      else
        CopyRangeFailsOnlyOnMissing(shifted, pre, 0, pre);
        CopyRange(shifted, pre, 0, pre)
    else Ok(d)
  }

  /** Post-roll: for `post > 0`, copy the frame at `count + pre - 1` into
      the next `post` positions. `pre` is the pre-roll frame count even when
      no pre-roll was applied. */
  function PostRoll<F>(d: map<int, F>, count: int, pre: int, post: int): Result<map<int, F>, Exception> {
    if post > 0 then CopyRange(d, count + pre - 1, count + pre, count + pre + post)
    else Ok(d)
  }

  /** `_apply_pre_post_roll`: pre-roll first, then post-roll. Without
      padding the directory is untouched; pre-roll with no frame fails; the
      only failure is a missing file, since no copy targets its source. */
  function PrePostRoll<F>(d: map<int, F>, count: int, pre: int, post: int): (r: Result<map<int, F>, Exception>)
    ensures pre <= 0 && post <= 0 ==> r == Ok(d)
    ensures pre > 0 && count <= 0 ==> r == Err(MissingFile)
    ensures r.Err? ==> r.error == MissingFile
  {
    var afterPre :- PreRoll(d, count, pre);
    CopyRangeFailsOnlyOnMissing(afterPre, count + pre - 1, count + pre, count + pre + post);
    PostRoll(afterPre, count, pre, post)
  }

  lemma {:induction false} ShiftUpFailsOnlyOnMissing<F>(d: map<int, F>, i: int, n: int)
    ensures n > 0 && ShiftUp(d, i, n).Err? ==> ShiftUp(d, i, n).error == MissingFile
    decreases i + 1
  {
    if n > 0 && i >= 0 && i in d {
      ShiftUpFailsOnlyOnMissing(Move(d, i, i + n), i - 1, n);
    }
  }

  /** A copy whose source lies outside the target range can only fail on a
      missing source. */
  lemma {:induction false} CopyRangeFailsOnlyOnMissing<F>(d: map<int, F>, src: int, lo: int, hi: int)
    requires src < lo || hi <= src
    ensures CopyRange(d, src, lo, hi).Err? ==> CopyRange(d, src, lo, hi).error == MissingFile
    decreases hi - lo
  {
    if lo < hi && src in d {
      CopyRangeFailsOnlyOnMissing(d[lo := d[src]], src, lo + 1, hi);
    }
  }

  /** The descending renaming never overwrites a frame that has not been moved
      yet: frame k (k <= i) ends up at k + n, keys outside the sources 0..i
      and the targets n..i+n keep their frames, and sources below n that no
      move targets disappear. */
  lemma {:induction false} ShiftUpMovesEveryFrame<F>(d: map<int, F>, i: int, n: int)
    requires n > 0
    requires forall k :: 0 <= k <= i ==> k in d
    ensures ShiftUp(d, i, n).Ok?
    ensures var r := ShiftUp(d, i, n).value;
      && (forall k :: 0 <= k <= i ==> k + n in r && r[k + n] == d[k])
      && (forall k :: k in d && (k < 0 || i < k) && (k < n || i + n < k) ==> k in r && r[k] == d[k])
      && (forall k :: k in r <==> (k in d && (k < 0 || i < k)) || (n <= k <= i + n))
    decreases i + 1
  {
    if i >= 0 {
      var d' := Move(d, i, i + n);
      ShiftUpMovesEveryFrame(d', i - 1, n);
      assert ShiftUp(d, i, n) == ShiftUp(d', i - 1, n);
      var r := ShiftUp(d', i - 1, n).value;
      assert i + n in d' && d'[i + n] == d[i];
      assert r[i + n] == d[i];
      forall k | 0 <= k < i
        ensures k + n in r && r[k + n] == d[k]
      {
        assert d'[k] == d[k];
      }
    }
  }

  /** Copying one frame into lo .. hi-1 fills exactly those positions with it. */
  lemma {:induction false} CopyRangeFills<F>(d: map<int, F>, src: int, lo: int, hi: int)
    requires src in d
    requires !(lo <= src < hi)
    ensures CopyRange(d, src, lo, hi).Ok?
    ensures var r := CopyRange(d, src, lo, hi).value;
      && (forall k :: lo <= k < hi ==> k in r && r[k] == d[src])
      && (forall k :: k in d && !(lo <= k < hi) ==> k in r && r[k] == d[k])
      && (forall k :: k in r <==> k in d || lo <= k < hi)
    decreases hi - lo
  {
    if lo < hi {
      CopyRangeFills(d[lo := d[src]], src, lo + 1, hi);
    }
  }

  /** After pre-roll with `pre > 0` on `count >= 1` frames, position i + pre
      holds original frame i and positions 0 .. pre-1 hold original frame 0. */
  lemma PreRollLayout<F>(d: map<int, F>, count: int, pre: int)
    requires count >= 1 && pre > 0
    requires forall k :: 0 <= k < count ==> k in d
    ensures PreRoll(d, count, pre).Ok?
    ensures var r := PreRoll(d, count, pre).value;
      && (forall i :: 0 <= i < count ==> i + pre in r && r[i + pre] == d[i])
      && (forall k :: 0 <= k < pre ==> k in r && r[k] == d[0])
      && (forall k :: k in d && (k < 0 || count + pre <= k) ==> k in r && r[k] == d[k])
      && (forall k :: k in r <==> k in d || 0 <= k < count + pre)
  {
    ShiftUpMovesEveryFrame(d, count - 1, pre);
    var shifted := ShiftUp(d, count - 1, pre).value;
    assert shifted[pre] == d[0];
    CopyRangeFills(shifted, pre, 0, pre);
  }

  /** Pre-roll then post-roll on `count >= 1` present frames: the original
      frames sit at pre .. pre+count-1, the first frame fills 0 .. pre-1,
      and the last frame fills count+pre .. count+pre+post-1. */
  lemma PrePostRollLayout<F>(d: map<int, F>, count: int, pre: int, post: int)
    requires count >= 1 && pre >= 0 && post >= 0
    requires forall k :: 0 <= k < count ==> k in d
    ensures PrePostRoll(d, count, pre, post).Ok?
    ensures var r := PrePostRoll(d, count, pre, post).value;
      && (forall i :: 0 <= i < count ==> i + pre in r && r[i + pre] == d[i])
      && (forall k :: 0 <= k < pre ==> k in r && r[k] == d[0])
      && (forall k :: count + pre <= k < count + pre + post ==> k in r && r[k] == d[count - 1])
  {
    if pre > 0 {
      PreRollLayout(d, count, pre);
    }
    var afterPre := PreRoll(d, count, pre).value;
    assert afterPre[count + pre - 1] == d[count - 1];
    if post > 0 {
      CopyRangeFills(afterPre, count + pre - 1, count + pre, count + pre + post);
    }
  }

  /** Worked example: three pre-roll frames on five frames a..e give
      a a a a b c d e. */
  lemma PreRollExample<F>(a: F, b: F, c: F, e: F, f: F)
    ensures var d := map[0 := a, 1 := b, 2 := c, 3 := e, 4 := f];
      PreRoll(d, 5, 3) == Ok(map[0 := a, 1 := a, 2 := a, 3 := a, 4 := b, 5 := c, 6 := e, 7 := f])
  {
    var d := map[0 := a, 1 := b, 2 := c, 3 := e, 4 := f];
    var expected := map[0 := a, 1 := a, 2 := a, 3 := a, 4 := b, 5 := c, 6 := e, 7 := f];
    PreRollLayout(d, 5, 3);
    var r := PreRoll(d, 5, 3).value;
    assert forall k :: k in r <==> k in expected;
    assert forall k :: k in r ==> r[k] == expected[k];
    assert r == expected;
  }
}

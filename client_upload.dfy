/** The browser's chunked file upload (static/js/main.js, `upload_file`): a
    file is cut into consecutive slices, each posted only after the previous
    one succeeded, with a progress percentage after every intermediate slice
    and one DELETE after the last. Reading the slice and encoding it are left
    out; a slice is the byte range it covers. */
module ClientUpload {

  /** `chunkSize`: 2 MiB. */
  const ChunkSize: nat := 1024 * 1024 * 2

  /** `nextSlice = slice + chunkSize + 1`: a slice is one byte longer than
      `chunkSize`. */
  function NextSlice(slice: nat): nat {
    slice + ChunkSize + 1
  }

  /** The half-open byte range `[start, end)` of a slice. */
  datatype Range = Range(start: nat, end: nat)

  function Min(a: nat, b: nat): nat {
    if a <= b then a else b
  }

  /** `file.slice(slice, nextSlice)`: both ends are clamped to the file size. */
  function ChunkAt(slice: nat, total: nat): (r: Range)
    ensures r.start <= r.end <= total
    ensures slice < total ==> r.start == slice && r.end - r.start == Min(ChunkSize + 1, total - slice)
  {
    Range(Min(slice, total), Min(NextSlice(slice), total))
  }

  /** An offset `upload_file` can be called with: one below the end of the
      file, or 0 for an empty file. */
  predicate IsStart(slice: nat, total: nat) {
    slice < total || slice == 0
  }

  /** The slices `upload_file(slice)` posts when every request succeeds. */
  function Plan(slice: nat, total: nat): seq<Range>
    decreases total - slice
  {
    [ChunkAt(slice, total)] + (if NextSlice(slice) < total then Plan(NextSlice(slice), total) else [])
  }

  /** All the slices of a file of `total` bytes. */
  function Chunks(total: nat): seq<Range> {
    Plan(0, total)
  }

  /** Ranges that tile `[from, to)`: the first starts at `from`, each next one
      starts where the previous ended, and the last ends at `to`. */
  predicate Tiles(rs: seq<Range>, from: nat, to: nat) {
    && rs != []
    && rs[0].start == from
    && rs[|rs| - 1].end == to
    && (forall i :: 0 <= i < |rs| ==> rs[i].start <= rs[i].end)
    && (forall i :: 0 <= i < |rs| - 1 ==> rs[i].end == rs[i + 1].start)
  }

  /** The slices from `slice` tile the rest of the file; all but the last are
      `chunkSize + 1` bytes long, and none is empty unless the file is. */
  lemma {:induction false} PlanTiles(slice: nat, total: nat)
    requires IsStart(slice, total)
    ensures Tiles(Plan(slice, total), slice, total)
    ensures forall i :: 0 <= i < |Plan(slice, total)| - 1 ==>
      Plan(slice, total)[i].end - Plan(slice, total)[i].start == ChunkSize + 1
    ensures total > 0 ==> forall i :: 0 <= i < |Plan(slice, total)| ==> Plan(slice, total)[i].start < Plan(slice, total)[i].end
    decreases total - slice
  {
    var p := Plan(slice, total);
    if NextSlice(slice) < total {
      var rest := Plan(NextSlice(slice), total);
      PlanTiles(NextSlice(slice), total);
      assert p == [ChunkAt(slice, total)] + rest;
      assert forall i :: 1 <= i < |p| ==> p[i] == rest[i - 1];
    }
  }

  /** In a tiling, an earlier range ends no later than a later one starts. */
  lemma {:induction false} TilesOrdered(rs: seq<Range>, from: nat, to: nat, i: int, j: int)
    requires Tiles(rs, from, to) && 0 <= i < j < |rs|
    ensures rs[i].end <= rs[j].start
    decreases j - i
  {
    if i + 1 < j {
      TilesOrdered(rs, from, to, i + 1, j);
    }
  }

  /** Every byte of `[from, to)` lies in exactly one range of a tiling: no gap,
      no overlap. */
  lemma {:induction false} TilesCoverOnce(rs: seq<Range>, from: nat, to: nat, b: nat)
    requires Tiles(rs, from, to) && from <= b < to
    ensures exists i :: 0 <= i < |rs| && rs[i].start <= b < rs[i].end
    ensures forall i, j :: 0 <= i < |rs| && 0 <= j < |rs| && rs[i].start <= b < rs[i].end && rs[j].start <= b < rs[j].end ==> i == j
    decreases |rs|
  {
    if rs[0].start <= b < rs[0].end {
    } else {
      assert |rs| > 1;
      var tail := rs[1..];
      assert Tiles(tail, rs[1].start, to);
      TilesCoverOnce(tail, rs[1].start, to, b);
      var k :| 0 <= k < |tail| && tail[k].start <= b < tail[k].end;
      assert rs[k + 1] == tail[k];
    }
    forall i, j | 0 <= i < |rs| && 0 <= j < |rs| && rs[i].start <= b < rs[i].end && rs[j].start <= b < rs[j].end
      ensures i == j
    {
      if i < j {
        TilesOrdered(rs, from, to, i, j);
      } else if j < i {
        TilesOrdered(rs, from, to, j, i);
      }
    }
  }

  /** A non-empty file of `total` bytes is sent in `ceil(total / (chunkSize + 1))`
      requests; an empty one in a single, empty request. */
  lemma {:induction false} PlanCount(slice: nat, total: nat)
    requires slice < total
    ensures |Plan(slice, total)| == (total - slice + ChunkSize) / (ChunkSize + 1)
    decreases total - slice
  {
    var k := ChunkSize + 1;
    if NextSlice(slice) < total {
      PlanCount(NextSlice(slice), total);
      assert total - slice + ChunkSize == (total - NextSlice(slice) + ChunkSize) + k;
    } else {
      assert k <= total - slice + ChunkSize < 2 * k;
    }
  }

  lemma ChunksCount(total: nat)
    ensures |Chunks(total)| == if total == 0 then 1 else (total + ChunkSize) / (ChunkSize + 1)
  {
    if total > 0 {
      PlanCount(0, total);
    }
  }

  /** A file's bytes, slice after slice. */
  function Pieces(file: seq<bv8>, rs: seq<Range>): seq<bv8>
    requires forall i :: 0 <= i < |rs| ==> rs[i].start <= rs[i].end <= |file|
  {
    if rs == [] then [] else file[rs[0].start..rs[0].end] + Pieces(file, rs[1..])
  }

  /** Appending the slices in the order they are posted rebuilds the file. */
  lemma {:induction false} PlanReassembles(file: seq<bv8>, slice: nat)
    requires IsStart(slice, |file|)
    ensures forall i :: 0 <= i < |Plan(slice, |file|)| ==> Plan(slice, |file|)[i].start <= Plan(slice, |file|)[i].end <= |file|
    ensures Pieces(file, Plan(slice, |file|)) == file[slice..]
    decreases |file| - slice
  {
    var total := |file|;
    var p := Plan(slice, total);
    PlanTiles(slice, total);
    var c := ChunkAt(slice, total);
    assert p[1..] == if NextSlice(slice) < total then Plan(NextSlice(slice), total) else [];
    if NextSlice(slice) < total {
      PlanReassembles(file, NextSlice(slice));
      assert file[slice..] == file[slice..c.end] + file[c.end..];
    } else {
      assert c.end == total;
    }
  }

  lemma ChunksReassemble(file: seq<bv8>)
    ensures forall i :: 0 <= i < |Chunks(|file|)| ==> Chunks(|file|)[i].start <= Chunks(|file|)[i].end <= |file|
    ensures Pieces(file, Chunks(|file|)) == file
  {
    PlanReassembles(file, 0);
  }

  /** The progress shown after the slice at `slice` succeeded:
      `floor((slice + chunkSize) / totalSize * 100)`, in integers. */
  function Percent(slice: nat, total: nat): nat
    requires total > 0
  {
    (slice + ChunkSize) * 100 / total
  }

  /** A percentage is shown only when another slice follows, so it is below
      100; and it never goes down from one slice to the next. */
  lemma PercentBelowHundred(slice: nat, total: nat)
    requires NextSlice(slice) < total
    ensures Percent(slice, total) < 100
    ensures NextSlice(NextSlice(slice)) < total ==> Percent(slice, total) <= Percent(NextSlice(slice), total)
  {
    var u := slice + ChunkSize;
    assert u * 100 < total * 100;
    DivBound(u * 100, total);
    DivMonotone(u * 100, (u + ChunkSize + 1) * 100, total);
  }

  lemma DivBound(a: nat, d: nat)
    requires 0 < d && a < d * 100
    ensures a / d < 100
  {
  }

  lemma DivMonotone(a: nat, b: nat, d: nat)
    requires 0 < d && a <= b
    ensures a / d <= b / d
  {
    var qa, qb := a / d, b / d;
    assert qa * d <= a;
    assert b < qb * d + d;
    if qa > qb {
      MulMonotone(qb + 1, qa, d);
    }
  }

  lemma MulMonotone(x: nat, y: nat, d: nat)
    requires x <= y
    ensures x * d <= y * d
  {
  }

  /** A file of 5,000,000 bytes goes in three slices, with 41 % and 83 % shown
      in between. */
  lemma FiveMegabyteExample()
    ensures Chunks(5000000) == [Range(0, 2097153), Range(2097153, 4194306), Range(4194306, 5000000)]
    ensures Percent(0, 5000000) == 41 && Percent(2097153, 5000000) == 83
  {
    assert Plan(4194306, 5000000) == [Range(4194306, 5000000)];
    assert Plan(2097153, 5000000) == [Range(2097153, 4194306), Range(4194306, 5000000)];
  }

  // ---------------------------------------------------------------------------
  // The upload as a state machine driven by the request callbacks
  // ---------------------------------------------------------------------------

  /** A request the upload sends. */
  datatype Call = PostChunk(url: string, range: Range) | DeleteUpload(url: string)

  /** `InFlight`: the POST of the current slice awaits its answer;
      `Completed`: the last slice succeeded; `Stalled`: a POST failed, and the
      error callback, which only logs, sent nothing more. */
  datatype Phase = InFlight | Completed | Stalled

  function PostsOf(url: string, rs: seq<Range>): (r: seq<Call>)
    ensures |r| == |rs|
    ensures forall i :: 0 <= i < |rs| ==> r[i] == PostChunk(url, rs[i])
  {
    if rs == [] then [] else [PostChunk(url, rs[0])] + PostsOf(url, rs[1..])
  }

  lemma PostsOfAppend(url: string, a: seq<Range>, b: seq<Range>)
    ensures PostsOf(url, a + b) == PostsOf(url, a) + PostsOf(url, b)
  {
    assert forall i :: 0 <= i < |a + b| ==> PostsOf(url, a + b)[i] == (PostsOf(url, a) + PostsOf(url, b))[i];
  }

  /** Acknowledging the slice at `slice` moves it from the plan to the prefix. */
  lemma AckStep(acked: seq<Range>, slice: nat, total: nat)
    requires acked + Plan(slice, total) == Chunks(total)
    ensures NextSlice(slice) < total ==> (acked + [ChunkAt(slice, total)]) + Plan(NextSlice(slice), total) == Chunks(total)
    ensures NextSlice(slice) >= total ==> acked + [ChunkAt(slice, total)] == Chunks(total)
  {
    var next := NextSlice(slice);
    var c := ChunkAt(slice, total);
    var rest := if next < total then Plan(next, total) else [];
    assert Plan(slice, total) == [c] + rest;
    assert acked + ([c] + rest) == (acked + [c]) + rest;
    if next >= total {
      assert (acked + [c]) + rest == acked + [c];
    }
  }

  lemma PostsStep(url: string, acked: seq<Range>, c: Range)
    ensures PostsOf(url, acked + [c]) == PostsOf(url, acked) + [PostChunk(url, c)]
  {
    PostsOfAppend(url, acked, [c]);
    assert PostsOf(url, [c]) == [PostChunk(url, c)];
  }

  class Transfer {
    /** `totalSize` and the upload url. */
    const total: nat
    const url: string
    /** The `slice` of the request in flight (or of the last one sent). */
    var slice: nat
    /** The slices whose success callback ran. */
    var acked: seq<Range>
    /** Every request sent, in order. */
    var calls: seq<Call>
    /** The value of the progress bar, and the `uploading` flag. */
    var progress: nat
    var uploading: bool
    var phase: Phase

    predicate Valid()
      reads this
    {
      && IsStart(slice, total)
      && (phase != Completed ==>
            && acked + Plan(slice, total) == Chunks(total)
            && calls == PostsOf(url, acked) + [PostChunk(url, ChunkAt(slice, total))]
            && uploading
            && progress < 100
            && (acked == [] ==> slice == 0 && progress == 0)
            && (acked != [] ==> total > 0 && progress == Percent(acked[|acked| - 1].start, total)))
      && (phase == Completed ==>
            && acked == Chunks(total)
            && calls == PostsOf(url, acked) + [DeleteUpload(url)]
            && !uploading
            && progress == 100)
    }

    /** The file input's change handler: `upload_file(0)`, the progress bar at 0. */
    constructor Start(total: nat, url: string)
      ensures Valid()
      ensures this.total == total && this.url == url
      ensures phase == InFlight && slice == 0 && acked == [] && progress == 0 && uploading
      ensures calls == [PostChunk(url, ChunkAt(0, total))]
    {
      this.total := total;
      this.url := url;
      slice := 0;
      acked := [];
      calls := [PostChunk(url, ChunkAt(0, total))];
      progress := 0;
      uploading := true;
      phase := InFlight;
    }

    /** The success callback of the POST in flight: the next slice is posted
        when one remains, otherwise the one DELETE is sent and the upload ends. */
    method OnSuccess()
      requires Valid() && phase == InFlight
      modifies this
      ensures Valid()
      ensures acked == old(acked) + [ChunkAt(old(slice), total)]
      ensures NextSlice(old(slice)) < total ==>
        && phase == InFlight && slice == NextSlice(old(slice))
        && progress == Percent(old(slice), total) && progress < 100
        && calls == old(calls) + [PostChunk(url, ChunkAt(slice, total))]
      ensures NextSlice(old(slice)) >= total ==>
        && phase == Completed && slice == old(slice)
        && progress == 100 && !uploading
        && calls == old(calls) + [DeleteUpload(url)]
    {
      var c := ChunkAt(slice, total);
      var next := NextSlice(slice);
      AckStep(acked, slice, total);
      PostsStep(url, acked, c);
      acked := acked + [c];
      if next < total {
        PercentBelowHundred(slice, total);
        progress := Percent(slice, total);
        slice := next;
        calls := calls + [PostChunk(url, ChunkAt(slice, total))];
      } else {
        calls := calls + [DeleteUpload(url)];
        progress := 100;
        uploading := false;
        phase := Completed;
      }
    }

    /** The error callback: it only logs, so the upload stays where it is. */
    method OnError()
      requires Valid() && phase == InFlight
      modifies this
      ensures Valid()
      ensures phase == Stalled
      ensures slice == old(slice) && acked == old(acked) && calls == old(calls)
      ensures progress == old(progress) && uploading == old(uploading)
    {
      phase := Stalled;
    }
  }

  /** In a finished upload every slice was posted once, in file order, then
      exactly one DELETE was sent to the same url. */
  lemma CompletedCalls(url: string, total: nat, calls: seq<Call>)
    requires calls == PostsOf(url, Chunks(total)) + [DeleteUpload(url)]
    ensures |calls| == |Chunks(total)| + 1
    ensures calls[|calls| - 1] == DeleteUpload(url)
    ensures forall i :: 0 <= i < |calls| - 1 ==> calls[i] == PostChunk(url, Chunks(total)[i])
    ensures forall i :: 0 <= i < |calls| && calls[i].DeleteUpload? ==> i == |calls| - 1
  {
  }
}

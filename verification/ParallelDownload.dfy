/**
 * The SDK's parallel download: the file is split into ranges, one worker per range writes its
 * chunks at its own file position, and all workers add to one counter under a lock. A chunk's write
 * and its count are separate actions, and actions of different workers interleave freely.
 */
module ParallelDownload {
  import opened Basics
  import opened Ranges

  // ------------------------------------------------------------------ splitting

  /** Non-empty adjacent ranges (inclusive ends) that cover 0..total-1 from left to right. */
  ghost predicate IsPartition(ranges: seq<(nat, nat)>, total: nat) {
    && ranges != [] && ranges[0].0 == 0 && ranges[|ranges| - 1].1 + 1 == total
    && (forall i :: 0 <= i < |ranges| ==> ranges[i].0 <= ranges[i].1)
    && (forall i :: 0 <= i < |ranges| - 1 ==> ranges[i + 1].0 == ranges[i].1 + 1)
  }

  /** The range computation of `_stream_parallel`, after `concurrency = min(concurrency, total)`. */
  method SplitRanges(total: nat, requested: nat) returns (ranges: seq<(nat, nat)>)
    requires total >= 1 && requested >= 1
    ensures |ranges| == Min(requested, total)
    ensures IsPartition(ranges, total)
  {
    var concurrency := Min(requested, total);
    ranges := [];
    var step := total / concurrency;
    StepFits(total, concurrency);
    var start := 0;
    for index := 0 to concurrency
      invariant |ranges| == index
      invariant index < concurrency ==> start == index * step
      invariant forall i :: 0 <= i < index ==> ranges[i].0 <= ranges[i].1
      invariant forall i :: 0 <= i < index - 1 ==> ranges[i + 1].0 == ranges[i].1 + 1
      invariant index > 0 ==> ranges[0].0 == 0 && ranges[index - 1].1 + 1 == start
      invariant index == concurrency ==> start == total
    {
      RangeFits(total, concurrency, index);
      var end := if index == concurrency - 1 then total - 1 else start + step - 1;
      ranges := ranges + [(start, end)];
      start := end + 1;
    }
  }

  lemma StepFits(total: nat, c: nat)
    requires 1 <= c <= total
    ensures total / c >= 1 && (c - 1) * (total / c) < total
  {
    var s := total / c;
    assert total == c * s + total % c;
    assert s != 0;
    assert (c - 1) * s == c * s - s;
  }

  lemma RangeFits(total: nat, c: nat, k: nat)
    requires k < c <= total
    ensures k * (total / c) < total && (k + 1) * (total / c) == k * (total / c) + total / c
    ensures k < c - 1 ==> k * (total / c) + total / c < total
  {
    var s := total / c;
    StepFits(total, c);
    Monotone(k, c - 1, s);
    if k < c - 1 { Monotone(k + 1, c - 1, s); }
    assert (k + 1) * s == k * s + s;
  }

  lemma Monotone(a: nat, b: nat, s: nat)
    requires a <= b
    ensures a * s <= b * s
  {}

  lemma {:induction false} PartitionOrder(ranges: seq<(nat, nat)>, total: nat, i: nat, j: nat)
    requires IsPartition(ranges, total) && i < j < |ranges|
    ensures ranges[i].1 < ranges[j].0
    decreases j
  {
    if i + 1 < j {
      PartitionOrder(ranges, total, i, j - 1);
      assert ranges[j].0 == ranges[j - 1].1 + 1;
    }
  }

  lemma {:induction false} PartitionFind(ranges: seq<(nat, nat)>, total: nat, b: nat, k: nat) returns (i: nat)
    requires IsPartition(ranges, total) && k < |ranges| && b <= ranges[k].1
    ensures i <= k && ranges[i].0 <= b <= ranges[i].1
  {
    if ranges[k].0 <= b {
      i := k;
    } else {
      assert k > 0 && ranges[k].0 == ranges[k - 1].1 + 1;
      i := PartitionFind(ranges, total, b, k - 1);
    }
  }

  /** Every byte position belongs to exactly one range. */
  lemma PartitionOwner(ranges: seq<(nat, nat)>, total: nat, b: nat) returns (i: nat)
    requires IsPartition(ranges, total) && b < total
    ensures i < |ranges| && ranges[i].0 <= b <= ranges[i].1
    ensures forall j :: 0 <= j < |ranges| && ranges[j].0 <= b <= ranges[j].1 ==> j == i
  {
    i := PartitionFind(ranges, total, b, |ranges| - 1);
    forall j | 0 <= j < |ranges| && ranges[j].0 <= b <= ranges[j].1 ensures j == i {
      if i < j { PartitionOrder(ranges, total, i, j); }
      if j < i { PartitionOrder(ranges, total, j, i); }
    }
  }

  // ------------------------------------------------------------------ workers

  /**
   * A worker: its range, the position where its response ends (short of the range when the object is),
   * its file position, a written chunk not yet counted, chunks to come.
   */
  datatype Worker = Worker(start: nat, end: nat, stop: nat, pos: nat, owed: Option<nat>, todo: seq<bytes>)

  datatype Transfer = Transfer(dest: bytes, workers: seq<Worker>, written: nat, progress: seq<nat>)

  datatype Action = Write(worker: nat) | Count(worker: nat)

  predicate Enabled(t: Transfer, a: Action) { a.worker < |t.workers| && CanAct(t.workers[a.worker], a) }

  predicate CanAct(w: Worker, a: Action) { if a.Write? then w.owed.None? && w.todo != [] else w.owed.Some? }

  /** `handle.write(chunk)` at position `at`. */
  function Overwrite(dest: bytes, at: nat, chunk: bytes): bytes
    requires at + |chunk| <= |dest|
  {
    dest[..at] + chunk + dest[at + |chunk|..]
  }

  /** A worker after it wrote its next chunk, and after it counted the chunk it wrote. */
  function Wrote(w: Worker): Worker
    requires w.todo != []
  {
    w.(pos := w.pos + |w.todo[0]|, owed := Some(|w.todo[0]|), todo := w.todo[1..])
  }

  function Counted(w: Worker): Worker { w.(owed := None) }

  /** A write stays inside the file. */
  predicate Fits(t: Transfer, a: Action)
    requires Enabled(t, a)
  {
    a.Write? ==> t.workers[a.worker].pos + |t.workers[a.worker].todo[0]| <= |t.dest|
  }

  function Act(t: Transfer, a: Action): Transfer
    requires Enabled(t, a) && Fits(t, a)
  {
    var w := t.workers[a.worker];
    match a
    case Write(i) =>
      t.(workers := t.workers[i := Wrote(w)], dest := Overwrite(t.dest, w.pos, w.todo[0]))
    case Count(i) =>
      var sum := t.written + w.owed.value;
      t.(workers := t.workers[i := Counted(w)], written := sum, progress := t.progress + [sum])
  }

  ghost predicate Acted(t: Transfer, a: Action, t': Transfer) {
    Enabled(t, a) && Fits(t, a) && t' == Act(t, a)
  }

  // ------------------------------------------------------------------ invariant

  function RangesOf(ws: seq<Worker>): (r: seq<(nat, nat)>)
    ensures |r| == |ws| && forall i :: 0 <= i < |ws| ==> r[i] == (ws[i].start, ws[i].end)
  {
    if ws == [] then [] else [(ws[0].start, ws[0].end)] + RangesOf(ws[1..])
  }

  /** What a worker has added to the counter so far. */
  function CountedBy(w: Worker): int { w.pos - w.start - w.owed.GetOr(0) }

  function CountedTotal(ws: seq<Worker>): int {
    if ws == [] then 0 else CountedTotal(ws[..|ws| - 1]) + CountedBy(ws[|ws| - 1])
  }

  /**
   * The worker's bytes so far are in place, its pending chunks are the rest of its response, and what its
   * response does not reach is right already.
   */
  ghost predicate WorkerOk(w: Worker, src: bytes, dest: bytes) {
    && w.start <= w.pos <= w.stop <= w.end + 1 <= |src| == |dest|
    && Flatten(w.todo) == src[w.pos..w.stop]
    && dest[w.start..w.pos] == src[w.start..w.pos]
    && dest[w.stop..w.end + 1] == src[w.stop..w.end + 1]
    && w.owed.GetOr(0) <= w.pos - w.start
  }

  ghost predicate WorkersOk(t: Transfer, src: bytes) {
    && IsPartition(RangesOf(t.workers), |src|) && |t.dest| == |src|
    && forall i :: 0 <= i < |t.workers| ==> WorkerOk(t.workers[i], src, t.dest)
  }

  /** The counter is what the workers counted; the reports never fall and the last one is the counter. */
  ghost predicate CounterOk(t: Transfer) {
    && t.written == CountedTotal(t.workers)
    && (forall i, j :: 0 <= i < j < |t.progress| ==> t.progress[i] <= t.progress[j])
    && (if t.progress == [] then t.written == 0 else t.progress[|t.progress| - 1] == t.written)
  }

  ghost predicate Inv(t: Transfer, src: bytes) { WorkersOk(t, src) && CounterOk(t) }

  predicate Done(t: Transfer) {
    forall i :: 0 <= i < |t.workers| ==> t.workers[i].todo == [] && t.workers[i].owed.None?
  }

  lemma {:induction false} CountedUpdate(ws: seq<Worker>, i: nat, w: Worker)
    requires i < |ws|
    ensures CountedTotal(ws[i := w]) == CountedTotal(ws) - CountedBy(ws[i]) + CountedBy(w)
    decreases |ws|
  {
    var k := |ws| - 1;
    if i == k {
      assert ws[i := w][..k] == ws[..k];
    } else {
      CountedUpdate(ws[..k], i, w);
      assert ws[i := w][..k] == ws[..k][i := w];
    }
  }

  lemma Halves(src: bytes, from: nat, to: nat, a: bytes, b: bytes)
    requires from <= to <= |src| && src[from..to] == a + b
    ensures from + |a| <= to && src[from..from + |a|] == a && src[from + |a|..to] == b
  {
    assert |src[from..to]| == to - from;
    assert src[from..from + |a|] == src[from..to][..|a|];
    assert src[from + |a|..to] == src[from..to][|a|..];
  }

  /** A worker's write keeps its own bytes right. */
  lemma WriterOk(w: Worker, src: bytes, dest: bytes)
    requires WorkerOk(w, src, dest) && w.todo != [] && w.owed.None?
    ensures w.pos + |w.todo[0]| <= w.stop
    ensures WorkerOk(Wrote(w), src, Overwrite(dest, w.pos, w.todo[0]))
  {
    var chunk, rest := w.todo[0], Flatten(w.todo[1..]);
    assert Flatten(w.todo) == chunk + rest;
    Halves(src, w.pos, w.stop, chunk, rest);
    WrittenStretch(src, dest, w.start, w.pos, chunk);
    Overwritten(dest, w.pos, chunk, w.stop, w.end + 1);
  }

  /** The stretch that was right grows by the chunk. */
  lemma WrittenStretch(src: bytes, dest: bytes, start: nat, pos: nat, chunk: bytes)
    requires start <= pos && pos + |chunk| <= |src| == |dest|
    requires dest[start..pos] == src[start..pos] && src[pos..pos + |chunk|] == chunk
    ensures Overwrite(dest, pos, chunk)[start..pos + |chunk|] == src[start..pos + |chunk|]
  {
    assert Overwrite(dest, pos, chunk)[start..pos + |chunk|] == dest[start..pos] + chunk;
    assert src[start..pos + |chunk|] == src[start..pos] + src[pos..pos + |chunk|];
  }

  /** What lies behind a write stays. */
  lemma Overwritten(dest: bytes, at: nat, chunk: bytes, from: nat, to: nat)
    requires at + |chunk| <= from <= to <= |dest|
    ensures Overwrite(dest, at, chunk)[from..to] == dest[from..to]
  {}

  /** A write outside a worker's range leaves that worker alone. */
  lemma BystanderOk(w: Worker, src: bytes, dest: bytes, at: nat, chunk: bytes)
    requires WorkerOk(w, src, dest) && at + |chunk| <= |dest|
    requires w.end < at || at + |chunk| <= w.start
    ensures WorkerOk(w, src, Overwrite(dest, at, chunk))
  {
    var d' := Overwrite(dest, at, chunk);
    assert d'[w.start..w.pos] == dest[w.start..w.pos];
    assert d'[w.stop..w.end + 1] == dest[w.stop..w.end + 1];
  }

  lemma WriteFits(t: Transfer, src: bytes, a: Action)
    requires WorkersOk(t, src) && Enabled(t, a) && a.Write?
    ensures Fits(t, a)
  {
    WriterOk(t.workers[a.worker], src, t.dest);
  }

  lemma OthersOk(t: Transfer, src: bytes, k: nat, i: nat)
    requires WorkersOk(t, src) && Enabled(t, Write(k)) && i < |t.workers| && i != k
    requires t.workers[k].pos + |t.workers[k].todo[0]| <= |t.dest|
    ensures WorkerOk(t.workers[i], src, Overwrite(t.dest, t.workers[k].pos, t.workers[k].todo[0]))
  {
    var rs, w, v := RangesOf(t.workers), t.workers[k], t.workers[i];
    assert rs[i] == (v.start, v.end) && rs[k] == (w.start, w.end);
    WriterOk(w, src, t.dest);
    if i < k { PartitionOrder(rs, |src|, i, k); } else { PartitionOrder(rs, |src|, k, i); }
    BystanderOk(v, src, t.dest, w.pos, w.todo[0]);
  }

  lemma WriteKeepsWorkers(t: Transfer, src: bytes, k: nat)
    requires WorkersOk(t, src) && Enabled(t, Write(k)) && Fits(t, Write(k))
    ensures WorkersOk(Act(t, Write(k)), src)
  {
    var w := t.workers[k];
    var t' := Act(t, Write(k));
    var d' := Overwrite(t.dest, w.pos, w.todo[0]);
    SameRanges(t.workers, k, Wrote(w));
    forall i | 0 <= i < |t.workers| ensures WorkerOk(t'.workers[i], src, d') {
      if i == k { WriterOk(w, src, t.dest); } else { OthersOk(t, src, k, i); }
    }
  }

  lemma CountKeepsWorkers(t: Transfer, src: bytes, k: nat)
    requires WorkersOk(t, src) && Enabled(t, Count(k))
    ensures WorkersOk(Act(t, Count(k)), src)
  {
    var w := Counted(t.workers[k]);
    CountingOk(t.workers[k], src, t.dest);
    SameRanges(t.workers, k, w);
    OneWorkerOk(t.workers, k, w, src, t.dest);
    WorkersReplaced(t, t.workers[k := w], src, Act(t, Count(k)));
  }

  /** Counting moves no byte. */
  lemma CountingOk(w: Worker, src: bytes, dest: bytes)
    requires WorkerOk(w, src, dest)
    ensures WorkerOk(Counted(w), src, dest)
  {}

  lemma WorkersReplaced(t: Transfer, ws: seq<Worker>, src: bytes, t': Transfer)
    requires t'.workers == ws && t'.dest == t.dest && |t.dest| == |src| && IsPartition(RangesOf(ws), |src|)
    requires forall i :: 0 <= i < |ws| ==> WorkerOk(ws[i], src, t.dest)
    ensures WorkersOk(t', src)
  {}

  lemma OneWorkerOk(ws: seq<Worker>, k: nat, w: Worker, src: bytes, dest: bytes)
    requires k < |ws| && WorkerOk(w, src, dest) && forall i :: 0 <= i < |ws| ==> WorkerOk(ws[i], src, dest)
    ensures var ws' := ws[k := w]; forall i :: 0 <= i < |ws'| ==> WorkerOk(ws'[i], src, dest)
  {}

  lemma SameRanges(ws: seq<Worker>, k: nat, w: Worker)
    requires k < |ws| && w.start == ws[k].start && w.end == ws[k].end
    ensures RangesOf(ws[k := w]) == RangesOf(ws)
  {}

  lemma ActionKeepsCounter(t: Transfer, a: Action)
    requires CounterOk(t) && Enabled(t, a) && Fits(t, a)
    ensures CounterOk(Act(t, a))
  {
    var w := t.workers[a.worker];
    match a
    case Write(i) =>
      CountedUpdate(t.workers, i, Wrote(w));
    case Count(i) =>
      CountedUpdate(t.workers, i, Counted(w));
      var p := t.progress;
      assert forall i :: 0 <= i < |p| ==> p[i] <= p[|p| - 1];
  }

  /** Every action of every worker keeps the invariant. */
  lemma ActionKeepsInv(t: Transfer, src: bytes, a: Action)
    requires Inv(t, src) && Enabled(t, a)
    ensures Fits(t, a) && Inv(Act(t, a), src)
  {
    match a {
      case Write(k) =>
        WriteFits(t, src, a);
        WriteKeepsWorkers(t, src, k);
      case Count(k) =>
        CountKeepsWorkers(t, src, k);
    }
    ActionKeepsCounter(t, a);
  }

  /** Counting a non-empty chunk reports more than was ever reported before. */
  lemma CounterRises(t: Transfer, src: bytes, a: Action)
    requires Inv(t, src) && Enabled(t, a) && a.Count? && t.workers[a.worker].owed.value > 0
    ensures var p := Act(t, a).progress;
      |p| == |t.progress| + 1 && forall i :: 0 <= i < |t.progress| ==> p[i] < p[|p| - 1]
  {
    var p := t.progress;
    assert forall i :: 0 <= i < |p| ==> p[i] <= p[|p| - 1];
  }

  /** How many bytes the workers' responses carry together. */
  function Carried(ws: seq<Worker>): int {
    if ws == [] then 0 else Carried(ws[..|ws| - 1]) + (ws[|ws| - 1].stop - ws[|ws| - 1].start)
  }

  lemma {:induction false} CarriedUpdate(ws: seq<Worker>, i: nat, w: Worker)
    requires i < |ws| && w.start == ws[i].start && w.stop == ws[i].stop
    ensures Carried(ws[i := w]) == Carried(ws)
    decreases |ws|
  {
    var k := |ws| - 1;
    if i == k {
      assert ws[i := w][..k] == ws[..k];
    } else {
      CarriedUpdate(ws[..k], i, w);
      assert ws[i := w][..k] == ws[..k][i := w];
    }
  }

  lemma {:induction false} FinishedCount(ws: seq<Worker>)
    requires forall i :: 0 <= i < |ws| ==> ws[i].pos == ws[i].stop && ws[i].owed.None?
    ensures CountedTotal(ws) == Carried(ws)
  {
    if ws != [] { FinishedCount(ws[..|ws| - 1]); }
  }

  lemma DoneWorker(w: Worker, src: bytes, dest: bytes)
    requires WorkerOk(w, src, dest) && w.todo == []
    ensures w.pos == w.stop
    ensures forall b :: w.start <= b <= w.end ==> dest[b] == src[b]
  {
    assert |src[w.pos..w.stop]| == w.stop - w.pos;
    forall b | w.start <= b <= w.end ensures dest[b] == src[b] {
      if b < w.pos {
        assert dest[w.start..w.pos][b - w.start] == src[w.start..w.pos][b - w.start];
      } else {
        assert dest[w.stop..w.end + 1][b - w.stop] == src[w.stop..w.end + 1][b - w.stop];
      }
    }
  }

  lemma DoneBytes(t: Transfer, src: bytes)
    requires Inv(t, src) && Done(t)
    ensures t.dest == src
  {
    forall b | 0 <= b < |src| ensures t.dest[b] == src[b] {
      var i := PartitionOwner(RangesOf(t.workers), |src|, b);
      DoneWorker(t.workers[i], src, t.dest);
    }
  }

  /** When no worker has anything left, the destination is the source and every carried byte is counted. */
  lemma DoneMeansEqual(t: Transfer, src: bytes)
    requires Inv(t, src) && Done(t)
    ensures t.dest == src && t.written == Carried(t.workers)
    ensures t.progress == [] ==> t.written == 0
    ensures t.progress != [] ==> t.progress[|t.progress| - 1] == t.written
  {
    DoneBytes(t, src);
    var ws := t.workers;
    forall i | 0 <= i < |ws| ensures ws[i].pos == ws[i].stop && ws[i].owed.None? {
      DoneWorker(ws[i], src, t.dest);
    }
    FinishedCount(ws);
  }

  // ------------------------------------------------------------------ objects shorter or longer than announced

  /** A file of `size` bytes holding `data`: cut off, or padded with the zeros of `truncate`. */
  function Fit(data: bytes, size: nat): (r: bytes)
    ensures |r| == size && (size == |data| ==> r == data)
  {
    if size <= |data| then data[..size] else data + seq(size - |data|, _ => 0 as byte)
  }

  /** Where the response to a range ends when the object holds `length` bytes. */
  function StopOf(start: nat, end: nat, length: nat): (s: nat)
    ensures start <= s && (start <= end ==> s <= end + 1)
  {
    Max(start, Min(end + 1, length))
  }

  lemma {:induction false} CarriedBytes(ws: seq<Worker>, total: nat, length: nat, k: nat)
    requires IsPartition(RangesOf(ws), total) && k < |ws|
    requires forall i :: 0 <= i < |ws| ==> ws[i].stop == StopOf(ws[i].start, ws[i].end, length)
    ensures Carried(ws[..k + 1]) == Min(ws[k].end + 1, length)
  {
    CarriedPush(ws, k);
    Adjacent(ws, total, k);
    if k == 0 {
      assert Carried(ws[..0]) == 0;
    } else {
      CarriedBytes(ws, total, length, k - 1);
    }
  }

  lemma CarriedPush(ws: seq<Worker>, k: nat)
    requires k < |ws|
    ensures Carried(ws[..k + 1]) == Carried(ws[..k]) + (ws[k].stop - ws[k].start)
  {
    assert ws[..k + 1][..k] == ws[..k];
  }

  /** Each worker's range begins where the one before it ended. */
  lemma {:induction false} Adjacent(ws: seq<Worker>, total: nat, k: nat)
    requires IsPartition(RangesOf(ws), total) && k < |ws|
    ensures ws[k].start <= ws[k].end && ws[k].start == if k == 0 then 0 else ws[k - 1].end + 1
  {
    var rs := RangesOf(ws);
    assert rs[k] == (ws[k].start, ws[k].end);
    if k > 0 { assert rs[k - 1] == (ws[k - 1].start, ws[k - 1].end) && rs[k - 1 + 1].0 == rs[k - 1].1 + 1; }
  }

  /** No deadlock: a transfer in which no action is enabled is done. */
  lemma StuckMeansDone(t: Transfer)
    requires forall a :: !Enabled(t, a)
    ensures Done(t)
  {
    forall i | 0 <= i < |t.workers| ensures t.workers[i].todo == [] && t.workers[i].owed.None? {
      assert !Enabled(t, Write(i)) && !Enabled(t, Count(i));
    }
  }

  /** The number of actions still to come; every action lowers it by one, so no schedule runs forever. */
  function Remaining(ws: seq<Worker>): nat {
    if ws == [] then 0
    else Remaining(ws[..|ws| - 1]) + 2 * |ws[|ws| - 1].todo| + (if ws[|ws| - 1].owed.Some? then 1 else 0)
  }

  lemma {:induction false} RemainingUpdate(ws: seq<Worker>, i: nat, w: Worker)
    requires i < |ws|
    requires 2 * |w.todo| + (if w.owed.Some? then 1 else 0) + 1
      == 2 * |ws[i].todo| + (if ws[i].owed.Some? then 1 else 0)
    ensures Remaining(ws[i := w]) == Remaining(ws) - 1
    decreases |ws|
  {
    var k := |ws| - 1;
    if i == k {
      assert ws[i := w][..k] == ws[..k];
    } else {
      RemainingUpdate(ws[..k], i, w);
      assert ws[i := w][..k] == ws[..k][i := w];
    }
  }

  // ------------------------------------------------------------------ whole runs

  /** A schedule each of whose actions is enabled when its turn comes. */
  ghost predicate Feasible(t: Transfer, src: bytes, schedule: seq<Action>)
    requires Inv(t, src)
    decreases |schedule|
  {
    schedule == [] ||
    (Enabled(t,
             schedule[0]) && (ActionKeepsInv(t, src, schedule[0]); Feasible(Act(t, schedule[0]), src, schedule[1..])))
  }

  ghost function RunAll(t: Transfer, src: bytes, schedule: seq<Action>): (t': Transfer)
    requires Inv(t, src) && Feasible(t, src, schedule)
    ensures Inv(t', src)
    decreases |schedule|
  {
    if schedule == [] then t
    else ActionKeepsInv(t, src, schedule[0]); RunAll(Act(t, schedule[0]), src, schedule[1..])
  }

  lemma {:induction false} RunLength(t: Transfer, src: bytes, schedule: seq<Action>)
    requires Inv(t, src) && Feasible(t, src, schedule)
    ensures |schedule| + Remaining(RunAll(t, src, schedule).workers) == Remaining(t.workers)
    ensures Carried(RunAll(t, src, schedule).workers) == Carried(t.workers)
    decreases |schedule|
  {
    if schedule != [] {
      ActionKeepsInv(t, src, schedule[0]);
      var i := schedule[0].worker;
      CarriedUpdate(t.workers, i, Act(t, schedule[0]).workers[i]);
      RemainingUpdate(t.workers, i, Act(t, schedule[0]).workers[i]);
      RunLength(Act(t, schedule[0]), src, schedule[1..]);
    }
  }

  /** The start of a download: nothing counted, and what the responses will not reach is right already. */
  ghost predicate Initial(t: Transfer, src: bytes) {
    && IsPartition(RangesOf(t.workers), |src|) && |t.dest| == |src| && t.written == 0 && t.progress == []
    && forall i :: 0 <= i < |t.workers| ==> Fresh(t.workers[i], src, t.dest)
  }

  ghost predicate Fresh(w: Worker, src: bytes, dest: bytes) {
    && w.pos == w.start <= w.stop <= w.end + 1 <= |src| == |dest| && w.owed.None?
    && Flatten(w.todo) == src[w.start..w.stop] && dest[w.stop..w.end + 1] == src[w.stop..w.end + 1]
  }

  /** The start of a download of the object `data` that the server announces with `size` bytes. */
  ghost predicate Begins(t: Transfer, data: bytes, size: nat) {
    && Initial(t, Fit(data, size))
    && forall i :: 0 <= i < |t.workers| ==> t.workers[i].stop == StopOf(t.workers[i].start, t.workers[i].end, |data|)
  }

  lemma {:induction false} NothingCounted(ws: seq<Worker>)
    requires forall i :: 0 <= i < |ws| ==> ws[i].pos == ws[i].start && ws[i].owed.None?
    ensures CountedTotal(ws) == 0
  {
    if ws != [] {
      NothingCounted(ws[..|ws| - 1]);
    }
  }

  lemma InitialInv(t: Transfer, src: bytes)
    requires Initial(t, src)
    ensures Inv(t, src)
  {
    forall i | 0 <= i < |t.workers| ensures WorkerOk(t.workers[i], src, t.dest) {
      assert Fresh(t.workers[i], src, t.dest);
    }
    assert forall i :: 0 <= i < |t.workers| ==> Fresh(t.workers[i], src, t.dest);
    NothingCounted(t.workers);
  }

  /** All bytes the object has within the announced size are carried. */
  lemma {:induction false} BeginsCarries(t: Transfer, data: bytes, size: nat)
    requires Begins(t, data, size)
    ensures Carried(t.workers) == Min(size, |data|)
  {
    AllCarried(t.workers, size, |data|);
  }

  lemma {:induction false} AllCarried(ws: seq<Worker>, size: nat, length: nat)
    requires IsPartition(RangesOf(ws), size)
    requires forall i :: 0 <= i < |ws| ==> ws[i].stop == StopOf(ws[i].start, ws[i].end, length)
    ensures Carried(ws) == Min(size, length)
  {
    var n := |ws|;
    CarriedBytes(ws, size, length, n - 1);
    assert ws[..n] == ws;
    assert RangesOf(ws)[n - 1] == (ws[n - 1].start, ws[n - 1].end);
  }

  /**
   * Parallel download: however the response bodies are chunked and however the workers interleave, a run
   * that has nothing left to do has made the destination the object, fitted to the announced size, and
   * has reported exactly the bytes the object has; and every run comes to that point after a fixed
   * number of actions. The destination is the object itself exactly when the announced size is its size.
   */
  lemma ParallelDownloadCorrect(t: Transfer, data: bytes, size: nat, schedule: seq<Action>)
    requires Begins(t, data, size) && Inv(t, Fit(data, size)) && Feasible(t, Fit(data, size), schedule)
    ensures |schedule| <= Remaining(t.workers)
    ensures var t' := RunAll(t, Fit(data, size), schedule);
      (forall a :: !Enabled(t', a)) ==>
        && t'.dest == Fit(data, size) && (t'.dest == data <==> size == |data|)
        && t'.written == Min(size, |data|)
        && (t'.progress != [] ==> t'.progress[|t'.progress| - 1] == t'.written)
  {
    var src := Fit(data, size);
    RunLength(t, src, schedule);
    BeginsCarries(t, data, size);
    var t' := RunAll(t, src, schedule);
    if forall a :: !Enabled(t', a) {
      StuckMeansDone(t');
      DoneMeansEqual(t', src);
    }
  }

  // ------------------------------------------------------------------ the shared file in place

  /** The pieces of a response body, joined, are what the object has of the range. */
  ghost predicate Carries(body: seq<bytes>, data: bytes, range: (nat, nat)) {
    Flatten(body) == data[Min(range.0, |data|)..Max(Min(range.0, |data|), Min(range.1 + 1, |data|))]
  }

  ghost predicate AllCarry(bodies: seq<seq<bytes>>, data: bytes, ranges: seq<(nat, nat)>) {
    |bodies| == |ranges| && forall i :: 0 <= i < |ranges| ==> Carries(bodies[i], data, ranges[i])
  }

  function StartWorkers(ranges: seq<(nat, nat)>, bodies: seq<seq<bytes>>): (ws: seq<Worker>)
    requires |bodies| == |ranges|
    ensures |ws| == |ranges| && RangesOf(ws) == ranges
    ensures forall i :: 0 <= i < |ws| ==>
      ws[i] == Worker(ranges[i].0, ranges[i].1, ranges[i].0 + |Flatten(bodies[i])|, ranges[i].0, None, bodies[i])
  {
    if ranges == [] then []
    else
      [Worker(ranges[0].0, ranges[0].1, ranges[0].0 + |Flatten(bodies[0])|, ranges[0].0, None, bodies[0])]
      + StartWorkers(ranges[1..], bodies[1..])
  }

  /** A worker that has just opened its range of a zero-filled file. */
  lemma {:induction false} StartsFresh(range: (nat, nat), body: seq<bytes>, data: bytes, size: nat, dest: bytes)
    requires range.0 <= range.1 < size == |dest| && Carries(body, data, range)
    requires forall b :: 0 <= b < size ==> dest[b] == 0
    ensures var w := Worker(range.0, range.1, range.0 + |Flatten(body)|, range.0, None, body);
      Fresh(w, Fit(data, size), dest) && w.stop == StopOf(range.0, range.1, |data|)
  {
    var src, served := Fit(data, size), Flatten(body);
    var stop := range.0 + |served|;
    assert stop == StopOf(range.0, range.1, |data|);
    forall i | 0 <= i < |served| ensures served[i] == src[range.0 + i] {
      assert range.0 + i < |data| && served[i] == data[range.0 + i];
    }
    assert served == src[range.0..stop];
    forall b | stop <= b <= range.1 ensures src[b] == 0 {
      assert b >= |data|;
    }
    assert dest[stop..range.1 + 1] == src[stop..range.1 + 1];
  }

  lemma PartitionEnds(ranges: seq<(nat, nat)>, total: nat, i: nat)
    requires IsPartition(ranges, total) && i < |ranges|
    ensures ranges[i].0 <= ranges[i].1 < total
  {
    if i < |ranges| - 1 { PartitionOrder(ranges, total, i, |ranges| - 1); }
  }

  lemma BeginsWith(t: Transfer, ranges: seq<(nat, nat)>, data: bytes, size: nat)
    requires IsPartition(ranges, size) && RangesOf(t.workers) == ranges
    requires |t.dest| == size && t.written == 0 && t.progress == []
    requires forall i :: 0 <= i < |t.workers| ==>
      Fresh(t.workers[i], Fit(data, size), t.dest)
      && t.workers[i].stop == StopOf(t.workers[i].start, t.workers[i].end, |data|)
    ensures Begins(t, data, size)
  {}

  /** A zero-filled file and a worker for every range. */
  function Opened(ranges: seq<(nat, nat)>, bodies: seq<seq<bytes>>, size: nat): Transfer
    requires |bodies| == |ranges|
  {
    Transfer(seq(size, _ => 0), StartWorkers(ranges, bodies), 0, [])
  }

  /** That is how a download of `data` begins when the bodies carry what `data` has of the ranges. */
  lemma AllBegin(ranges: seq<(nat, nat)>, bodies: seq<seq<bytes>>, data: bytes, size: nat)
    requires IsPartition(ranges, size) && AllCarry(bodies, data, ranges)
    ensures Begins(Opened(ranges, bodies, size), data, size)
  {
    var t := Opened(ranges, bodies, size);
    var ws := t.workers;
    forall i | 0 <= i < |ws|
      ensures Fresh(ws[i], Fit(data, size), t.dest) && ws[i].stop == StopOf(ws[i].start, ws[i].end, |data|)
    {
      WorkerBegins(ranges, bodies, data, size, t.dest, i, ws[i]);
    }
    BeginsWith(t, ranges, data, size);
  }

  lemma WorkerBegins(ranges: seq<(nat, nat)>, bodies: seq<seq<bytes>>, data: bytes, size: nat, dest: bytes, i: nat,
                     w: Worker)
    requires IsPartition(ranges, size) && AllCarry(bodies, data, ranges) && i < |ranges|
    requires |dest| == size && forall b :: 0 <= b < size ==> dest[b] == 0
    requires w == Worker(ranges[i].0, ranges[i].1, ranges[i].0 + |Flatten(bodies[i])|, ranges[i].0, None, bodies[i])
    ensures Fresh(w, Fit(data, size), dest) && w.stop == StopOf(w.start, w.end, |data|)
  {
    PartitionEnds(ranges, size, i);
    StartsFresh(ranges[i], bodies[i], data, size, dest);
  }

  /** The open destination file and the variables the workers share. */
  class Download {
    var dest: array<byte>
    var workers: seq<Worker>
    var written: nat
    var progress: seq<nat>

    ghost function State(): Transfer
      reads this, dest
    {
      Transfer(dest[..], workers, written, progress)
    }

    /** `handle.truncate(size)` and one worker per range, each with its response's chunks. */
    constructor (ranges: seq<(nat, nat)>, bodies: seq<seq<bytes>>, size: nat)
      requires |bodies| == |ranges|
      ensures fresh(dest) && State() == Opened(ranges, bodies, size)
    {
      dest := new byte[size](_ => 0);
      workers := StartWorkers(ranges, bodies);
      written := 0;
      progress := [];
      new;
      assert dest[..] == seq(size, _ => 0);
    }

    /** One `handle.write(chunk)` of worker i. */
    method WriteChunk(i: nat)
      requires Enabled(State(), Write(i)) && Fits(State(), Write(i))
      modifies this, dest
      ensures dest == old(dest) && Acted(old(State()), Write(i), State())
    {
      var w := workers[i];
      WriteBytes(dest, w.pos, w.todo[0]);
      workers := workers[i := Wrote(w)];
    }

    /** The locked `written += len(chunk); progress(written, total)` of worker i. */
    method CountChunk(i: nat)
      requires Enabled(State(), Count(i))
      modifies this
      ensures dest == old(dest) && Acted(old(State()), Count(i), State())
    {
      var w := workers[i];
      written := written + w.owed.value;
      progress := progress + [written];
      workers := workers[i := Counted(w)];
    }
  }

  method WriteBytes(dest: array<byte>, at: nat, chunk: bytes)
    requires at + |chunk| <= dest.Length
    modifies dest
    ensures dest[..] == Overwrite(old(dest[..]), at, chunk)
  {
    forall j | 0 <= j < |chunk| {
      dest[at + j] := chunk[j];
    }
  }

  /** One turn of one worker; a turn of a worker with nothing to do is skipped. */
  method TakeTurn(download: Download, turn: Action, ghost src: bytes)
    requires Inv(download.State(), src)
    modifies download, download.dest
    ensures download.dest == old(download.dest) && Inv(download.State(), src)
    ensures Carried(download.workers) == old(Carried(download.workers))
    ensures old(Enabled(download.State(), turn)) ==> Remaining(download.workers) == old(Remaining(download.workers)) - 1
  {
    var i := turn.worker;
    if i < |download.workers| {
      var w := download.workers[i];
      if turn.Write? && w.owed.None? && w.todo != [] {
        ActionKeepsInv(download.State(), src, Write(i));
        CarriedUpdate(download.workers, i, Wrote(w));
        RemainingUpdate(download.workers, i, Wrote(w));
        download.WriteChunk(i);
      } else if turn.Count? && w.owed.Some? {
        ActionKeepsInv(download.State(), src, Count(i));
        CarriedUpdate(download.workers, i, Counted(w));
        RemainingUpdate(download.workers, i, Counted(w));
        download.CountChunk(i);
      }
    }
  }

  /** Some action that is enabled, if any is. */
  method NextAction(workers: seq<Worker>) returns (next: Option<Action>)
    ensures next.None? ==> forall i :: 0 <= i < |workers| ==> workers[i].todo == [] && workers[i].owed.None?
    ensures next.Some? ==> next.value.worker < |workers| && CanAct(workers[next.value.worker], next.value)
  {
    for i := 0 to |workers|
      invariant forall k :: 0 <= k < i ==> workers[k].todo == [] && workers[k].owed.None?
    {
      if workers[i].owed.Some? {
        return Some(Count(i));
      }
      if workers[i].todo != [] {
        return Some(Write(i));
      }
    }
    next := None;
  }

  /** The threads run in the order of `turns`, then every thread is joined: nothing is left to do. */
  method RunThreads(download: Download, turns: seq<Action>, ghost data: bytes, ghost size: nat)
    requires Begins(download.State(), data, size)
    modifies download, download.dest
    ensures download.dest == old(download.dest) && download.dest[..] == Fit(data, size)
    ensures download.written == Min(size, |data|)
    ensures download.progress != [] ==> download.progress[|download.progress| - 1] == download.written
  {
    ghost var src := Fit(data, size);
    InitialInv(download.State(), src);
    BeginsCarries(download.State(), data, size);
    for k := 0 to |turns|
      invariant download.dest == old(download.dest)
      invariant Inv(download.State(), src) && Carried(download.workers) == Min(size, |data|)
    {
      TakeTurn(download, turns[k], src);
    }
    while true
      invariant download.dest == old(download.dest)
      invariant Inv(download.State(), src) && Carried(download.workers) == Min(size, |data|)
      decreases Remaining(download.workers)
    {
      var next := NextAction(download.workers);
      if next.None? {
        break;
      }
      TakeTurn(download, next.value, src);
    }
    DoneMeansEqual(download.State(), src);
  }
}

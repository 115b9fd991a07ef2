/** Dataset reads: worker partitions, and a cursor that only acknowledgement moves. */
module Dataset {
  import opened Common

  // ---- worker partition ----

  datatype WorkerPartition = WorkerPartition(worker: int, workers: int, rank: int, worldSize: int) {
    predicate Valid() {
      0 <= worker < workers <= 65535 && 0 <= rank < worldSize <= 65535
    }

    predicate Owns(index: nat)
      requires Valid()
    {
      assert workers * worldSize > 0 by { ProductPositive(workers, worldSize); }
      index % (workers * worldSize) == rank * workers + worker
    }
  }

  lemma ProductPositive(a: int, b: int)
    requires a > 0 && b > 0
    ensures a * b > 0
  {}

  lemma Distributes(a: int, b: int, w: int)
    ensures (a - b) * w == a * w - b * w
  {}

  lemma AtLeastOneRow(k: int, w: int)
    requires k >= 1 && w > 0
    ensures k * w >= w
  {
    Distributes(k, 1, w);
    if k > 1 { ProductPositive(k - 1, w); }
  }

  lemma {:induction false} QuotientAtMost(w: int, a: int, x: int, b: int, y: int)
    requires 0 <= x < w && 0 <= y < w && a * w + x == b * w + y
    ensures a <= b
  {
    if a > b {
      AtLeastOneRow(a - b, w);
      Distributes(a, b, w);
      assert false;
    }
  }

  /** Division with remainder has one answer. */
  lemma {:induction false} DivisionIsUnique(w: int, a: int, x: int, b: int, y: int)
    requires 0 <= x < w && 0 <= y < w && a * w + x == b * w + y
    ensures a == b && x == y
  {
    QuotientAtMost(w, a, x, b, y);
    QuotientAtMost(w, b, y, a, x);
  }

  lemma {:induction false} QuotientBelow(w: int, rows: int, a: int, x: int)
    requires w > 0 && 0 <= x < w && 0 <= a * w + x < w * rows
    ensures 0 <= a < rows
  {
    if a >= rows {
      Distributes(a, rows, w);
      if a > rows { ProductPositive(a - rows, w); }
      assert false;
    }
    if a < 0 {
      AtLeastOneRow(-a, w);
      Distributes(0, a, w);
      assert false;
    }
  }

  /** Every sample belongs to exactly one worker of one rank. */
  lemma {:induction false} ExactlyOneOwner(workers: int, worldSize: int, index: nat) returns (rank: int, worker: int)
    requires 0 < workers <= 65535 && 0 < worldSize <= 65535
    ensures WorkerPartition(worker, workers, rank, worldSize).Valid()
    ensures WorkerPartition(worker, workers, rank, worldSize).Owns(index)
    ensures forall r, w ::
              WorkerPartition(w, workers, r, worldSize).Valid() && WorkerPartition(w, workers, r, worldSize).Owns(index)
              ==> r == rank && w == worker
  {
    ProductPositive(workers, worldSize);
    var residue := index % (workers * worldSize);
    rank, worker := residue / workers, residue % workers;
    QuotientBelow(workers, worldSize, rank, worker);
    forall r, w |
      WorkerPartition(w, workers, r, worldSize).Valid() && WorkerPartition(w, workers, r, worldSize).Owns(index)
      ensures r == rank && w == worker
    {
      DivisionIsUnique(workers, rank, worker, r, w);
    }
  }

  // ---- cursor protocol ----

  type Cursor = string

  /** One immutable server window: the batch at a cursor and its continuation. */
  datatype Window = Window(samples: seq<string>, fields: seq<string>, next: Option<Cursor>, end: bool)

  /** The integrity check of a continuation. */
  predicate Sound(at: Cursor, w: Window) {
    && w.end == w.next.None? && w.next != Some(at) && (w.samples == [] ==> w.fields == [])
  }

  /** The first n windows of one uninterrupted read, and the cursor behind them. */
  function Windows(serve: Cursor -> Window, from: Option<Cursor>, n: nat): seq<Window>
    decreases n
  {
    if n == 0 || from.None? then [] else [serve(from.value)] + Windows(serve, serve(from.value).next, n - 1)
  }

  function Behind(serve: Cursor -> Window, from: Option<Cursor>, n: nat): Option<Cursor>
    decreases n
  {
    if n == 0 || from.None? then from else Behind(serve, serve(from.value).next, n - 1)
  }

  /** The batches among them: empty windows are never delivered. */
  function Delivered(windows: seq<Window>): seq<Window> {
    if windows == [] then []
    else (if windows[0].samples != [] then [windows[0]] else []) + Delivered(windows[1..])
  }

  lemma {:induction false} DeliveredOfConcat(a: seq<Window>, b: seq<Window>)
    ensures Delivered(a + b) == Delivered(a) + Delivered(b)
  {
    if a == [] {
      assert a + b == b;
    } else {
      assert (a + b)[1..] == a[1..] + b;
      DeliveredOfConcat(a[1..], b);
    }
  }

  lemma {:induction false} OneWindowFurther(serve: Cursor -> Window, from: Option<Cursor>, n: nat)
    requires Behind(serve, from, n).Some?
    ensures var c := Behind(serve, from, n).value;
            && Windows(serve, from, n + 1) == Windows(serve, from, n) + [serve(c)]
            && Behind(serve, from, n + 1) == serve(c).next
            && Delivered(Windows(serve, from, n + 1)) ==
                 Delivered(Windows(serve, from, n)) + if serve(c).samples != [] then [serve(c)] else []
    decreases n
  {
    var c := Behind(serve, from, n).value;
    if n > 0 {
      OneWindowFurther(serve, serve(from.value).next, n - 1);
      assert Windows(serve, from, n + 1) == Windows(serve, from, n) + [serve(c)];
    }
    DeliveredOfConcat(Windows(serve, from, n), [serve(c)]);
  }

  lemma {:induction false} NothingBehindTheEnd(serve: Cursor -> Window, from: Option<Cursor>, n: nat, k: nat)
    requires Behind(serve, from, n).None?
    ensures Windows(serve, from, k) <= Windows(serve, from, n)
    ensures |Delivered(Windows(serve, from, k))| <= |Delivered(Windows(serve, from, n))|
    decreases k
  {
    if k > 0 && from.Some? {
      NothingBehindTheEnd(serve, serve(from.value).next, n - 1, k - 1);
    }
    var (w, v) := (Windows(serve, from, n), Windows(serve, from, k));
    assert v + w[|v|..] == w;
    DeliveredOfConcat(v, w[|v|..]);
  }

  /**
   At the end of the data acknowledging returns the null cursor, and a session opened with it
   starts over. However far that session gets, both together acknowledge a stretch of one
   uninterrupted read exactly when the first session had nothing to acknowledge.
   */
  lemma NullCursorStartsOver(serve: Cursor -> Window, start: Cursor, n: nat)
    requires Behind(serve, Some(start), n).None?
    ensures (forall m: nat :: IsStretch(serve, start, n, m)) <==> Delivered(Windows(serve, Some(start), n)) == []
  {
    var first := Delivered(Windows(serve, Some(start), n));
    if first == [] {
      forall m: nat
        ensures IsStretch(serve, start, n, m)
      {
        NothingBehindTheEnd(serve, Some(start), n, m);
        assert first + Delivered(Windows(serve, Some(start), m)) == Delivered(Windows(serve, Some(start), n));
      }
    } else if IsStretch(serve, start, n, n) {
      var k: nat :| first + first == Delivered(Windows(serve, Some(start), k));
      NothingBehindTheEnd(serve, Some(start), n, k);
      assert false;
    }
  }

  /** The batches of n windows and then of m windows, both from the start, are those of one read. */
  ghost predicate IsStretch(serve: Cursor -> Window, start: Cursor, n: nat, m: nat) {
    exists k: nat :: Delivered(Windows(serve, Some(start), n)) + Delivered(Windows(serve, Some(start), m))
                     == Delivered(Windows(serve, Some(start), k))
  }

  datatype Outcome = Yielded | SkippedEmpty | Stopped | IntegrityFailed | Unacknowledged

  /**
   A consumer with its iterable, the iterable's generator, the cursor it saved from the
   last acknowledgement, and the batches acknowledged so far, over all sessions.
   */
  class Reader {
    const serve: Cursor -> Window
    const start: Cursor
    var checkpoint: Option<Cursor>
    var complete: bool
    var running: bool             // the generator has neither ended nor raised
    var yielded: Option<Window>   // the batch the generator is suspended at
    var acknowledged: bool
    var saved: Option<Cursor>
    ghost var acked: seq<Window>
    ghost var position: nat       // windows of the uninterrupted read before the checkpoint
    ghost var progress: nat       // windows of the uninterrupted read that are acknowledged or empty

    ghost function At(): Option<Cursor>
      reads this
    {
      if complete then None else if checkpoint.None? then Some(start) else checkpoint
    }

    ghost function DeliveredUpTo(n: nat): seq<Window>
    {
      Delivered(Windows(serve, Some(start), n))
    }

    /** The acknowledged batches are exactly those delivered by a prefix of one uninterrupted read. */
    ghost predicate Valid()
      reads this
    {
      && acked == DeliveredUpTo(progress)
      && At() == Behind(serve, Some(start), position)
      && (complete ==> checkpoint.None?)
      && (progress == position + 1 || (progress <= position && DeliveredUpTo(position) == acked))
      && (yielded.Some? ==> running && At().Some? && yielded.value == serve(At().value) && yielded.value.samples != []
                            && Sound(At().value, yielded.value))
      && (acknowledged ==> yielded.Some? && progress == position + 1)
      && (saved.Some? ==> saved == Behind(serve, Some(start), progress))
    }

    /** The cursor the generator reads next, once its batch is acknowledged. */
    ghost function Onward(): Option<Cursor>
      reads this
    {
      if yielded.Some? then yielded.value.next else At()
    }

    /** The window at the checkpoint was acknowledged through an earlier generator of this object. */
    ghost predicate Repeating()
      reads this
    {
      progress > position && !acknowledged
    }

    constructor (serve: Cursor -> Window, start: Cursor)
      ensures Valid() && this.serve == serve && this.start == start && acked == [] && !Repeating()
    {
      this.serve, this.start := serve, start;
      checkpoint, complete, running, yielded, acknowledged, saved, acked := None, false, false, None, false, None, [];
      position, progress := 0, 0;
    }

    /** Iterate again over the same object: a new generator from the checkpoint. */
    method Iterate()
      requires Valid()
      modifies this`running, this`yielded, this`acknowledged
      ensures Valid() && running && yielded == None
      ensures Repeating() ==> old(Repeating() || acknowledged)
    {
      running, yielded, acknowledged := true, None, false;
    }

    /** Abandon everything and open a new iterable at the saved cursor. */
    method Resume()
      requires Valid() && saved.Some?
      modifies this
      ensures Valid() && running && checkpoint == old(saved) && !Repeating()
      ensures acked == old(acked) && saved == old(saved)
    {
      checkpoint, complete, running, yielded, acknowledged := saved, false, true, None, false;
      position := progress;
    }

    /** Acknowledging is local; it returns the cursor behind the batch. */
    method Acknowledge() returns (next: Option<Cursor>)
      requires Valid() && yielded.Some?
      modifies this
      ensures Valid() && yielded == old(yielded) && yielded.Some? && next == yielded.value.next && saved == next
      ensures acked == if old(Repeating() || acknowledged) then old(acked) else old(acked) + [yielded.value]
      ensures acknowledged && acked != [] && acked[|acked| - 1] == yielded.value
    {
      OneWindowFurther(serve, Some(start), position);
      if progress <= position {
        acked := acked + [yielded.value];
        progress := position + 1;
      }
      acknowledged := true;
      next := yielded.value.next;
      saved := next;
    }

    /** One turn of the generator's loop: leave the acknowledged batch, then read one window. */
    method Advance() returns (r: Outcome)
      requires Valid() && running
      modifies this
      ensures Valid() && acked == old(acked) && saved == old(saved)
      ensures old(yielded).Some? && !old(acknowledged) ==> r == Unacknowledged && At() == old(At()) && !running
      ensures (old(yielded).None? || old(acknowledged)) && old(Onward()).None? ==> r == Stopped && !running
      ensures (old(yielded).None? || old(acknowledged)) && old(Onward()).Some? ==>
                var c := old(Onward()).value;
                && r == (if !Sound(c, serve(c)) then IntegrityFailed
                         else if serve(c).samples != [] then Yielded else SkippedEmpty)
                && (r == Yielded ==> yielded == Some(serve(c)) && !acknowledged)
                && At() == (if r == SkippedEmpty then serve(c).next else Some(c))
      ensures Repeating() ==> old(Repeating())
    {
      if yielded.Some? {
        if !acknowledged {
          running, yielded := false, None;
          return Unacknowledged;
        }
        MoveOn(yielded.value);
      }
      if complete {
        running := false;
        return Stopped;
      }
      if checkpoint.None? {
        checkpoint := Some(start);
      }
      var w := serve(checkpoint.value);
      if !Sound(checkpoint.value, w) {
        running := false;
        return IntegrityFailed;
      }
      if w.samples != [] {
        yielded := Some(w);
        return Yielded;
      }
      MoveOn(w);
      r := SkippedEmpty;
    }

    /** Move the checkpoint behind a window that is acknowledged or empty. */
    method MoveOn(w: Window)
      requires Valid() && running && At().Some? && w == serve(At().value) && Sound(At().value, w)
      requires progress == position + 1 || w.samples == []
      modifies this
      ensures Valid() && running == old(running) && yielded == None && !acknowledged
      ensures acked == old(acked) && saved == old(saved)
      ensures At() == w.next && !Repeating()
    {
      OneWindowFurther(serve, Some(start), position);
      checkpoint, complete := w.next, w.end;
      yielded, acknowledged := None, false;
      position := position + 1;
    }
  }
}

/** The gapless playback schedule for the model's audio replies. Each decoded
    chunk is started at the later of the scheduling cursor and the output
    clock's current time, and the cursor then moves to the end of that chunk.
    Times are exact reals standing in for the clock's doubles. */
module Playback {

  type Duration = r: real | r >= 0.0

  /** A chunk of reply audio: the output clock's `currentTime` when it was
      scheduled and the length of its decoded buffer. */
  datatype Chunk = Chunk(arrival: real, duration: Duration)

  /** `Math.max(cursor, now)`: the start time of a chunk. */
  function StartTime(cursor: real, now: real): (t: real)
    ensures t >= cursor && t >= now
    ensures t == cursor || t == now
  {
    if cursor >= now then cursor else now
  }

  /** The cursor after scheduling `chunks` in order from the cursor `c0`. */
  function Cursor(c0: real, chunks: seq<Chunk>): real
    decreases |chunks|
  {
    if chunks == [] then c0
    else
      var prev := chunks[..|chunks| - 1];
      var last := chunks[|chunks| - 1];
      StartTime(Cursor(c0, prev), last.arrival) + last.duration
  }

  /** The time at which the `k`-th chunk is started. */
  function StartOf(c0: real, chunks: seq<Chunk>, k: nat): real
    requires k < |chunks|
  {
    StartTime(Cursor(c0, chunks[..k]), chunks[k].arrival)
  }

  /** The time at which the `k`-th chunk finishes playing. */
  function EndOf(c0: real, chunks: seq<Chunk>, k: nat): real
    requires k < |chunks|
  {
    StartOf(c0, chunks, k) + chunks[k].duration
  }

  /** Scheduling one more chunk moves the cursor to that chunk's end. */
  lemma CursorIsLastEnd(c0: real, chunks: seq<Chunk>)
    requires chunks != []
    ensures Cursor(c0, chunks) == EndOf(c0, chunks, |chunks| - 1)
  {
    assert chunks[..|chunks| - 1] == chunks[..|chunks| - 1];
  }

  /** Scheduling a chunk never moves the cursor back, and never leaves it
      before the chunk's arrival plus its length. */
  lemma CursorStep(c0: real, chunks: seq<Chunk>, c: Chunk)
    ensures Cursor(c0, chunks + [c]) == StartTime(Cursor(c0, chunks), c.arrival) + c.duration
    ensures Cursor(c0, chunks + [c]) >= Cursor(c0, chunks)
    ensures Cursor(c0, chunks + [c]) >= c.arrival + c.duration
  {
    assert (chunks + [c])[..|chunks|] == chunks;
  }

  /** The cursor never goes back: it is at least where it started and at
      least where it was after any prefix. */
  lemma {:induction false} CursorMonotone(c0: real, chunks: seq<Chunk>, n: nat)
    requires n <= |chunks|
    ensures Cursor(c0, chunks[..n]) <= Cursor(c0, chunks)
    decreases |chunks|
  {
    if n < |chunks| {
      var prev := chunks[..|chunks| - 1];
      assert prev[..n] == chunks[..n];
      CursorMonotone(c0, prev, n);
      CursorStep(c0, prev, chunks[|chunks| - 1]);
      assert prev + [chunks[|chunks| - 1]] == chunks;
    } else {
      assert chunks[..n] == chunks;
    }
  }

  /** No chunk starts before it was scheduled. */
  lemma NeverBeforeArrival(c0: real, chunks: seq<Chunk>, k: nat)
    requires k < |chunks|
    ensures StartOf(c0, chunks, k) >= chunks[k].arrival
  {
  }

  /** A chunk that arrives while earlier audio is still queued starts exactly
      when that audio ends, with no gap and no overlap; one that arrives
      after the queue drained starts at once. */
  lemma Gapless(c0: real, chunks: seq<Chunk>, k: nat)
    requires 0 < k < |chunks|
    ensures chunks[k].arrival <= EndOf(c0, chunks, k - 1) ==> StartOf(c0, chunks, k) == EndOf(c0, chunks, k - 1)
    ensures chunks[k].arrival > EndOf(c0, chunks, k - 1) ==> StartOf(c0, chunks, k) == chunks[k].arrival
  {
    var pre := chunks[..k];
    assert pre[..k - 1] == chunks[..k - 1];
    assert pre[k - 1] == chunks[k - 1];
  }

  /** Chunks never overlap: every chunk starts no earlier than every earlier
      chunk ends, so replies play in the order they were received. */
  lemma {:induction false} NoOverlap(c0: real, chunks: seq<Chunk>, i: nat, j: nat)
    requires i < j < |chunks|
    ensures EndOf(c0, chunks, i) <= StartOf(c0, chunks, j)
    decreases j
  {
    Gapless(c0, chunks, j);
    if i < j - 1 {
      NoOverlap(c0, chunks, i, j - 1);
    }
  }
}

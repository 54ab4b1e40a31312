/** The shared sample queue (src/sync_data.hpp), as a sequential model:
    the queue and the quitting flag are one shared state, and queue_pusher
    keeps a flag that makes its next push discard what is queued. The
    locking and waiting are not modelled; the two wake predicates are. */
module SyncData {
  /** A buffer is known by its address. */
  type Buffer = int

  /** The queue of buffers (front first) and the global quitting flag. */
  class SyncState {
    var queue: seq<Buffer>
    var quitting: bool

    constructor ()
      ensures queue == [] && !quitting
    {
      queue, quitting := [], false;
    }
  }

  /** How many queued buffers push_continue_predicate lets a push through
      beyond. */
  const PUSH_THRESHOLD: int := 10

  /** push_continue_predicate: more than ten buffers queued, or quitting. */
  predicate PushContinue(s: SyncState)
    reads s
    ensures s.quitting ==> PushContinue(s)
    ensures !s.quitting ==> (PushContinue(s) <==> |s.queue| >= PUSH_THRESHOLD + 1)
  {
    |s.queue| > PUSH_THRESHOLD || s.quitting
  }

  /** pop_continue_predicate: something queued, or quitting. */
  predicate PopContinue(s: SyncState)
    reads s
    ensures s.quitting ==> PopContinue(s)
    ensures !s.quitting ==> (PopContinue(s) <==> s.queue != [])
  {
    |s.queue| > 0 || s.quitting
  }

  /** What a push does to the queue. */
  function Pushed(queue: seq<Buffer>, flush: bool, buffer: Buffer): (q: seq<Buffer>)
    ensures |q| > 0 && q[|q| - 1] == buffer
    ensures flush ==> q == [buffer]
    ensures !flush ==> |q| == |queue| + 1 && q[..|queue|] == queue
  {
    (if flush then [] else queue) + [buffer]
  }

  class QueuePusher {
    var flush: bool
    const sync: SyncState

    constructor (sync: SyncState)
      ensures this.sync == sync && !flush
    {
      this.sync := sync;
      flush := false;
    }

    /** flush_next_push. */
    method FlushNextPush()
      modifies this
      ensures flush
    {
      flush := true;
    }

    /** push, once the monitor lets it through: with the flag set the
        queue is cleared first; the buffer goes at the back; the flag is
        cleared. */
    method Push(buffer: Buffer)
      modifies this, sync
      ensures sync.queue == Pushed(old(sync.queue), old(flush), buffer)
      ensures !flush && sync.quitting == old(sync.quitting)
    {
      if flush {
        sync.queue := [];
      }
      sync.queue := sync.queue + [buffer];
      flush := false;
    }
  }

  /** Pushes without a flush append the buffers at the back, in the order
      they were pushed, behind what was queued. */
  lemma {:induction false} PushesKeepOrder(queue: seq<Buffer>, buffers: seq<Buffer>)
    ensures PushAll(queue, buffers) == queue + buffers
    decreases |buffers|
  {
    if buffers != [] {
      var init := buffers[..|buffers| - 1];
      PushesKeepOrder(queue, init);
      assert init + [buffers[|buffers| - 1]] == buffers;
    }
  }

  /** Several pushes without a flush. */
  function PushAll(queue: seq<Buffer>, buffers: seq<Buffer>): seq<Buffer>
    decreases |buffers|
  {
    if buffers == [] then queue
    else Pushed(PushAll(queue, buffers[..|buffers| - 1]), false, buffers[|buffers| - 1])
  }

  /** A fresh pusher, flushed, then pushed twice: only the two buffers are
      queued, in order, and a popper would wake. */
  method FlushThenPush(s: SyncState, a: Buffer, b: Buffer) returns (p: QueuePusher)
    modifies s
    ensures fresh(p) && p.sync == s && !p.flush
    ensures s.queue == [a, b] && PopContinue(s)
  {
    p := new QueuePusher(s);
    p.FlushNextPush();
    p.Push(a);
    p.Push(b);
  }

  /** As written, a push onto a queue holding ten buffers or fewer waits
      until quitting: from an empty queue, the producer never gets to push
      while the program runs. */
  lemma PushWaitsOnShortQueue(s: SyncState)
    requires |s.queue| <= PUSH_THRESHOLD && !s.quitting
    ensures !PushContinue(s)
  {
  }

  /** The evidently intended predicate: push while the queue has room (at
      most ten buffers), or when quitting. */
  predicate RoomToPush(s: SyncState)
    reads s
  {
    |s.queue| < PUSH_THRESHOLD || s.quitting
  }

  /** With that predicate a push onto an empty queue goes through, and a
      push let through while running leaves at most ten buffers queued. */
  lemma {:induction false} RoomToPushBounds(s: SyncState, flush: bool, buffer: Buffer)
    requires !s.quitting
    ensures |s.queue| == 0 ==> RoomToPush(s)
    ensures RoomToPush(s) ==> |Pushed(s.queue, flush, buffer)| <= PUSH_THRESHOLD
  {
    var q := Pushed(s.queue, flush, buffer);
    assert flush ==> |q| == 1;
  }
}

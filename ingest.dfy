/**
 * One upload (`processUpload`): chunks are buffered while the running size
 * stays within `maxSize`; every chunk restarts the idle timer; the first of
 * end, overflow, timeout, abort or error finishes the session, which
 * clears the timer and detaches every listener, so later events do nothing.
 *
 * `Step` and `Run` are the specification on values; `Session` is the
 * object whose event handlers mutate its fields and the shared store.
 */
module Ingest {
  import opened Common
  import opened Http
  import Hex
  import ObjectStore

  /**
   * The state of one upload: the buffered chunks, the running size, the
   * handle of the current idle timer and whether it is armed, and whether
   * the request listeners are still attached.
   */
  datatype Upload = Upload(buffer: seq<Bytes>, size: int, timer: nat, timerArmed: bool, listening: bool)

  /** What the request stream and the timer can deliver. `End` carries the key's random bytes. */
  datatype Event = Data(chunk: Bytes) | End(keyBytes: Hex.KeyBytes) | Timeout(handle: nat) | Aborted | Error

  /** What an event leads to: nothing terminal, or the one terminal transition. */
  datatype Outcome = Continue | Completed(key: string, value: Bytes) | TooLarge | TimedOut | Closed

  /** Listeners attached and the first timer armed. */
  const Initial := Upload([], 0, 0, true, true)

  /** `finish`: clear the timer and detach the four listeners. */
  function Finished(u: Upload): Upload
  {
    u.(timerArmed := false, listening := false)
  }

  /** `reTimeout`: clear the timer and arm a fresh one. */
  function Rearmed(u: Upload): Upload
  {
    u.(timer := u.timer + 1, timerArmed := true)
  }

  /** The response an outcome writes, if any (abort and error write none). */
  function ResponseOf(o: Outcome): Option<Response>
  {
    match o
    case Completed(key, _) => Some(Uploaded(key))
    case TooLarge => Some(PayloadTooLarge)
    case TimedOut => Some(RequestTimeout)
    case _ => None
  }

  /**
   * What the session keeps true: timer and listeners go together, the
   * running size counts the buffer (plus the rejected chunk once it
   * overflowed), and what is buffered never exceeds `maxSize`.
   */
  ghost predicate Inv(u: Upload, maxSize: int)
  {
    && u.timerArmed == u.listening
    && TotalLength(u.buffer) <= u.size
    && (u.listening ==> u.size == TotalLength(u.buffer))
    && (u.buffer != [] ==> TotalLength(u.buffer) <= maxSize)
  }

  datatype Transition = Transition(next: Upload, outcome: Outcome)

  /** One event, handled as the listeners and the timer callback handle it. */
  function Step(u: Upload, maxSize: int, e: Event): (r: Transition)
    ensures r.outcome != Continue ==> !r.next.listening && !r.next.timerArmed
    ensures !u.listening && !u.timerArmed ==> r == Transition(u, Continue)
  {
    match e
    case Data(chunk) =>
      if !u.listening then Transition(u, Continue)
      else
        var t := Rearmed(u);
        var size := t.size + |chunk|;
        if size > maxSize then
          Transition(Finished(t.(size := size)), TooLarge)
        else
          Transition(t.(size := size, buffer := t.buffer + [chunk]), Continue)
    case End(kb) =>
      if !u.listening then Transition(u, Continue)
      else Transition(Finished(u), Completed(Hex.Key(kb), Concat(u.buffer)))
    case Timeout(h) =>
      if !u.timerArmed || h != u.timer then Transition(u, Continue)
      else Transition(Finished(u), TimedOut)
    case Aborted =>
      if !u.listening then Transition(u, Continue)
      else Transition(Finished(u), Closed)
    case Error =>
      if !u.listening then Transition(u, Continue)
      else Transition(Finished(u), Closed)
  }

  /**
   * Every event keeps the invariant; a finished upload ignores every event;
   * an event has a terminal outcome exactly when it detaches the listeners;
   * and only an accepted chunk changes the buffer, by appending itself.
   */
  lemma StepKeepsInv(u: Upload, maxSize: int, e: Event)
    requires Inv(u, maxSize)
    ensures Inv(Step(u, maxSize, e).next, maxSize)
    ensures !u.listening ==> Step(u, maxSize, e) == Transition(u, Continue)
    ensures Step(u, maxSize, e).outcome != Continue <==> u.listening && !Step(u, maxSize, e).next.listening
    ensures Step(u, maxSize, e).next.buffer == u.buffer
      || (u.listening && e.Data? && Step(u, maxSize, e).next.buffer == u.buffer + [e.chunk])
  {
    if e.Data? && u.listening {
      assert (u.buffer + [e.chunk])[..|u.buffer|] == u.buffer;
    }
  }

  /** The final state of a sequence of events and the terminal outcomes it produced, in order. */
  datatype Trace = Trace(final: Upload, outcomes: seq<Outcome>)

  function Run(u: Upload, maxSize: int, events: seq<Event>): (r: Trace)
    ensures |r.outcomes| <= |events|
    ensures !u.listening && !u.timerArmed ==> r == Trace(u, [])
    decreases |events|
  {
    if events == [] then Trace(u, [])
    else
      var t := Step(u, maxSize, events[0]);
      var rest := Run(t.next, maxSize, events[1..]);
      Trace(rest.final, (if t.outcome == Continue then [] else [t.outcome]) + rest.outcomes)
  }

  /** The data events for a list of chunks. */
  function Datas(chunks: seq<Bytes>): seq<Event>
  {
    if chunks == [] then [] else [Data(chunks[0])] + Datas(chunks[1..])
  }

  /**
   * However events race, an upload has at most one terminal outcome; one
   * that already finished ignores everything; and the listeners stay
   * attached exactly while no terminal outcome has happened.
   */
  lemma {:induction false} AtMostOneOutcome(u: Upload, maxSize: int, events: seq<Event>)
    requires Inv(u, maxSize)
    ensures Inv(Run(u, maxSize, events).final, maxSize)
    ensures |Run(u, maxSize, events).outcomes| <= if u.listening then 1 else 0
    ensures !u.listening ==> Run(u, maxSize, events).final == u
    ensures Run(u, maxSize, events).final.listening <==> u.listening && Run(u, maxSize, events).outcomes == []
    decreases |events|
  {
    if events != [] {
      var t := Step(u, maxSize, events[0]);
      StepKeepsInv(u, maxSize, events[0]);
      AtMostOneOutcome(t.next, maxSize, events[1..]);
    }
  }

  /** Running two event sequences one after the other. */
  lemma {:induction false} RunAppend(u: Upload, maxSize: int, a: seq<Event>, b: seq<Event>)
    ensures Run(u, maxSize, a + b) ==
      Trace(Run(Run(u, maxSize, a).final, maxSize, b).final,
            Run(u, maxSize, a).outcomes + Run(Run(u, maxSize, a).final, maxSize, b).outcomes)
    decreases |a|
  {
    if a != [] {
      assert a + b == [a[0]] + (a[1..] + b);
      assert a == [a[0]] + a[1..];
      RunCons(u, maxSize, a[0], a[1..] + b);
      RunCons(u, maxSize, a[0], a[1..]);
      var t := Step(u, maxSize, a[0]);
      RunAppend(t.next, maxSize, a[1..], b);
    } else {
      assert a + b == b;
    }
  }

  /** Unfolding `Run` once. */
  lemma RunCons(u: Upload, maxSize: int, e: Event, rest: seq<Event>)
    ensures Run(u, maxSize, [e] + rest) ==
      var t := Step(u, maxSize, e);
      Trace(Run(t.next, maxSize, rest).final,
            (if t.outcome == Continue then [] else [t.outcome]) + Run(t.next, maxSize, rest).outcomes)
  {
    assert ([e] + rest)[0] == e;
    assert ([e] + rest)[1..] == rest;
  }

  /** A chunk that keeps the total within `maxSize` is buffered and counted, and rearms the timer. */
  lemma DataWithinLimit(u: Upload, maxSize: int, c: Bytes)
    requires u.listening && u.size + |c| <= maxSize
    ensures Step(u, maxSize, Data(c)) ==
      Transition(u.(buffer := u.buffer + [c], size := u.size + |c|, timer := u.timer + 1, timerArmed := true), Continue)
  {
  }

  /** Running a chunk within the limit and then more chunks. */
  lemma RunDataWithinLimit(u: Upload, maxSize: int, c: Bytes, rest: seq<Bytes>)
    requires u.listening && u.timerArmed && u.size + |c| <= maxSize
    ensures Run(u, maxSize, Datas([c] + rest)) ==
      Run(u.(buffer := u.buffer + [c], size := u.size + |c|, timer := u.timer + 1), maxSize, Datas(rest))
  {
    DataWithinLimit(u, maxSize, c);
    assert Datas([c] + rest) == [Data(c)] + Datas(rest);
    RunCons(u, maxSize, Data(c), Datas(rest));
  }

  /**
   * While the running total stays within `maxSize` (a total of exactly
   * `maxSize` included), every chunk is buffered in order, counted, and
   * restarts the timer.
   */
  lemma {:induction false} WithinLimitBuffered(u: Upload, maxSize: int, chunks: seq<Bytes>)
    requires u.listening && u.timerArmed
    requires u.size + TotalLength(chunks) <= maxSize
    ensures Run(u, maxSize, Datas(chunks)) ==
      Trace(u.(buffer := u.buffer + chunks, size := u.size + TotalLength(chunks), timer := u.timer + |chunks|), [])
    decreases |chunks|
  {
    if chunks != [] {
      var c, rest := chunks[0], chunks[1..];
      var u1 := u.(buffer := u.buffer + [c], size := u.size + |c|, timer := u.timer + 1);
      assert chunks == [c] + rest;
      TotalLengthCons(c, rest);
      RunDataWithinLimit(u, maxSize, c, rest);
      WithinLimitBuffered(u1, maxSize, rest);
      assert u1.buffer + rest == u.buffer + chunks;
    }
  }

  /**
   * The first chunk that takes the running total above `maxSize` ends the
   * upload with 413; it is counted but not buffered.
   */
  lemma OverflowRejected(u: Upload, maxSize: int, chunks: seq<Bytes>, c: Bytes)
    requires Inv(u, maxSize) && u.listening
    requires u.size + TotalLength(chunks) <= maxSize < u.size + TotalLength(chunks) + |c|
    ensures Run(u, maxSize, Datas(chunks) + [Data(c)]).outcomes == [TooLarge]
    ensures Run(u, maxSize, Datas(chunks) + [Data(c)]).final ==
      Upload(u.buffer + chunks, u.size + TotalLength(chunks) + |c|, u.timer + |chunks| + 1, false, false)
  {
    WithinLimitBuffered(u, maxSize, chunks);
    RunAppend(u, maxSize, Datas(chunks), [Data(c)]);
  }

  /** A late timer (one armed before the last chunk) never fires the 408. */
  lemma StaleTimerIgnored(u: Upload, maxSize: int, c: Bytes, h: nat)
    requires Inv(u, maxSize) && u.listening && h <= u.timer
    ensures Step(Step(u, maxSize, Data(c)).next, maxSize, Timeout(h)).outcome == Continue
  {
  }

  /** Chunks within the limit followed by the end of the stream store their concatenation under the key. */
  lemma UploadCompletes(maxSize: int, chunks: seq<Bytes>, kb: Hex.KeyBytes)
    requires TotalLength(chunks) <= maxSize
    ensures Run(Initial, maxSize, Datas(chunks) + [End(kb)]).outcomes == [Completed(Hex.Key(kb), Concat(chunks))]
    ensures !Run(Initial, maxSize, Datas(chunks) + [End(kb)]).final.listening
  {
    WithinLimitBuffered(Initial, maxSize, chunks);
    assert [] + chunks == chunks;
    RunAppend(Initial, maxSize, Datas(chunks), [End(kb)]);
  }

  /** The session object of one upload request. */
  class Session {
    const maxSize: int
    const store: ObjectStore.Store
    var buffer: seq<Bytes>
    var size: int
    var timer: nat
    var timerArmed: bool
    var listening: bool
    /** What has been written to the response, if anything. */
    var response: Option<Response>

    function State(): Upload
      reads this
    {
      Upload(buffer, size, timer, timerArmed, listening)
    }

    ghost predicate Valid()
      reads this
    {
      Inv(State(), maxSize) && (listening ==> response == None)
    }

    /** Attach the listeners and arm the first timer. */
    constructor (maxSize: int, store: ObjectStore.Store)
      ensures Valid() && State() == Initial && response == None
      ensures this.maxSize == maxSize && this.store == store
    {
      this.maxSize := maxSize;
      this.store := store;
      buffer := [];
      size := 0;
      timer := 0;
      timerArmed := true;
      listening := true;
      response := None;
    }

    /** `finish`: idempotent. */
    method Finish()
      modifies this
      ensures State() == Finished(old(State())) && response == old(response)
    {
      timerArmed := false;
      listening := false;
    }

    method ReTimeout()
      modifies this
      ensures State() == Rearmed(old(State())) && response == old(response)
    {
      timer := timer + 1;
      timerArmed := true;
    }

    /** `onData` */
    method OnData(chunk: Bytes)
      requires Valid()
      modifies this
      ensures Valid()
      ensures State() == Step(old(State()), maxSize, Data(chunk)).next
      ensures response == Respond(old(response), Step(old(State()), maxSize, Data(chunk)).outcome)
    {
      StepKeepsInv(State(), maxSize, Data(chunk));
      if !listening {
        return;
      }
      ReTimeout();
      size := size + |chunk|;
      if size > maxSize {
        Finish();
        response := Some(PayloadTooLarge);
        return;
      }
      buffer := buffer + [chunk];
    }

    /** `onEnd`: the key's random bytes are supplied by the caller. */
    method OnEnd(keyBytes: Hex.KeyBytes)
      requires Valid() && store.Valid()
      modifies this, store
      ensures Valid() && store.Valid()
      ensures State() == Step(old(State()), maxSize, End(keyBytes)).next
      ensures response == Respond(old(response), Step(old(State()), maxSize, End(keyBytes)).outcome)
      ensures store.entries ==
        match Step(old(State()), maxSize, End(keyBytes)).outcome
        case Completed(key, value) => ObjectStore.Put(old(store.entries), "/" + key, value, store.max)
        case _ => old(store.entries)
    {
      StepKeepsInv(State(), maxSize, End(keyBytes));
      if !listening {
        return;
      }
      Finish();
      var key := Hex.Key(keyBytes);
      store.Set("/" + key, Concat(buffer));
      response := Some(Uploaded(key));
    }

    /** The idle timer with handle `handle` fires; only the armed, current one has an effect. */
    method OnTimeout(handle: nat)
      requires Valid()
      modifies this
      ensures Valid()
      ensures State() == Step(old(State()), maxSize, Timeout(handle)).next
      ensures response == Respond(old(response), Step(old(State()), maxSize, Timeout(handle)).outcome)
    {
      StepKeepsInv(State(), maxSize, Timeout(handle));
      if !timerArmed || handle != timer {
        return;
      }
      Finish();
      response := Some(RequestTimeout);
    }

    /** `aborted` or `error` on the request: `finish` while it is still attached. */
    method OnAbortOrError(e: Event)
      requires Valid() && (e.Aborted? || e.Error?)
      modifies this
      ensures Valid()
      ensures State() == Step(old(State()), maxSize, e).next
      ensures response == old(response)
    {
      StepKeepsInv(State(), maxSize, e);
      if !listening {
        return;
      }
      Finish();
    }
  }

  /** The response after an outcome: the first terminal outcome writes it, nothing overwrites it. */
  function Respond(current: Option<Response>, o: Outcome): Option<Response>
  {
    if ResponseOf(o).Some? then ResponseOf(o) else current
  }
}

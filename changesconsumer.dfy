/** The ordered changes consumer (changesconsumerservice.go) as a
    sequential state machine, built like `CheckService.Pipeline` but with
    no publish stage. Its goroutines become step methods of `Pipeline`,
    each one atomic:

    - `Dispatch`        — `dispatch`: take a balancer slot, queue the event
                          for processing and start its task;
    - `CompleteProcess` — the task of one event: `process` retried until
                          nil, then `Processed` is closed and the slot
                          released;
    - `TakeProcessing`  — `handleProcessing` receives the head of
                          `processing` and starts waiting for its
                          `Processed` (the event it holds is `waiting`);
    - `Forward`         — `handleProcessing`, once that event is processed,
                          sends it to `acknowledging`;
    - `Acknowledge`     — `handleAcknowledging`: coalesce the queue to its
                          newest event and retry `Ack` on it until nil.

    A goroutine that would block is a step that is not enabled: it reports
    so and changes nothing. Events are identified by their dispatch
    position `k` (`dispatched[k]` is the event); the queues hold
    positions. */
module ChangesConsumer {
  import opened Base
  import opened ChangesProvider
  import opened Stages

  const ParallelismKey := "parallelism"

  /** `NewChangesConsumerService`'s checks, in the source's order. A
      negative `parallelism` makes `make(chan struct{}, parallelism)` panic.
      On success the value is the parallelism, which is also the capacity
      of the `processing` and `acknowledging` channels. */
  function NewChangesConsumerService(cfg: Option<Config>, l: Option<Component>, p: Option<Component>,
                                     s: Option<Component>): (r: Construct<nat>)
    ensures cfg.None? ==> r == Rejected(Error("must be not-nil config"))
    ensures cfg.Some? && l.None? ==> r == Rejected(Error("must be not-nil logger"))
    ensures cfg.Some? && l.Some? && p.None? ==> r == Rejected(Error("must be not-nil provider"))
    ensures cfg.Some? && l.Some? && p.Some? && s.None? ==> r == Rejected(Error("must be not-nil saver"))
    ensures cfg.Some? && l.Some? && p.Some? && s.Some? && ParallelismKey !in cfg.value.ints ==>
      r == Rejected(MissingKey(ParallelismKey))
    ensures r.Built? <==>
      cfg.Some? && l.Some? && p.Some? && s.Some? &&
      ParallelismKey in cfg.value.ints && cfg.value.ints[ParallelismKey] >= 0
    ensures r.Built? ==> r.value == cfg.value.ints[ParallelismKey]
    ensures r.Panicked? ==> ParallelismKey in cfg.value.ints && cfg.value.ints[ParallelismKey] < 0
  {
    if cfg.None? then Rejected(Error("must be not-nil config"))
    else if l.None? then Rejected(Error("must be not-nil logger"))
    else if p.None? then Rejected(Error("must be not-nil provider"))
    else if s.None? then Rejected(Error("must be not-nil saver"))
    else
      match cfg.value.GetInt(ParallelismKey)
      case Failure(e) => Rejected(e)
      case Success(n) => if n < 0 then Construct.Panicked("makechan: size out of range") else Built(n)
  }

  /** One step of a goroutine other than the dispatch loop. */
  datatype StageStep =
    | TakeProcessing
    | Forward
    | CompleteProcess(k: nat, attempts: seq<Option<Error>>)
    | Acknowledge(attempts: seq<Option<Error>>)

  /** What happens next while `Run` is running. */
  type Event = Stages.Event<ChangeEvent, StageStep>

  /** At most `parallelism` events hold a slot; an event holds one from
      dispatch until its `Processed` is closed. */
  ghost predicate AdmissionOk(parallelism: nat, slots: nat, inFlight: set<nat>, n: nat, processed: set<nat>)
  {
    && slots == |inFlight| <= parallelism
    && (forall k: nat :: k in inFlight <==> k < n && k !in processed)
    && (forall k :: k in processed ==> k < n)
  }

  /** An event in `acknowledging`, or drained from it, was processed. */
  ghost predicate StagesOk(processed: set<nat>, acknowledging: seq<nat>, drained: nat)
  {
    && (forall i :: 0 <= i < |acknowledging| ==> acknowledging[i] in processed)
    && (forall j :: 0 <= j < drained ==> j in processed)
  }

  /* How each step keeps the invariants, stated on values. */

  lemma AdmitKeepsInvariants(parallelism: nat, slots: nat, inFlight: set<nat>, processed: set<nat>,
                             drained: nat, acknowledging: seq<nat>, waiting: seq<nat>, processing: seq<nat>, n: nat)
    requires AdmissionOk(parallelism, slots, inFlight, n, processed) && slots < parallelism
    requires FifoOk(drained, acknowledging, waiting, processing, n)
    ensures n !in processed && n !in inFlight
    ensures AdmissionOk(parallelism, slots + 1, inFlight + {n}, n + 1, processed)
    ensures FifoOk(drained, acknowledging, waiting, processing + [n], n + 1)
  {
  }

  lemma TakeKeepsQueues(drained: nat, acknowledging: seq<nat>, processing: seq<nat>, n: nat)
    requires FifoOk(drained, acknowledging, [], processing, n) && processing != []
    ensures FifoOk(drained, acknowledging, [processing[0]], processing[1..], n)
  {
  }

  lemma ForwardKeepsQueues(drained: nat, acknowledging: seq<nat>, waiting: seq<nat>, processing: seq<nat>,
                           n: nat, processed: set<nat>)
    requires FifoOk(drained, acknowledging, waiting, processing, n) && |waiting| == 1
    requires StagesOk(processed, acknowledging, drained) && waiting[0] in processed
    ensures FifoOk(drained, acknowledging + waiting, [], processing, n)
    ensures StagesOk(processed, acknowledging + waiting, drained)
  {
  }

  lemma CloseKeepsInvariants(parallelism: nat, slots: nat, inFlight: set<nat>, n: nat, processed: set<nat>,
                             acknowledging: seq<nat>, drained: nat, k: nat)
    requires AdmissionOk(parallelism, slots, inFlight, n, processed)
    requires StagesOk(processed, acknowledging, drained)
    requires k < n && k !in processed
    ensures k in inFlight && slots >= 1
    ensures AdmissionOk(parallelism, slots - 1, inFlight - {k}, n, processed + {k})
    ensures StagesOk(processed + {k}, acknowledging, drained)
  {
  }

  lemma CoalesceKeepsInvariants(drained: nat, acknowledging: seq<nat>, waiting: seq<nat>, processing: seq<nat>,
                                n: nat, processed: set<nat>, acked: seq<nat>, discarded: set<nat>)
    requires FifoOk(drained, acknowledging, waiting, processing, n) && acknowledging != []
    requires StagesOk(processed, acknowledging, drained)
    requires AcksOk(acked, drained, discarded, None)
    ensures acknowledging[|acknowledging| - 1] == drained + |acknowledging| - 1
    ensures FifoOk(drained + |acknowledging|, [], waiting, processing, n)
    ensures StagesOk(processed, [], drained + |acknowledging|)
    ensures AcksOk(acked, drained + |acknowledging|, discarded + Coalesced(acknowledging),
                   Some(drained + |acknowledging| - 1))
  {
    CoalesceKeepsAcks(acked, drained, discarded, acknowledging);
    forall j | drained <= j < drained + |acknowledging|
      ensures j in processed
    {
      assert acknowledging[j - drained] == j;
    }
  }

  class Pipeline {
    const parallelism: nat

    var dispatched: seq<ChangeEvent>      // every event dispatched so far, by position
    var slots: nat                        // occupied places of the `balancer` channel
    var processing: seq<nat>
    var waiting: seq<nat>                 // the event `handleProcessing` holds (at most one)
    var acknowledging: seq<nat>
    var processed: set<nat>               // events whose `Processed` channel is closed
    var acking: Option<nat>               // the coalesced event whose `Ack` is being retried
    var acked: seq<nat>                   // events whose `Ack` returned nil, in order

    ghost var inFlight: set<nat>          // events holding a slot
    ghost var drained: nat                // events that have left `acknowledging`
    ghost var discarded: set<nat>         // events dropped by coalescing

    ghost predicate Admission()
      reads this`slots, this`inFlight, this`dispatched, this`processed
    {
      AdmissionOk(parallelism, slots, inFlight, |dispatched|, processed)
    }

    ghost predicate Fifo()
      reads this`drained, this`acknowledging, this`waiting, this`processing, this`dispatched
    {
      FifoOk(drained, acknowledging, waiting, processing, |dispatched|)
    }

    ghost predicate Stages()
      reads this`processed, this`acknowledging, this`drained
    {
      StagesOk(processed, acknowledging, drained)
    }

    ghost predicate Acks()
      reads this`acked, this`drained, this`discarded, this`acking
    {
      AcksOk(acked, drained, discarded, acking)
    }

    /** Each channel holds at most its capacity. */
    ghost predicate Bounded()
      reads this`processing, this`waiting, this`acknowledging
    {
      |processing| <= parallelism && |waiting| <= 1 && |acknowledging| <= parallelism
    }

    ghost predicate Valid()
      reads this
    {
      Admission() && Bounded() && Fifo() && Stages() && Acks()
    }

    constructor (parallelism: nat)
      ensures Valid() && this.parallelism == parallelism
      ensures dispatched == [] && slots == 0 && processing == [] && waiting == [] && acknowledging == []
      ensures processed == {} && acking == None && acked == []
    {
      this.parallelism := parallelism;
      dispatched, slots := [], 0;
      processing, waiting, acknowledging := [], [], [];
      processed, acking, acked := {}, None, [];
      inFlight, drained, discarded := {}, 0, {};
    }

    /** `dispatch`: admitted when a balancer slot is free (and the
        `processing` channel has room); the event gets the next position
        and an unclosed `Processed` flag. */
    method Dispatch(e: ChangeEvent) returns (admitted: bool)
      requires Valid()
      modifies this
      ensures Valid()
      ensures admitted <==> old(slots) < parallelism && old(|processing|) < parallelism
      ensures admitted ==>
        && dispatched == old(dispatched) + [e]
        && processing == old(processing) + [|old(dispatched)|]
        && slots == old(slots) + 1
        && |old(dispatched)| !in processed
      ensures !admitted ==> dispatched == old(dispatched) && processing == old(processing) && slots == old(slots)
      ensures waiting == old(waiting) && acknowledging == old(acknowledging) && processed == old(processed)
      ensures acking == old(acking) && acked == old(acked)
    {
      admitted := slots < parallelism && |processing| < parallelism;
      if admitted {
        var k := |dispatched|;
        AdmitKeepsInvariants(parallelism, slots, inFlight, processed, drained, acknowledging, waiting, processing, k);
        dispatched := dispatched + [e];
        slots := slots + 1;
        inFlight := inFlight + {k};
        processing := processing + [k];
      }
    }

    /** The task of event `k`: `process` calls the saver's `Process` until
        it returns nil (`attempts[i]` is the error of call i+1, each failure
        followed by `processRetryInterval`); then `Processed` is closed, once,
        and the slot released. Enabled while the event is unprocessed. */
    method CompleteProcess(k: nat, attempts: seq<Option<Error>>) returns (r: Option<Retry>)
      requires Valid()
      modifies this
      ensures Valid()
      ensures r.Some? <==> old(k < |dispatched| && k !in processed)
      ensures r.Some? ==>
        r.value.slept == (if r.value.Succeeded? then r.value.calls - 1 else r.value.calls) * ProcessRetryInterval
      ensures r.Some? && r.value.Succeeded? ==>
        && 1 <= r.value.calls <= |attempts| && attempts[r.value.calls - 1].None?
        && (forall i :: 0 <= i < r.value.calls - 1 ==> attempts[i].Some?)
        && processed == old(processed) + {k}
        && slots == old(slots) - 1
      ensures r.Some? && r.value.StillRetrying? ==> forall i :: 0 <= i < |attempts| ==> attempts[i].Some?
      ensures !(r.Some? && r.value.Succeeded?) ==> processed == old(processed) && slots == old(slots)
      ensures dispatched == old(dispatched) && processing == old(processing) && waiting == old(waiting)
      ensures acknowledging == old(acknowledging) && acking == old(acking) && acked == old(acked)
    {
      if !(k < |dispatched| && k !in processed) {
        return None;
      }
      var retry := RetryUntilNil(attempts, ProcessRetryInterval);
      if retry.Succeeded? {
        CloseKeepsInvariants(parallelism, slots, inFlight, |dispatched|, processed, acknowledging, drained, k);
        processed := processed + {k};   // close(e.Processed())
        slots := slots - 1;             // <-c.balancer
        inFlight := inFlight - {k};
      }
      r := Some(retry);
    }

    /** `handleProcessing` receives the head of `processing` when it holds
        no event. */
    method TakeProcessing() returns (moved: bool)
      requires Valid()
      modifies this
      ensures Valid()
      ensures moved <==> old(waiting) == [] && old(processing) != []
      ensures moved ==> waiting == [old(processing)[0]] && processing == old(processing)[1..]
      ensures !moved ==> waiting == old(waiting) && processing == old(processing)
      ensures dispatched == old(dispatched) && slots == old(slots) && acknowledging == old(acknowledging)
      ensures processed == old(processed) && acking == old(acking) && acked == old(acked)
    {
      moved := waiting == [] && processing != [];
      if moved {
        TakeKeepsQueues(drained, acknowledging, processing, |dispatched|);
        waiting := [processing[0]];
        processing := processing[1..];
      }
    }

    /** `handleProcessing`, once the event it holds is processed, sends it
        to `acknowledging` (when that channel has room). Events processed
        out of order wait behind it. */
    method Forward() returns (moved: bool)
      requires Valid()
      modifies this
      ensures Valid()
      ensures moved <==> old(waiting) != [] && old(waiting)[0] in processed && old(|acknowledging|) < parallelism
      ensures moved ==> acknowledging == old(acknowledging) + old(waiting) && waiting == []
      ensures !moved ==> acknowledging == old(acknowledging) && waiting == old(waiting)
      ensures dispatched == old(dispatched) && slots == old(slots) && processing == old(processing)
      ensures processed == old(processed) && acking == old(acking) && acked == old(acked)
    {
      moved := waiting != [] && waiting[0] in processed && |acknowledging| < parallelism;
      if moved {
        ForwardKeepsQueues(drained, acknowledging, waiting, processing, |dispatched|, processed);
        acknowledging := acknowledging + waiting;
        waiting := [];
      }
    }

    /** `handleAcknowledging`: when not already retrying an ack, receive
        the head of `acknowledging` and coalesce with `lastOrDefaultChange`,
        keeping only the newest queued event; then call `Ack` on it until it
        returns nil (`attempts[i]` is the error of call i+1, each failure
        followed by 100ms). The events coalesced away are never acked. */
    method Acknowledge(attempts: seq<Option<Error>>) returns (target: Option<nat>, r: Retry)
      requires Valid()
      modifies this
      ensures Valid()
      ensures old(acking).Some? ==> target == old(acking) && acknowledging == old(acknowledging)
      ensures old(acking).None? && old(acknowledging) == [] ==> target.None? && acking.None? && acked == old(acked)
      ensures old(acking).None? && old(acknowledging) != [] ==>
        target == Some(old(acknowledging)[|old(acknowledging)| - 1]) && acknowledging == []
      ensures target.Some? && r.Succeeded? ==> acked == old(acked) + [target.value] && acking.None?
      ensures target.Some? && r.StillRetrying? ==> acked == old(acked) && acking == target
      ensures target.Some? ==> r.slept == (if r.Succeeded? then r.calls - 1 else r.calls) * AckRetryInterval
      ensures old(discarded) <= discarded
      ensures dispatched == old(dispatched) && slots == old(slots) && processing == old(processing)
      ensures waiting == old(waiting) && processed == old(processed)
    {
      if acking.None? {
        if acknowledging == [] {
          return None, StillRetrying(0, 0);
        }
        var head := acknowledging[0];
        var last, rest := LastOrDefault(head, acknowledging[1..]);
        Coalesce(last);
      }
      target := acking;
      r := RetryUntilNil(attempts, AckRetryInterval);
      if r.Succeeded? {
        RecordAck();
      }
    }

    /** The effect of receiving the head and `lastOrDefaultChange`:
        everything queued is drained, the newest event `k` is kept for
        acking, the rest dropped. */
    method Coalesce(k: nat)
      requires Valid() && acking.None? && acknowledging != []
      requires k == acknowledging[|acknowledging| - 1]
      modifies this
      ensures Valid()
      ensures acking == Some(k) && acknowledging == [] && acked == old(acked)
      ensures old(discarded) <= discarded
      ensures dispatched == old(dispatched) && slots == old(slots) && processing == old(processing)
      ensures waiting == old(waiting) && processed == old(processed)
    {
      CoalesceKeepsInvariants(drained, acknowledging, waiting, processing, |dispatched|, processed, acked, discarded);
      discarded := discarded + Coalesced(acknowledging);
      drained := drained + |acknowledging|;
      acknowledging := [];
      acking := Some(k);
    }

    /** `Ack` returned nil for the kept event. */
    method RecordAck()
      requires Valid() && acking.Some?
      modifies this
      ensures Valid()
      ensures acked == old(acked) + [old(acking).value] && acking.None?
      ensures acknowledging == old(acknowledging) && discarded == old(discarded)
      ensures dispatched == old(dispatched) && slots == old(slots) && processing == old(processing)
      ensures waiting == old(waiting) && processed == old(processed)
    {
      AckKeepsAcks(acked, drained, discarded, acking.value);
      acked := acked + [acking.value];
      acking := None;
    }

    /** Performs one step of a stage goroutine. */
    method DoStep(s: StageStep)
      requires Valid()
      modifies this
      ensures Valid()
      ensures old(dispatched) == dispatched
    {
      match s
      case TakeProcessing =>
        var _ := TakeProcessing();
      case Forward =>
        var _ := Forward();
      case CompleteProcess(k, attempts) =>
        var _ := CompleteProcess(k, attempts);
      case Acknowledge(attempts) =>
        var _, _ := Acknowledge(attempts);
    }

    /** The dispatch loop's inner part: dispatch queued events in order
        while `dispatch` can admit them. Stops at the first event it cannot
        admit, with every slot taken or `processing` full. */
    method DispatchQueued(inbox: seq<ChangeEvent>) returns (n: nat)
      requires Valid()
      modifies this
      ensures Valid()
      ensures n <= |inbox| && dispatched == old(dispatched) + inbox[..n]
      ensures n < |inbox| ==> slots == parallelism || |processing| == parallelism
    {
      n := 0;
      while n < |inbox| && slots < parallelism && |processing| < parallelism
        invariant n <= |inbox| && Valid()
        invariant dispatched == old(dispatched) + inbox[..n]
      {
        var _ := Dispatch(inbox[n]);
        assert inbox[..n + 1] == inbox[..n] + [inbox[n]];
        n := n + 1;
      }
    }

    /** One event as the dispatch loop sees it (cancellation is handled by
        the caller): a close is remembered, a sent event joins the channel
        unless it is closed, a stage step runs; then the loop dispatches
        what it can. */
    method Deliver(e: Event, inbox: seq<ChangeEvent>, closed: bool) returns (inbox': seq<ChangeEvent>, closed': bool)
      requires Valid() && !e.Cancel?
      modifies this
      ensures Valid()
      ensures closed' == (closed || e.Close?)
      ensures old(dispatched) <= dispatched
      ensures dispatched + inbox' == old(dispatched) + inbox + (if e.Offer? && !closed then [e.o] else [])
    {
      inbox', closed' := inbox, closed;
      match e {
        case Close =>
          closed' := true;
        case Offer(o) =>
          if !closed {
            inbox' := inbox + [o];
          }
        case Step(s) =>
          DoStep(s);
      }
      var n := DispatchQueued(inbox');
      assert inbox' == inbox'[..n] + inbox'[n..];
      inbox' := inbox'[n..];
    }

    /** `Run` over a finite schedule. Events sent on the provider's channel
        wait in it (`inbox`) until the loop can dispatch them. Cancellation
        returns nil at once, and is the only way `Run` returns. There is no
        check for a closed channel: once it is closed and drained, the
        receive yields a nil event, and the log call on it panics. */
    method Run(events: seq<Event>) returns (exit: Exit)
      requires Valid()
      modifies this
      ensures Valid()
      ensures exit == ReturnedNil ==> Cancel in events
      ensures exit == StillRunning ==> Cancel !in events
      ensures exit == Exit.Panicked ==> Close in events && dispatched == old(dispatched) + Sent(events)
      ensures old(dispatched) <= dispatched <= old(dispatched) + Sent(events)
      ensures exit == StillRunning && Close in events ==> |dispatched| < |old(dispatched)| + |Sent(events)|
    {
      var inbox: seq<ChangeEvent> := [];
      var closed := false;
      var i := 0;
      while i < |events|
        invariant i <= |events| && Valid()
        invariant Cancel !in events[..i]
        invariant closed <==> Close in events[..i]
        invariant old(dispatched) <= dispatched
        invariant dispatched + inbox == old(dispatched) + Sent(events[..i])
        invariant closed ==> inbox != []
        decreases |events| - i
      {
        var e := events[i];
        if e.Cancel? {
          SentPrefix(events, i);
          PrefixThrough(dispatched, inbox, old(dispatched), Sent(events[..i]), Sent(events));
          assert events[i] in events;
          return ReturnedNil;
        }
        SentStep(events, i, closed);
        ghost var extra := if e.Offer? && !closed then [e.o] else [];
        inbox, closed := Deliver(e, inbox, closed);
        AppendAssoc(old(dispatched), Sent(events[..i]), extra);
        i := i + 1;
        if closed && inbox == [] {
          assert dispatched + inbox == dispatched;
          SentPrefix(events, i);
          assert Close in events by {
            assert Close in events[..i];
          }
          return Exit.Panicked;
        }
      }
      assert events[..i] == events;
      PrefixThrough(dispatched, inbox, old(dispatched), Sent(events[..i]), Sent(events));
      return StillRunning;
    }
  }

  /** An acked event proves every event dispatched before it was
      processed: acks follow dispatch order. */
  lemma AckImpliesEarlierProcessed(p: Pipeline, i: nat, j: nat)
    requires p.Valid()
    requires i < |p.acked| && j <= p.acked[i]
    ensures j in p.processed
  {
  }
}

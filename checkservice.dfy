/** The ordered check pipeline (checkservice.go) as a sequential state
    machine. The goroutines of the source become step methods of
    `Pipeline`, each one atomic:

    - `Dispatch`          — `dispatch`: take a balancer slot, queue the
                            order for processing and start its task;
    - `TakeProcessing`    — `handleProcessing` receives the head of
                            `processing` and holds it;
    - `SendPublishing`    — `handleProcessing` sends the held order to
                            `publishing` and starts its publish goroutine;
    - `CompleteProcess`   — the task of one order: `process` retried until
                            nil, which writes the result, then the slot is
                            released;
    - `Publish`           — the publish goroutine of one order: `publish`
                            retried until nil, then `Published` is closed;
    - `TakePublishing`    — `handlePublishing` receives the head of
                            `publishing` and holds it;
    - `SendAcknowledging` — once the held order's `Published` is closed,
                            `handlePublishing` sends it to `acknowledging`;
    - `Acknowledge`       — `handleAcknowledging`: coalesce the queue to its
                            newest order and retry `Ack` on it until nil.

    A goroutine that would block (a full channel, an empty one, an order
    whose result has no reader yet) is a step that is not enabled: it
    reports so and changes nothing. Orders are identified by their
    dispatch position `k` (`dispatched[k]` is the order); the stage queues
    and the two goroutines' holds contain positions. The scheduler is the
    caller, so any interleaving of the steps is covered. */
module CheckService {
  import opened Base
  import opened CheckOrders
  import opened CheckResults
  import CheckProcessor
  import opened Stages

  const ParallelismKey := "parallelism"

  /** `NewCheckService`'s checks, in the source's order. A negative
      `parallelism` makes `make(chan struct{}, parallelism)` panic. The
      statistics service may be nil. On success the value is the
      parallelism, which is also the capacity of every stage channel. */
  function NewCheckService(cfg: Option<Config>, l: Option<Component>, prov: Option<Component>,
                           proc: Option<Component>, pub: Option<Component>): (r: Construct<nat>)
    ensures cfg.None? ==> r == Rejected(Error("must be not-nil config"))
    ensures cfg.Some? && l.None? ==> r == Rejected(Error("must be not-nil logger"))
    ensures cfg.Some? && l.Some? && prov.None? ==> r == Rejected(Error("must be not-nil provider"))
    ensures cfg.Some? && l.Some? && prov.Some? && proc.None? ==> r == Rejected(Error("must be not-nil processor"))
    ensures cfg.Some? && l.Some? && prov.Some? && proc.Some? && pub.None? ==>
      r == Rejected(Error("must be not-nil publisher"))
    ensures cfg.Some? && l.Some? && prov.Some? && proc.Some? && pub.Some? && ParallelismKey !in cfg.value.ints ==>
      r == Rejected(MissingKey(ParallelismKey))
    ensures r.Built? <==>
      cfg.Some? && l.Some? && prov.Some? && proc.Some? && pub.Some? &&
      ParallelismKey in cfg.value.ints && cfg.value.ints[ParallelismKey] >= 0
    ensures r.Built? ==> r.value == cfg.value.ints[ParallelismKey]
    ensures r.Panicked? ==> ParallelismKey in cfg.value.ints && cfg.value.ints[ParallelismKey] < 0
  {
    if cfg.None? then Rejected(Error("must be not-nil config"))
    else if l.None? then Rejected(Error("must be not-nil logger"))
    else if prov.None? then Rejected(Error("must be not-nil provider"))
    else if proc.None? then Rejected(Error("must be not-nil processor"))
    else if pub.None? then Rejected(Error("must be not-nil publisher"))
    else
      match cfg.value.GetInt(ParallelismKey)
      case Failure(e) => Rejected(e)
      case Success(p) => if p < 0 then Construct.Panicked("makechan: size out of range") else Built(p)
  }

  /** The error a call of `Process` returns, nil when it succeeded. */
  function ErrorOf<T>(r: Result<T, Error>): (e: Option<Error>)
    ensures e.None? <==> r.Success?
    ensures e.Some? ==> e.value == r.error
  {
    if r.Failure? then Some(r.error) else None
  }

  /** The errors `process` returns on each call, given what the check
      function returns on each call. */
  function Attempts(p: CheckProcessor.Processor, o: CheckOrder, calls: seq<Result<CheckProcessor.Verdict, Error>>): (a: seq<Option<Error>>)
    ensures |a| == |calls|
    ensures forall i :: 0 <= i < |calls| ==> (a[i].None? <==> calls[i].Success?)
  {
    seq(|calls|, i requires 0 <= i < |calls| => ErrorOf(CheckProcessor.Process(p, o, calls[i])))
  }

  /** One step of a goroutine other than the dispatch loop. */
  datatype StageStep =
    | TakeProcessing
    | SendPublishing
    | CompleteProcess(k: nat, calls: seq<Result<CheckProcessor.Verdict, Error>>)
    | Publish(k: nat, attempts: seq<Option<Error>>)
    | TakePublishing
    | SendAcknowledging
    | Acknowledge(attempts: seq<Option<Error>>)

  /** What happens next while `run` is running. */
  type Event = Stages.Event<CheckOrder, StageStep>

  /** At most `parallelism` orders hold a slot; an order holds one from
      dispatch until its result is written. */
  ghost predicate AdmissionOk(parallelism: nat, slots: nat, inFlight: set<nat>,
                              dispatched: seq<CheckOrder>, results: map<nat, CheckResult>)
  {
    && slots == |inFlight| <= parallelism
    && (forall k: nat :: k in inFlight <==> k < |dispatched| && k !in results)
    && (forall k :: k in results ==> k < |dispatched|)
  }

  /** What each stage implies about an order: while it has no publish
      goroutine (`unread`: in `processing` or held by `handleProcessing`),
      its result is unwritten; published implies its result was written;
      in `acknowledging` or drained, it was published. */
  ghost predicate StagesOk(unread: seq<nat>, results: map<nat, CheckResult>, published: set<nat>,
                           acknowledging: seq<nat>, drained: nat)
  {
    && (forall i :: 0 <= i < |unread| ==> unread[i] !in results)
    && (forall k :: k in published ==> k in results)
    && (forall i :: 0 <= i < |acknowledging| ==> acknowledging[i] in published)
    && (forall j :: 0 <= j < drained ==> j in published)
  }

  /* How each step keeps the invariants, stated on values. `middle` is
     everything between `acknowledging` and `processing`: the order
     `handlePublishing` holds, the `publishing` channel and the order
     `handleProcessing` holds, oldest first. */

  lemma AdmitKeepsAdmission(parallelism: nat, slots: nat, inFlight: set<nat>,
                            dispatched: seq<CheckOrder>, results: map<nat, CheckResult>, o: CheckOrder)
    requires AdmissionOk(parallelism, slots, inFlight, dispatched, results) && slots < parallelism
    ensures |dispatched| !in results && |dispatched| !in inFlight
    ensures AdmissionOk(parallelism, slots + 1, inFlight + {|dispatched|}, dispatched + [o], results)
  {
    var d := dispatched + [o];
    assert forall k :: k in results ==> d[k] == dispatched[k];
  }

  lemma PushKeepsQueues(drained: nat, acknowledging: seq<nat>, middle: seq<nat>, processing: seq<nat>,
                        n: nat, unread: seq<nat>, results: map<nat, CheckResult>, published: set<nat>)
    requires FifoOk(drained, acknowledging, middle, processing, n)
    requires StagesOk(unread, results, published, acknowledging, drained) && n !in results
    ensures FifoOk(drained, acknowledging, middle, processing + [n], n + 1)
    ensures StagesOk(unread + [n], results, published, acknowledging, drained)
  {
  }

  lemma TakeKeepsQueues(drained: nat, acknowledging: seq<nat>, middle: seq<nat>, processing: seq<nat>, n: nat)
    requires FifoOk(drained, acknowledging, middle, processing, n) && processing != []
    ensures FifoOk(drained, acknowledging, middle + [processing[0]], processing[1..], n)
  {
  }

  lemma WriteKeepsInvariants(parallelism: nat, slots: nat, inFlight: set<nat>, dispatched: seq<CheckOrder>,
                             results: map<nat, CheckResult>, unread: seq<nat>, published: set<nat>,
                             acknowledging: seq<nat>, drained: nat, k: nat, result: CheckResult)
    requires AdmissionOk(parallelism, slots, inFlight, dispatched, results)
    requires StagesOk(unread, results, published, acknowledging, drained)
    requires k < |dispatched| && k !in results && k !in unread
    ensures k in inFlight && slots >= 1
    ensures AdmissionOk(parallelism, slots - 1, inFlight - {k}, dispatched, results[k := result])
    ensures StagesOk(unread, results[k := result], published, acknowledging, drained)
  {
  }

  lemma PublishKeepsStages(unread: seq<nat>, results: map<nat, CheckResult>, published: set<nat>,
                           acknowledging: seq<nat>, drained: nat, k: nat)
    requires StagesOk(unread, results, published, acknowledging, drained)
    requires k in results
    ensures StagesOk(unread, results, published + {k}, acknowledging, drained)
  {
  }

  lemma ForwardKeepsQueues(drained: nat, acknowledging: seq<nat>, middle: seq<nat>, processing: seq<nat>,
                           n: nat, unread: seq<nat>, results: map<nat, CheckResult>, published: set<nat>)
    requires FifoOk(drained, acknowledging, middle, processing, n) && middle != []
    requires StagesOk(unread, results, published, acknowledging, drained) && middle[0] in published
    ensures FifoOk(drained, acknowledging + [middle[0]], middle[1..], processing, n)
    ensures StagesOk(unread, results, published, acknowledging + [middle[0]], drained)
  {
  }

  lemma CoalesceKeepsInvariants(drained: nat, acknowledging: seq<nat>, middle: seq<nat>, processing: seq<nat>,
                                n: nat, unread: seq<nat>, results: map<nat, CheckResult>, published: set<nat>,
                                acked: seq<nat>, discarded: set<nat>)
    requires FifoOk(drained, acknowledging, middle, processing, n) && acknowledging != []
    requires StagesOk(unread, results, published, acknowledging, drained)
    requires AcksOk(acked, drained, discarded, None)
    ensures acknowledging[|acknowledging| - 1] == drained + |acknowledging| - 1
    ensures FifoOk(drained + |acknowledging|, [], middle, processing, n)
    ensures StagesOk(unread, results, published, [], drained + |acknowledging|)
    ensures AcksOk(acked, drained + |acknowledging|, discarded + Coalesced(acknowledging),
                   Some(drained + |acknowledging| - 1))
  {
    CoalesceKeepsAcks(acked, drained, discarded, acknowledging);
    forall j | drained <= j < drained + |acknowledging|
      ensures j in published
    {
      assert acknowledging[j - drained] == j;
    }
  }

  class Pipeline {
    const parallelism: nat
    const processor: CheckProcessor.Processor

    var dispatched: seq<CheckOrder>      // every order dispatched so far, by position
    var slots: nat                        // occupied places of the `balancer` channel
    var processing: seq<nat>
    var pushing: seq<nat>                 // the order `handleProcessing` holds (at most one)
    var publishing: seq<nat>
    var awaiting: seq<nat>                // the order `handlePublishing` holds (at most one)
    var acknowledging: seq<nat>
    var results: map<nat, CheckResult>    // result slots that have been written
    var published: set<nat>               // orders whose `Published` channel is closed
    var sink: seq<CheckResult>            // results the publisher accepted, in order
    var acking: Option<nat>               // the coalesced order whose `Ack` is being retried
    var acked: seq<nat>                   // orders whose `Ack` returned nil, in order

    ghost var inFlight: set<nat>          // orders holding a slot: dispatched, `process` not returned
    ghost var drained: nat                // orders that have left `acknowledging`
    ghost var discarded: set<nat>         // orders dropped by coalescing

    ghost predicate Admission()
      reads this`slots, this`inFlight, this`dispatched, this`results
    {
      AdmissionOk(parallelism, slots, inFlight, dispatched, results)
    }

    ghost predicate Fifo()
      reads this`drained, this`acknowledging, this`awaiting, this`publishing, this`pushing,
            this`processing, this`dispatched
    {
      FifoOk(drained, acknowledging, awaiting + publishing + pushing, processing, |dispatched|)
    }

    ghost predicate Stages()
      reads this`pushing, this`processing, this`results, this`published, this`acknowledging, this`drained
    {
      StagesOk(pushing + processing, results, published, acknowledging, drained)
    }

    ghost predicate Acks()
      reads this`acked, this`drained, this`discarded, this`acking
    {
      AcksOk(acked, drained, discarded, acking)
    }

    /** Each stage channel holds at most `parallelism` orders, each stage
        goroutine at most one. */
    ghost predicate Bounded()
      reads this`processing, this`pushing, this`publishing, this`awaiting, this`acknowledging
    {
      && |processing| <= parallelism && |publishing| <= parallelism && |acknowledging| <= parallelism
      && |pushing| <= 1 && |awaiting| <= 1
    }

    ghost predicate Valid()
      reads this
    {
      Admission() && Bounded() && Fifo() && Stages() && Acks()
    }

    constructor (parallelism: nat, processor: CheckProcessor.Processor)
      ensures Valid()
      ensures this.parallelism == parallelism && this.processor == processor
      ensures dispatched == [] && slots == 0 && processing == [] && pushing == [] && publishing == []
      ensures awaiting == [] && acknowledging == []
      ensures results == map[] && published == {} && sink == [] && acking == None && acked == []
    {
      this.parallelism := parallelism;
      this.processor := processor;
      dispatched, slots := [], 0;
      processing, pushing, publishing, awaiting, acknowledging := [], [], [], [], [];
      results, published, sink := map[], {}, [];
      acking, acked := None, [];
      inFlight, drained, discarded := {}, 0, {};
    }

    /** `dispatch`: admitted when a balancer slot is free (and the
        `processing` channel has room); the order gets the next position,
        an unwritten result slot and an open `Published` flag. */
    method Dispatch(o: CheckOrder) returns (admitted: bool)
      requires Valid()
      modifies this
      ensures Valid()
      ensures admitted <==> old(slots) < parallelism && old(|processing|) < parallelism
      ensures admitted ==>
        && dispatched == old(dispatched) + [o]
        && processing == old(processing) + [|old(dispatched)|]
        && slots == old(slots) + 1
        && |old(dispatched)| !in results && |old(dispatched)| !in published
      ensures !admitted ==> dispatched == old(dispatched) && processing == old(processing) && slots == old(slots)
      ensures pushing == old(pushing) && publishing == old(publishing) && awaiting == old(awaiting)
      ensures acknowledging == old(acknowledging)
      ensures results == old(results) && published == old(published) && sink == old(sink)
      ensures acking == old(acking) && acked == old(acked)
    {
      admitted := slots < parallelism && |processing| < parallelism;
      if admitted {
        var k := |dispatched|;
        AdmitKeepsAdmission(parallelism, slots, inFlight, dispatched, results, o);
        PushKeepsQueues(drained, acknowledging, awaiting + publishing + pushing, processing, k,
                        pushing + processing, results, published);
        AppendAssoc(pushing, processing, [k]);
        dispatched := dispatched + [o];
        slots := slots + 1;
        inFlight := inFlight + {k};
        processing := processing + [k];
      }
    }

    /** `handleProcessing` receives the head of `processing` when it holds
        no order; its slot in `processing` is free again. */
    method TakeProcessing() returns (moved: bool)
      requires Valid()
      modifies this
      ensures Valid()
      ensures moved <==> old(pushing) == [] && old(processing) != []
      ensures moved ==> pushing == [old(processing)[0]] && processing == old(processing)[1..]
      ensures !moved ==> pushing == old(pushing) && processing == old(processing)
      ensures dispatched == old(dispatched) && slots == old(slots) && publishing == old(publishing)
      ensures awaiting == old(awaiting) && acknowledging == old(acknowledging)
      ensures results == old(results) && published == old(published) && sink == old(sink)
      ensures acking == old(acking) && acked == old(acked)
    {
      moved := pushing == [] && processing != [];
      if moved {
        assert awaiting + publishing + pushing == awaiting + publishing;
        TakeKeepsQueues(drained, acknowledging, awaiting + publishing, processing, |dispatched|);
        ghost var unread := pushing + processing;
        assert [processing[0]] + processing[1..] == unread;
        pushing := [processing[0]];
        processing := processing[1..];
        assert pushing + processing == unread;
      }
    }

    /** `handleProcessing` sends its order to `publishing` when that
        channel has room, and starts the order's publish goroutine, which
        reads its result. */
    method SendPublishing() returns (moved: bool)
      requires Valid()
      modifies this
      ensures Valid()
      ensures moved <==> old(pushing) != [] && old(|publishing|) < parallelism
      ensures moved ==> publishing == old(publishing) + old(pushing) && pushing == []
      ensures !moved ==> publishing == old(publishing) && pushing == old(pushing)
      ensures dispatched == old(dispatched) && slots == old(slots) && processing == old(processing)
      ensures awaiting == old(awaiting) && acknowledging == old(acknowledging)
      ensures results == old(results) && published == old(published) && sink == old(sink)
      ensures acking == old(acking) && acked == old(acked)
    {
      moved := pushing != [] && |publishing| < parallelism;
      if moved {
        assert awaiting + publishing + pushing == awaiting + (publishing + pushing) + [];
        assert forall i :: 0 <= i < |processing| ==> processing[i] == (pushing + processing)[i + 1];
        publishing := publishing + pushing;
        pushing := [];
      }
    }

    /** The task of order `k`: `process` calls `Process` until it returns
        nil (`calls[i]` is what the check function returns on call i+1,
        each failure followed by `processRetryInterval`); the successful
        call writes the order's one result, then the slot is released. The
        result channel is unbuffered, so the step is enabled once the
        order's publish goroutine exists (it has left `processing` and
        `handleProcessing`) and while its result is unwritten. */
    method CompleteProcess(k: nat, calls: seq<Result<CheckProcessor.Verdict, Error>>) returns (r: Option<Retry>)
      requires Valid()
      modifies this
      ensures Valid()
      ensures dispatched == old(dispatched) && processing == old(processing) && pushing == old(pushing)
      ensures publishing == old(publishing) && awaiting == old(awaiting) && acknowledging == old(acknowledging)
      ensures published == old(published) && sink == old(sink)
      ensures acking == old(acking) && acked == old(acked)
      ensures r.Some? <==> old(k < |dispatched| && k !in results && k !in processing && k !in pushing)
      ensures r.Some? ==> r.value.calls <= |calls| && r.value.slept == (if r.value.Succeeded? then r.value.calls - 1 else r.value.calls) * ProcessRetryInterval
      ensures r.Some? && r.value.Succeeded? ==>
        && r.value.calls >= 1
        && calls[r.value.calls - 1].Success?
        && (forall i :: 0 <= i < r.value.calls - 1 ==> calls[i].Failure?)
        && results == old(results)[k := CheckProcessor.ResultFor(dispatched[k], calls[r.value.calls - 1].value)]
        && slots == old(slots) - 1
      ensures r.Some? && r.value.StillRetrying? ==> forall i :: 0 <= i < |calls| ==> calls[i].Failure?
      ensures !(r.Some? && r.value.Succeeded?) ==> results == old(results) && slots == old(slots)
    {
      if !(k < |dispatched| && k !in results && k !in processing && k !in pushing) {
        return None;
      }
      var o := dispatched[k];
      var attempts := Attempts(processor, o, calls);
      var retry := RetryUntilNil(attempts, ProcessRetryInterval);
      if retry.Succeeded? {
        var written := CheckProcessor.Process(processor, o, calls[retry.calls - 1]);
        WriteResult(k, written.value);
      }
      r := Some(retry);
    }

    /** `setResult` followed by the release of the balancer slot. */
    method WriteResult(k: nat, result: CheckResult)
      requires Valid()
      requires k < |dispatched| && k !in results && k !in processing && k !in pushing
      modifies this
      ensures Valid()
      ensures results == old(results)[k := result] && slots == old(slots) - 1
      ensures dispatched == old(dispatched) && processing == old(processing) && pushing == old(pushing)
      ensures publishing == old(publishing) && awaiting == old(awaiting) && acknowledging == old(acknowledging)
      ensures published == old(published) && sink == old(sink)
      ensures acking == old(acking) && acked == old(acked)
    {
      WriteKeepsInvariants(parallelism, slots, inFlight, dispatched, results, pushing + processing, published,
                           acknowledging, drained, k, result);
      results := results[k := result];
      slots := slots - 1;
      inFlight := inFlight - {k};
    }

    /** The publish goroutine of order `k`: once its result is written,
        `publish` calls the publisher until it returns nil
        (`attempts[i]` is the error of call i+1; no sleep in between), then
        closes `Published`. Each result reaches the sink exactly once. */
    method Publish(k: nat, attempts: seq<Option<Error>>) returns (r: Option<Retry>)
      requires Valid()
      modifies this
      ensures Valid()
      ensures r.Some? <==> old(k in results && k !in published)
      ensures r.Some? ==> r.value.calls <= |attempts| && r.value.slept == 0
      ensures r.Some? ==> (r.value.Succeeded? <==> exists i :: 0 <= i < |attempts| && attempts[i].None?)
      ensures r.Some? && r.value.Succeeded? ==>
        k in results && sink == old(sink) + [results[k]] && published == old(published) + {k}
      ensures !(r.Some? && r.value.Succeeded?) ==> sink == old(sink) && published == old(published)
      ensures dispatched == old(dispatched) && slots == old(slots) && results == old(results)
      ensures processing == old(processing) && pushing == old(pushing) && publishing == old(publishing)
      ensures awaiting == old(awaiting) && acknowledging == old(acknowledging)
      ensures acking == old(acking) && acked == old(acked)
    {
      if !(k in results && k !in published) {
        return None;
      }
      var retry := RetryUntilNil(attempts, PublishRetryInterval);
      if retry.Succeeded? {
        PublishKeepsStages(pushing + processing, results, published, acknowledging, drained, k);
        sink := sink + [results[k]];
        published := published + {k};
      }
      r := Some(retry);
    }

    /** `handlePublishing` receives the head of `publishing` when it holds
        no order; its slot in `publishing` is free again. */
    method TakePublishing() returns (moved: bool)
      requires Valid()
      modifies this
      ensures Valid()
      ensures moved <==> old(awaiting) == [] && old(publishing) != []
      ensures moved ==> awaiting == [old(publishing)[0]] && publishing == old(publishing)[1..]
      ensures !moved ==> awaiting == old(awaiting) && publishing == old(publishing)
      ensures dispatched == old(dispatched) && slots == old(slots) && processing == old(processing)
      ensures pushing == old(pushing) && acknowledging == old(acknowledging)
      ensures results == old(results) && published == old(published) && sink == old(sink)
      ensures acking == old(acking) && acked == old(acked)
    {
      moved := awaiting == [] && publishing != [];
      if moved {
        ghost var middle := awaiting + publishing + pushing;
        assert FifoOk(drained, acknowledging, middle, processing, |dispatched|);
        assert [publishing[0]] + publishing[1..] + pushing == middle;
        awaiting := [publishing[0]];
        publishing := publishing[1..];
        assert awaiting + publishing + pushing == middle;
      }
    }

    /** `handlePublishing` waits for its order's `Published`, then sends it
        to `acknowledging` when that channel has room. Orders published
        out of order wait behind it. */
    method SendAcknowledging() returns (moved: bool)
      requires Valid()
      modifies this
      ensures Valid()
      ensures moved <==> old(awaiting) != [] && old(awaiting)[0] in published && old(|acknowledging|) < parallelism
      ensures moved ==> acknowledging == old(acknowledging) + old(awaiting) && awaiting == []
      ensures !moved ==> acknowledging == old(acknowledging) && awaiting == old(awaiting)
      ensures dispatched == old(dispatched) && slots == old(slots) && processing == old(processing)
      ensures pushing == old(pushing) && publishing == old(publishing)
      ensures results == old(results) && published == old(published) && sink == old(sink)
      ensures acking == old(acking) && acked == old(acked)
    {
      moved := awaiting != [] && awaiting[0] in published && |acknowledging| < parallelism;
      if moved {
        ghost var middle := awaiting + publishing + pushing;
        ForwardKeepsQueues(drained, acknowledging, middle, processing, |dispatched|,
                           pushing + processing, results, published);
        assert awaiting == [middle[0]] && middle[1..] == publishing + pushing;
        acknowledging := acknowledging + awaiting;
        awaiting := [];
        assert awaiting + publishing + pushing == middle[1..];
      }
    }

    /** `handleAcknowledging`: when not already retrying an ack, receive
        the head of `acknowledging` and coalesce with `lastOrDefaultOrder`,
        keeping only the newest queued order; then call `Ack` on the kept
        order until it returns nil (`attempts[i]` is the error of call i+1,
        each failure followed by 100ms). The orders coalesced away are
        never acked. */
    method Acknowledge(attempts: seq<Option<Error>>) returns (target: Option<nat>, r: Retry)
      requires Valid()
      modifies this
      ensures Valid()
      ensures old(acking).Some? ==> target == old(acking) && acknowledging == old(acknowledging)
      ensures old(acking).None? && old(acknowledging) == [] ==> target.None? && acking.None? && acked == old(acked)
      ensures old(acking).None? && old(acknowledging) != [] ==>
        target == Some(old(acknowledging)[|old(acknowledging)| - 1]) && acknowledging == []
      ensures target.Some? && r.Succeeded? ==> acked == old(acked) + [target.value] && acking.None?
      ensures target.Some? && r.StillRetrying? ==> acked == old(acked) && acking == target
      ensures target.Some? ==> r.slept == (if r.Succeeded? then r.calls - 1 else r.calls) * AckRetryInterval
      ensures old(discarded) <= discarded
      ensures dispatched == old(dispatched) && slots == old(slots) && processing == old(processing)
      ensures pushing == old(pushing) && publishing == old(publishing) && awaiting == old(awaiting)
      ensures results == old(results) && published == old(published)
      ensures sink == old(sink)
    {
      if acking.None? {
        if acknowledging == [] {
          return None, StillRetrying(0, 0);
        }
        var head := acknowledging[0];
        var last, rest := LastOrDefault(head, acknowledging[1..]);
        Coalesce(last);
      }
      target := acking;
      r := RetryUntilNil(attempts, AckRetryInterval);
      if r.Succeeded? {
        RecordAck();
      }
    }

    /** The effect of receiving the head and `lastOrDefaultOrder`:
        everything queued is drained, the newest order `o` is kept for
        acking, the rest dropped. */
    method Coalesce(o: nat)
      requires Valid() && acking.None? && acknowledging != []
      requires o == acknowledging[|acknowledging| - 1]
      modifies this
      ensures Valid()
      ensures acking == Some(o) && acknowledging == [] && acked == old(acked)
      ensures old(discarded) <= discarded
      ensures dispatched == old(dispatched) && slots == old(slots) && processing == old(processing)
      ensures pushing == old(pushing) && publishing == old(publishing) && awaiting == old(awaiting)
      ensures results == old(results) && published == old(published)
      ensures sink == old(sink)
    {
      CoalesceKeepsInvariants(drained, acknowledging, awaiting + publishing + pushing, processing, |dispatched|,
                              pushing + processing, results, published, acked, discarded);
      discarded := discarded + Coalesced(acknowledging);
      drained := drained + |acknowledging|;
      acknowledging := [];
      acking := Some(o);
    }

    /** `Ack` returned nil for the kept order. */
    method RecordAck()
      requires Valid() && acking.Some?
      modifies this
      ensures Valid()
      ensures acked == old(acked) + [old(acking).value] && acking.None?
      ensures acknowledging == old(acknowledging) && discarded == old(discarded)
      ensures dispatched == old(dispatched) && slots == old(slots) && processing == old(processing)
      ensures pushing == old(pushing) && publishing == old(publishing) && awaiting == old(awaiting)
      ensures results == old(results) && published == old(published)
      ensures sink == old(sink)
    {
      AckKeepsAcks(acked, drained, discarded, acking.value);
      acked := acked + [acking.value];
      acking := None;
    }

    /** Performs one step of a stage goroutine. */
    method DoStep(s: StageStep)
      requires Valid()
      modifies this
      ensures Valid()
      ensures old(dispatched) == dispatched
    {
      match s
      case TakeProcessing =>
        var _ := TakeProcessing();
      case SendPublishing =>
        var _ := SendPublishing();
      case CompleteProcess(k, calls) =>
        var _ := CompleteProcess(k, calls);
      case Publish(k, attempts) =>
        var _ := Publish(k, attempts);
      case TakePublishing =>
        var _ := TakePublishing();
      case SendAcknowledging =>
        var _ := SendAcknowledging();
      case Acknowledge(attempts) =>
        var _, _ := Acknowledge(attempts);
    }

    /** The dispatch loop's inner part: dispatch queued orders in order
        while `dispatch` can admit them. Stops at the first order it
        cannot admit, with every slot taken or `processing` full. */
    method DispatchQueued(inbox: seq<CheckOrder>) returns (n: nat)
      requires Valid()
      modifies this
      ensures Valid()
      ensures n <= |inbox| && dispatched == old(dispatched) + inbox[..n]
      ensures n < |inbox| ==> slots == parallelism || |processing| == parallelism
    {
      n := 0;
      while n < |inbox| && slots < parallelism && |processing| < parallelism
        invariant n <= |inbox| && Valid()
        invariant dispatched == old(dispatched) + inbox[..n]
      {
        var _ := Dispatch(inbox[n]);
        assert inbox[..n + 1] == inbox[..n] + [inbox[n]];
        n := n + 1;
      }
    }

    /** One event as the dispatch loop sees it (cancellation is handled
        by the caller): a close is remembered, a sent order joins the
        channel unless it is closed, a stage step runs; then the loop
        dispatches what it can. */
    method Deliver(e: Event, inbox: seq<CheckOrder>, closed: bool) returns (inbox': seq<CheckOrder>, closed': bool)
      requires Valid() && !e.Cancel?
      modifies this
      ensures Valid()
      ensures closed' == (closed || e.Close?)
      ensures old(dispatched) <= dispatched
      ensures dispatched + inbox' == old(dispatched) + inbox + (if e.Offer? && !closed then [e.o] else [])
    {
      inbox', closed' := inbox, closed;
      match e {
        case Close =>
          closed' := true;
        case Offer(o) =>
          if !closed {
            inbox' := inbox + [o];
          }
        case Step(s) =>
          DoStep(s);
      }
      ghost var before := dispatched;
      var n := DispatchQueued(inbox');
      assert inbox' == inbox'[..n] + inbox'[n..];
      inbox' := inbox'[n..];
    }

    /** `run` over a finite schedule. Orders sent on the provider's channel
        wait in it (`inbox`) until the dispatch loop can take them.
        Cancellation returns nil at once; a closed channel returns nil once
        the orders sent before the close are all dispatched. Nothing else
        ends the loop, and it never panics or returns an error. Orders are
        dispatched in the order they were sent. */
    method Run(events: seq<Event>) returns (exit: Exit)
      requires Valid()
      modifies this
      ensures Valid()
      ensures exit != Exit.Panicked
      ensures Cancel in events ==> exit == ReturnedNil
      ensures exit == ReturnedNil ==> Cancel in events || Close in events
      ensures old(dispatched) <= dispatched <= old(dispatched) + Sent(events)
      ensures exit == StillRunning && Close in events ==> |dispatched| < |old(dispatched)| + |Sent(events)|
      ensures exit == ReturnedNil && Cancel !in events ==> dispatched == old(dispatched) + Sent(events)
    {
      var inbox: seq<CheckOrder> := [];
      var closed := false;
      var i := 0;
      while i < |events|
        invariant i <= |events| && Valid()
        invariant Cancel !in events[..i]
        invariant closed <==> Close in events[..i]
        invariant old(dispatched) <= dispatched
        invariant dispatched + inbox == old(dispatched) + Sent(events[..i])
        invariant closed ==> inbox != []
        decreases |events| - i
      {
        var e := events[i];
        if e.Cancel? {
          SentPrefix(events, i);
          PrefixThrough(dispatched, inbox, old(dispatched), Sent(events[..i]), Sent(events));
          return ReturnedNil;
        }
        SentStep(events, i, closed);
        ghost var extra := if e.Offer? && !closed then [e.o] else [];
        ghost var before := dispatched + inbox;
        inbox, closed := Deliver(e, inbox, closed);
        AppendAssoc(old(dispatched), Sent(events[..i]), extra);
        i := i + 1;
        if closed && inbox == [] {
          assert dispatched + inbox == dispatched;
          SentPrefix(events, i);
          return ReturnedNil;
        }
      }
      assert events[..i] == events;
      PrefixThrough(dispatched, inbox, old(dispatched), Sent(events[..i]), Sent(events));
      return StillRunning;
    }
  }

  /** The first half of the schedule below: order 0 is dispatched, passes
      `handleProcessing` and is held by `handlePublishing`; its task then
      writes its result and frees the only slot. */
  method HoldFirst(proc: CheckProcessor.Processor, o0: CheckOrder, v0: CheckProcessor.Verdict)
    returns (p: Pipeline)
    ensures fresh(p) && p.Valid() && p.parallelism == 1 && p.dispatched == [o0] && p.slots == 0
    ensures p.processing == [] && p.pushing == [] && p.publishing == [] && p.awaiting == [0]
    ensures 0 in p.results && p.published == {} && p.sink == []
  {
    p := new Pipeline(1, proc);
    var ok := p.Dispatch(o0);
    assert p.processing == [0] && p.slots == 1;
    ok := p.TakeProcessing();
    assert p.pushing == [0] && p.processing == [];
    ok := p.SendPublishing();
    assert p.publishing == [0] && p.pushing == [];
    ok := p.TakePublishing();
    assert p.awaiting == [0] && p.publishing == [];
    var calls: seq<Result<CheckProcessor.Verdict, Error>> := [Success(v0)];
    var r := p.CompleteProcess(0, calls);
    assert !calls[0].Failure?;
  }

  /** The second half: order 1 takes the freed slot, passes
      `handleProcessing` into the emptied `publishing` channel, and its
      task writes its result while order 0 is still unpublished. */
  method PassSecond(p: Pipeline, o1: CheckOrder, v1: CheckProcessor.Verdict)
    requires p.Valid() && p.parallelism == 1 && p.slots == 0
    requires p.processing == [] && p.pushing == [] && p.publishing == [] && |p.dispatched| == 1
    modifies p
    ensures p.Valid() && p.dispatched == old(p.dispatched) + [o1]
    ensures 1 in p.results && p.results[1] == CheckProcessor.ResultFor(o1, v1)
    ensures p.awaiting == old(p.awaiting) && p.published == old(p.published) && p.sink == old(p.sink)
    ensures forall k :: k in old(p.results) ==> k in p.results
  {
    var ok := p.Dispatch(o1);
    assert p.processing == [1];
    ok := p.TakeProcessing();
    assert p.pushing == [1];
    ok := p.SendPublishing();
    assert p.pushing == [] && p.processing == [];
    var calls: seq<Result<CheckProcessor.Verdict, Error>> := [Success(v1)];
    var r := p.CompleteProcess(1, calls);
    assert !calls[0].Failure?;
    assert r.Some? && r.value.Succeeded? && r.value.calls == 1;
  }

  /** With one slot, the second order can be published before the first:
      `handlePublishing` holds the first while it waits for `Published`,
      so the first order's task frees the slot and the second order passes
      through the emptied `publishing` channel. */
  method OvertakingPublish(proc: CheckProcessor.Processor, o0: CheckOrder, o1: CheckOrder,
                           v0: CheckProcessor.Verdict, v1: CheckProcessor.Verdict)
    returns (p: Pipeline)
    ensures p.Valid() && p.parallelism == 1
    ensures p.dispatched == [o0, o1]
    ensures p.published == {1} && 0 in p.results
    ensures p.sink == [CheckProcessor.ResultFor(o1, v1)]
  {
    p := HoldFirst(proc, o0, v0);
    PassSecond(p, o1, v1);
    var attempts: seq<Option<Error>> := [None];
    assert attempts[0].None?;
    var r := p.Publish(1, attempts);
  }

  /** An acked order proves every order dispatched before it was
      published: acks follow dispatch order. */
  lemma AckImpliesEarlierPublished(p: Pipeline, i: nat, j: nat)
    requires p.Valid()
    requires i < |p.acked| && j <= p.acked[i]
    ensures j in p.published && j in p.results
  {
  }
}

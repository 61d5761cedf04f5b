/** Building blocks shared by the two pipelines (checkservice.go and
    changesconsumerservice.go): the retry-until-nil loops and the
    coalescing drain of the acknowledgement queue. */
module Stages {
  import opened Base

  /** How a retry loop stands after walking a finite list of attempt
      outcomes: it either saw a nil error on call number `calls`, or every
      call so far failed and it is still retrying. `slept` is the time spent
      in back-off sleeps. */
  datatype Retry = Succeeded(calls: nat, slept: nat) | StillRetrying(calls: nat, slept: nat)

  /** `for { err := f(); if err == nil { break }; sleep(backoff) }`:
      `attempts[i]` is the error the (i+1)-th call returns. The loop stops
      at the first nil; each failure before it costs one back-off. */
  method RetryUntilNil(attempts: seq<Option<Error>>, backoff: nat) returns (r: Retry)
    ensures r.calls <= |attempts|
    ensures r.Succeeded? <==> exists i :: 0 <= i < |attempts| && attempts[i].None?
    ensures r.Succeeded? ==> r.calls >= 1 && attempts[r.calls - 1].None?
    ensures forall i :: 0 <= i < r.calls - 1 ==> attempts[i].Some?
    ensures r.StillRetrying? ==> r.calls == |attempts|
    ensures r.slept == (if r.Succeeded? then r.calls - 1 else r.calls) * backoff
  {
    var i := 0;
    while i < |attempts|
      invariant i <= |attempts|
      invariant forall j :: 0 <= j < i ==> attempts[j].Some?
    {
      if attempts[i].None? {
        return Succeeded(i + 1, i * backoff);
      }
      i := i + 1;
    }
    return StillRetrying(i, i * backoff);
  }

  /** `lastOrDefaultOrder` / `lastOrDefaultChange`: receive from the queue
      without blocking until it is empty, keeping the last item received;
      with nothing queued the argument itself is kept. Returns the kept item
      and the queue left behind. The queues of both pipelines carry dispatch
      positions. */
  method LastOrDefault(o: nat, queue: seq<nat>) returns (last: nat, rest: seq<nat>)
    ensures rest == []
    ensures last == if queue == [] then o else queue[|queue| - 1]
  {
    last, rest := o, queue;
    while rest != []
      invariant |rest| <= |queue| && rest == queue[|queue| - |rest|..]
      invariant last == if |rest| == |queue| then o else queue[|queue| - |rest| - 1]
      decreases |rest|
    {
      last, rest := rest[0], rest[1..];
    }
  }

  /** How a service's `Run` loop stands after a finite schedule. */
  datatype Exit = ReturnedNil | Panicked | StillRunning

  /** Back-off between `Process` attempts (`processRetryInterval`), and
      between `Ack` attempts, in milliseconds. `publish` does not sleep. */
  const ProcessRetryInterval: nat := 5000
  const AckRetryInterval: nat := 100
  const PublishRetryInterval: nat := 0

  /** What happens next while a service's dispatch loop runs: the context
      is cancelled, the provider closes its channel, the provider sends an
      item, or another goroutine takes a step. */
  datatype Event<T, S> = Cancel | Close | Offer(o: T) | Step(s: S)

  /** The items the provider sends before it closes its channel, in order.
      Nothing is sent on a closed channel. */
  ghost function Sent<T, S>(events: seq<Event<T, S>>): (os: seq<T>)
    ensures |os| <= |events|
  {
    if events == [] then []
    else match events[0]
      case Close => []
      case Offer(o) => [o] + Sent(events[1..])
      case _ => Sent(events[1..])
  }

  /** Extending a schedule by one event extends what was sent by that
      event's item, unless the channel is already closed. */
  lemma {:induction false} SentSnoc<T, S>(events: seq<Event<T, S>>, e: Event<T, S>)
    ensures Sent(events + [e]) ==
      if Close in events then Sent(events) else Sent(events) + (if e.Offer? then [e.o] else [])
  {
    if events != [] {
      assert (events + [e])[0] == events[0];
      assert (events + [e])[1..] == events[1..] + [e];
      SentSnoc(events[1..], e);
    }
  }

  /** What a prefix of a schedule sent is a prefix of what the whole
      schedule sends, and all of it once the prefix contains the close. */
  lemma {:induction false} SentPrefix<T, S>(events: seq<Event<T, S>>, n: nat)
    requires n <= |events|
    ensures Sent(events[..n]) <= Sent(events)
    ensures Close in events[..n] ==> Sent(events[..n]) == Sent(events)
  {
    if n > 0 {
      assert events[..n][0] == events[0];
      assert events[..n][1..] == events[1..][..n - 1];
      SentPrefix(events[1..], n - 1);
      if events[0] != Close {
        assert Close in events[..n] ==> Close in events[1..][..n - 1] by {
          if Close in events[..n] {
            var j :| 0 <= j < n && events[..n][j] == Close;
            assert j != 0;
            assert events[1..][..n - 1][j - 1] == Close;
          }
        }
      }
    }
  }

  /** One more event of the schedule, seen by a dispatch loop that knows
      whether the channel is closed. */
  lemma SentStep<T, S>(events: seq<Event<T, S>>, i: nat, closed: bool)
    requires i < |events| && (closed <==> Close in events[..i])
    ensures Sent(events[..i + 1]) ==
      Sent(events[..i]) + (if events[i].Offer? && !closed then [events[i].o] else [])
    ensures Close in events[..i + 1] <==> closed || events[i] == Close
    ensures Cancel in events[..i + 1] <==> Cancel in events[..i] || events[i] == Cancel
  {
    assert events[..i + 1] == events[..i] + [events[i]];
    SentSnoc(events[..i], events[i]);
  }

  lemma AppendAssoc<T>(a: seq<T>, b: seq<T>, c: seq<T>)
    ensures (a + b) + c == a + (b + c)
  {
  }

  /** `a` is a prefix of `x + t` when `a`, extended, is `x + s` for a
      prefix `s` of `t`. */
  lemma PrefixThrough<T>(a: seq<T>, b: seq<T>, x: seq<T>, s: seq<T>, t: seq<T>)
    requires a + b == x + s && s <= t
    ensures a <= x + t
  {
    assert (x + t)[..|x + s|] == x + s;
    assert (a + b)[..|a|] == a;
  }

  /** The stage queues hold consecutive dispatch positions: the first
      `drained` items have left; then come `acknowledging`, the middle
      stage (`publishing` in the check pipeline, the event
      `handleProcessing` holds in the changes consumer) and `processing`,
      up to the newest of the `n` dispatched items. */
  ghost predicate FifoOk(drained: nat, acknowledging: seq<nat>, middle: seq<nat>, processing: seq<nat>, n: nat)
  {
    && drained + |acknowledging| + |middle| + |processing| == n
    && (forall i :: 0 <= i < |acknowledging| ==> acknowledging[i] == drained + i)
    && (forall i :: 0 <= i < |middle| ==> middle[i] == drained + |acknowledging| + i)
    && (forall i :: 0 <= i < |processing| ==> processing[i] == drained + |acknowledging| + |middle| + i)
  }

  /** The positions the coalescing drain drops: all queued but the newest. */
  ghost function Coalesced(queue: seq<nat>): set<nat>
  {
    set i | 0 <= i < |queue| - 1 :: queue[i]
  }

  /** Acks go to strictly increasing positions, all already drained
      (`drained` items have left the acknowledgement queue), and never to
      an item dropped by coalescing; the item whose ack is being retried,
      if any, is newer than every acked one. */
  ghost predicate AcksOk(acked: seq<nat>, drained: nat, discarded: set<nat>, acking: Option<nat>)
  {
    && (forall i, j :: 0 <= i < j < |acked| ==> acked[i] < acked[j])
    && (forall i :: 0 <= i < |acked| ==> acked[i] < drained && acked[i] !in discarded)
    && (forall k :: k in discarded ==> k < drained)
    && (acking.Some? ==>
          acking.value < drained && acking.value !in discarded &&
          forall i :: 0 <= i < |acked| ==> acked[i] < acking.value)
  }

  /** Draining a queue of consecutive positions after the first `drained`
      keeps its newest for acking and drops the rest. */
  lemma CoalesceKeepsAcks(acked: seq<nat>, drained: nat, discarded: set<nat>, queue: seq<nat>)
    requires AcksOk(acked, drained, discarded, None) && queue != []
    requires forall i :: 0 <= i < |queue| ==> queue[i] == drained + i
    ensures AcksOk(acked, drained + |queue|, discarded + Coalesced(queue), Some(drained + |queue| - 1))
  {
    assert forall k :: k in Coalesced(queue) ==> drained <= k < drained + |queue| - 1;
  }

  /** An ack that returned nil is recorded. */
  lemma AckKeepsAcks(acked: seq<nat>, drained: nat, discarded: set<nat>, target: nat)
    requires AcksOk(acked, drained, discarded, Some(target))
    ensures AcksOk(acked + [target], drained, discarded, None)
  {
  }
}

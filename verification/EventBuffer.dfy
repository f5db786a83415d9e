/** The buffer in front of the analytics tables: recorders add to it while any
    number of flushers take it, write what they took, and put it back when the
    write fails. */
module EventBuffer {
  import opened Rollups

  const DEFAULT_LIMIT := 10000
  const FLUSH_TRIGGER := 1000

  // Interleavings

  /** `held[f]` is what flusher `f` took and has neither written nor put back. */
  datatype Places<E> = Places(buffer: seq<E>, held: seq<seq<E>>, written: seq<E>, dropped: seq<E>, recorded: seq<E>)

  datatype Step<E> = Record(event: E) | Take(flusher: nat) | WriteDone(flusher: nat) | WriteFailed(flusher: nat)

  /** The newest events that fit. */
  function Newest<E>(events: seq<E>, limit: nat): seq<E> {
    if |events| > limit then events[|events| - limit..] else events
  }

  function Oldest<E>(events: seq<E>, limit: nat): seq<E> {
    if |events| > limit then events[..|events| - limit] else []
  }

  predicate Enabled<E>(p: Places<E>, step: Step<E>) {
    match step
    case Record(_) => true
    case Take(f) => f < |p.held| && p.held[f] == []
    case WriteDone(f) => f < |p.held|
    case WriteFailed(f) => f < |p.held|
  }

  function Moved<E>(p: Places<E>, limit: nat, step: Step<E>): Places<E>
    requires Enabled(p, step)
  {
    match step
    case Record(e) =>
      var all := p.buffer + [e];
      Places(Newest(all, limit), p.held, p.written, p.dropped + Oldest(all, limit), p.recorded + [e])
    case Take(f) => p.(buffer := [], held := p.held[f := p.buffer])
    case WriteDone(f) => p.(held := p.held[f := []], written := p.written + p.held[f])
    case WriteFailed(f) =>
      var all := p.held[f] + p.buffer;
      p.(buffer := Newest(all, limit), held := p.held[f := []], dropped := p.dropped + Oldest(all, limit))
  }

  predicate Runs<E>(p: Places<E>, limit: nat, steps: seq<Step<E>>)
    decreases |steps|
  {
    steps == [] || (Enabled(p, steps[0]) && Runs(Moved(p, limit, steps[0]), limit, steps[1..]))
  }

  function After<E>(p: Places<E>, limit: nat, steps: seq<Step<E>>): Places<E>
    requires Runs(p, limit, steps)
    decreases |steps|
  {
    if steps == [] then p else After(Moved(p, limit, steps[0]), limit, steps[1..])
  }

  function Start<E>(flushers: nat): Places<E> {
    Places([], seq(flushers, f => []), [], [], [])
  }

  function Held<E>(held: seq<seq<E>>): multiset<E> {
    if held == [] then multiset{} else multiset(held[0]) + Held(held[1..])
  }

  lemma {:induction false} HeldUpdated<E>(held: seq<seq<E>>, f: nat, events: seq<E>)
    requires f < |held|
    ensures Held(held[f := events]) + multiset(held[f]) == Held(held) + multiset(events)
    decreases |held|
  {
    var updated := held[f := events];
    var was, now := multiset(held[f]), multiset(events);
    if f == 0 {
      assert updated[1..] == held[1..];
      assert Held(updated) == now + Held(held[1..]) && Held(held) == was + Held(held[1..]);
      assert (now + Held(held[1..])) + was == (was + Held(held[1..])) + now;
    } else {
      assert updated[0] == held[0] && updated[1..] == held[1..][f - 1 := events];
      assert held[1..][f - 1] == held[f];
      HeldUpdated(held[1..], f - 1, events);
      var first := multiset(held[0]);
      assert (first + Held(updated[1..])) + was == first + (Held(updated[1..]) + was);
      assert (first + Held(held[1..])) + now == first + (Held(held[1..]) + now);
    }
  }

  lemma {:induction false} NothingHeld<E>(held: seq<seq<E>>)
    requires forall f | 0 <= f < |held| :: held[f] == []
    ensures Held(held) == multiset{}
    decreases |held|
  {
    if held != [] {
      NothingHeld(held[1..]);
    }
  }

  /** Every recorded event is somewhere, as often as it was recorded, and the buffer is bounded. */
  ghost predicate Conserved<E>(p: Places<E>, limit: nat) {
    && |p.buffer| <= limit
    && multiset(p.recorded) == Everywhere(p)
  }

  lemma NewestOldest<E>(events: seq<E>, limit: nat)
    ensures Oldest(events, limit) + Newest(events, limit) == events
    ensures |Newest(events, limit)| <= limit
    ensures Oldest(events, limit) != [] ==> |Newest(events, limit)| == limit
    ensures multiset(events) == multiset(Oldest(events, limit)) + multiset(Newest(events, limit))
  {
  }

  lemma FlusherEmptied<E>(p: Places<E>, f: nat)
    requires f < |p.held|
    ensures Held(p.held[f := []]) + multiset(p.held[f]) == Held(p.held)
  {
    HeldUpdated(p.held, f, []);
    assert Held(p.held) + multiset{} == Held(p.held);
  }

  function Everywhere<E>(p: Places<E>): multiset<E> {
    multiset(p.buffer) + Held(p.held) + multiset(p.written) + multiset(p.dropped)
  }

  lemma Shifted<E>(kept: multiset<E>, gone: multiset<E>, h: multiset<E>, w: multiset<E>, d: multiset<E>, all: multiset<E>)
    requires all == gone + kept
    ensures kept + h + w + (d + gone) == all + h + w + d
  {
  }

  lemma RecordConserves<E>(p: Places<E>, limit: nat, e: E)
    ensures Everywhere(Moved(p, limit, Record(e))) == Everywhere(p) + multiset{e}
  {
    hide Held, Newest, Oldest;
    NewestOldest(p.buffer + [e], limit);
    var gone := Oldest(p.buffer + [e], limit);
    assert multiset(p.dropped + gone) == multiset(p.dropped) + multiset(gone);
    assert multiset(p.buffer + [e]) == multiset(p.buffer) + multiset{e};
    Shifted(multiset(Newest(p.buffer + [e], limit)), multiset(gone), Held(p.held), multiset(p.written), multiset(p.dropped),
            multiset(p.buffer + [e]));
    assert multiset(p.buffer) + multiset{e} + Held(p.held) + multiset(p.written) + multiset(p.dropped) == Everywhere(p) + multiset{e};
  }

  lemma TakeConserves<E>(p: Places<E>, limit: nat, f: nat)
    requires Enabled(p, Take(f))
    ensures Everywhere(Moved(p, limit, Take(f))) == Everywhere(p)
  {
    hide Held;
    HeldUpdated(p.held, f, p.buffer);
    assert Held(p.held[f := p.buffer]) == Held(p.held) + multiset(p.buffer);
  }

  lemma DoneConserves<E>(p: Places<E>, limit: nat, f: nat)
    requires Enabled(p, WriteDone(f))
    ensures Everywhere(Moved(p, limit, WriteDone(f))) == Everywhere(p)
  {
    hide Held;
    FlusherEmptied(p, f);
    assert multiset(p.written + p.held[f]) == multiset(p.written) + multiset(p.held[f]);
  }

  lemma FailedConserves<E>(p: Places<E>, limit: nat, f: nat)
    requires Enabled(p, WriteFailed(f))
    ensures Everywhere(Moved(p, limit, WriteFailed(f))) == Everywhere(p)
  {
    hide Held, Newest, Oldest;
    FlusherEmptied(p, f);
    NewestOldest(p.held[f] + p.buffer, limit);
    var gone := Oldest(p.held[f] + p.buffer, limit);
    assert multiset(p.dropped + gone) == multiset(p.dropped) + multiset(gone);
    assert multiset(p.held[f] + p.buffer) == multiset(p.held[f]) + multiset(p.buffer);
    var h := Held(p.held[f := []]);
    Shifted(multiset(Newest(p.held[f] + p.buffer, limit)), multiset(gone), h, multiset(p.written), multiset(p.dropped),
            multiset(p.held[f] + p.buffer));
    assert multiset(p.held[f]) + multiset(p.buffer) + h + multiset(p.written) + multiset(p.dropped) ==
           multiset(p.buffer) + (h + multiset(p.held[f])) + multiset(p.written) + multiset(p.dropped);
  }

  lemma StepConserves<E>(p: Places<E>, limit: nat, step: Step<E>)
    requires Conserved(p, limit) && Enabled(p, step)
    ensures Conserved(Moved(p, limit, step), limit)
  {
    hide Held, Everywhere;
    match step
    case Record(e) =>
      RecordConserves(p, limit, e);
      NewestOldest(p.buffer + [e], limit);
    case Take(f) =>
      TakeConserves(p, limit, f);
    case WriteDone(f) =>
      DoneConserves(p, limit, f);
    case WriteFailed(f) =>
      FailedConserves(p, limit, f);
      NewestOldest(p.held[f] + p.buffer, limit);
  }

  lemma {:induction false} AlwaysConserved<E>(p: Places<E>, limit: nat, steps: seq<Step<E>>)
    requires Conserved(p, limit) && Runs(p, limit, steps)
    ensures Conserved(After(p, limit, steps), limit)
    decreases |steps|
  {
    if steps != [] {
      StepConserves(p, limit, steps[0]);
      AlwaysConserved(Moved(p, limit, steps[0]), limit, steps[1..]);
    }
  }

  /** In every run of recorders and flushers, an event recorded once is in exactly
      one place: buffered, held by one flusher, written once, or dropped. */
  lemma ExactlyOnePlace<E>(flushers: nat, limit: nat, steps: seq<Step<E>>, e: E)
    requires Runs(Start(flushers), limit, steps)
    requires multiset(After(Start(flushers), limit, steps).recorded)[e] == 1
    ensures var p := After(Start(flushers), limit, steps);
            && |p.buffer| <= limit
            && multiset(p.buffer)[e] + Held(p.held)[e] + multiset(p.written)[e] + multiset(p.dropped)[e] == 1
  {
    NothingHeld(Start<E>(flushers).held);
    AlwaysConserved(Start(flushers), limit, steps);
  }

  /** Once no flusher holds anything and the buffer is empty, everything recorded and not dropped is written, once. */
  lemma AllWritten<E>(flushers: nat, limit: nat, steps: seq<Step<E>>)
    requires Runs(Start(flushers), limit, steps)
    requires var p := After(Start(flushers), limit, steps); p.buffer == [] && forall f | 0 <= f < |p.held| :: p.held[f] == []
    ensures var p := After(Start(flushers), limit, steps); multiset(p.recorded) == multiset(p.written) + multiset(p.dropped)
  {
    NothingHeld(Start<E>(flushers).held);
    AlwaysConserved(Start(flushers), limit, steps);
    NothingHeld(After(Start(flushers), limit, steps).held);
  }

  /** A step drops only what no longer fits: the oldest events, only as many as
      are too many, and only when the buffer is left full. */
  lemma DropsOnlyAtLimit<E>(p: Places<E>, limit: nat, step: Step<E>)
    requires Conserved(p, limit) && Enabled(p, step)
    ensures var q := Moved(p, limit, step);
            && p.dropped <= q.dropped
            && var gone := q.dropped[|p.dropped|..];
               (gone != [] ==> |q.buffer| == limit && (step.Record? || step.WriteFailed?))
               && (step.Record? ==> gone + q.buffer == p.buffer + [step.event])
               && (step.WriteFailed? ==> gone + q.buffer == p.held[step.flusher] + p.buffer)
  {
  }

  lemma {:induction false} NothingLostBelowLimit<E>(p: Places<E>, limit: nat, steps: seq<Step<E>>)
    requires Conserved(p, limit) && Runs(p, limit, steps) && p.dropped == []
    requires |After(p, limit, steps).recorded| <= limit
    ensures After(p, limit, steps).dropped == []
    decreases |steps|
  {
    if steps != [] {
      var q := Moved(p, limit, steps[0]);
      StepConserves(p, limit, steps[0]);
      DropsOnlyAtLimit(p, limit, steps[0]);
      RecordedGrows(q, limit, steps[1..]);
      assert |multiset(q.recorded)| == |q.recorded|;
      assert |multiset(q.buffer) + Held(q.held) + multiset(q.written) + multiset(q.dropped)| >= |q.buffer| + |q.dropped|;
      NothingLostBelowLimit(q, limit, steps[1..]);
    }
  }

  lemma {:induction false} RecordedGrows<E>(p: Places<E>, limit: nat, steps: seq<Step<E>>)
    requires Runs(p, limit, steps)
    ensures |p.recorded| <= |After(p, limit, steps).recorded|
    decreases |steps|
  {
    if steps != [] {
      RecordedGrows(Moved(p, limit, steps[0]), limit, steps[1..]);
    }
  }

  lemma Bounded<E>(p: Places<E>, limit: nat)
    requires Conserved(p, limit)
    ensures |p.buffer| <= limit
  {
  }

  // The buffer in place

  class Buffer {
    const limit: nat
    var buffer: seq<Event>
    /** Where every event recorded so far is. */
    ghost var places: Places<Event>

    ghost predicate Valid()
      reads this
    {
      && limit > 0 && places.buffer == buffer && Conserved(places, limit)
      && (forall e | e in buffer :: Normalized(e))
      && (forall f, e | 0 <= f < |places.held| && e in places.held[f] :: Normalized(e))
    }

    constructor (limit: nat, ghost flushers: nat)
      requires limit > 0
      ensures Valid() && this.limit == limit && places == Start(flushers)
    {
      this.limit, buffer, places := limit, [], Start(flushers);
      NothingHeld(Start<Event>(flushers).held);
    }

    /** Adds an event, in place of the oldest one when the buffer is full. */
    method Record(event: Event) returns (shouldFlush: bool)
      requires Valid() && Normalized(event)
      modifies this
      ensures Valid() && places == Moved(old(places), limit, Step.Record(event))
      ensures shouldFlush == (|buffer| >= FLUSH_TRIGGER)
    {
      StepConserves(places, limit, Step.Record(event));
      places := Moved(places, limit, Step.Record(event));
      if |buffer| >= limit {
        var shifted := buffer[1..];
        buffer := shifted + [event];
      } else {
        buffer := buffer + [event];
      }
      shouldFlush := |buffer| >= FLUSH_TRIGGER;
    }

    method TakeBuffered(ghost flusher: nat) returns (events: seq<Event>)
      requires Valid() && flusher < |places.held| && places.held[flusher] == []
      modifies this
      ensures Valid() && places == Moved(old(places), limit, Take(flusher)) && events == places.held[flusher] == old(buffer)
    {
      StepConserves(places, limit, Take(flusher));
      places := Moved(places, limit, Take(flusher));
      events := buffer;
      buffer := [];
    }

    /** Puts taken events back, before those recorded since. */
    method Requeue(events: seq<Event>, ghost flusher: nat)
      requires Valid() && flusher < |places.held| && places.held[flusher] == events
      modifies this
      ensures Valid() && places == Moved(old(places), limit, WriteFailed(flusher))
    {
      hide Conserved;
      StepConserves(places, limit, WriteFailed(flusher));
      places := Moved(places, limit, WriteFailed(flusher));
      var combined := events + buffer;
      if |combined| > limit {
        combined := combined[|combined| - limit..];
      }
      buffer := combined;
    }

    /** One flush with nothing recorded meanwhile: all of the buffer is written, or none of it
        and it is kept. What is written stays written when the prune after it fails. */
    method Flush(store: EventStore, failAt: nat, now: int, prunes: bool, ghost flusher: nat) returns (ok: bool)
      requires Valid() && flusher < |places.held| && places.held[flusher] == []
      requires store.Valid() && store.clock <= now
      modifies this, store
      ensures Valid() && store.Valid() && places.dropped == old(places.dropped) && places.held == old(places.held)
      ensures var written, pruned := old(buffer) == [] || failAt > |old(buffer)|, prunes || store.retention <= 0;
              && ok == (written && pruned)
              && (written ==>
                    && buffer == [] && places.written == old(places.written) + old(buffer)
                    && store.history == old(store.history) + (if old(buffer) == [] then [] else [Op.Write(old(buffer))])
                                        + if pruned then [Op.Prune(now)] else [])
              && (!written ==>
                    && buffer == old(buffer) && places.written == old(places.written) && store.history == old(store.history)
                    && store.raw == old(store.raw) && store.rollups == old(store.rollups))
    {
      hide Run, Written, PrunedBy, Prunings, Since, Horizon, UpsertAll, Apply, Conserved, Normalized;
      Bounded(places, limit);
      assert places.held[flusher := buffer][flusher := []] == places.held;
      var events := TakeBuffered(flusher);
      if |events| == 0 {
        ok := store.Prune(now, prunes);
        return;
      }
      var written := store.WriteEvents(events, failAt);
      if !written {
        Requeue(events, flusher);
        assert events + [] == events;
        return false;
      }
      StepConserves(places, limit, WriteDone(flusher));
      places := Moved(places, limit, WriteDone(flusher));
      ok := store.Prune(now, prunes);
    }
  }
}

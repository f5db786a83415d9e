/** The queue that hands finished artifacts to a handler: pushes and handler
    changes signal through one wake token, and one deliverer drains the queue. */
module ArtifactQueue {
  import opened Basics

  // Interleavings

  datatype Deliverer<R> = Parked | Draining | Handing(record: R) | Stopped

  /** `signallers` counts the pushes and handler changes that have not signalled yet. */
  datatype State<R> = State(pending: seq<R>, handler: bool, wake: bool, closed: bool, signallers: nat, deliverer: Deliverer<R>,
                            pushed: seq<R>, delivered: seq<R>)

  datatype Step<R> = Push(record: R) | SetHandler(present: bool) | Signal | Close | Wake | Stop | Drain | Handled

  predicate Enabled<R>(s: State<R>, step: Step<R>) {
    match step
    case Push(_) => true
    case SetHandler(_) => true
    case Signal => s.signallers > 0
    case Close => true
    case Wake => s.deliverer.Parked? && s.wake
    case Stop => s.deliverer.Parked? && s.closed
    case Drain => s.deliverer.Draining?
    case Handled => s.deliverer.Handing?
  }

  function Next<R>(s: State<R>, step: Step<R>): State<R>
    requires Enabled(s, step)
  {
    match step
    case Push(r) => s.(pending := s.pending + [r], pushed := s.pushed + [r], signallers := s.signallers + 1)
    case SetHandler(present) => s.(handler := present, signallers := s.signallers + 1)
    case Signal => s.(wake := true, signallers := s.signallers - 1)
    case Close => s.(closed := true)
    case Wake => s.(wake := false, deliverer := Draining)
    case Stop => s.(deliverer := Stopped)
    case Drain =>
      if s.pending == [] || !s.handler then s.(deliverer := Parked)
      else s.(pending := s.pending[1..], deliverer := Handing(s.pending[0]))
    case Handled => s.(deliverer := Draining, delivered := s.delivered + [s.deliverer.record])
  }

  predicate Runs<R>(s: State<R>, steps: seq<Step<R>>)
    decreases |steps|
  {
    steps == [] || (Enabled(s, steps[0]) && Runs(Next(s, steps[0]), steps[1..]))
  }

  function After<R>(s: State<R>, steps: seq<Step<R>>): State<R>
    requires Runs(s, steps)
    decreases |steps|
  {
    if steps == [] then s else After(Next(s, steps[0]), steps[1..])
  }

  function Start<R>(): State<R> {
    State([], false, false, false, 0, Parked, [], [])
  }

  function InHand<R>(d: Deliverer<R>): seq<R> {
    if d.Handing? then [d.record] else []
  }

  /** Nothing is lost, doubled or reordered, and a parked deliverer with work has a signal on its way. */
  ghost predicate Inv<R>(s: State<R>) {
    && s.delivered + InHand(s.deliverer) + s.pending == s.pushed
    && (s.deliverer.Parked? && s.pending != [] && s.handler ==> s.wake || s.signallers > 0)
  }

  lemma StepKeeps<R>(s: State<R>, step: Step<R>)
    requires Inv(s) && Enabled(s, step)
    ensures Inv(Next(s, step))
  {
    var t := Next(s, step);
    match step
    case Push(r) =>
      assert s.delivered + InHand(s.deliverer) + (s.pending + [r]) == s.delivered + InHand(s.deliverer) + s.pending + [r];
    case Drain =>
      if s.pending != [] && s.handler {
        assert s.pending == [s.pending[0]] + s.pending[1..];
        assert s.delivered + [] + s.pending == s.delivered + [s.pending[0]] + s.pending[1..];
      }
    case Handled =>
      assert (s.delivered + [s.deliverer.record]) + [] + s.pending == s.delivered + [s.deliverer.record] + s.pending;
    case _ =>
  }

  lemma {:induction false} RunsKeep<R>(s: State<R>, steps: seq<Step<R>>)
    requires Inv(s) && Runs(s, steps)
    ensures Inv(After(s, steps))
    decreases |steps|
  {
    if steps != [] {
      StepKeeps(s, steps[0]);
      RunsKeep(Next(s, steps[0]), steps[1..]);
    }
  }

  /** In every run, what has been handed over is the beginning of what was pushed, in push order, each once. */
  lemma DeliveredInOrder<R>(steps: seq<Step<R>>)
    requires Runs(Start(), steps)
    ensures var s := After(Start(), steps); s.delivered + InHand(s.deliverer) <= s.pushed
  {
    RunsKeep(Start(), steps);
  }

  /** No wake-up is lost: when the deliverer rests, with no token and nobody about
      to signal, everything pushed was handed over unless there is no handler. */
  lemma QuiescentIsDrained<R>(steps: seq<Step<R>>)
    requires Runs(Start(), steps)
    requires var s := After(Start(), steps); s.deliverer.Parked? && !s.wake && s.signallers == 0
    ensures var s := After(Start(), steps); s.handler ==> s.delivered == s.pushed
  {
    RunsKeep(Start(), steps);
  }

  /** The deliverer's own steps that empty the queue once it drains. */
  function DrainSteps<R>(n: nat): seq<Step<R>> {
    if n == 0 then [Drain] else [Drain, Handled] + DrainSteps(n - 1)
  }

  /** A draining deliverer left alone hands over all that is pending and parks. */
  lemma {:induction false} DrainingFinishes<R>(s: State<R>)
    requires s.deliverer.Draining? && s.handler
    ensures Runs(s, DrainSteps(|s.pending|))
    ensures After(s, DrainSteps(|s.pending|)) == s.(deliverer := Parked, pending := [], delivered := s.delivered + s.pending)
    decreases |s.pending|
  {
    var steps := DrainSteps<R>(|s.pending|);
    if s.pending == [] {
      assert steps[1..] == [];
    } else {
      var handing := Next(s, Drain);
      var handed := Next(handing, Handled);
      DrainingFinishes(handed);
      assert steps[1..][1..] == DrainSteps(|handed.pending|);
      assert steps[1..][0] == Handled;
      assert s.delivered + [s.pending[0]] + s.pending[1..] == s.delivered + s.pending;
    }
  }

  // The queue in place

  class Queue<R(==)> {
    var pending: seq<R>
    var handler: bool
    var wake: bool
    ghost var state: State<R>

    ghost predicate Valid()
      reads this
    {
      Inv(state) && state.pending == pending && state.handler == handler && state.wake == wake
    }

    constructor ()
      ensures Valid() && state == Start()
    {
      pending, handler, wake, state := [], false, false, Start();
    }

    /** The part of a push under the lock; the pusher signals next. */
    method Push(record: R)
      requires Valid()
      modifies this
      ensures Valid() && state == Next(old(state), Step.Push(record))
    {
      StepKeeps(state, Step.Push(record));
      state := Next(state, Step.Push(record));
      pending := pending + [record];
    }

    method SetHandler(present: bool)
      requires Valid()
      modifies this
      ensures Valid() && state == Next(old(state), Step.SetHandler(present))
    {
      StepKeeps(state, Step.SetHandler(present));
      state := Next(state, Step.SetHandler(present));
      handler := present;
    }

    /** Leaves the wake token, unless one is there. */
    method Signal()
      requires Valid() && state.signallers > 0
      modifies this
      ensures Valid() && state == Next(old(state), Step.Signal)
    {
      StepKeeps(state, Step.Signal);
      state := Next(state, Step.Signal);
      if !wake {
        wake := true;
      }
    }

    /** One turn of the inner loop: takes the oldest record, or finds no work. */
    method TakeNext() returns (record: Option<R>)
      requires Valid() && state.deliverer.Draining?
      modifies this
      ensures Valid() && state == Next(old(state), Drain)
      ensures record == if state.deliverer.Handing? then Some(state.deliverer.record) else None
    {
      StepKeeps(state, Drain);
      state := Next(state, Drain);
      if |pending| == 0 || !handler {
        return None;
      }
      record := Some(pending[0]);
      pending := pending[1..];
    }

    /** A wake-up with nobody else at the queue: `handed` is what the handler is called with, in order. */
    method Deliver() returns (handed: seq<R>)
      requires Valid() && wake && state.deliverer.Parked?
      modifies this
      ensures Valid() && state.deliverer.Parked? && !wake
      ensures handed == if handler then old(pending) else []
      ensures pending == if handler then [] else old(pending)
      ensures handler == old(handler) && state.delivered == old(state.delivered) + handed && state.pushed == old(state.pushed)
    {
      StepKeeps(state, Wake);
      state := Next(state, Wake);
      wake := false;
      handed := [];
      while true
        invariant Valid() && state.deliverer.Draining? && !wake && handler == old(handler)
        invariant handed + pending == old(pending) && (!handler ==> handed == [])
        invariant state.delivered == old(state.delivered) + handed && state.pushed == old(state.pushed)
        decreases |pending|
      {
        var record := TakeNext();
        if record.None? {
          return;
        }
        handed := handed + [record.value];
        StepKeeps(state, Handled);
        state := Next(state, Handled);
      }
    }
  }
}

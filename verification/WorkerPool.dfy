/** The bounded pool that works on the files of a job: workers started in order,
    no more at once than there are slots, none after the first failure or a
    cancellation, and a wait for those that were started. */
module WorkerPool {
  import opened Basics
  import DownloadJobs

  /** Where an item is; a worker gives its slot back before it is gone. */
  datatype Item = Untouched | Working | Freeing(failed: bool) | Gone(failed: bool)

  datatype Phase =
    | Offering                 // selecting a slot or the cancellation
    | Holding                  // a slot taken for the next item
    | Passed                   // the context seen not to be done
    | Noticed                  // the cancellation seen
    | Waiting                  // for the workers
    | Returned(error: Error)

  datatype Error = Nothing | OfItem(item: nat) | OfContext

  datatype Pool = Pool(
    limit: int,                // as configured
    items: seq<Item>,
    next: nat,                 // items offered so far
    phase: Phase,
    slots: nat,                // tokens in the channel
    stopped: bool,             // the context the workers see is done
    cancelled: bool,           // the caller's context is done
    first: Option<nat>)        // the item whose error came first

  datatype Step =
    | TakeSlot | SeeDone | Pass | Launch | GiveUp | EndOffers
    | Finish(item: nat, failed: bool) | FreeSlot(item: nat)
    | Return | Cancel | Propagate

  function Capacity(p: Pool): nat {
    if p.limit > 1 then p.limit else 1
  }

  function Start(limit: int, count: nat): Pool {
    Pool(limit, seq(count, _ => Untouched), 0, Offering, 0, false, false, None)
  }

  predicate Enabled(p: Pool, k: Step) {
    match k
    case TakeSlot => p.phase.Offering? && p.next < |p.items| && p.slots < Capacity(p)
    case SeeDone => p.phase.Offering? && p.next < |p.items| && p.stopped
    case Pass => p.phase.Holding? && !p.stopped
    case Launch => p.phase.Passed? && p.next < |p.items|
    case GiveUp => (p.phase.Holding? || p.phase.Noticed?) && p.stopped
    case EndOffers => p.phase.Offering? && p.next == |p.items|
    case Finish(i, _) => i < |p.items| && p.items[i].Working?
    case FreeSlot(i) => i < |p.items| && p.items[i].Freeing? && p.slots > 0
    case Return => p.phase.Waiting? && forall i | 0 <= i < |p.items| :: p.items[i].Untouched? || p.items[i].Gone?
    case Cancel => true
    case Propagate => p.cancelled
  }

  function Apply(p: Pool, k: Step): Pool
    requires Enabled(p, k)
  {
    match k
    case TakeSlot => p.(slots := p.slots + 1, phase := Holding)
    case SeeDone => p.(phase := Noticed)
    case Pass => p.(phase := Passed)
    case Launch => p.(items := p.items[p.next := Working], next := p.next + 1, phase := Offering)
    case GiveUp => p.(phase := Waiting)
    case EndOffers => p.(phase := Waiting)
    case Finish(i, failed) =>
      p.(items := p.items[i := Freeing(failed)],
         first := if failed && p.first.None? then Some(i) else p.first,
         stopped := p.stopped || (failed && p.first.None?))
    case FreeSlot(i) => p.(items := p.items[i := Gone(p.items[i].failed)], slots := p.slots - 1)
    case Return =>
      p.(phase := Returned(if p.first.Some? then OfItem(p.first.value) else if p.cancelled then OfContext else Nothing))
    case Cancel => p.(cancelled := true)
    case Propagate => p.(stopped := true)
  }

  predicate Possible(p: Pool, steps: seq<Step>)
    decreases |steps|
  {
    steps == [] || (Enabled(p, steps[0]) && Possible(Apply(p, steps[0]), steps[1..]))
  }

  function After(p: Pool, steps: seq<Step>): Pool
    requires Possible(p, steps)
    decreases |steps|
  {
    if steps == [] then p else After(Apply(p, steps[0]), steps[1..])
  }

  // What every step keeps

  predicate HasSlot(i: Item) {
    i.Working? || i.Freeing?
  }

  predicate Failed(i: Item) {
    (i.Freeing? || i.Gone?) && i.failed
  }

  ghost function SlotHolders(items: seq<Item>): set<nat> {
    set i: nat | i < |items| && HasSlot(items[i])
  }

  /** Tokens beside those of the workers: the one taken for the next item. */
  function Spare(p: Pool): nat {
    if p.phase.Holding? || p.phase.Passed? then 1 else 0
  }

  ghost predicate Inv(p: Pool) {
    && p.next <= |p.items|
    && (forall i | 0 <= i < |p.items| :: p.items[i].Untouched? <==> i >= p.next)
    && |SlotHolders(p.items)| + Spare(p) <= p.slots <= Capacity(p)
    && (p.first.Some? ==> p.stopped && p.first.value < |p.items| && Failed(p.items[p.first.value]))
    && (p.first.None? ==> forall i | 0 <= i < |p.items| :: !Failed(p.items[i]))
    && (p.stopped ==> p.cancelled || p.first.Some?)
    && (p.phase.Noticed? ==> p.stopped)
    && (p.phase.Holding? || p.phase.Passed? ==> p.next < |p.items|)
    && (p.phase.Waiting? && !p.stopped ==> p.next == |p.items|)
    && (p.phase.Returned? ==> Settled(p))
  }

  /** Nobody is at work any more, and the result says how it went. */
  ghost predicate Settled(p: Pool)
    requires p.phase.Returned?
  {
    && (forall i | 0 <= i < |p.items| :: p.items[i].Untouched? || p.items[i].Gone?)
    && match p.phase.error
       case Nothing => forall i | 0 <= i < |p.items| :: p.items[i] == Gone(false)
       case OfItem(i) => i < |p.items| && p.items[i] == Gone(true)
       case OfContext => p.cancelled && forall i | 0 <= i < |p.items| :: !Failed(p.items[i])
  }

  lemma HoldersMoved(items: seq<Item>, i: nat, x: Item)
    requires i < |items|
    ensures SlotHolders(items[i := x]) == (SlotHolders(items) - {i}) + if HasSlot(x) then {i} else {}
    ensures i in SlotHolders(items) <==> HasSlot(items[i])
  {
  }

  lemma SlotsMoved(items: seq<Item>, i: nat, x: Item)
    requires i < |items|
    ensures var moved := |SlotHolders(items[i := x])|;
            && (HasSlot(items[i]) && !HasSlot(x) ==> moved == |SlotHolders(items)| - 1)
            && (!HasSlot(items[i]) && HasSlot(x) ==> moved == |SlotHolders(items)| + 1)
            && ((HasSlot(items[i]) <==> HasSlot(x)) ==> moved == |SlotHolders(items)|)
  {
    hide HasSlot, SlotHolders;
    HoldersMoved(items, i, x);
    var before := SlotHolders(items);
    if i in before {
      assert (before - {i}) + {i} == before;
    } else {
      assert before - {i} == before;
    }
  }

  lemma StepKeeps(p: Pool, k: Step)
    requires Inv(p) && Enabled(p, k)
    ensures Inv(Apply(p, k))
  {
    hide SlotHolders;
    match k
    case Launch => SlotsMoved(p.items, p.next, Working);
    case Finish(i, failed) => SlotsMoved(p.items, i, Freeing(failed));
    case FreeSlot(i) => SlotsMoved(p.items, i, Gone(p.items[i].failed));
    case _ =>
  }

  lemma {:induction false} InvAlways(p: Pool, steps: seq<Step>)
    requires Inv(p) && Possible(p, steps)
    ensures Inv(After(p, steps))
    decreases |steps|
  {
    if steps != [] {
      StepKeeps(p, steps[0]);
      InvAlways(Apply(p, steps[0]), steps[1..]);
    }
  }

  lemma {:induction false} SizesFixed(p: Pool, steps: seq<Step>)
    requires Possible(p, steps)
    ensures var q := After(p, steps); q.limit == p.limit && |q.items| == |p.items|
    decreases |steps|
  {
    if steps != [] {
      SizesFixed(Apply(p, steps[0]), steps[1..]);
    }
  }

  lemma InvReached(limit: int, count: nat, steps: seq<Step>)
    requires Possible(Start(limit, count), steps)
    ensures Inv(After(Start(limit, count), steps))
  {
    assert SlotHolders(Start(limit, count).items) == {};
    InvAlways(Start(limit, count), steps);
  }

  ghost function AtWork(items: seq<Item>): set<nat> {
    set i: nat | i < |items| && items[i].Working?
  }

  lemma {:induction false} SubsetSize(a: set<nat>, b: set<nat>)
    requires a <= b
    ensures |a| <= |b|
    decreases |a|
  {
    if x :| x in a {
      SubsetSize(a - {x}, b - {x});
    }
  }

  /** However the workers interleave, at most as many as configured are at work, but one at least may be. */
  lemma WorkersBounded(limit: int, count: nat, steps: seq<Step>)
    requires Possible(Start(limit, count), steps)
    ensures |AtWork(After(Start(limit, count), steps).items)| <= if limit > 1 then limit else 1
  {
    var p := After(Start(limit, count), steps);
    InvReached(limit, count, steps);
    SizesFixed(Start(limit, count), steps);
    SubsetSize(AtWork(p.items), SlotHolders(p.items));
  }

  /** When the pool returns nobody is at work. It returns without an error exactly when every
      item was worked on and none failed, unless the caller's context was cancelled; an error
      is that of an item that failed, or of the context when no item did. */
  lemma ReturnsExactly(limit: int, count: nat, steps: seq<Step>)
    requires Possible(Start(limit, count), steps) && After(Start(limit, count), steps).phase.Returned?
    ensures var p := After(Start(limit, count), steps);
            var error := p.phase.error;
            && |p.items| == count
            && (forall i | 0 <= i < count :: p.items[i].Untouched? || p.items[i].Gone?)
            && (error.Nothing? ==> forall i | 0 <= i < count :: p.items[i] == Gone(false))
            && (!p.cancelled && (forall i | 0 <= i < count :: p.items[i] == Gone(false)) ==> error.Nothing?)
            && (error.OfItem? ==> error.item < count && p.items[error.item] == Gone(true))
            && (error.OfContext? ==> p.cancelled && forall i | 0 <= i < count :: !Failed(p.items[i]))
  {
    InvReached(limit, count, steps);
    SizesFixed(Start(limit, count), steps);
  }

  /** Nothing more is started once an item has failed or the context is done, but for one
      item that had passed the check by then. */
  lemma NothingStartedAfterStop(p: Pool, k: Step)
    requires Enabled(p, k) && p.stopped && !p.phase.Passed?
    ensures Apply(p, k).stopped && !Apply(p, k).phase.Passed?
    ensures forall i | 0 <= i < |p.items| :: p.items[i].Untouched? ==> Apply(p, k).items[i].Untouched?
  {
  }

  // The files of a job

  /** The work of a job's pending files, as its run sees it, is that of the pool's items. */
  ghost predicate Works(p: Pool, files: seq<string>, work: map<string, DownloadJobs.Work>) {
    && |files| == |p.items| && (forall f :: f in work <==> f in files)
    && forall i | 0 <= i < |files| ::
         match p.items[i]
         case Untouched => work[files[i]] == DownloadJobs.Pending
         case Working => true
         case Freeing(failed) => work[files[i]] == if failed then DownloadJobs.Broken else DownloadJobs.Finished
         case Gone(failed) => work[files[i]] == if failed then DownloadJobs.Broken else DownloadJobs.Finished
  }

  /** A run whose pool has returned may take the step that its result calls for. */
  lemma PoolDecides(s: DownloadJobs.System, r: nat, limit: int, files: seq<string>, steps: seq<Step>)
    requires r < |s.runs| && s.runs[r].phase.Transferring?
    requires Possible(Start(limit, |files|), steps) && After(Start(limit, |files|), steps).phase.Returned?
    requires Works(After(Start(limit, |files|), steps), files, s.runs[r].phase.work)
    ensures DownloadJobs.StepEnabled(s, r, DownloadJobs.TransferErr)
    ensures After(Start(limit, |files|), steps).phase.error.Nothing? ==> DownloadJobs.StepEnabled(s, r, DownloadJobs.TransferOk)
  {
    ReturnsExactly(limit, |files|, steps);
    forall f | f in s.runs[r].phase.work
      ensures exists i :: 0 <= i < |files| && files[i] == f
    {
      assert f in files;
    }
  }
}

/** Replacing a downloaded file by renames, with a backup, by any number of
    promotions at once; a crash between any two steps; and the recovery walk. */
module Promotion {
  import opened Basics
  import opened FileNames

  datatype Path = Path(dir: string, name: string)

  function Temp(d: Path, job: string): Path {
    Path(d.dir, TemporaryName(d.name, job))
  }

  function Backup(d: Path, job: string): Path {
    Path(d.dir, BackupName(d.name, job))
  }

  type Files = map<Path, Bytes>

  datatype Stage =
    | Preparing                // the temporary file is not in place yet
    | Copying                  // across file systems: it holds some bytes
    | Ready                    // it holds the verified download
    | Looked(found: bool)      // the destination was looked up
    | Moved                    // the destination is set aside as the backup
    | Restoring                // placing failed, the backup is to go back
    | Placed(backup: bool)     // the destination holds the download
    | Failing                  // the temporary file is to be removed
    | Finished

  datatype Promotion = Promotion(destination: Path, job: string, content: Bytes, stage: Stage)

  datatype System = System(files: Files, promotions: map<nat, Promotion>, verified: set<(Path, Bytes)>)

  datatype Step =
    | RemoveStale | TakeStaged | CopyPart(bytes: Bytes) | CopyDone | CopyFails(removed: bool)
    | Look | LookFails | MoveAside | MoveFails | Place | PlaceFails | Restore | RestoreFails
    | RemoveBackup(removed: bool) | RemoveTemp(removed: bool)

  datatype Event = Begin(p: nat, destination: Path, job: string, content: Bytes) | Do(p: nat, step: Step)

  predicate Live(q: Promotion) {
    !q.stage.Finished?
  }

  /** Renaming replaces what is at the target. */
  function Renamed(files: Files, from: Path, to: Path): Files
    requires from in files
  {
    (files - {from})[to := files[from]]
  }

  predicate StepEnabled(files: Files, q: Promotion, k: Step) {
    var d := q.destination;
    match k
    case RemoveStale => q.stage.Preparing?
    case TakeStaged => q.stage.Preparing?
    case CopyPart(_) => q.stage.Preparing? || q.stage.Copying?
    case CopyDone => q.stage.Copying? && Temp(d, q.job) in files && files[Temp(d, q.job)] == q.content
    case CopyFails(_) => q.stage.Preparing? || q.stage.Copying?
    case Look => q.stage.Ready?
    case LookFails => q.stage.Ready?
    case MoveAside => q.stage == Looked(true) && d in files
    case MoveFails => q.stage == Looked(true)
    case Place => (q.stage == Looked(false) || q.stage.Moved?) && Temp(d, q.job) in files
    case PlaceFails => q.stage == Looked(false) || q.stage.Moved?
    case Restore => q.stage.Restoring? && Backup(d, q.job) in files
    case RestoreFails => q.stage.Restoring?
    case RemoveBackup(_) => q.stage.Placed?
    case RemoveTemp(_) => q.stage.Failing?
  }

  function NextStage(files: Files, q: Promotion, k: Step): Stage {
    match k
    case RemoveStale => Preparing
    case TakeStaged => Ready
    case CopyPart(_) => Copying
    case CopyDone => Ready
    case CopyFails(_) => Finished
    case Look => Looked(q.destination in files)
    case LookFails => Failing
    case MoveAside => Moved
    case MoveFails => Failing
    case Place => Placed(q.stage.Moved?)
    case PlaceFails => if q.stage.Moved? then Restoring else Failing
    case Restore => Failing
    case RestoreFails => Failing
    case RemoveBackup(_) => Finished
    case RemoveTemp(_) => Finished
  }

  function NextFiles(files: Files, q: Promotion, k: Step): Files
    requires StepEnabled(files, q, k)
  {
    var d := q.destination;
    var temp, backup := Temp(d, q.job), Backup(d, q.job);
    match k
    case RemoveStale => files - {temp}
    case TakeStaged => files[temp := q.content]
    case CopyPart(bytes) => files[temp := bytes]
    case CopyFails(removed) => if removed then files - {temp} else files
    case MoveAside => Renamed(files, d, backup)
    case Place => Renamed(files, temp, d)
    case Restore => Renamed(files, backup, d)
    case RemoveBackup(removed) => if removed && q.stage.backup then files - {backup} else files
    case RemoveTemp(removed) => if removed then files - {temp} else files
    case _ => files
  }

  predicate Enabled(s: System, e: Event) {
    match e
    case Begin(p, d, job, _) =>
      && p !in s.promotions && Plain(d.name) && NoDot(job)
      && forall r | r in s.promotions && Live(s.promotions[r]) ::
           s.promotions[r].destination != d || s.promotions[r].job != job
    case Do(p, k) => p in s.promotions && StepEnabled(s.files, s.promotions[p], k)
  }

  function Apply(s: System, e: Event): System
    requires Enabled(s, e)
  {
    match e
    case Begin(p, d, job, content) =>
      s.(promotions := s.promotions[p := Promotion(d, job, content, Preparing)], verified := s.verified + {(d, content)})
    case Do(p, k) =>
      var q := s.promotions[p];
      s.(files := NextFiles(s.files, q, k), promotions := s.promotions[p := q.(stage := NextStage(s.files, q, k))])
  }

  predicate Possible(s: System, events: seq<Event>)
    decreases |events|
  {
    events == [] || (Enabled(s, events[0]) && Possible(Apply(s, events[0]), events[1..]))
  }

  function After(s: System, events: seq<Event>): System
    requires Possible(s, events)
    decreases |events|
  {
    if events == [] then s else After(Apply(s, events[0]), events[1..])
  }

  // ---------- What every step keeps ----------

  /** The content is one a reader of the destination may see: the file as it
      was, or a verified download, complete. */
  predicate Whole(before: Files, verified: set<(Path, Bytes)>, d: Path, content: Bytes) {
    (d in before && before[d] == content) || (d, content) in verified
  }

  ghost predicate IsBackup(b: Path, d: Path, job: string) {
    Plain(d.name) && NoDot(job) && b == Backup(d, job)
  }

  /** Every file is an ordinary one, a temporary one or a backup. */
  ghost predicate Named(p: Path) {
    || Plain(p.name)
    || (exists d: Path, job: string :: IsBackup(p, d, job))
    || (exists d: Path, job: string {:trigger Temp(d, job)} :: Plain(d.name) && NoDot(job) && p == Temp(d, job))
  }

  /** A backup that its promotion is about to remove. */
  ghost predicate Condemned(promotions: map<nat, Promotion>, d: Path, job: string) {
    exists p :: p in promotions && promotions[p].destination == d && promotions[p].job == job && promotions[p].stage == Placed(true)
  }

  /** A copy of the destination that nobody is about to remove. */
  ghost predicate SafeBackup(s: System, d: Path, job: string) {
    NoDot(job) && Backup(d, job) in s.files && !Condemned(s.promotions, d, job)
  }

  ghost predicate Safe(s: System, d: Path) {
    d in s.files || exists job :: SafeBackup(s, d, job)
  }

  predicate HoldsTemp(q: Promotion) {
    q.stage.Ready? || q.stage.Looked? || q.stage.Moved?
  }

  ghost predicate Sound(s: System, p: nat)
    requires p in s.promotions
  {
    var q := s.promotions[p];
    && Plain(q.destination.name) && NoDot(q.job) && (q.destination, q.content) in s.verified
    && (HoldsTemp(q) ==> Temp(q.destination, q.job) in s.files && s.files[Temp(q.destination, q.job)] == q.content)
  }

  ghost predicate Unique(promotions: map<nat, Promotion>) {
    forall p, r | p in promotions && r in promotions && p != r && Live(promotions[p]) && Live(promotions[r]) ::
      promotions[p].destination != promotions[r].destination || promotions[p].job != promotions[r].job
  }

  ghost predicate Inv(before: Files, s: System) {
    && (forall p | p in s.files :: Named(p))
    && (forall d | d in s.files && Plain(d.name) :: Whole(before, s.verified, d, s.files[d]))
    && (forall d: Path, job: string {:trigger Backup(d, job)} | Plain(d.name) && NoDot(job) && Backup(d, job) in s.files ::
          Whole(before, s.verified, d, s.files[Backup(d, job)]))
    && (forall d | d in before :: Safe(s, d))
    && (forall p | p in s.promotions :: Sound(s, p))
    && Unique(s.promotions)
  }

  ghost predicate NoMarkers(before: Files) {
    forall d | d in before :: Plain(d.name)
  }

  /** The three sorts of names never clash. */
  lemma NamesApart(d: Path, i: string, e: Path, j: string)
    requires Plain(d.name) && Plain(e.name) && NoDot(i) && NoDot(j)
    ensures Temp(d, i) != e && Backup(d, i) != e && Temp(d, i) != Backup(e, j)
    ensures Temp(d, i) == Temp(e, j) ==> d == e && i == j
    ensures Backup(d, i) == Backup(e, j) ==> d == e && i == j
  {
    OrdinaryName(e.name);
    TemporaryRecognised(d.name, i);
    BackupRoundTrip(d.name, i);
    BackupRoundTrip(e.name, j);
    if Temp(d, i) == Temp(e, j) {
      TemporaryInjective(d.name, i, e.name, j);
    }
    if Backup(d, i) == Backup(e, j) {
      BackupInjective(d.name, i, e.name, j);
    }
  }

  /** What a step does to the files, whatever its name. */
  datatype Change = Unchanged | TempOnly | ToBackup | ToPlace | BackupBack | BackupGone

  function ChangeOf(q: Promotion, k: Step): Change {
    match k
    case RemoveStale => TempOnly
    case TakeStaged => TempOnly
    case CopyPart(_) => TempOnly
    case CopyFails(_) => TempOnly
    case RemoveTemp(_) => TempOnly
    case MoveAside => ToBackup
    case Place => ToPlace
    case Restore => BackupBack
    case RemoveBackup(removed) => if removed && q.stage == Placed(true) then BackupGone else Unchanged
    case _ => Unchanged
  }

  /** The files but for one path. */
  ghost predicate SameBut(a: Files, b: Files, path: Path) {
    && (forall p | p != path :: p in a <==> p in b)
    && (forall p | p != path && p in a :: a[p] == b[p])
  }

  lemma Changes(files: Files, q: Promotion, k: Step)
    requires StepEnabled(files, q, k)
    ensures var d, t := q.destination, NextFiles(files, q, k);
            match ChangeOf(q, k)
            case Unchanged => t == files
            case TempOnly => SameBut(files, t, Temp(d, q.job))
            case ToBackup => d in files && t == Renamed(files, d, Backup(d, q.job)) && q.stage == Looked(true)
            case ToPlace => Temp(d, q.job) in files && t == Renamed(files, Temp(d, q.job), d)
            case BackupBack => Backup(d, q.job) in files && t == Renamed(files, Backup(d, q.job), d)
            case BackupGone => t == files - {Backup(d, q.job)} && q.stage == Placed(true)
  {
  }

  lemma Stages(files: Files, q: Promotion, k: Step)
    requires StepEnabled(files, q, k)
    ensures var stage := NextStage(files, q, k);
            && Live(q)
            && (stage == Placed(true) ==> k.Place?)
            && (q.stage == Placed(true) ==> stage.Finished?)
            && (HoldsTemp(q.(stage := stage)) ==>
                  || k.TakeStaged?
                  || (k.CopyDone? && Temp(q.destination, q.job) in files && files[Temp(q.destination, q.job)] == q.content)
                  || (HoldsTemp(q) && (ChangeOf(q, k).Unchanged? || ChangeOf(q, k).ToBackup?)))
            && (ChangeOf(q, k).ToPlace? ==> HoldsTemp(q))
  {
  }

  lemma NamedAfter(before: Files, s: System, p: nat, k: Step)
    requires Inv(before, s) && Enabled(s, Do(p, k))
    ensures forall x | x in NextFiles(s.files, s.promotions[p], k) :: Named(x)
  {
    var q := s.promotions[p];
    Changes(s.files, q, k);
    assert Sound(s, p);
    assert IsBackup(Backup(q.destination, q.job), q.destination, q.job);
    assert Named(Backup(q.destination, q.job)) && Named(Temp(q.destination, q.job)) && Named(q.destination);
  }

  lemma WholeAfter(before: Files, s: System, p: nat, k: Step)
    requires Inv(before, s) && Enabled(s, Do(p, k))
    ensures var files := NextFiles(s.files, s.promotions[p], k);
            && (forall d | d in files && Plain(d.name) :: Whole(before, s.verified, d, files[d]))
            && (forall d: Path, job: string {:trigger Backup(d, job)} | Plain(d.name) && NoDot(job) && Backup(d, job) in files ::
                  Whole(before, s.verified, d, files[Backup(d, job)]))
  {
    hide Plain, NoDot, Whole, NextFiles, StepEnabled;
    var files := NextFiles(s.files, s.promotions[p], k);
    forall d | d in files && Plain(d.name)
      ensures Whole(before, s.verified, d, files[d])
    {
      WholeDestination(before, s, p, k, d);
    }
    forall d: Path, job: string | Plain(d.name) && NoDot(job) && Backup(d, job) in files
      ensures Whole(before, s.verified, d, files[Backup(d, job)])
    {
      WholeBackup(before, s, p, k, d, job);
    }
  }

  lemma WholeDestination(before: Files, s: System, p: nat, k: Step, d: Path)
    requires Inv(before, s) && Enabled(s, Do(p, k)) && Plain(d.name) && d in NextFiles(s.files, s.promotions[p], k)
    ensures Whole(before, s.verified, d, NextFiles(s.files, s.promotions[p], k)[d])
  {
    hide Plain, NoDot, Unique, NextStage;
    var q := s.promotions[p];
    Changes(s.files, q, k);
    Stages(s.files, q, k);
    assert Sound(s, p);
    NamesApart(q.destination, q.job, d, q.job);
  }

  lemma WholeBackup(before: Files, s: System, p: nat, k: Step, d: Path, job: string)
    requires Inv(before, s) && Enabled(s, Do(p, k)) && Plain(d.name) && NoDot(job)
    requires Backup(d, job) in NextFiles(s.files, s.promotions[p], k)
    ensures Whole(before, s.verified, d, NextFiles(s.files, s.promotions[p], k)[Backup(d, job)])
  {
    hide Plain, NoDot, Unique, NextStage;
    var q := s.promotions[p];
    Changes(s.files, q, k);
    assert Sound(s, p);
    NamesApart(q.destination, q.job, d, job);
    NamesApart(d, job, q.destination, q.job);
  }

  lemma OwnSoundAfter(before: Files, s: System, p: nat, k: Step)
    requires Inv(before, s) && Enabled(s, Do(p, k))
    ensures Sound(Apply(s, Do(p, k)), p)
  {
    var q := s.promotions[p];
    Changes(s.files, q, k);
    Stages(s.files, q, k);
    assert Sound(s, p);
    NamesApart(q.destination, q.job, q.destination, q.job);
  }

  lemma SoundAfter(before: Files, s: System, p: nat, k: Step, r: nat)
    requires Inv(before, s) && Enabled(s, Do(p, k)) && r in s.promotions
    ensures Sound(Apply(s, Do(p, k)), r)
  {
    if r == p {
      OwnSoundAfter(before, s, p, k);
    } else {
      var q, o := s.promotions[p], s.promotions[r];
      Changes(s.files, q, k);
      Stages(s.files, q, k);
      assert Sound(s, p) && Sound(s, r);
      NamesApart(o.destination, o.job, q.destination, q.job);
    }
  }

  lemma SafeAfter(before: Files, s: System, p: nat, k: Step, d: Path)
    requires Inv(before, s) && Enabled(s, Do(p, k)) && d in before && Plain(d.name)
    ensures Safe(Apply(s, Do(p, k)), d)
  {
    var q := s.promotions[p];
    var t := Apply(s, Do(p, k));
    Changes(s.files, q, k);
    Stages(s.files, q, k);
    assert Sound(s, p) && Safe(s, d);
    NamesApart(q.destination, q.job, d, q.job);
    if ChangeOf(q, k).ToBackup? && q.destination == d {
      MovedIsSafe(before, s, p, k);
    } else if d in s.files {
      assert d in t.files;
    } else {
      var job :| SafeBackup(s, d, job);
      BackupStays(before, s, p, k, d, job);
    }
  }

  /** The backup a destination was just moved to is nobody else's. */
  lemma MovedIsSafe(before: Files, s: System, p: nat, k: Step)
    requires Inv(before, s) && Enabled(s, Do(p, k)) && ChangeOf(s.promotions[p], k).ToBackup?
    ensures SafeBackup(Apply(s, Do(p, k)), s.promotions[p].destination, s.promotions[p].job)
  {
    assert Sound(s, p);
    Changes(s.files, s.promotions[p], k);
    Stages(s.files, s.promotions[p], k);
  }

  lemma NotCondemned(s: System, p: nat, k: Step, d: Path, job: string)
    requires Enabled(s, Do(p, k)) && !Condemned(s.promotions, d, job) && !(k.Place? && s.promotions[p].destination == d)
    ensures !Condemned(Apply(s, Do(p, k)).promotions, d, job)
    ensures s.promotions[p].destination == d && s.promotions[p].job == job ==> !ChangeOf(s.promotions[p], k).BackupGone?
  {
    Stages(s.files, s.promotions[p], k);
    var t := Apply(s, Do(p, k)).promotions;
    forall r | r in t && t[r].destination == d && t[r].job == job
      ensures t[r].stage != Placed(true)
    {
      assert r != p ==> s.promotions[r] == t[r];
    }
  }

  lemma BackupStays(before: Files, s: System, p: nat, k: Step, d: Path, job: string)
    requires Inv(before, s) && Enabled(s, Do(p, k)) && Plain(d.name) && SafeBackup(s, d, job)
    ensures d in Apply(s, Do(p, k)).files || SafeBackup(Apply(s, Do(p, k)), d, job)
  {
    var q := s.promotions[p];
    assert Sound(s, p);
    if k.Place? && q.destination == d {
      assert d in Apply(s, Do(p, k)).files;
    } else {
      NotCondemned(s, p, k, d, job);
      Changes(s.files, q, k);
      NamesApart(q.destination, q.job, d, job);
      NamesApart(d, job, q.destination, q.job);
    }
  }

  lemma StepKeeps(before: Files, s: System, p: nat, k: Step)
    requires NoMarkers(before) && Inv(before, s) && Enabled(s, Do(p, k))
    ensures Inv(before, Apply(s, Do(p, k)))
  {
    NamedAfter(before, s, p, k);
    WholeAfter(before, s, p, k);
    Stages(s.files, s.promotions[p], k);
    var t := Apply(s, Do(p, k));
    forall r | r in t.promotions
      ensures Sound(t, r)
    {
      SoundAfter(before, s, p, k, r);
    }
    forall d | d in before
      ensures Safe(t, d)
    {
      SafeAfter(before, s, p, k, d);
    }
  }

  lemma BeginKeeps(before: Files, s: System, p: nat, d: Path, job: string, content: Bytes)
    requires Inv(before, s) && Enabled(s, Begin(p, d, job, content))
    ensures Inv(before, Apply(s, Begin(p, d, job, content)))
  {
    hide Plain, NoDot, Named, Backup, Temp, NextFiles, NextStage;
    var t := Apply(s, Begin(p, d, job, content));
    forall r | r in t.promotions
      ensures Sound(t, r)
    {
      assert r != p ==> Sound(s, r);
    }
    forall e | e in before
      ensures Safe(t, e)
    {
      assert Safe(s, e);
      if e !in s.files {
        var j :| SafeBackup(s, e, j);
        assert SafeBackup(t, e, j);
      }
    }
  }

  lemma {:induction false} InvAlways(before: Files, s: System, events: seq<Event>)
    requires NoMarkers(before) && Inv(before, s) && Possible(s, events)
    ensures Inv(before, After(s, events))
    decreases |events|
  {
    if events != [] {
      match events[0] {
        case Begin(p, d, job, content) => BeginKeeps(before, s, p, d, job, content);
        case Do(p, k) => StepKeeps(before, s, p, k);
      }
      InvAlways(before, Apply(s, events[0]), events[1..]);
    }
  }

  /** The moment a promotion places its file, the destination holds the verified download. */
  lemma PlacedHolds(before: Files, s: System, p: nat)
    requires Inv(before, s) && Enabled(s, Do(p, Place))
    ensures var q := s.promotions[p];
            var t := Apply(s, Do(p, Place));
            q.destination in t.files && t.files[q.destination] == q.content
  {
    assert Sound(s, p);
  }

  // ---------- The recovery walk ----------

  /** What the walk relies on, whatever moment the process stopped at. */
  ghost predicate Recoverable(before: Files, verified: set<(Path, Bytes)>, files: Files) {
    Wholes(before, verified, files) && forall d | d in before :: HasCopy(files, d)
  }

  /** Every file has a proper name, and destinations and backups hold complete contents. */
  ghost predicate Wholes(before: Files, verified: set<(Path, Bytes)>, files: Files) {
    && (forall p | p in files :: Named(p))
    && (forall d | d in files && Plain(d.name) :: Whole(before, verified, d, files[d]))
    && (forall d: Path, job: string {:trigger Backup(d, job)} | Plain(d.name) && NoDot(job) && Backup(d, job) in files ::
          Whole(before, verified, d, files[Backup(d, job)]))
  }

  ghost predicate HasCopy(files: Files, d: Path) {
    d in files || exists job :: NoDot(job) && Backup(d, job) in files
  }

  lemma CrashIsRecoverable(before: Files, s: System)
    requires Inv(before, s)
    ensures Recoverable(before, s.verified, s.files)
  {
  }

  /** One visit. `looks` says whether the original can be looked up, which counts as found
      when it cannot, and `works` whether the rename or removal succeeds. */
  function Walked(files: Files, path: Path, looks: bool, works: bool): Files
    requires path in files
  {
    match KindOf(path.name)
    case Temporary => if works then files - {path} else files
    case Ordinary => files
    case BackupOf(original) =>
      if !works then files
      else if Path(path.dir, original) in files || !looks then files - {path}
      else Renamed(files, path, Path(path.dir, original))
  }

  /** What the walk is told of each entry. */
  datatype Answers = Answers(looks: Path -> bool, works: Path -> bool)

  /** The destination is there, or a backup of it that the walk does not remove while it is missing. */
  ghost predicate Survives(files: Files, d: Path, a: Answers) {
    d in files || exists job :: NoDot(job) && Backup(d, job) in files && (a.looks(Backup(d, job)) || !a.works(Backup(d, job)))
  }

  /** One visit: the entry loses its marker if it can, contents stay whole, and the same destinations survive. */
  lemma WalkedStep(before: Files, verified: set<(Path, Bytes)>, files: Files, path: Path, a: Answers)
    requires NoMarkers(before) && Wholes(before, verified, files) && path in files
    ensures var t := Walked(files, path, a.looks(path), a.works(path));
            && Wholes(before, verified, t)
            && (a.works(path) && path in t ==> Plain(path.name))
            && (forall p | p in t && !Plain(p.name) :: p in files)
            && (forall d | d in files && Plain(d.name) :: d in t && t[d] == files[d])
            && (forall d: Path | Plain(d.name) :: Survives(t, d, a) <==> Survives(files, d, a))
  {
    hide Wholes, Plain, NoDot, NoMarkers, Survives, IsBackup;
    EachNamed(before, verified, files);
    if Plain(path.name) {
      OrdinaryName(path.name);
    } else if d: Path, job: string :| IsBackup(path, d, job) {
      BackupParts(path, d, job);
      WalkedBackup(before, verified, files, d, job, a);
    } else {
      var d, job := TemporaryParts(path);
      WalkedTemp(before, verified, files, d, job, a);
    }
  }

  lemma BackupParts(path: Path, d: Path, job: string)
    requires IsBackup(path, d, job)
    ensures Plain(d.name) && NoDot(job) && path == Backup(d, job) && !Plain(path.name)
    ensures KindOf(path.name) == BackupOf(d.name) && Path(path.dir, d.name) == d
  {
    BackupRoundTrip(d.name, job);
    BackupMarked(d, job);
  }

  lemma TemporaryParts(path: Path) returns (d: Path, job: string)
    requires Named(path) && !Plain(path.name) && forall d: Path, job: string :: !IsBackup(path, d, job)
    ensures Plain(d.name) && NoDot(job) && path == Temp(d, job) && KindOf(path.name).Temporary?
  {
    d, job :| Plain(d.name) && NoDot(job) && path == Temp(d, job);
    TemporaryRecognised(d.name, job);
  }

  lemma EachNamed(before: Files, verified: set<(Path, Bytes)>, files: Files)
    requires Wholes(before, verified, files)
    ensures forall p | p in files :: Named(p)
  {
  }

  lemma WalkedTemp(before: Files, verified: set<(Path, Bytes)>, files: Files, d: Path, job: string, a: Answers)
    requires NoMarkers(before) && Wholes(before, verified, files) && Plain(d.name) && NoDot(job)
    ensures var t := files - {Temp(d, job)};
            && Wholes(before, verified, t)
            && (forall e: Path | Plain(e.name) :: Survives(t, e, a) <==> Survives(files, e, a))
            && (forall e | e in files && Plain(e.name) :: e in t && t[e] == files[e])
  {
    hide Plain, NoDot;
    var t := files - {Temp(d, job)};
    forall e: Path | Plain(e.name)
      ensures Survives(t, e, a) <==> Survives(files, e, a)
      ensures e in files ==> e in t
    {
      NamesApart(d, job, e, job);
      OnlyTempGone(files, d, job, e, a);
    }
  }

  lemma OnlyTempGone(files: Files, d: Path, job: string, e: Path, a: Answers)
    requires Plain(d.name) && NoDot(job) && Plain(e.name)
    ensures Survives(files - {Temp(d, job)}, e, a) <==> Survives(files, e, a)
  {
    hide Plain, NoDot;
    NamesApart(d, job, e, job);
    forall j: string | NoDot(j)
      ensures Backup(e, j) in files - {Temp(d, job)} <==> Backup(e, j) in files
    {
      NamesApart(d, job, e, j);
    }
  }

  lemma WalkedBackup(before: Files, verified: set<(Path, Bytes)>, files: Files, d: Path, job: string, a: Answers)
    requires NoMarkers(before) && Wholes(before, verified, files)
    requires Plain(d.name) && NoDot(job) && Backup(d, job) in files
    ensures var b := Backup(d, job);
            var t := if !a.works(b) then files else WithoutBackup(files, d, job, a.looks(b));
            && Wholes(before, verified, t)
            && (forall e: Path | Plain(e.name) :: Survives(t, e, a) <==> Survives(files, e, a))
            && (forall e | e in files && Plain(e.name) :: e in t && t[e] == files[e])
  {
    hide WithoutBackup, Plain, NoDot, Survives, Wholes;
    var b := Backup(d, job);
    if a.works(b) {
      BackupMarked(d, job);
      WithoutBackupWhole(before, verified, files, d, job, a.looks(b));
      BackupMoved(files, d, job, a.looks(b));
      forall e: Path | Plain(e.name)
        ensures Survives(WithoutBackup(files, d, job, a.looks(b)), e, a) <==> Survives(files, e, a)
      {
        SurvivesBackup(files, d, job, a, e);
      }
    }
  }

  /** A backup given up, or renamed back where its original is found to be missing. */
  function WithoutBackup(files: Files, d: Path, job: string, looks: bool): Files
    requires Backup(d, job) in files
  {
    if d in files || !looks then files - {Backup(d, job)} else Renamed(files, Backup(d, job), d)
  }

  lemma BackupMoved(files: Files, d: Path, job: string, looks: bool)
    requires Backup(d, job) in files && Plain(d.name) && NoDot(job)
    ensures var t := WithoutBackup(files, d, job, looks);
            && Backup(d, job) != d && Backup(d, job) !in t
            && (d in t <==> d in files || looks)
            && (d in t ==> t[d] == if d in files then files[d] else files[Backup(d, job)])
            && (forall p | p != d && p != Backup(d, job) :: p in t <==> p in files)
            && (forall p | p != d && p != Backup(d, job) && p in t :: t[p] == files[p])
  {
    NamesApart(d, job, d, job);
  }

  lemma WithoutBackupWhole(before: Files, verified: set<(Path, Bytes)>, files: Files, d: Path, job: string, looks: bool)
    requires NoMarkers(before) && Wholes(before, verified, files)
    requires Plain(d.name) && NoDot(job) && Backup(d, job) in files
    ensures Wholes(before, verified, WithoutBackup(files, d, job, looks))
  {
    hide WithoutBackup, Plain, NoDot;
    var t := WithoutBackup(files, d, job, looks);
    BackupMoved(files, d, job, looks);
    assert Named(d);
    assert Whole(before, verified, d, files[Backup(d, job)]);
    forall e: Path, j: string | Plain(e.name) && NoDot(j) && Backup(e, j) in t
      ensures Whole(before, verified, e, t[Backup(e, j)])
    {
      NamesApart(e, j, d, job);
    }
  }

  lemma SurvivesBackup(files: Files, d: Path, job: string, a: Answers, e: Path)
    requires Plain(d.name) && NoDot(job) && Backup(d, job) in files && Plain(e.name) && a.works(Backup(d, job))
    ensures Survives(WithoutBackup(files, d, job, a.looks(Backup(d, job))), e, a) <==> Survives(files, e, a)
  {
    hide WithoutBackup, Plain, NoDot;
    BackupMoved(files, d, job, a.looks(Backup(d, job)));
    NamesApart(d, job, e, job);
    forall j: string | NoDot(j) && Backup(e, j) != Backup(d, job)
      ensures Backup(e, j) in WithoutBackup(files, d, job, a.looks(Backup(d, job))) <==> Backup(e, j) in files
    {
      NamesApart(e, j, d, job);
    }
    if e != d {
      forall j: string | NoDot(j)
        ensures Backup(e, j) != Backup(d, job)
      {
        NamesApart(e, j, d, job);
      }
    }
  }

  /** In place, or set aside under a name the walk could not rename. */
  ghost predicate Kept(files: Files, d: Path, works: Path -> bool) {
    d in files || exists job :: NoDot(job) && Backup(d, job) in files && !works(Backup(d, job))
  }

  class Storage {
    var files: Files

    /** Renames interrupted replacements back and removes what they left, in any order of the
        walk. Exactly the destinations with a file or a surviving backup are kept. */
    method RestoreInterruptedPromotions(walk: seq<Path>, a: Answers, ghost before: Files, ghost verified: set<(Path, Bytes)>)
      requires NoMarkers(before) && Wholes(before, verified, files)
      requires forall p | p in files :: p in walk
      modifies this
      ensures Wholes(before, verified, files)
      ensures forall p | p in files && !Plain(p.name) :: p in old(files) && !a.works(p)
      ensures forall d: Path | Plain(d.name) :: Kept(files, d, a.works) <==> Survives(old(files), d, a)
      ensures forall d | d in old(files) && Plain(d.name) :: d in files && files[d] == old(files)[d]
    {
      hide Wholes, Survives, Kept;
      for i := 0 to |walk|
        invariant Wholes(before, verified, files)
        invariant forall p | p in files && !Plain(p.name) :: p in old(files) && (a.works(p) ==> p in walk[i..])
        invariant forall d | d in old(files) && Plain(d.name) :: d in files && files[d] == old(files)[d]
        invariant forall d: Path | Plain(d.name) :: Survives(files, d, a) <==> Survives(old(files), d, a)
      {
        var path := walk[i];
        assert forall p | p in walk[i..] && p != path :: p in walk[i + 1..];
        if path in files {
          WalkedStep(before, verified, files, path, a);
          Visit(path, a.looks(path), a.works(path));
        }
      }
      forall d: Path | Plain(d.name)
        ensures Kept(files, d, a.works) <==> Survives(files, d, a)
      {
        KeptSurvives(files, d, a);
      }
    }

    /** One promotion on its own, with its rollbacks. The destination of a snapshot is
        compared by `hash` and size instead of replaced; the flags say which of the other
        operations succeed: preparing the temporary file, the three renames, the removals
        and the record of the artifact. */
    method Promote(d: Path, job: string, content: Bytes, snapshot: bool, hash: Bytes -> string,
                   prepares: bool, moves: bool, places: bool, restores: bool, removes: bool, records: bool) returns (ok: bool)
      requires Plain(d.name) && NoDot(job)
      modifies this
      ensures snapshot && d in old(files) ==>
                files == old(files) && ok == (hash(files[d]) == hash(content) && |files[d]| == |content|)
      ensures !(snapshot && d in old(files)) ==> ok == (Replaces(old(files), d, prepares, moves, places) && records)
      ensures !(snapshot && d in old(files)) && Replaces(old(files), d, prepares, moves, places) ==>
                files == (Aside(old(files), d, job, removes) - {Temp(d, job)})[d := content]
      ensures !(snapshot && d in old(files)) && !Replaces(old(files), d, prepares, moves, places) ==>
                && SameBut(if prepares && moves && d in old(files) then RolledBack(old(files), d, job, restores) else old(files),
                           files, Temp(d, job))
                && (removes ==> Temp(d, job) !in files)
    {
      var temporary := Temp(d, job);
      NamesApart(d, job, d, job);
      if snapshot && d in files {
        return hash(files[d]) == hash(content) && |files[d]| == |content|;
      }
      if !prepares {
        RemoveIf(temporary, removes);
        return false;
      }
      files := files[temporary := content];
      TemporaryApart(old(files), d, job, content, removes, restores);
      var placed := ReplaceDestination(d, job, moves, places, restores, removes);
      return placed && records;
    }

    /** Moves the temporary file to its destination, setting aside what is there. */
    method ReplaceDestination(d: Path, job: string, moves: bool, places: bool, restores: bool, removes: bool) returns (ok: bool)
      requires Plain(d.name) && NoDot(job) && Temp(d, job) in files
      modifies this
      ensures ok == Replaces(old(files), d, true, moves, places)
      ensures ok ==> files == (Aside(old(files), d, job, removes) - {Temp(d, job)})[d := old(files)[Temp(d, job)]]
      ensures !ok ==>
                && SameBut(if moves && d in old(files) then RolledBack(old(files), d, job, restores) else old(files), files, Temp(d, job))
                && (removes ==> Temp(d, job) !in files)
    {
      hide Plain, NoDot;
      var temporary := Temp(d, job);
      NamesApart(d, job, d, job);
      var backup := d in files;
      if backup {
        if !moves {
          RemoveIf(temporary, removes);
          return false;
        }
        files := Renamed(files, d, Backup(d, job));
      }
      if !places {
        if backup && restores {
          files := Renamed(files, Backup(d, job), d);
        }
        RemoveIf(temporary, removes);
        return false;
      }
      files := Renamed(files, temporary, d);
      if backup {
        RemoveIf(Backup(d, job), removes);
      }
      return true;
    }

    method RemoveIf(path: Path, works: bool)
      modifies this
      ensures files == if works then old(files) - {path} else old(files)
    {
      if works {
        files := files - {path};
      }
    }

    method Visit(path: Path, looks: bool, works: bool)
      requires path in files
      modifies this
      ensures files == Walked(old(files), path, looks, works)
    {
      var kind := KindOf(path.name);
      if kind.Temporary? {
        RemoveIf(path, works);
        return;
      }
      if kind.Ordinary? {
        return;
      }
      var original := Path(path.dir, kind.original);
      if looks && original !in files {
        if works {
          files := (files - {path})[original := files[path]];
        }
        return;
      }
      RemoveIf(path, works);
    }
  }

  lemma KeptSurvives(files: Files, d: Path, a: Answers)
    requires Plain(d.name) && forall p | p in files && !Plain(p.name) :: !a.works(p)
    ensures Kept(files, d, a.works) <==> Survives(files, d, a)
  {
    hide Plain, NoDot;
    forall job: string | NoDot(job)
      ensures Backup(d, job) in files ==> !a.works(Backup(d, job))
    {
      BackupMarked(d, job);
    }
  }

  predicate Replaces(files: Files, d: Path, prepares: bool, moves: bool, places: bool) {
    prepares && (d in files ==> moves) && places
  }

  /** What a replacement leaves at the backup's name: nothing, unless it cannot be removed. */
  function Aside(files: Files, d: Path, job: string, removes: bool): Files {
    if d !in files then files
    else if removes then files - {Backup(d, job)}
    else files[Backup(d, job) := files[d]]
  }

  /** A destination that was set aside and then not replaced. */
  function RolledBack(files: Files, d: Path, job: string, restores: bool): Files
    requires d in files
  {
    if restores then files - {Backup(d, job)} else (files - {d})[Backup(d, job) := files[d]]
  }

  /** What is done to the destination does not depend on the temporary file's bytes. */
  lemma TemporaryApart(files: Files, d: Path, job: string, content: Bytes, removes: bool, restores: bool)
    requires Plain(d.name) && NoDot(job)
    ensures var t := files[Temp(d, job) := content];
            && Temp(d, job) != d
            && Aside(t, d, job, removes) - {Temp(d, job)} == Aside(files, d, job, removes) - {Temp(d, job)}
            && SameBut(t, files, Temp(d, job))
            && (d in files ==> SameBut(RolledBack(t, d, job, restores), RolledBack(files, d, job, restores), Temp(d, job)))
  {
    hide Plain, NoDot;
    NamesApart(d, job, d, job);
  }

  lemma BackupMarked(d: Path, job: string)
    requires Plain(d.name) && NoDot(job)
    ensures !Plain(Backup(d, job).name)
  {
    if Plain(Backup(d, job).name) {
      NamesApart(d, job, Backup(d, job), job);
    }
  }

  /** From any moment of any number of concurrent promotions: after the walk no marker is
      left, except where the walk's rename or removal failed, every content is whole, and
      a file that existed before is in place, or set aside where its rename failed, exactly
      when at the crash it was there or had a backup that survives. */
  method CrashAndRecover(storage: Storage, ghost before: Files, ghost events: seq<Event>, walk: seq<Path>, a: Answers)
    requires NoMarkers(before) && Possible(System(before, map[], {}), events)
    requires storage.files == After(System(before, map[], {}), events).files
    requires forall p | p in storage.files :: p in walk
    modifies storage
    ensures forall p | p in storage.files && !Plain(p.name) :: p in old(storage.files) && !a.works(p)
    ensures Wholes(before, After(System(before, map[], {}), events).verified, storage.files)
    ensures forall d | d in before :: Kept(storage.files, d, a.works) <==> Survives(old(storage.files), d, a)
    ensures (forall p | p in old(storage.files) :: a.looks(p)) ==> forall d | d in before :: Kept(storage.files, d, a.works)
    ensures (forall p | p in old(storage.files) :: a.looks(p) && a.works(p)) ==>
              (forall p | p in storage.files :: Plain(p.name)) && forall d | d in before :: d in storage.files
  {
    hide Wholes, Survives, Kept, Recoverable;
    ghost var start := System(before, map[], {});
    StartsSound(before);
    InvAlways(before, start, events);
    CrashIsRecoverable(before, After(start, events));
    RecoverableWholes(before, After(start, events).verified, storage.files);
    storage.RestoreInterruptedPromotions(walk, a, before, After(start, events).verified);
    if forall p | p in old(storage.files) :: a.looks(p) {
      forall d | d in before
        ensures Survives(old(storage.files), d, a)
      {
        CopySurvives(before, After(start, events).verified, old(storage.files), d, a);
      }
      if forall p | p in old(storage.files) :: a.works(p) {
        forall d | d in before
          ensures d in storage.files
        {
          AllInPlace(before, storage.files, d, a.works);
        }
      }
    }
  }

  lemma RecoverableWholes(before: Files, verified: set<(Path, Bytes)>, files: Files)
    requires Recoverable(before, verified, files)
    ensures Wholes(before, verified, files)
  {
  }

  lemma CopySurvives(before: Files, verified: set<(Path, Bytes)>, files: Files, d: Path, a: Answers)
    requires Recoverable(before, verified, files) && d in before && forall p | p in files :: a.looks(p)
    ensures Survives(files, d, a)
  {
    hide Wholes;
    assert HasCopy(files, d);
  }

  lemma AllInPlace(before: Files, files: Files, d: Path, works: Path -> bool)
    requires NoMarkers(before) && d in before && Kept(files, d, works) && forall p | p in files :: Plain(p.name)
    ensures d in files
  {
    if d !in files {
      var job :| NoDot(job) && Backup(d, job) in files && !works(Backup(d, job));
      BackupMarked(d, job);
    }
  }

  /** The input that shows what a failing lookup does: the process stops between the two
      renames, and a walk that cannot look the original up removes its only copy. */
  lemma FailedLookupLoses(d: Path, job: string, was: Bytes, content: Bytes) returns (events: seq<Event>)
    requires Plain(d.name) && NoDot(job)
    ensures Possible(System(map[d := was], map[], {}), events)
    ensures var files := After(System(map[d := was], map[], {}), events).files;
            Backup(d, job) in files && files[Backup(d, job)] == was && d !in files
            && !Survives(files, d, Answers(p => false, p => true))
  {
    NamesApart(d, job, d, job);
    var begin, take, look, move := Begin(0, d, job, content), Do(0, TakeStaged), Do(0, Look), Do(0, MoveAside);
    events := [begin, take, look, move];
    var start := System(map[d := was], map[], {});
    var ready := Apply(Apply(start, begin), take);
    assert ready.promotions == map[0 := Promotion(d, job, content, Ready)];
    var looked := Apply(ready, look);
    assert looked.promotions == map[0 := Promotion(d, job, content, Looked(true))];
    var moved := Apply(looked, move);
    assert moved.files == map[Temp(d, job) := content, Backup(d, job) := was];
    Follows(looked, move, []);
    assert [move] + [] == [move];
    Follows(ready, look, [move]);
    assert [look] + [move] == [look, move];
    Follows(Apply(start, begin), take, [look, move]);
    assert [take] + [look, move] == [take, look, move];
    Follows(start, begin, [take, look, move]);
    assert [begin] + [take, look, move] == events;
  }

  lemma Follows(s: System, e: Event, rest: seq<Event>)
    requires Enabled(s, e) && Possible(Apply(s, e), rest)
    ensures Possible(s, [e] + rest) && After(s, [e] + rest) == After(Apply(s, e), rest)
  {
    assert ([e] + rest)[1..] == rest;
  }

  lemma StartsSound(before: Files)
    requires NoMarkers(before)
    ensures Inv(before, System(before, map[], {}))
  {
    forall d: Path, job: string | Plain(d.name) && NoDot(job)
      ensures Backup(d, job) !in before
    {
      if Backup(d, job) in before {
        NamesApart(d, job, Backup(d, job), job);
      }
    }
  }
}

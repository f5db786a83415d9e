/** The marker names of the downloader: the temporary and the backup file of a
    promotion, and how recovery reads them back. */
module FileNames {
  const REPLACED_MARKER := ".tensor-router-replaced-"
  const PROMOTION_MARKER := ".tensor-router-promote-"

  predicate OccursAt(part: string, s: string, at: nat) {
    at + |part| <= |s| && s[at..at + |part|] == part
  }

  /** The last place `part` occurs at or before `at`, or -1. */
  function LastIndexFrom(s: string, part: string, at: int): (r: int)
    ensures -1 <= r <= at || r == -1
    ensures r >= 0 ==> OccursAt(part, s, r)
    ensures forall i | r < i <= at && 0 <= i :: !OccursAt(part, s, i)
    decreases at + 1
  {
    if at < 0 then -1
    else if OccursAt(part, s, at) then at
    else LastIndexFrom(s, part, at - 1)
  }

  function LastIndex(s: string, part: string): int {
    LastIndexFrom(s, part, |s|)
  }

  predicate Contains(s: string, part: string) {
    LastIndex(s, part) >= 0
  }

  predicate NoDot(s: string) {
    forall i | 0 <= i < |s| :: s[i] != '.'
  }

  /** The markers hold a dot at their first place only, and differ after it. */
  lemma MarkerShape()
    ensures |REPLACED_MARKER| == 24 && |PROMOTION_MARKER| == 23
    ensures REPLACED_MARKER[0] == '.' && NoDot(REPLACED_MARKER[1..])
    ensures PROMOTION_MARKER[0] == '.' && NoDot(PROMOTION_MARKER[1..])
    ensures REPLACED_MARKER[15] != PROMOTION_MARKER[15]
  {
    assert REPLACED_MARKER[1..] == "tensor-router-replaced-";
    assert PROMOTION_MARKER[1..] == "tensor-router-promote-";
  }

  predicate IsMarker(m: string) {
    m == REPLACED_MARKER || m == PROMOTION_MARKER
  }

  /** A repository file name: not empty and free of markers. */
  predicate Plain(name: string) {
    name != "" && !Contains(name, REPLACED_MARKER) && !Contains(name, PROMOTION_MARKER)
  }

  function BackupName(name: string, job: string): string {
    name + REPLACED_MARKER + job
  }

  function TemporaryName(name: string, job: string): string {
    "." + name + PROMOTION_MARKER + job
  }

  datatype Kind = Ordinary | Temporary | BackupOf(original: string)

  /** How the recovery walk classifies a file by its name. */
  function KindOf(name: string): Kind {
    if |name| > 0 && name[0] == '.' && Contains(name, PROMOTION_MARKER) then Temporary
    else
      var marker := LastIndex(name, REPLACED_MARKER);
      if marker <= 0 then Ordinary else BackupOf(name[..marker])
  }

  /** A marker occurs in `name + mark + job` only inside `name` or as the mark itself. */
  lemma OnlyAsWritten(name: string, mark: string, job: string, sought: string, at: nat)
    requires IsMarker(mark) && IsMarker(sought) && NoDot(job)
    requires OccursAt(sought, name + mark + job, at)
    ensures (at == |name| && sought == mark) || (at + |sought| <= |name| && OccursAt(sought, name, at))
  {
    var s := name + mark + job;
    MarkerShape();
    DotsEnd(name, mark, job);
    DotOnlyFirst(sought, s, at);
    assert s[at] == s[at..at + |sought|][0] == '.' && s[|name|] == mark[0] == '.';
    assert at <= |name| && (at == |name| || at + |sought| <= |name|);
    if at == |name| {
      assert s[at..at + |sought|][15] == s[at + 15] == mark[15];
    } else {
      assert s[at..at + |sought|] == name[at..at + |sought|];
    }
  }

  lemma DotsEnd(name: string, mark: string, job: string)
    requires IsMarker(mark) && NoDot(job)
    ensures var s := name + mark + job; forall i | |name| < i < |s| :: s[i] != '.'
  {
  }

  lemma DotOnlyFirst(sought: string, s: string, at: nat)
    requires IsMarker(sought) && OccursAt(sought, s, at)
    ensures forall i | at < i < at + |sought| :: s[i] != '.'
  {
    MarkerShape();
    forall i | at < i < at + |sought|
      ensures s[i] != '.'
    {
      assert s[i] == s[at..at + |sought|][i - at] == sought[i - at] == sought[1..][i - at - 1];
    }
  }

  lemma LastOccurrence(name: string, mark: string, job: string)
    requires IsMarker(mark) && NoDot(job)
    ensures LastIndex(name + mark + job, mark) == |name|
  {
    var s := name + mark + job;
    MarkerShape();
    assert s[|name|..|name| + |mark|] == mark;
    assert OccursAt(mark, s, |name|);
    var r := LastIndex(s, mark);
    assert |name| <= r;
    OnlyAsWritten(name, mark, job, mark, r);
  }

  lemma OtherMarkAbsent(name: string, mark: string, job: string, sought: string)
    requires IsMarker(mark) && IsMarker(sought) && sought != mark && NoDot(job) && !Contains(name, sought)
    ensures !Contains(name + mark + job, sought)
  {
    var r := LastIndex(name + mark + job, sought);
    if r >= 0 {
      OnlyAsWritten(name, mark, job, sought, r);
    }
  }

  lemma OrdinaryName(name: string)
    requires Plain(name)
    ensures KindOf(name) == Ordinary
  {
  }

  lemma BackupRoundTrip(name: string, job: string)
    requires Plain(name) && NoDot(job)
    ensures KindOf(BackupName(name, job)) == BackupOf(name)
  {
    OtherMarkAbsent(name, REPLACED_MARKER, job, PROMOTION_MARKER);
    LastOccurrence(name, REPLACED_MARKER, job);
    assert BackupName(name, job)[..|name|] == name;
  }

  lemma TemporaryRecognised(name: string, job: string)
    requires NoDot(job)
    ensures KindOf(TemporaryName(name, job)) == Temporary
  {
    LastOccurrence("." + name, PROMOTION_MARKER, job);
  }

  /** Different promotions use different temporary names. */
  lemma TemporaryInjective(a: string, i: string, b: string, j: string)
    requires NoDot(i) && NoDot(j) && TemporaryName(a, i) == TemporaryName(b, j)
    ensures a == b && i == j
  {
    LastOccurrence("." + a, PROMOTION_MARKER, i);
    LastOccurrence("." + b, PROMOTION_MARKER, j);
    var s := TemporaryName(a, i);
    assert s[1..1 + |a|] == a && s[1..1 + |b|] == b;
    assert s[1 + |a| + |PROMOTION_MARKER|..] == i && s[1 + |b| + |PROMOTION_MARKER|..] == j;
  }

  lemma BackupInjective(a: string, i: string, b: string, j: string)
    requires NoDot(i) && NoDot(j) && BackupName(a, i) == BackupName(b, j)
    ensures a == b && i == j
  {
    LastOccurrence(a, REPLACED_MARKER, i);
    LastOccurrence(b, REPLACED_MARKER, j);
    var s := BackupName(a, i);
    assert s[..|a|] == a && s[..|b|] == b;
    assert s[|a| + |REPLACED_MARKER|..] == i && s[|b| + |REPLACED_MARKER|..] == j;
  }
}

/** What a download plan contains: the files asked for, those they depend on, and
    the total of their sizes. Which file depends on what is the parameter `reason`. */
module Plan {
  import opened Basics
  import opened Ordering

  datatype File = File(path: string, size: int, hash: string)

  datatype Planned = Planned(path: string, size: int, required: bool, reason: string, hash: string)

  datatype Error =
    | BadRepository | BadPath(path: string) | Incomplete(path: string) | NotFound(path: string) | InvalidSize(path: string)
    | Collision(first: string, second: string) | NoDestination

  datatype Mode = Explicit | Smart | Snapshot

  datatype Result<T> = Ok(value: T) | Err(error: Error)

  datatype Totals = Totals(files: seq<Planned>, bytes: int)

  /** Why a file is needed besides the selected ones, if it is. */
  type Reason = string -> Option<string>

  // Choosing

  function PlannedFile(f: File, required: bool, reason: string): Planned {
    Planned(f.path, f.size, required, reason, f.hash)
  }

  /** The first file listed under a path. */
  function First(listing: seq<File>, path: string): Option<File> {
    if listing == [] then None
    else if listing[0].path == path then Some(listing[0])
    else First(listing[1..], path)
  }

  predicate Wanted(path: string, selected: set<string>, reason: Reason) {
    path in selected || reason(path).Some?
  }

  /** The plan's record of a path, from the first file listed under it. */
  function RecordOf(f: File, selected: set<string>, reason: Reason): Planned
    requires Wanted(f.path, selected, reason)
  {
    if f.path in selected then PlannedFile(f, false, "selected") else PlannedFile(f, true, reason(f.path).value)
  }

  ghost predicate Records(planned: map<string, Planned>, listing: seq<File>, selected: set<string>, reason: Reason) {
    forall path ::
      && (path in planned <==> First(listing, path).Some? && Wanted(path, selected, reason))
      && (path in planned && First(listing, path).Some? && Wanted(First(listing, path).value.path, selected, reason) ==>
            planned[path] == RecordOf(First(listing, path).value, selected, reason))
  }

  lemma {:induction false} FirstHolds(listing: seq<File>, path: string)
    ensures First(listing, path).Some? <==> exists i :: 0 <= i < |listing| && listing[i].path == path
    ensures First(listing, path).Some? ==> First(listing, path).value.path == path && First(listing, path).value in listing
  {
    if listing != [] && listing[0].path != path {
      FirstHolds(listing[1..], path);
    }
  }

  lemma {:induction false} FirstAppend(listing: seq<File>, f: File, path: string)
    ensures First(listing + [f], path) ==
            if First(listing, path).Some? then First(listing, path) else if f.path == path then Some(f) else None
    decreases |listing|
  {
    if listing == [] {
      assert (listing + [f])[1..] == [];
    } else {
      assert (listing + [f])[0] == listing[0] && (listing + [f])[1..] == listing[1..] + [f];
      FirstAppend(listing[1..], f, path);
    }
  }

  function NoReason(): Reason {
    (path: string) => None
  }

  method SelectedPlannedFiles(listing: seq<File>, selected: set<string>) returns (r: Result<map<string, Planned>>)
    ensures r.Ok? <==> forall path | path in selected :: First(listing, path).Some?
    ensures r.Err? ==> r.error.NotFound? && r.error.path in selected && First(listing, r.error.path).None?
    ensures r.Ok? ==> Records(r.value, listing, selected, NoReason())
  {
    var files: map<string, Planned> := map[];
    for i := 0 to |listing|
      invariant Records(files, listing[..i], selected, NoReason())
    {
      var file := listing[i];
      assert listing[..i + 1] == listing[..i] + [file];
      forall path
        ensures First(listing[..i + 1], path) ==
                if First(listing[..i], path).Some? then First(listing[..i], path) else if file.path == path then Some(file) else None
      {
        FirstAppend(listing[..i], file, path);
      }
      if file.path in selected && file.path !in files {
        files := files[file.path := PlannedFile(file, false, "selected")];
      }
    }
    assert listing[..|listing|] == listing;
    var left := selected;
    while left != {}
      invariant left <= selected && forall path | path in selected - left :: First(listing, path).Some?
      decreases left
    {
      var path :| path in left;
      if path !in files {
        return Err(NotFound(path));
      }
      left := left - {path};
    }
    return Ok(files);
  }

  method AddSmartDependencies(listing: seq<File>, planned: map<string, Planned>, selected: set<string>, reason: Reason)
    returns (r: map<string, Planned>)
    requires Records(planned, listing, selected, NoReason())
    ensures Records(r, listing, selected, reason)
  {
    r := planned;
    forall path
      ensures First(listing, path).Some? ==> First(listing, path).value.path == path
    {
      FirstHolds(listing, path);
    }
    for i := 0 to |listing|
      invariant forall path | path in planned :: path in r && r[path] == planned[path]
      invariant forall path | path in r && path !in planned ::
                  First(listing[..i], path).Some? && path !in selected && reason(path).Some? &&
                  r[path] == PlannedFile(First(listing[..i], path).value, true, reason(path).value)
      invariant forall path | First(listing[..i], path).Some? && reason(path).Some? :: path in r
    {
      var file := listing[i];
      assert listing[..i + 1] == listing[..i] + [file];
      forall path
        ensures First(listing[..i + 1], path) ==
                if First(listing[..i], path).Some? then First(listing[..i], path) else if file.path == path then Some(file) else None
      {
        FirstAppend(listing[..i], file, path);
      }
      if file.path !in r && reason(file.path).Some? {
        ListedSelected(listing, planned, selected, i);
        r := r[file.path := PlannedFile(file, true, reason(file.path).value)];
      }
    }
    assert listing[..|listing|] == listing;
    DependenciesRecorded(listing, planned, r, selected, reason);
  }

  lemma ListedSelected(listing: seq<File>, planned: map<string, Planned>, selected: set<string>, i: nat)
    requires Records(planned, listing, selected, NoReason()) && i < |listing| && listing[i].path !in planned
    ensures listing[i].path !in selected
  {
    FirstHolds(listing, listing[i].path);
  }

  lemma DependenciesRecorded(listing: seq<File>, planned: map<string, Planned>, r: map<string, Planned>, selected: set<string>, reason: Reason)
    requires Records(planned, listing, selected, NoReason())
    requires forall path | path in planned :: path in r && r[path] == planned[path]
    requires forall path | path in r && path !in planned ::
               First(listing, path).Some? && path !in selected && reason(path).Some? &&
               r[path] == PlannedFile(First(listing, path).value, true, reason(path).value)
    requires forall path | First(listing, path).Some? && reason(path).Some? :: path in r
    ensures Records(r, listing, selected, reason)
  {
    forall path
      ensures path in r <==> First(listing, path).Some? && Wanted(path, selected, reason)
      ensures path in r && First(listing, path).Some? && Wanted(First(listing, path).value.path, selected, reason) ==>
                r[path] == RecordOf(First(listing, path).value, selected, reason)
    {
      FirstHolds(listing, path);
      assert path in planned <==> First(listing, path).Some? && Wanted(path, selected, NoReason());
    }
  }

  // Totals

  function Sizes(files: seq<Planned>): int {
    if files == [] then 0 else Sizes(files[..|files| - 1]) + files[|files| - 1].size
  }

  /** The records in listing order, one for each listed file that is planned. */
  function InOrder(listing: seq<File>, planned: map<string, Planned>): seq<Planned> {
    if listing == [] then []
    else
      var before, last := InOrder(listing[..|listing| - 1], planned), listing[|listing| - 1];
      if last.path in planned then before + [planned[last.path]] else before
  }

  function ListedBytes(listing: seq<File>, planned: map<string, Planned>): int {
    if listing == [] then 0
    else
      var last := listing[|listing| - 1];
      ListedBytes(listing[..|listing| - 1], planned) + if last.path in planned then last.size else 0
  }

  predicate ByPath(a: Planned, b: Planned) {
    AtMost(a.path, b.path)
  }

  method OrderedPlannedFiles(listing: seq<File>, planned: map<string, Planned>) returns (r: Result<Totals>)
    ensures r.Ok? <==> forall f | f in listing && f.path in planned :: f.size >= 0
    ensures r.Ok? ==> r.value == Totals(Sort(InOrder(listing, planned), ByPath), ListedBytes(listing, planned))
    ensures r.Err? ==> r.error.InvalidSize? && exists f :: f in listing && f.path == r.error.path && f.size < 0
  {
    var files: seq<Planned> := [];
    var bytes := 0;
    for i := 0 to |listing|
      invariant files == InOrder(listing[..i], planned) && bytes == ListedBytes(listing[..i], planned)
      invariant forall j | 0 <= j < i && listing[j].path in planned :: listing[j].size >= 0
    {
      var file := listing[i];
      assert listing[..i + 1][..i] == listing[..i];
      if file.path in planned {
        if file.size < 0 {
          assert file in listing;
          return Err(InvalidSize(file.path));
        }
        bytes := bytes + file.size;
        files := files + [planned[file.path]];
      }
    }
    assert listing[..|listing|] == listing;
    return Ok(Totals(Sort(files, ByPath), bytes));
  }

  /** Repositories list no path twice with two sizes. */
  predicate OneSizeEach(listing: seq<File>) {
    forall i, j | 0 <= i < j < |listing| && listing[i].path == listing[j].path :: listing[i].size == listing[j].size
  }

  lemma {:induction false} BytesAreSizes(listing: seq<File>, all: seq<File>, planned: map<string, Planned>, selected: set<string>, reason: Reason)
    requires Records(planned, all, selected, reason) && OneSizeEach(all) && forall f | f in listing :: f in all
    ensures ListedBytes(listing, planned) == Sizes(InOrder(listing, planned))
    decreases |listing|
  {
    if listing != [] {
      var before, last := listing[..|listing| - 1], listing[|listing| - 1];
      BytesAreSizes(before, all, planned, selected, reason);
      if last.path in planned {
        FirstHolds(all, last.path);
        assert last in all;
        assert planned[last.path].size == last.size;
        assert InOrder(listing, planned)[..|InOrder(before, planned)|] == InOrder(before, planned);
      }
    }
  }

  lemma {:induction false} SizesInsert(f: Planned, files: seq<Planned>)
    ensures Sizes(Insert(f, files, ByPath)) == f.size + Sizes(files)
    decreases |files|
  {
    SizesAppend([f], files);
    assert [f][..0] == [];
    if files != [] {
      SizesAppend([files[0]], files[1..]);
      assert [files[0]][..0] == [] && files == [files[0]] + files[1..];
      SizesAppend([files[0]], Insert(f, files[1..], ByPath));
      SizesInsert(f, files[1..]);
    } else {
      assert [f] + files == [f];
    }
  }

  lemma {:induction false} SizesAppend(a: seq<Planned>, b: seq<Planned>)
    ensures Sizes(a + b) == Sizes(a) + Sizes(b)
    decreases |b|
  {
    if b == [] {
      assert a + b == a;
    } else {
      assert (a + b)[..|a + b| - 1] == a + b[..|b| - 1];
      SizesAppend(a, b[..|b| - 1]);
    }
  }

  lemma {:induction false} SizesSorted(files: seq<Planned>)
    ensures Sizes(Sort(files, ByPath)) == Sizes(files)
    decreases |files|
  {
    if files != [] {
      SizesSorted(files[1..]);
      SizesInsert(files[0], Sort(files[1..], ByPath));
      SizesAppend([files[0]], files[1..]);
      assert [files[0]][..0] == [] && files == [files[0]] + files[1..];
    }
  }

  /** The plan's total is the sum of its sizes, dependencies included. */
  lemma TotalExact(listing: seq<File>, planned: map<string, Planned>, selected: set<string>, reason: Reason)
    requires Records(planned, listing, selected, reason) && OneSizeEach(listing)
    ensures ListedBytes(listing, planned) == Sizes(Sort(InOrder(listing, planned), ByPath))
  {
    BytesAreSizes(listing, listing, planned, selected, reason);
    SizesSorted(InOrder(listing, planned));
  }

  /** What is asked for: the requested paths, or everything listed. */
  function Selected(listing: seq<File>, requested: seq<string>, mode: Mode): set<string> {
    (set path | path in requested) + if mode.Snapshot? || requested == [] then set f | f in listing :: f.path else {}
  }

  function ReasonFor(mode: Mode, reason: Reason): Reason {
    if mode.Explicit? then NoReason() else reason
  }

  /** The snapshot is complete, every path asked for is listed, and no wanted file has a negative size. */
  predicate Plannable(listing: seq<File>, requested: seq<string>, mode: Mode, skipped: seq<string>, reason: Reason) {
    var selected := Selected(listing, requested, mode);
    && (mode.Snapshot? ==> skipped == [])
    && (forall path | path in selected :: First(listing, path).Some?)
    && (forall f | f in listing && Wanted(f.path, selected, ReasonFor(mode, reason)) :: f.size >= 0)
  }

  // When the total is not exact

  function FirstSize(listing: seq<File>, path: string): int {
    if First(listing, path).Some? then First(listing, path).value.size else 0
  }

  /** By how much the sizes listed under some paths exceed those of the first files listed under them. */
  function Excess(part: seq<File>, listing: seq<File>, paths: set<string>): int {
    if part == [] then 0
    else
      var last := part[|part| - 1];
      Excess(part[..|part| - 1], listing, paths) + if last.path in paths then last.size - FirstSize(listing, last.path) else 0
  }

  lemma {:induction false} ExcessSplit(part: seq<File>, listing: seq<File>, paths: set<string>, path: string)
    requires path in paths
    ensures Excess(part, listing, paths) == Excess(part, listing, paths - {path}) + Excess(part, listing, {path})
    decreases |part|
  {
    if part != [] {
      ExcessSplit(part[..|part| - 1], listing, paths, path);
    }
  }

  lemma {:induction false} NoExcess(part: seq<File>, listing: seq<File>)
    ensures Excess(part, listing, {}) == 0
    decreases |part|
  {
    if part != [] {
      NoExcess(part[..|part| - 1], listing);
    }
  }

  lemma {:induction false} ExcessOfMany(listing: seq<File>, paths: set<string>)
    requires forall path | path in paths :: Excess(listing, listing, {path}) == 0
    ensures Excess(listing, listing, paths) == 0
    decreases |paths|
  {
    if paths == {} {
      NoExcess(listing, listing);
    } else {
      var path :| path in paths;
      ExcessSplit(listing, listing, paths, path);
      assert |paths - {path}| < |paths|;
      ExcessOfMany(listing, paths - {path});
    }
  }

  lemma {:induction false} GapIsExcess(part: seq<File>, listing: seq<File>, planned: map<string, Planned>, selected: set<string>, reason: Reason)
    requires Records(planned, listing, selected, reason) && forall f | f in part :: f in listing
    ensures ListedBytes(part, planned) == Sizes(InOrder(part, planned)) + Excess(part, listing, planned.Keys)
    decreases |part|
  {
    if part != [] {
      var before, last := part[..|part| - 1], part[|part| - 1];
      GapIsExcess(before, listing, planned, selected, reason);
      FirstHolds(listing, last.path);
      if last.path in planned {
        assert planned[last.path].size == FirstSize(listing, last.path);
        assert InOrder(part, planned)[..|InOrder(before, planned)|] == InOrder(before, planned);
      }
    }
  }

  ghost predicate Exact(listing: seq<File>, planned: map<string, Planned>) {
    ListedBytes(listing, planned) == Sizes(Sort(InOrder(listing, planned), ByPath))
  }

  lemma OnePathRecorded(listing: seq<File>, path: string) returns (planned: map<string, Planned>)
    requires First(listing, path).Some?
    ensures Records(planned, listing, {path}, NoReason()) && planned.Keys == {path}
    ensures Selected(listing, [path], Explicit) == {path}
  {
    FirstHolds(listing, path);
    planned := map[path := RecordOf(First(listing, path).value, {path}, NoReason())];
    forall p
      ensures First(listing, p).Some? ==> First(listing, p).value.path == p
    {
      FirstHolds(listing, p);
    }
  }

  lemma {:induction false} UnlistedHasNoExcess(part: seq<File>, listing: seq<File>, path: string)
    requires First(listing, path).None? && forall f | f in part :: f in listing
    ensures Excess(part, listing, {path}) == 0
    decreases |part|
  {
    if part != [] {
      UnlistedHasNoExcess(part[..|part| - 1], listing, path);
      FirstHolds(listing, path);
      assert part[|part| - 1] in listing;
    }
  }

  /** No file listed under the path has a negative size. */
  predicate Sized(listing: seq<File>, path: string) {
    forall f | f in listing && f.path == path :: f.size >= 0
  }

  /** Every plan that can be made of a listing has an exact total. */
  ghost predicate AlwaysExact(listing: seq<File>) {
    forall requested, mode, skipped, reason, planned
      | Plannable(listing, requested, mode, skipped, reason)
        && Records(planned, listing, Selected(listing, requested, mode), ReasonFor(mode, reason)) ::
      Exact(listing, planned)
  }

  lemma PlannedSized(listing: seq<File>, requested: seq<string>, mode: Mode, skipped: seq<string>, reason: Reason,
                     planned: map<string, Planned>, path: string)
    requires Plannable(listing, requested, mode, skipped, reason) && path in planned
    requires Records(planned, listing, Selected(listing, requested, mode), ReasonFor(mode, reason))
    ensures Sized(listing, path)
  {
    hide Selected, ReasonFor;
    assert Wanted(path, Selected(listing, requested, mode), ReasonFor(mode, reason));
  }

  /** Every plan that can be made of a listing has an exact total exactly when, for each
      path listed without a negative size, the listed sizes add up to the first size as
      often as the path is listed. */
  lemma TotalExactly(listing: seq<File>)
    ensures AlwaysExact(listing) <==> forall path | Sized(listing, path) :: Excess(listing, listing, {path}) == 0
  {
    hide Sized;
    if AlwaysExact(listing) {
      forall path | Sized(listing, path)
        ensures Excess(listing, listing, {path}) == 0
      {
        if First(listing, path).Some? {
          OnePathExact(listing, path);
        } else {
          UnlistedHasNoExcess(listing, listing, path);
        }
      }
    }
    if forall path | Sized(listing, path) :: Excess(listing, listing, {path}) == 0 {
      forall requested, mode, skipped, reason, planned
        | Plannable(listing, requested, mode, skipped, reason)
          && Records(planned, listing, Selected(listing, requested, mode), ReasonFor(mode, reason))
        ensures Exact(listing, planned)
      {
        PlanExact(listing, requested, mode, skipped, reason, planned);
      }
    }
  }

  lemma OnePathExact(listing: seq<File>, path: string)
    requires AlwaysExact(listing) && Sized(listing, path) && First(listing, path).Some?
    ensures Excess(listing, listing, {path}) == 0
  {
    hide Excess, Exact;
    var planned := OnePathRecorded(listing, path);
    FirstHolds(listing, path);
    assert Plannable(listing, [path], Explicit, [], NoReason());
    assert Exact(listing, planned);
    ExactIsNoExcess(listing, planned, {path}, NoReason());
  }

  lemma PlanExact(listing: seq<File>, requested: seq<string>, mode: Mode, skipped: seq<string>, reason: Reason,
                  planned: map<string, Planned>)
    requires Plannable(listing, requested, mode, skipped, reason)
    requires Records(planned, listing, Selected(listing, requested, mode), ReasonFor(mode, reason))
    requires forall path | Sized(listing, path) :: Excess(listing, listing, {path}) == 0
    ensures Exact(listing, planned)
  {
    hide Excess, Exact, Sized, Plannable, Records, Selected, ReasonFor;
    forall path | path in planned.Keys
      ensures Excess(listing, listing, {path}) == 0
    {
      PlannedSized(listing, requested, mode, skipped, reason, planned, path);
    }
    ExcessOfMany(listing, planned.Keys);
    ExactIsNoExcess(listing, planned, Selected(listing, requested, mode), ReasonFor(mode, reason));
  }

  lemma ExactIsNoExcess(listing: seq<File>, planned: map<string, Planned>, selected: set<string>, reason: Reason)
    requires Records(planned, listing, selected, reason)
    ensures Exact(listing, planned) <==> Excess(listing, listing, planned.Keys) == 0
  {
    GapIsExcess(listing, listing, planned, selected, reason);
    SizesSorted(InOrder(listing, planned));
  }

  /** A path listed with sizes 1 and 2 has an excess. */
  lemma TwoSizesExceed(path: string)
    ensures var listing := [File(path, 1, ""), File(path, 2, "")]; Excess(listing, listing, {path}) == 1
  {
    var listing := [File(path, 1, ""), File(path, 2, "")];
    assert listing[..1] == [listing[0]] && listing[..1][..0] == [];
    assert Excess(listing[..1][..0], listing, {path}) == 0;
    assert Excess(listing[..1], listing, {path}) == 0;
  }

  // A whole plan

  datatype Download = Download(files: seq<Planned>, totalBytes: int, skipped: seq<string>, snapshot: bool)

  method SelectPaths(listing: seq<File>, requested: seq<string>, mode: Mode, skipped: seq<string>, safe: string -> bool)
    returns (r: Result<set<string>>)
    ensures r.Ok? ==> r.value == Selected(listing, requested, mode)
    ensures r.Ok? <==> (forall path | path in requested :: safe(path)) && (mode.Snapshot? ==> skipped == [])
    ensures r.Err? ==> if r.error.BadPath? then r.error.path in requested && !safe(r.error.path)
                       else mode.Snapshot? && skipped != [] && r.error == Incomplete(skipped[0])
  {
    var selected: set<string> := {};
    for i := 0 to |requested|
      invariant selected == (set path | path in requested[..i]) && forall path | path in requested[..i] :: safe(path)
    {
      assert requested[..i + 1] == requested[..i] + [requested[i]];
      if !safe(requested[i]) {
        return Err(BadPath(requested[i]));
      }
      selected := selected + {requested[i]};
    }
    assert requested[..|requested|] == requested;
    if mode.Snapshot? && |skipped| > 0 {
      return Err(Incomplete(skipped[0]));
    }
    if mode.Snapshot? || selected == {} {
      assert selected == {} ==> requested == [] by {
        assert requested != [] ==> requested[0] in selected;
      }
      for i := 0 to |listing|
        invariant selected == (set path | path in requested) + set f | f in listing[..i] :: f.path
      {
        assert listing[..i + 1] == listing[..i] + [listing[i]];
        selected := selected + {listing[i].path};
      }
      assert listing[..|listing|] == listing;
    }
    return Ok(selected);
  }

  // Names that differ only by letter case

  predicate Clash(first: string, second: string, fold: string -> string) {
    first != second && fold(first) == fold(second)
  }

  method FindCollision(files: seq<Planned>, caseInsensitive: bool, fold: string -> string) returns (r: Option<(string, string)>)
    ensures r.Some? ==> caseInsensitive && Clash(r.value.0, r.value.1, fold)
                        && exists i, j :: 0 <= i < j < |files| && files[i].path == r.value.0 && files[j].path == r.value.1
    ensures r.None? && caseInsensitive ==> forall i, j | 0 <= i < j < |files| :: !Clash(files[i].path, files[j].path, fold)
  {
    if !caseInsensitive {
      return None;
    }
    var seen: map<string, string> := map[];
    for j := 0 to |files|
      invariant forall i | 0 <= i < j :: fold(files[i].path) in seen && seen[fold(files[i].path)] == files[i].path
      invariant forall folded | folded in seen :: exists i :: 0 <= i < j && files[i].path == seen[folded] && fold(files[i].path) == folded
    {
      var path := files[j].path;
      if fold(path) in seen && seen[fold(path)] != path {
        return Some((seen[fold(path)], path));
      }
      seen := seen[fold(path) := path];
    }
    return None;
  }

  /** No two wanted files have names that differ only by letter case. */
  ghost predicate CaseApart(listing: seq<File>, selected: set<string>, reason: Reason, fold: string -> string) {
    forall f, g | f in listing && g in listing && Wanted(f.path, selected, reason) && Wanted(g.path, selected, reason) ::
      !Clash(f.path, g.path, fold)
  }

  lemma {:induction false} InOrderPaths(part: seq<File>, listing: seq<File>, planned: map<string, Planned>, selected: set<string>, reason: Reason)
    requires Records(planned, listing, selected, reason) && forall f | f in part :: f in listing
    ensures forall p | p in InOrder(part, planned) :: exists f :: f in part && f.path == p.path && p.path in planned
    ensures forall f | f in part && f.path in planned :: exists p :: p in InOrder(part, planned) && p.path == f.path
    decreases |part|
  {
    if part != [] {
      var before, last := part[..|part| - 1], part[|part| - 1];
      InOrderPaths(before, listing, planned, selected, reason);
      FirstHolds(listing, last.path);
      assert forall f :: f in part <==> f in before || f == last;
      if last.path in planned {
        assert planned[last.path].path == last.path;
        assert planned[last.path] in InOrder(part, planned);
        assert forall p :: p in InOrder(part, planned) <==> p in InOrder(before, planned) || p == planned[last.path];
      }
    }
  }

  lemma PlannedMembers(listing: seq<File>, planned: map<string, Planned>)
    ensures forall p :: p in Sort(InOrder(listing, planned), ByPath) <==> p in InOrder(listing, planned)
  {
    hide InOrder, ByPath, Sort;
    var unsorted := InOrder(listing, planned);
    ByPathOrder();
    SortSorts(unsorted, ByPath);
    forall p
      ensures p in Sort(unsorted, ByPath) <==> p in unsorted
    {
      assert p in Sort(unsorted, ByPath) <==> p in multiset(Sort(unsorted, ByPath));
      assert p in unsorted <==> p in multiset(unsorted);
    }
  }

  lemma WantedOf(listing: seq<File>, planned: map<string, Planned>, selected: set<string>, reason: Reason, i: nat) returns (f: File)
    requires Records(planned, listing, selected, reason) && i < |Sort(InOrder(listing, planned), ByPath)|
    ensures f in listing && f.path == Sort(InOrder(listing, planned), ByPath)[i].path && Wanted(f.path, selected, reason)
  {
    hide Records, Sort, ByPath, Wanted, InOrder;
    var p := Sort(InOrder(listing, planned), ByPath)[i];
    PlannedMembers(listing, planned);
    InOrderPaths(listing, listing, planned, selected, reason);
    assert p in InOrder(listing, planned);
    f :| f in listing && f.path == p.path && p.path in planned;
    WantedPlanned(listing, planned, selected, reason);
  }

  lemma PlannedAt(listing: seq<File>, planned: map<string, Planned>, selected: set<string>, reason: Reason, f: File) returns (i: nat)
    requires Records(planned, listing, selected, reason) && f in listing && Wanted(f.path, selected, reason)
    ensures i < |Sort(InOrder(listing, planned), ByPath)| && Sort(InOrder(listing, planned), ByPath)[i].path == f.path
  {
    hide Records, Sort, ByPath, Wanted, InOrder;
    PlannedMembers(listing, planned);
    InOrderPaths(listing, listing, planned, selected, reason);
    WantedPlanned(listing, planned, selected, reason);
    var p :| p in InOrder(listing, planned) && p.path == f.path;
    i := Position(p, Sort(InOrder(listing, planned), ByPath));
  }

  lemma Position<T>(x: T, xs: seq<T>) returns (i: nat)
    requires x in xs
    ensures i < |xs| && xs[i] == x
  {
    i :| 0 <= i < |xs| && xs[i] == x;
  }

  /** A collision among the planned files is one among the wanted ones. */
  lemma CollisionMeans(listing: seq<File>, planned: map<string, Planned>, selected: set<string>, reason: Reason,
                       files: seq<Planned>, fold: string -> string)
    requires Records(planned, listing, selected, reason) && files == Sort(InOrder(listing, planned), ByPath)
    ensures (forall i, j | 0 <= i < j < |files| :: !Clash(files[i].path, files[j].path, fold)) <==> CaseApart(listing, selected, reason, fold)
  {
    hide Records, Sort, ByPath, Wanted, InOrder;
    if CaseApart(listing, selected, reason, fold) {
      forall i, j | 0 <= i < j < |files|
        ensures !Clash(files[i].path, files[j].path, fold)
      {
        var f := WantedOf(listing, planned, selected, reason, i);
        var g := WantedOf(listing, planned, selected, reason, j);
        assert !Clash(f.path, g.path, fold);
      }
    }
    if forall i, j | 0 <= i < j < |files| :: !Clash(files[i].path, files[j].path, fold) {
      forall f, g | f in listing && g in listing && Wanted(f.path, selected, reason) && Wanted(g.path, selected, reason)
        ensures !Clash(f.path, g.path, fold)
      {
        var i := PlannedAt(listing, planned, selected, reason, f);
        var j := PlannedAt(listing, planned, selected, reason, g);
        assert i < j ==> !Clash(files[i].path, files[j].path, fold);
        assert j < i ==> !Clash(files[j].path, files[i].path, fold);
      }
    }
  }

  lemma ByPathOrder()
    ensures TotalPreorder(ByPath)
  {
    AtMostIsOrder();
  }

  /** What planning reads from outside: whether the repository's name is valid, which
      paths are, how names fold where letter case does not count, and the destination. */
  datatype Host = Host(repositoryOk: bool, safe: string -> bool, caseInsensitive: bool, fold: string -> string, destination: Option<string>)

  /** A plan fails on a bad name, an incomplete snapshot, an unlisted path, a negative size,
      names that differ only by letter case or a destination that cannot be resolved, and
      otherwise holds the records of all that is wanted, with an exact total where no path
      is listed with two sizes. */
  method BuildPlan(listing: seq<File>, requested: seq<string>, mode: Mode, skipped: seq<string>, reason: Reason, host: Host)
    returns (r: Result<Download>, ghost planned: map<string, Planned>)
    ensures r.Ok? <==>
              && host.repositoryOk && (forall path | path in requested :: host.safe(path))
              && Plannable(listing, requested, mode, skipped, reason)
              && (host.caseInsensitive ==> CaseApart(listing, Selected(listing, requested, mode), ReasonFor(mode, reason), host.fold))
              && host.destination.Some?
    ensures r.Ok? ==>
              && Records(planned, listing, Selected(listing, requested, mode), ReasonFor(mode, reason))
              && r.value == Download(Sort(InOrder(listing, planned), ByPath), ListedBytes(listing, planned), skipped, mode.Snapshot?)
              && (OneSizeEach(listing) ==> r.value.totalBytes == Sizes(r.value.files))
  {
    hide First, Sort, Excess, ListedBytes, InOrder, CaseApart, Records, Wanted, Clash, OneSizeEach;
    planned := map[];
    if !host.repositoryOk {
      return Err(BadRepository), planned;
    }
    var asked := SelectPaths(listing, requested, mode, skipped, host.safe);
    if asked.Err? {
      return Err(asked.error), planned;
    }
    var selected := asked.value;
    var chosen := SelectedPlannedFiles(listing, selected);
    if chosen.Err? {
      return Err(chosen.error), planned;
    }
    var files := chosen.value;
    if !mode.Explicit? {
      files := AddSmartDependencies(listing, files, selected, reason);
    }
    planned := files;
    WantedPlanned(listing, files, selected, ReasonFor(mode, reason));
    var totals := OrderedPlannedFiles(listing, files);
    if totals.Err? {
      return Err(totals.error), planned;
    }
    CollisionMeans(listing, files, selected, ReasonFor(mode, reason), totals.value.files, host.fold);
    var collision := FindCollision(totals.value.files, host.caseInsensitive, host.fold);
    if collision.Some? {
      return Err(Collision(collision.value.0, collision.value.1)), planned;
    }
    if host.destination.None? {
      return Err(NoDestination), planned;
    }
    if OneSizeEach(listing) {
      TotalExact(listing, files, selected, ReasonFor(mode, reason));
    }
    r := Ok(Download(totals.value.files, totals.value.bytes, skipped, mode.Snapshot?));
  }

  lemma WantedPlanned(listing: seq<File>, planned: map<string, Planned>, selected: set<string>, reason: Reason)
    requires Records(planned, listing, selected, reason)
    ensures forall f | f in listing :: f.path in planned <==> Wanted(f.path, selected, reason)
  {
    forall f | f in listing
      ensures f.path in planned <==> Wanted(f.path, selected, reason)
    {
      FirstHolds(listing, f.path);
    }
  }

  // Files already present

  function Remaining(files: seq<Planned>, present: Planned -> bool): seq<Planned> {
    if files == [] then []
    else
      var before, last := Remaining(files[..|files| - 1], present), files[|files| - 1];
      if present(last) then before else before + [last]
  }

  function SkippedPaths(files: seq<Planned>, present: Planned -> bool): seq<string> {
    if files == [] then []
    else
      var before, last := SkippedPaths(files[..|files| - 1], present), files[|files| - 1];
      if present(last) then before + [last.path] else before
  }

  lemma RemainingGrows(files: seq<Planned>, i: nat, present: Planned -> bool)
    requires i < |files|
    ensures Remaining(files[..i + 1], present) == Remaining(files[..i], present) + if present(files[i]) then [] else [files[i]]
    ensures SkippedPaths(files[..i + 1], present) == SkippedPaths(files[..i], present) + if present(files[i]) then [files[i].path] else []
    ensures Sizes(files[..i + 1]) == Sizes(files[..i]) + files[i].size
  {
    assert files[..i + 1][..i] == files[..i];
  }

  /** Whether a file is there already, where that can be found out. */
  function Known(present: Planned -> Option<bool>): Planned -> bool {
    (f: Planned) => present(f) == Some(true)
  }

  /** Takes out the files that are there already; the total stays exact. Fails exactly
      when it cannot be found out for some file. */
  method WithoutPresentFiles(plan: Download, present: Planned -> Option<bool>) returns (r: Option<Download>)
    ensures r.None? <==> !plan.snapshot && exists f :: f in plan.files && present(f).None?
    ensures plan.snapshot ==> r == Some(plan)
    ensures r.Some? && !plan.snapshot ==>
              && r.value.files == Remaining(plan.files, Known(present))
              && r.value.skipped == plan.skipped + SkippedPaths(plan.files, Known(present))
              && r.value.snapshot == plan.snapshot
    ensures r.Some? ==> r.value.totalBytes - Sizes(r.value.files) == plan.totalBytes - Sizes(plan.files)
  {
    hide Remaining, SkippedPaths, Sizes;
    if plan.snapshot {
      return Some(plan);
    }
    var remaining: seq<Planned> := [];
    var skipped, bytes := plan.skipped, plan.totalBytes;
    NothingYet(plan.files, Known(present));
    for i := 0 to |plan.files|
      invariant forall j | 0 <= j < i :: present(plan.files[j]).Some?
      invariant remaining == Remaining(plan.files[..i], Known(present))
      invariant skipped == plan.skipped + SkippedPaths(plan.files[..i], Known(present))
      invariant bytes - Sizes(remaining) == plan.totalBytes - Sizes(plan.files[..i])
    {
      var file := plan.files[i];
      RemainingGrows(plan.files, i, Known(present));
      var found := present(file);
      if found.None? {
        assert file in plan.files;
        return None;
      }
      if !found.value {
        SizesAppend(remaining, [file]);
        SizeOfOne(file);
        remaining := remaining + [file];
        continue;
      }
      skipped := skipped + [file.path];
      bytes := bytes - file.size;
    }
    assert plan.files[..|plan.files|] == plan.files;
    r := Some(Download(remaining, bytes, skipped, plan.snapshot));
  }

  lemma NothingYet(files: seq<Planned>, present: Planned -> bool)
    ensures Remaining(files[..0], present) == [] && SkippedPaths(files[..0], present) == [] && Sizes([]) == 0 && Sizes(files[..0]) == 0
  {
  }

  lemma SizeOfOne(file: Planned)
    ensures Sizes([file]) == file.size
  {
  }
}

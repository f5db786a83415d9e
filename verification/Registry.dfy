/** The registry of a cluster's models: the view rebuilt from what nodes report,
    the choice of a replica, and the leases on routes. */
module Registry {
  import opened Basics
  import opened Identity
  import opened Ordering

  datatype Snapshot = Snapshot(url: string, models: seq<Model>)

  datatype Lane = Text | Image | Voice | Music

  datatype Route = Route(model: Model, remote: bool, lane: Lane)

  /** What a choice of a replica is made for. All of them keep their turns in one counter a name. */
  datatype Selection = ForText | ForTools | ForEmbeddings | ForImages | ForVoice | ForMusic

  function LaneOf(selection: Selection): Lane {
    match selection
    case ForImages => Image
    case ForVoice => Voice
    case ForMusic => Music
    case _ => Text
  }

  /** Which models a selection but the first takes to serve a name. */
  type Service = (Selection, Model, string) -> bool

  function LaneName(lane: Lane): string {
    match lane
    case Text => "text"
    case Image => "image"
    case Voice => "voice"
    case Music => "music"
  }

  function RouteKey(r: Route): string {
    r.model.nodeId + ":" + r.model.localId + ":" + LaneName(r.lane)
  }

  // Leases

  function Count(counts: map<string, int>, key: string): int {
    if key in counts then counts[key] else 0
  }

  /** The leases on a key that have not been released. */
  function Holders(open: map<nat, string>, key: string): set<nat> {
    set id | id in open && open[id] == key
  }

  ghost predicate BusyCounts(busy: map<string, int>, open: map<nat, string>) {
    forall key :: Count(busy, key) == |Holders(open, key)|
  }

  lemma HoldersOpened(open: map<nat, string>, id: nat, key: string, k: string)
    requires id !in open
    ensures |Holders(open[id := key], k)| == |Holders(open, k)| + if k == key then 1 else 0
  {
    assert Holders(open[id := key], k) == Holders(open, k) + if k == key then {id} else {};
    assert id !in Holders(open, k);
  }

  lemma HoldersClosed(open: map<nat, string>, id: nat, k: string)
    requires id in open
    ensures |Holders(open - {id}, k)| == |Holders(open, k)| - if k == open[id] then 1 else 0
    ensures k == open[id] ==> |Holders(open, k)| > 0
  {
    assert k == open[id] ==> id in Holders(open, k);
    assert Holders(open - {id}, k) == Holders(open, k) - if k == open[id] then {id} else {};
  }

  lemma LeaseOpened(busy: map<string, int>, open: map<nat, string>, id: nat, key: string)
    requires BusyCounts(busy, open) && id !in open
    ensures BusyCounts(busy[key := Count(busy, key) + 1], open[id := key])
  {
    hide Holders;
    var busy', open' := busy[key := Count(busy, key) + 1], open[id := key];
    forall k
      ensures Count(busy', k) == |Holders(open', k)|
    {
      HoldersOpened(open, id, key, k);
    }
  }

  lemma LeaseClosed(busy: map<string, int>, open: map<nat, string>, id: nat)
    requires BusyCounts(busy, open) && id in open
    ensures Count(busy, open[id]) > 0
    ensures BusyCounts(busy[open[id] := Count(busy, open[id]) - 1], open - {id})
  {
    hide Holders;
    HoldersClosed(open, id, open[id]);
    forall k
      ensures Count(busy[open[id] := Count(busy, open[id]) - 1], k) == |Holders(open - {id}, k)|
    {
      HoldersClosed(open, id, k);
    }
  }

  // Choosing a replica

  predicate ByRoute(a: Model, b: Model) {
    AtMost(RouteSortKey(a), RouteSortKey(b))
  }

  predicate Serves(m: Model, selection: Selection, name: string, service: Service) {
    !m.disabled && if selection.ForText? then m.publicId == name else service(selection, m, name)
  }

  function Serving(view: seq<Model>, selection: Selection, name: string, service: Service): seq<Model> {
    if view == [] then []
    else
      var before, last := Serving(view[..|view| - 1], selection, name, service), view[|view| - 1];
      if Serves(last, selection, name, service) then before + [last] else before
  }

  function Replicas(view: seq<Model>, selection: Selection, name: string, service: Service): seq<Model> {
    Sort(Serving(view, selection, name, service), ByRoute)
  }

  predicate Usable(m: Model, localId: string, localHealthy: bool) {
    m.available && (m.nodeId == localId ==> localHealthy)
  }

  predicate IdleLocal(m: Model, localId: string, localHealthy: bool, busy: map<string, int>, lane: Lane) {
    m.nodeId == localId && m.available && localHealthy && Count(busy, RouteKey(Route(m, false, lane))) == 0
  }

  predicate RemoteReady(m: Model, localId: string) {
    m.nodeId != localId && m.available
  }

  /** The available replicas of other nodes, in order. */
  function Remotes(replicas: seq<Model>, localId: string): seq<Model> {
    if replicas == [] then []
    else
      var before, last := Remotes(replicas[..|replicas| - 1], localId), replicas[|replicas| - 1];
      if RemoteReady(last, localId) then before + [last] else before
  }

  lemma {:induction false} RemotesHold(replicas: seq<Model>, localId: string)
    ensures forall m :: m in Remotes(replicas, localId) <==> m in replicas && RemoteReady(m, localId)
    decreases |replicas|
  {
    if replicas != [] {
      RemotesHold(replicas[..|replicas| - 1], localId);
      assert forall m :: m in replicas <==> m in replicas[..|replicas| - 1] || m == replicas[|replicas| - 1];
    }
  }

  // Turns

  function Following(index: int, k: int): int
    requires 0 <= index < k
  {
    if index + 1 == k then 0 else index + 1
  }

  lemma {:induction false} Multiples(a: int, b: int, k: int)
    requires a < b && k > 0
    ensures a * k + k <= b * k
    decreases b - a
  {
    if b == a + 1 {
      assert (a + 1) * k == a * k + k;
    } else {
      Multiples(a, b - 1, k);
      assert (b - 1) * k == b * k - k;
    }
  }

  lemma QuotientUnique(d: int, m: int, q: int, r: int, k: int)
    requires k > 0 && d * k + m == q * k + r && 0 <= m < k && 0 <= r < k
    ensures d == q && m == r
  {
    if d < q {
      Multiples(d, q, k);
    }
    if q < d {
      Multiples(q, d, k);
    }
  }

  lemma Division(n: int, k: int)
    requires k > 0
    ensures n == n / k * k + n % k && 0 <= n % k < k
  {
  }

  lemma TurnAdvances(counter: int, k: int)
    requires k > 0
    ensures (counter + 1) % k == Following(counter % k, k) && 0 <= counter % k < k
  {
    Division(counter, k);
    Division(counter + 1, k);
    var q, r := counter / k, counter % k;
    if r + 1 == k {
      assert (q + 1) * k == q * k + k;
      QuotientUnique((counter + 1) / k, (counter + 1) % k, q + 1, 0, k);
    } else {
      QuotientUnique((counter + 1) / k, (counter + 1) % k, q, r + 1, k);
    }
  }

  /** How often replica `j` is picked in the next `n` remote picks among `k` replicas. */
  function Picks(index: int, n: nat, k: int, j: int): nat
    requires 0 <= index < k
    decreases n
  {
    if n == 0 then 0 else (if index == j then 1 else 0) + Picks(Following(index, k), n - 1, k, j)
  }

  /** How many picks until it is the turn of `j`. */
  function Wait(index: int, k: int, j: int): int {
    if j >= index then j - index else j - index + k
  }

  lemma {:induction false} PicksBounded(index: int, n: nat, k: int, j: int)
    requires 0 <= index < k && 0 <= j < k
    ensures var c := Picks(index, n, k, j); Wait(index, k, j) + c * k - k < n <= Wait(index, k, j) + c * k
    decreases n
  {
    if n > 0 {
      PicksBounded(Following(index, k), n - 1, k, j);
      var rest := Picks(Following(index, k), n - 1, k, j);
      if index == j {
        assert Picks(index, n, k, j) == rest + 1;
        assert (rest + 1) * k == rest * k + k;
        assert Wait(Following(index, k), k, j) == k - 1;
      } else {
        assert Picks(index, n, k, j) == rest;
        assert Wait(Following(index, k), k, j) == Wait(index, k, j) - 1;
      }
    }
  }

  lemma Between(n: int, k: int, c: int, d: int, m: int, e: int, l: int)
    requires k > 0 && c * k - k < n < c * k + k
    requires n == d * k + m && 0 <= m < k && n + k - 1 == e * k + l && 0 <= l < k
    ensures d <= c <= e
  {
    if c < d {
      Multiples(c, d, k);
    }
    if e < c {
      Multiples(e, c, k);
    }
  }

  lemma DivideBetween(n: int, k: int, c: int)
    requires k > 0 && c * k - k < n < c * k + k
    ensures n / k <= c <= (n + k - 1) / k
  {
    Division(n, k);
    Division(n + k - 1, k);
    Between(n, k, c, n / k, n % k, (n + k - 1) / k, (n + k - 1) % k);
  }

  /** What a choice of route must be, and what it leaves of the turn counters. */
  ghost predicate Chosen(route: Option<Route>, next': map<string, int>, publicId: string, replicas: seq<Model>, localId: string,
                         localHealthy: bool, lane: Lane, busy: map<string, int>, next: map<string, int>) {
    var remotes := Remotes(replicas, localId);
    if exists m :: m in replicas && IdleLocal(m, localId, localHealthy, busy, lane) then
      && route.Some? && !route.value.remote && route.value.lane == lane && next' == next
      && route.value.model in replicas && IdleLocal(route.value.model, localId, localHealthy, busy, lane)
    else if remotes != [] then
      && route == Some(Route(remotes[Count(next, publicId) % |remotes|], true, lane))
      && next' == next[publicId := Following(Count(next, publicId) % |remotes|, |remotes|)]
    else
      && next' == next
      && (route.Some? ==> !route.value.remote && route.value.lane == lane && route.value.model in replicas &&
                          route.value.model.nodeId == localId && Usable(route.value.model, localId, localHealthy))
      && (route.None? ==> forall m | m in replicas :: !Usable(m, localId, localHealthy))
  }

  /** A choice fails exactly when no replica is usable, and otherwise is of a usable one. */
  lemma ChoiceFailsExactly(route: Option<Route>, next': map<string, int>, publicId: string, replicas: seq<Model>, localId: string,
                           localHealthy: bool, lane: Lane, busy: map<string, int>, next: map<string, int>)
    requires Chosen(route, next', publicId, replicas, localId, localHealthy, lane, busy, next)
    ensures route.None? <==> forall m | m in replicas :: !Usable(m, localId, localHealthy)
    ensures route.Some? ==> route.value.model in replicas && Usable(route.value.model, localId, localHealthy)
    ensures route.Some? ==> (route.value.remote <==> route.value.model.nodeId != localId)
  {
    RemotesHold(replicas, localId);
    var remotes := Remotes(replicas, localId);
    if remotes != [] {
      TurnAdvances(Count(next, publicId), |remotes|);
      assert remotes[Count(next, publicId) % |remotes|] in remotes;
    }
  }

  // Fairness of the turns

  /** One choice of a route: what it was made from, what was chosen, and the counters it left. */
  datatype Turn = Turn(selection: Selection, name: string, replicas: seq<Model>, localHealthy: bool, busy: map<string, int>,
                       route: Option<Route>, next: map<string, int>)

  ghost predicate TurnFrom(t: Turn, localId: string, next: map<string, int>) {
    Chosen(t.route, t.next, t.name, t.replicas, localId, t.localHealthy, LaneOf(t.selection), t.busy, next)
  }

  /** The counters after the first `i` choices. */
  function NextAt(turns: seq<Turn>, next: map<string, int>, i: nat): map<string, int>
    requires i <= |turns|
  {
    if i == 0 then next else turns[i - 1].next
  }

  /** A run of choices, each from the counters the one before it left; of any selections and names. */
  ghost predicate Turns(turns: seq<Turn>, localId: string, next: map<string, int>) {
    forall i | 0 <= i < |turns| :: TurnFrom(turns[i], localId, NextAt(turns, next, i))
  }

  predicate RemotePick(t: Turn, selection: Selection, name: string) {
    t.selection == selection && t.name == name && t.route.Some? && t.route.value.remote
  }

  /** How many of a selection's choices for a name went to other nodes. */
  function RemotePicks(turns: seq<Turn>, selection: Selection, name: string): nat {
    if turns == [] then 0 else (if RemotePick(turns[0], selection, name) then 1 else 0) + RemotePicks(turns[1..], selection, name)
  }

  /** How many of them went to the replica `m`. */
  function PicksOf(turns: seq<Turn>, selection: Selection, name: string, m: Model): nat {
    if turns == [] then 0
    else
      (if RemotePick(turns[0], selection, name) && turns[0].route.value.model == m then 1 else 0)
      + PicksOf(turns[1..], selection, name, m)
  }

  /** While these choices were made, the available replicas of other nodes were these, selection by selection. */
  ghost predicate FixedRemotes(turns: seq<Turn>, name: string, localId: string, lists: Selection -> seq<Model>) {
    forall i | 0 <= i < |turns| && turns[i].name == name :: Remotes(turns[i].replicas, localId) == lists(turns[i].selection)
  }

  /** The selection has the counter to itself, or nothing to share out. */
  ghost predicate OwnCounter(lists: Selection -> seq<Model>, selection: Selection) {
    |lists(selection)| <= 1 || forall other | other != selection :: lists(other) == []
  }

  /** A remote choice takes the replica whose turn it is and hands the turn on; any other leaves the turn. */
  lemma TurnPicks(t: Turn, localId: string, next: map<string, int>, selection: Selection, name: string, lists: Selection -> seq<Model>, j: nat)
    requires TurnFrom(t, localId, next) && OwnCounter(lists, selection) && Distinct(lists(selection)) && j < |lists(selection)|
    requires t.name == name ==> Remotes(t.replicas, localId) == lists(t.selection)
    ensures var k := |lists(selection)|; var index := Count(next, name) % k;
            && Count(t.next, name) % k == (if RemotePick(t, selection, name) then Following(index, k) else index)
            && (RemotePick(t, selection, name) ==> (t.route.value.model == lists(selection)[j] <==> index == j))
  {
    var remotes := lists(selection);
    var index := Count(next, name) % |remotes|;
    TurnAdvances(Count(next, name), |remotes|);
    TurnAdvances(Count(t.next, name), |remotes|);
    if RemotePick(t, selection, name) {
      assert t.route.value.model == remotes[index];
      assert index < j || j < index ==> remotes[index] != remotes[j];
      SmallRemainder(Following(index, |remotes|), |remotes|);
    } else if |remotes| > 1 {
      assert t.name == name && t.selection != selection ==> Remotes(t.replicas, localId) == [];
    }
  }

  lemma SmallRemainder(r: int, k: int)
    requires 0 <= r < k
    ensures r % k == r
  {
  }

  lemma TurnsTail(turns: seq<Turn>, localId: string, next: map<string, int>)
    requires Turns(turns, localId, next) && turns != []
    ensures TurnFrom(turns[0], localId, next) && Turns(turns[1..], localId, turns[0].next)
  {
    hide TurnFrom;
    var rest := turns[1..];
    assert TurnFrom(turns[0], localId, NextAt(turns, next, 0));
    forall i | 0 <= i < |rest|
      ensures TurnFrom(rest[i], localId, NextAt(rest, turns[0].next, i))
    {
      assert rest[i] == turns[i + 1] && NextAt(rest, turns[0].next, i) == NextAt(turns, next, i + 1);
    }
  }

  /** What the run gives a replica is what the walk round the replicas gives its place. */
  lemma {:induction false} TurnsWalk(turns: seq<Turn>, localId: string, next: map<string, int>, selection: Selection, name: string,
                                     lists: Selection -> seq<Model>, j: nat)
    requires Turns(turns, localId, next) && FixedRemotes(turns, name, localId, lists)
    requires OwnCounter(lists, selection) && Distinct(lists(selection)) && j < |lists(selection)|
    ensures var k := |lists(selection)|; 0 <= Count(next, name) % k < k
    ensures var k := |lists(selection)|;
            PicksOf(turns, selection, name, lists(selection)[j]) ==
              Picks(Count(next, name) % k, RemotePicks(turns, selection, name), k, j)
    decreases |turns|
  {
    hide TurnFrom, Remotes, Turns, OwnCounter;
    TurnAdvances(Count(next, name), |lists(selection)|);
    if turns != [] {
      TurnsTail(turns, localId, next);
      TurnsWalk(turns[1..], localId, turns[0].next, selection, name, lists, j);
      TurnPicks(turns[0], localId, next, selection, name, lists, j);
    }
  }

  lemma TurnsWindow(turns: seq<Turn>, localId: string, next: map<string, int>, from: nat, to: nat)
    requires Turns(turns, localId, next) && from <= to <= |turns|
    ensures Turns(turns[from..to], localId, NextAt(turns, next, from))
  {
    hide TurnFrom;
    var window := turns[from..to];
    forall i | 0 <= i < |window|
      ensures TurnFrom(window[i], localId, NextAt(window, NextAt(turns, next, from), i))
    {
      assert window[i] == turns[from + i] && NextAt(window, NextAt(turns, next, from), i) == NextAt(turns, next, from + i);
    }
  }

  /** Each replica of a selection's list gets n/k of its n remote choices, rounded down or up. */
  ghost predicate Fair(turns: seq<Turn>, selection: Selection, name: string, remotes: seq<Model>) {
    forall m | m in remotes ::
      var n, k := RemotePicks(turns, selection, name), |remotes|;
      n / k <= PicksOf(turns, selection, name, m) <= (n + k - 1) / k
  }

  /** Round robin is fair. In any stretch of any run of choices - local ones and ones for
      other names in between - over which the available replicas of other nodes stay the
      same, the choices of a selection that has the counter to itself are shared out evenly. */
  lemma FairShare(turns: seq<Turn>, localId: string, next: map<string, int>, from: nat, to: nat, selection: Selection, name: string,
                  lists: Selection -> seq<Model>)
    requires Turns(turns, localId, next) && from <= to <= |turns|
    requires FixedRemotes(turns[from..to], name, localId, lists)
    requires OwnCounter(lists, selection) && Distinct(lists(selection))
    ensures Fair(turns[from..to], selection, name, lists(selection))
  {
    hide Turns, FixedRemotes, RemotePicks, PicksOf, Picks, OwnCounter, Distinct;
    var window, start, remotes := turns[from..to], NextAt(turns, next, from), lists(selection);
    TurnsWindow(turns, localId, next, from, to);
    forall m | m in remotes
      ensures var n, k := RemotePicks(window, selection, name), |remotes|;
              n / k <= PicksOf(window, selection, name, m) <= (n + k - 1) / k
    {
      var j :| 0 <= j < |remotes| && remotes[j] == m;
      TurnsWalk(window, localId, start, selection, name, lists, j);
      var n := RemotePicks(window, selection, name);
      PicksBounded(Count(start, name) % |remotes|, n, |remotes|, j);
      DivideBetween(n, |remotes|, PicksOf(window, selection, name, m));
    }
  }

  lemma TurnsGrow(turns: seq<Turn>, localId: string, next: map<string, int>, t: Turn)
    requires Turns(turns, localId, next) && TurnFrom(t, localId, NextAt(turns, next, |turns|))
    ensures Turns(turns + [t], localId, next) && NextAt(turns + [t], next, |turns| + 1) == t.next
  {
    hide TurnFrom;
    var grown := turns + [t];
    forall i | 0 <= i < |grown|
      ensures TurnFrom(grown[i], localId, NextAt(grown, next, i))
    {
      assert NextAt(grown, next, i) == NextAt(turns, next, i);
      assert i < |turns| ==> TurnFrom(turns[i], localId, NextAt(turns, next, i));
    }
  }

  // When two selections share a counter

  /** Lists of available replicas of other nodes. */
  ghost predicate RemoteLists(lists: Selection -> seq<Model>, localId: string) {
    forall selection, m | m in lists(selection) :: RemoteReady(m, localId)
  }

  lemma {:induction false} RemotesAll(list: seq<Model>, localId: string)
    requires forall m | m in list :: RemoteReady(m, localId)
    ensures Remotes(list, localId) == list
    decreases |list|
  {
    if list != [] {
      RemotesAll(list[..|list| - 1], localId);
      assert list == list[..|list| - 1] + [list[|list| - 1]];
    }
  }

  /** The choice of a selection all of whose replicas are on other nodes. */
  function PickTurn(selection: Selection, name: string, list: seq<Model>, next: map<string, int>): Turn
    requires list != []
  {
    TurnAdvances(Count(next, name), |list|);
    var index := Count(next, name) % |list|;
    Turn(selection, name, list, true, map[], Some(Route(list[index], true, LaneOf(selection))),
         next[name := Following(index, |list|)])
  }

  lemma PickTurnHolds(selection: Selection, name: string, lists: Selection -> seq<Model>, localId: string, next: map<string, int>)
    requires RemoteLists(lists, localId) && lists(selection) != []
    ensures var t := PickTurn(selection, name, lists(selection), next);
            TurnFrom(t, localId, next) && Remotes(t.replicas, localId) == lists(selection)
  {
    RemotesAll(lists(selection), localId);
    var t := PickTurn(selection, name, lists(selection), next);
    assert forall m | m in t.replicas :: !IdleLocal(m, localId, true, map[], LaneOf(selection));
  }

  lemma {:induction false} PicksJoin(a: seq<Turn>, t: Turn, selection: Selection, name: string, m: Model)
    ensures RemotePicks(a + [t], selection, name) == RemotePicks(a, selection, name) + if RemotePick(t, selection, name) then 1 else 0
    ensures PicksOf(a + [t], selection, name, m) ==
            PicksOf(a, selection, name, m) + if RemotePick(t, selection, name) && t.route.value.model == m then 1 else 0
    decreases |a|
  {
    if a == [] {
      assert a + [t] == [t] && [t][1..] == [];
    } else {
      assert (a + [t])[0] == a[0] && (a + [t])[1..] == a[1..] + [t];
      PicksJoin(a[1..], t, selection, name, m);
    }
  }

  /** A run in which a replica has had all of a selection's remote choices. */
  ghost predicate Favours(turns: seq<Turn>, localId: string, selection: Selection, name: string, lists: Selection -> seq<Model>, picks: nat) {
    && lists(selection) != [] && Turns(turns, localId, map[]) && FixedRemotes(turns, name, localId, lists)
    && RemotePicks(turns, selection, name) == picks && PicksOf(turns, selection, name, lists(selection)[0]) == picks
  }

  lemma PickMore(turns: seq<Turn>, localId: string, selection: Selection, name: string, lists: Selection -> seq<Model>, picks: nat,
                 other: Selection) returns (more: seq<Turn>)
    requires Favours(turns, localId, selection, name, lists, picks) && RemoteLists(lists, localId) && lists(other) != []
    requires other == selection ==> Count(NextAt(turns, map[], |turns|), name) == 0
    ensures Favours(more, localId, selection, name, lists, if other == selection then picks + 1 else picks)
    ensures var k, c := |lists(other)|, Count(NextAt(turns, map[], |turns|), name);
            0 <= c % k < k && Count(NextAt(more, map[], |more|), name) == Following(c % k, k)
  {
    hide TurnFrom, Remotes;
    var next := NextAt(turns, map[], |turns|);
    var t := PickTurn(other, name, lists(other), next);
    TurnAdvances(Count(next, name), |lists(other)|);
    SmallRemainder(0, |lists(other)|);
    PickTurnHolds(other, name, lists, localId, next);
    TurnsGrow(turns, localId, map[], t);
    PicksJoin(turns, t, selection, name, lists(selection)[0]);
    more := turns + [t];
  }

  /** The other selection's choices can bring the turn back to the first replica. */
  lemma {:induction false} BackToFirst(turns: seq<Turn>, localId: string, selection: Selection, name: string, lists: Selection -> seq<Model>,
                                       picks: nat, other: Selection) returns (more: seq<Turn>)
    requires Favours(turns, localId, selection, name, lists, picks) && RemoteLists(lists, localId)
    requires lists(other) != [] && other != selection
    requires var c := Count(NextAt(turns, map[], |turns|), name); 0 < c && (c < |lists(other)| || c == 1)
    ensures Favours(more, localId, selection, name, lists, picks) && Count(NextAt(more, map[], |more|), name) == 0
    decreases |lists(other)| - Count(NextAt(turns, map[], |turns|), name)
  {
    hide Favours;
    var c, k := Count(NextAt(turns, map[], |turns|), name), |lists(other)|;
    more := PickMore(turns, localId, selection, name, lists, picks, other);
    if k == 1 {
      OneRemainder(c);
    } else {
      SmallRemainder(c, k);
      if c + 1 < k {
        more := BackToFirst(more, localId, selection, name, lists, picks, other);
      }
    }
  }

  lemma OneRemainder(c: int)
    ensures c % 1 == 0
  {
  }

  lemma StartsFavoured(localId: string, selection: Selection, name: string, lists: Selection -> seq<Model>)
    requires lists(selection) != []
    ensures Favours([], localId, selection, name, lists, 0) && Count(NextAt([], map[], 0), name) == 0
  {
  }

  /** A selection with two replicas or more, and another one for the same name: chosen, turned
      back by the other and chosen again, one replica has both choices. */
  lemma SharedCounterUnfair(localId: string, selection: Selection, name: string, lists: Selection -> seq<Model>, other: Selection)
    returns (turns: seq<Turn>)
    requires RemoteLists(lists, localId) && |lists(selection)| > 1 && other != selection && lists(other) != []
    ensures Turns(turns, localId, map[]) && FixedRemotes(turns, name, localId, lists)
    ensures !Fair(turns, selection, name, lists(selection))
  {
    hide Turns, FixedRemotes, RemotePicks, PicksOf, RemoteLists;
    var k := |lists(selection)|;
    StartsFavoured(localId, selection, name, lists);
    turns := PickMore([], localId, selection, name, lists, 0, selection);
    SmallRemainder(0, k);
    turns := BackToFirst(turns, localId, selection, name, lists, 1, other);
    turns := PickMore(turns, localId, selection, name, lists, 1, selection);
    SmallQuotient(k);
    assert lists(selection)[0] in lists(selection);
  }

  lemma SmallQuotient(k: int)
    requires k > 1
    ensures (2 + k - 1) / k == 1
  {
    Division(k + 1, k);
    QuotientUnique((k + 1) / k, (k + 1) % k, 1, 1, k);
  }

  ghost predicate AlwaysFair(localId: string, selection: Selection, name: string, lists: Selection -> seq<Model>) {
    forall turns, next | Turns(turns, localId, next) && FixedRemotes(turns, name, localId, lists) ::
      Fair(turns, selection, name, lists(selection))
  }

  /** The counter of a name is shared by all selections, so each run shares the choices of
      one out evenly exactly when it has one replica at most or no other has any. */
  lemma FairExactly(localId: string, selection: Selection, name: string, lists: Selection -> seq<Model>)
    requires RemoteLists(lists, localId) && Distinct(lists(selection))
    ensures AlwaysFair(localId, selection, name, lists) <==> OwnCounter(lists, selection)
  {
    hide Turns, FixedRemotes, Fair, RemoteLists, Distinct;
    if OwnCounter(lists, selection) {
      forall turns, next | Turns(turns, localId, next) && FixedRemotes(turns, name, localId, lists)
        ensures Fair(turns, selection, name, lists(selection))
      {
        assert turns[0..|turns|] == turns;
        FairShare(turns, localId, next, 0, |turns|, selection, name, lists);
      }
    } else {
      var other :| other != selection && lists(other) != [];
      var turns := SharedCounterUnfair(localId, selection, name, lists, other);
    }
  }

  method SelectRoute(publicId: string, replicas: seq<Model>, localId: string, localHealthy: bool, lane: Lane,
                     busy: map<string, int>, next: map<string, int>)
    returns (route: Option<Route>, next': map<string, int>)
    ensures Chosen(route, next', publicId, replicas, localId, localHealthy, lane, busy, next)
  {
    next' := next;
    for i := 0 to |replicas|
      invariant forall j | 0 <= j < i :: !IdleLocal(replicas[j], localId, localHealthy, busy, lane)
    {
      if IdleLocal(replicas[i], localId, localHealthy, busy, lane) {
        return Some(Route(replicas[i], false, lane)), next;
      }
    }
    var slaves := RemoteReplicas(replicas, localId);
    RemotesHold(replicas, localId);
    if |slaves| > 0 {
      TurnAdvances(Count(next, publicId), |slaves|);
      var index := Count(next, publicId) % |slaves|;
      next' := next[publicId := (Count(next, publicId) + 1) % |slaves|];
      return Some(Route(slaves[index], true, lane)), next';
    }
    for i := 0 to |replicas|
      invariant forall j | 0 <= j < i :: !Usable(replicas[j], localId, localHealthy)
    {
      if replicas[i].nodeId == localId && replicas[i].available && localHealthy {
        return Some(Route(replicas[i], false, lane)), next;
      }
      assert replicas[i] !in Remotes(replicas, localId);
    }
    route := None;
  }

  method RemoteReplicas(replicas: seq<Model>, localId: string) returns (slaves: seq<Model>)
    ensures slaves == Remotes(replicas, localId)
  {
    slaves := [];
    for i := 0 to |replicas|
      invariant slaves == Remotes(replicas[..i], localId)
    {
      assert replicas[..i + 1][..i] == replicas[..i];
      if replicas[i].nodeId != localId && replicas[i].available {
        slaves := slaves + [replicas[i]];
      }
    }
    assert replicas[..|replicas|] == replicas;
  }

  // What nodes report

  /** A snapshot's model as the view has it. */
  function FromSlave(m: Model, nodeId: string, healthy: bool): Model {
    m.(source := Slave, nodeId := nodeId, available := healthy)
  }

  function FromLocal(m: Model, master: bool, localId: string): Model {
    m.(source := if master then Master else Local, nodeId := localId, available := true)
  }

  /** A report of one node: local IDs differ, hashes have no colon. */
  ghost predicate Proper(models: seq<Model>) {
    && (forall i, j | 0 <= i < j < |models| :: models[i].localId != models[j].localId)
    && (forall i | 0 <= i < |models| :: Hashed(models[i]))
  }

  /** What is true of the models of a rebuilt view: local models keep their names,
      and among models with one local ID the same name means the same hashes. */
  ghost predicate WellNamed(view: seq<Model>) {
    && (forall a, b | a in view && b in view && a.localId == b.localId ::
          a.publicId == b.publicId <==> a.modelHash == b.modelHash && a.configHash == b.configHash)
    && (forall m | m in view && !m.source.Slave? :: m.publicId == m.localId)
  }

  lemma AssignedWellNamed(before: seq<Model>, after: seq<Model>)
    requires AllHashed(before) && OneRecordEach(before) && OneLocalNode(before) && AllAssigned(after, before)
    requires forall i | 0 <= i < |before| :: after[i] == before[i].(publicId := after[i].publicId)
    ensures WellNamed(after)
  {
    hide AssignedId, IdentityOf;
    forall i, j | 0 <= i < |after| && 0 <= j < |after| && after[i].localId == after[j].localId
      ensures after[i].publicId == after[j].publicId <==> after[i].modelHash == after[j].modelHash && after[i].configHash == after[j].configHash
    {
      assert before[i] in before && before[j] in before;
      HashedApart(before[i], before[j]);
      SameNameSameHashes(before, before[i], before[j]);
    }
    forall i | 0 <= i < |after| && !after[i].source.Slave?
      ensures after[i].publicId == after[i].localId
    {
      assert before[i] in before;
      HashedApart(before[i], before[i]);
      LocalKeepsName(before, before[i], before[i]);
    }
  }

  predicate ByPublicId(a: Model, b: Model) {
    if a.publicId == b.publicId then ByRoute(a, b) else AtMost(a.publicId, b.publicId)
  }

  lemma ByPublicIdOrder()
    ensures TotalPreorder(ByPublicId)
  {
    AtMostIsOrder();
  }

  /** The candidates come from one node each, one record a local ID. */
  ghost predicate Gathered(candidates: seq<Model>, nodeIds: set<string>, localId: string) {
    && AllHashed(candidates) && OneRecordEach(candidates)
    && forall m | m in candidates :: if m.source.Slave? then m.nodeId in nodeIds && m.nodeId != localId else m.nodeId == localId
  }

  function LocalModels(models: seq<Model>, master: bool, localId: string): seq<Model> {
    seq(|models|, i requires 0 <= i < |models| => FromLocal(models[i], master, localId))
  }

  function SlaveModels(models: seq<Model>, nodeId: string, healthy: bool): seq<Model> {
    seq(|models|, i requires 0 <= i < |models| => FromSlave(models[i], nodeId, healthy))
  }

  ghost function AllSlaves(nodeIds: seq<string>, nodes: map<string, Snapshot>, unhealthy: set<string>): seq<Model> {
    if nodeIds == [] then []
    else
      var before, id := AllSlaves(nodeIds[..|nodeIds| - 1], nodes, unhealthy), nodeIds[|nodeIds| - 1];
      if id in nodes then before + SlaveModels(nodes[id].models, id, id !in unhealthy) else before
  }

  /** The local models, then those of each node, node by node in the order of their IDs. */
  ghost predicate Collects(candidates: seq<Model>, master: bool, localId: string, local: seq<Model>, nodes: map<string, Snapshot>, unhealthy: set<string>) {
    exists nodeIds :: Ascending(nodeIds) && Members(nodeIds) == nodes.Keys &&
                      candidates == LocalModels(local, master, localId) + AllSlaves(nodeIds, nodes, unhealthy)
  }

  method Gather(master: bool, localId: string, local: seq<Model>, nodes: map<string, Snapshot>, unhealthy: set<string>)
    returns (candidates: seq<Model>)
    requires localId !in nodes
    ensures Collects(candidates, master, localId, local, nodes, unhealthy)
    ensures AllProper(localId, local, nodes) ==> Gathered(candidates, nodes.Keys, localId)
  {
    hide Gathered, Proper, Ascending, Members, AllSlaves;
    candidates := GatherLocal(master, localId, local);
    if AllProper(localId, local, nodes) {
      LocalGathered(local, master, localId);
    }
    var nodeIds := Listed(nodes.Keys);
    MembersAre(nodeIds, nodes.Keys);
    candidates := GatherSlaves(candidates, nodeIds, localId, nodes, unhealthy, AllProper(localId, local, nodes));
  }

  lemma MembersAre(names: seq<string>, all: set<string>)
    requires forall name :: name in names <==> name in all
    ensures Members(names) == all
  {
  }

  method GatherSlaves(locals: seq<Model>, nodeIds: seq<string>, localId: string, nodes: map<string, Snapshot>, unhealthy: set<string>, ghost proper: bool)
    returns (candidates: seq<Model>)
    requires Ascending(nodeIds) && Members(nodeIds) == nodes.Keys && localId !in nodes
    requires proper ==> Gathered(locals, {}, localId) && forall id | id in nodes :: Proper(nodes[id].models)
    ensures candidates == locals + AllSlaves(nodeIds, nodes, unhealthy)
    ensures proper ==> Gathered(candidates, nodes.Keys, localId)
  {
    hide Gathered, Proper, Ascending, AllSlaves, SlaveModels;
    candidates := locals;
    NoSlaves(nodeIds, nodes, unhealthy);
    for n := 0 to |nodeIds|
      invariant candidates == locals + AllSlaves(nodeIds[..n], nodes, unhealthy)
      invariant proper ==> Gathered(candidates, Members(nodeIds[..n]), localId)
    {
      var id := nodeIds[n];
      assert id in Members(nodeIds);
      NotYet(nodeIds, n);
      AllSlavesGrow(nodeIds, n, nodes, unhealthy);
      if proper {
        SlaveGathered(candidates, nodes[id].models, Members(nodeIds[..n]), id, id !in unhealthy, localId);
      }
      Concatenates(locals, AllSlaves(nodeIds[..n], nodes, unhealthy), SlaveModels(nodes[id].models, id, id !in unhealthy));
      candidates := AddSlave(candidates, nodes[id].models, id, id !in unhealthy);
    }
    assert nodeIds[..|nodeIds|] == nodeIds;
  }

  lemma NoSlaves(nodeIds: seq<string>, nodes: map<string, Snapshot>, unhealthy: set<string>)
    ensures AllSlaves(nodeIds[..0], nodes, unhealthy) == [] && Members(nodeIds[..0]) == {}
  {
  }

  lemma AllSlavesGrow(nodeIds: seq<string>, n: nat, nodes: map<string, Snapshot>, unhealthy: set<string>)
    requires n < |nodeIds| && nodeIds[n] in nodes
    ensures AllSlaves(nodeIds[..n + 1], nodes, unhealthy) ==
            AllSlaves(nodeIds[..n], nodes, unhealthy) + SlaveModels(nodes[nodeIds[n]].models, nodeIds[n], nodeIds[n] !in unhealthy)
  {
    assert nodeIds[..n + 1][..n] == nodeIds[..n];
  }

  method GatherLocal(master: bool, localId: string, local: seq<Model>) returns (candidates: seq<Model>)
    ensures candidates == LocalModels(local, master, localId)
  {
    candidates := [];
    for i := 0 to |local|
      invariant candidates == LocalModels(local[..i], master, localId)
    {
      candidates := candidates + [FromLocal(local[i], master, localId)];
    }
    assert local[..|local|] == local;
  }

  method AddSlave(before: seq<Model>, models: seq<Model>, id: string, healthy: bool) returns (after: seq<Model>)
    ensures after == before + SlaveModels(models, id, healthy)
  {
    after := before;
    for i := 0 to |models|
      invariant after == before + SlaveModels(models[..i], id, healthy)
    {
      after := after + [FromSlave(models[i], id, healthy)];
    }
    assert models[..|models|] == models;
  }

  /** Reports in which models can be told apart: no node's ID is another's with a colon and more after it. */
  ghost predicate AllProper(localId: string, local: seq<Model>, nodes: map<string, Snapshot>) {
    && IdsApart(nodes.Keys + {localId})
    && Proper(local) && forall id | id in nodes :: Proper(nodes[id].models)
  }

  ghost predicate IdsApart(nodeIds: set<string>) {
    forall x, y | x in nodeIds && y in nodeIds :: Apart(x, y)
  }

  function Members(names: seq<string>): set<string> {
    set name | name in names
  }

  lemma NotYet(names: seq<string>, n: nat)
    requires Ascending(names) && n < |names|
    ensures names[n] !in names[..n] && Members(names[..n + 1]) == Members(names[..n]) + {names[n]}
  {
  }

  lemma LocalGathered(local: seq<Model>, master: bool, localId: string)
    requires Proper(local)
    ensures Gathered(LocalModels(local, master, localId), {}, localId)
  {
  }

  lemma SlaveGathered(before: seq<Model>, models: seq<Model>, nodeIds: set<string>, id: string, healthy: bool, localId: string)
    requires Gathered(before, nodeIds, localId) && Proper(models) && id !in nodeIds && id != localId
    ensures Gathered(before + SlaveModels(models, id, healthy), nodeIds + {id}, localId)
  {
  }

  // The registry

  /** The candidates, each with a public name: where no hash has a colon and records are
      distinct, all names are the assigned ones exactly when route keys tell the models apart. */
  ghost predicate Names(named: seq<Model>, candidates: seq<Model>) {
    && |named| == |candidates|
    && (forall i | 0 <= i < |named| :: named[i] == candidates[i].(publicId := named[i].publicId))
    && (AllHashed(candidates) && OneRecordEach(candidates) ==> (AllAssigned(named, candidates) <==> KeysApart(candidates)))
  }

  ghost predicate ViewOf(view: seq<Model>, candidates: seq<Model>) {
    SortedBy(view, ByPublicId) && exists named :: Names(named, candidates) && multiset(view) == multiset(named)
  }

  lemma GatheredHolds(candidates: seq<Model>, nodeIds: set<string>, localId: string)
    requires Gathered(candidates, nodeIds, localId) && IdsApart(nodeIds + {localId})
    ensures AllHashed(candidates) && OneRecordEach(candidates) && OneLocalNode(candidates) && KeysApart(candidates)
  {
    hide Hashed, Apart, KeysApart, OneRecordEach;
    NodeIdsKeysApart(candidates);
  }

  lemma MembersWellNamed(view: seq<Model>, named: seq<Model>)
    requires multiset(view) == multiset(named) && WellNamed(named)
    ensures WellNamed(view)
  {
    forall m | m in view
      ensures m in named
    {
      assert m in multiset(view);
    }
  }

  lemma ViewWellNamed(view: seq<Model>, candidates: seq<Model>, nodeIds: set<string>, localId: string)
    requires ViewOf(view, candidates) && Gathered(candidates, nodeIds, localId) && IdsApart(nodeIds + {localId})
    ensures WellNamed(view)
  {
    hide Gathered, IdsApart, AllHashed, OneRecordEach, OneLocalNode, KeysApart, AllAssigned, WellNamed, SortedBy;
    var named :| Names(named, candidates) && multiset(view) == multiset(named);
    GatheredHolds(candidates, nodeIds, localId);
    AssignedWellNamed(candidates, named);
    MembersWellNamed(view, named);
  }

  lemma ProperIdsApart(localId: string, local: seq<Model>, nodes: map<string, Snapshot>)
    requires AllProper(localId, local, nodes)
    ensures IdsApart(nodes.Keys + {localId})
  {
  }

  // The replicas of a view are distinct

  lemma {:induction false} ServingWithin(view: seq<Model>, selection: Selection, name: string, service: Service)
    ensures multiset(Serving(view, selection, name, service)) <= multiset(view)
    decreases |view|
  {
    if view != [] {
      ServingWithin(view[..|view| - 1], selection, name, service);
      assert view == view[..|view| - 1] + [view[|view| - 1]];
    }
  }

  lemma {:induction false} RemotesWithin(replicas: seq<Model>, localId: string)
    ensures multiset(Remotes(replicas, localId)) <= multiset(replicas)
    decreases |replicas|
  {
    if replicas != [] {
      RemotesWithin(replicas[..|replicas| - 1], localId);
      assert replicas == replicas[..|replicas| - 1] + [replicas[|replicas| - 1]];
    }
  }

  lemma ByRouteOrder()
    ensures TotalPreorder(ByRoute)
  {
    AtMostIsOrder();
  }

  /** With one record for each node and local ID, no replica is listed twice. */
  lemma ReplicasDistinct(view: seq<Model>, candidates: seq<Model>, selection: Selection, name: string, service: Service, localId: string)
    requires ViewOf(view, candidates) && OneRecordEach(candidates)
    ensures Distinct(Remotes(Replicas(view, selection, name, service), localId))
  {
    hide ByPublicId, ByRoute, SortedBy, OneRecordEach, Distinct;
    var named :| Names(named, candidates) && multiset(view) == multiset(named);
    NamedDistinct(named, candidates);
    ServingWithin(view, selection, name, service);
    ByRouteOrder();
    SortSorts(Serving(view, selection, name, service), ByRoute);
    RemotesWithin(Replicas(view, selection, name, service), localId);
    DistinctPermuted(named, Remotes(Replicas(view, selection, name, service), localId));
  }

  lemma NamedDistinct(named: seq<Model>, candidates: seq<Model>)
    requires Names(named, candidates) && OneRecordEach(candidates)
    ensures Distinct(named)
  {
    hide AllHashed, AllAssigned, KeysApart;
    forall i, j | 0 <= i < j < |named|
      ensures named[i] != named[j]
    {
      assert candidates[i].nodeId != candidates[j].nodeId || candidates[i].localId != candidates[j].localId;
    }
  }

  datatype Refusal = MissingNodeId | InvalidUrl | IncompatiblePeer | DuplicateNode

  const MINIMUM_PROTOCOL_VERSION := 2

  /** A snapshot as it is kept: under its trimmed ID and normal URL, its models named by their local IDs. */
  function Kept(nodeId: string, url: string, models: seq<Model>): Snapshot {
    Snapshot(url, seq(|models|, i requires 0 <= i < |models| => models[i].(nodeId := nodeId, publicId := models[i].localId)))
  }

  method KeepSnapshot(nodeId: string, url: string, models: seq<Model>) returns (kept: Snapshot)
    ensures kept == Kept(nodeId, url, models)
  {
    var normalized: seq<Model> := [];
    for index := 0 to |models|
      invariant normalized == Kept(nodeId, url, models[..index]).models
    {
      normalized := normalized + [models[index].(nodeId := nodeId, publicId := models[index].localId)];
    }
    assert models[..|models|] == models;
    kept := Snapshot(url, normalized);
  }

  /** No two nodes are registered under one URL, nor any under the registry's own ID or URL. */
  ghost predicate NodesApart(nodes: map<string, Snapshot>, localId: string, localUrl: string) {
    && localId !in nodes
    && (forall id | id in nodes :: localUrl != "" ==> nodes[id].url != localUrl)
    && (forall a, b | a in nodes && b in nodes && a != b :: nodes[a].url != nodes[b].url)
  }

  lemma OwnIdApart(nodes: map<string, Snapshot>, localId: string, localUrl: string)
    requires NodesApart(nodes, localId, localUrl)
    ensures localId !in nodes
  {
  }

  predicate Refused(nodes: map<string, Snapshot>, localId: string, localUrl: string, nodeId: string, url: string) {
    || nodeId == localId
    || (localUrl != "" && url == localUrl)
    || (nodeId in nodes && nodes[nodeId].url != url)
    || (exists id :: id in nodes && id != nodeId && nodes[id].url == url)
  }

  function NodesAt(nodes: map<string, Snapshot>, url: string): set<string> {
    set id | id in nodes && nodes[id].url == url
  }

  class Cluster {
    const master: bool
    const localId: string
    const localUrl: string
    const service: Service
    var local: seq<Model>
    var nodes: map<string, Snapshot>
    var unhealthy: set<string>
    var busy: map<string, int>
    var next: map<string, int>
    var view: seq<Model>
    /** The leases whose release has not run, each with the key it holds. */
    var open: map<nat, string>
    var leases: nat
    ghost var candidates: seq<Model>
    /** Every choice made so far. */
    ghost var turns: seq<Turn>

    ghost predicate Valid()
      reads this
    {
      && NodesApart(nodes, localId, localUrl)
      && BusyCounts(busy, open) && (forall id | id in open :: id < leases)
      && Collects(candidates, master, localId, local, nodes, unhealthy) && ViewOf(view, candidates)
      && (AllProper(localId, local, nodes) ==> WellNamed(view))
      && Turns(turns, localId, map[]) && next == NextAt(turns, map[], |turns|)
    }

    constructor (master: bool, localId: string, localUrl: string, service: Service)
      ensures Valid() && nodes == map[] && local == [] && open == map[]
    {
      this.master, this.localId, this.localUrl, this.service := master, localId, localUrl, service;
      local, nodes, unhealthy, busy, next, view, open, leases := [], map[], {}, map[], map[], [], map[], 0;
      candidates, turns := [], [];
      new;
      NothingRegistered(master, localId);
    }

    method Rebuild()
      requires NodesApart(nodes, localId, localUrl) && BusyCounts(busy, open) && forall id | id in open :: id < leases
      requires Turns(turns, localId, map[]) && next == NextAt(turns, map[], |turns|)
      modifies this`view, this`candidates
      ensures Valid()
    {
      hide BusyCounts, Collects, ViewOf, Gathered, WellNamed, AllProper, Names, ByPublicId, SortedBy, TotalPreorder, NodesApart, Turns;
      assert localId !in nodes by {
        OwnIdApart(nodes, localId, localUrl);
      }
      var gathered := Gather(master, localId, local, nodes, unhealthy);
      var named := NameAll(gathered);
      ByPublicIdOrder();
      SortSorts(named, ByPublicId);
      view := Sort(named, ByPublicId);
      candidates := gathered;
      ViewMade(view, named, gathered);
      if AllProper(localId, local, nodes) {
        ProperIdsApart(localId, local, nodes);
        ViewWellNamed(view, gathered, nodes.Keys, localId);
      }
    }

    method UpdateLocal(models: seq<Model>)
      requires Valid()
      modifies this`local, this`view, this`candidates
      ensures Valid() && local == models
    {
      local := models;
      Rebuild();
    }

    /** Takes a node's snapshot in, unless its ID, URL or protocol is unfit or its ID or URL
        clashes. `url` is its URL in normal form, if it has one. */
    method UpdateNode(rawId: string, url: Option<string>, protocolVersion: int, models: seq<Model>) returns (refusal: Option<Refusal>)
      requires Valid()
      modifies this`nodes, this`unhealthy, this`view, this`candidates
      ensures Valid()
      ensures var nodeId := TrimSpace(rawId);
              && refusal == (if nodeId == "" then Some(MissingNodeId)
                             else if url.None? then Some(InvalidUrl)
                             else if protocolVersion < MINIMUM_PROTOCOL_VERSION then Some(IncompatiblePeer)
                             else if Refused(old(nodes), localId, localUrl, nodeId, url.value) then Some(DuplicateNode)
                             else None)
              && (refusal.None? ==> nodes == old(nodes)[nodeId := Kept(nodeId, url.value, models)]
                                    && unhealthy == old(unhealthy) - {nodeId})
      ensures refusal.Some? ==> nodes == old(nodes) && unhealthy == old(unhealthy) && view == old(view)
    {
      hide BusyCounts, Collects, ViewOf, WellNamed, AllProper, TrimSpace, Turns;
      var nodeId := TrimSpace(rawId);
      if nodeId == "" {
        return Some(MissingNodeId);
      }
      if url.None? {
        return Some(InvalidUrl);
      }
      if protocolVersion < MINIMUM_PROTOCOL_VERSION {
        return Some(IncompatiblePeer);
      }
      var clash := Clashes(nodes, nodeId, url.value);
      if nodeId == localId || (localUrl != "" && url.value == localUrl) || (nodeId in nodes && nodes[nodeId].url != url.value) || clash {
        return Some(DuplicateNode);
      }
      var kept := KeepSnapshot(nodeId, url.value, models);
      nodes := nodes[nodeId := kept];
      unhealthy := unhealthy - {nodeId};
      Rebuild();
      refusal := None;
    }

    /** The health of every node at a URL. */
    method MarkNodeUrlHealth(url: string, healthy: bool)
      requires Valid()
      modifies this`unhealthy, this`view, this`candidates
      ensures Valid()
      ensures unhealthy == if healthy then old(unhealthy) - NodesAt(nodes, url) else old(unhealthy) + NodesAt(nodes, url)
    {
      hide BusyCounts, Collects, ViewOf, WellNamed, AllProper, NodesApart, Turns;
      var left := nodes.Keys;
      while left != {}
        invariant left <= nodes.Keys
        invariant unhealthy == if healthy then old(unhealthy) - (NodesAt(nodes, url) - left) else old(unhealthy) + (NodesAt(nodes, url) - left)
        decreases left
      {
        var id :| id in left;
        left := left - {id};
        if nodes[id].url == url {
          unhealthy := if healthy then unhealthy - {id} else unhealthy + {id};
        }
      }
      Rebuild();
    }

    method MarkNodeHealth(nodeId: string, healthy: bool)
      requires Valid()
      modifies this`unhealthy, this`view, this`candidates
      ensures Valid() && unhealthy == if healthy then old(unhealthy) - {nodeId} else old(unhealthy) + {nodeId}
    {
      unhealthy := if healthy then unhealthy - {nodeId} else unhealthy + {nodeId};
      Rebuild();
    }

    /** Chooses a route among the replicas of a selection and takes a lease on it. */
    method Acquire(selection: Selection, name: string, localHealthy: bool) returns (route: Option<Route>, lease: nat)
      requires Valid()
      modifies this`busy, this`next, this`open, this`leases, this`turns
      ensures Valid()
      ensures var replicas := Replicas(view, selection, name, service);
              && turns == old(turns) + [Turn(selection, name, replicas, localHealthy, old(busy), route, next)]
              && Chosen(route, next, name, replicas, localId, localHealthy, LaneOf(selection), old(busy), old(next))
      ensures route.None? ==> busy == old(busy) && open == old(open)
      ensures route.Some? ==> lease !in old(open) && open == old(open)[lease := RouteKey(route.value)]
      ensures route.Some? ==> busy == old(busy)[RouteKey(route.value) := Count(old(busy), RouteKey(route.value)) + 1]
    {
      hide Chosen, Replicas, BusyCounts, Collects, ViewOf, WellNamed, AllProper, NodesApart, Turns;
      var replicas := ReplicasFor(view, selection, name, service);
      lease := leases;
      route, next := SelectRoute(name, replicas, localId, localHealthy, LaneOf(selection), busy, next);
      ghost var turn := Turn(selection, name, replicas, localHealthy, busy, route, next);
      TurnsGrow(turns, localId, map[], turn);
      turns := turns + [turn];
      if route.Some? {
        AcquireRoute(RouteKey(route.value));
      }
    }

    /** One more lease on a route, under the next number. */
    method AcquireRoute(key: string)
      requires BusyCounts(busy, open) && forall id | id in open :: id < leases
      modifies this`busy, this`open, this`leases
      ensures leases == old(leases) + 1 && open == old(open)[old(leases) := key]
      ensures busy == old(busy)[key := Count(old(busy), key) + 1]
      ensures BusyCounts(busy, open) && forall id | id in open :: id < leases
    {
      hide BusyCounts;
      LeaseOpened(busy, open, leases, key);
      busy, open, leases := busy[key := Count(busy, key) + 1], open[leases := key], leases + 1;
    }

    /** Round robin is fair in every reachable registry: of any stretch of the choices made. */
    lemma FairTurns(from: nat, to: nat, selection: Selection, name: string, lists: Selection -> seq<Model>)
      requires Valid() && from <= to <= |turns|
      requires FixedRemotes(turns[from..to], name, localId, lists) && OwnCounter(lists, selection) && Distinct(lists(selection))
      ensures Fair(turns[from..to], selection, name, lists(selection))
    {
      hide BusyCounts, Collects, ViewOf, WellNamed, AllProper, NodesApart, Fair;
      FairShare(turns, localId, map[], from, to, selection, name, lists);
    }

    /** Gives a lease back; only the first call does anything. */
    method Release(lease: nat)
      requires Valid()
      modifies this`busy, this`open
      ensures Valid() && lease !in open
      ensures lease in old(open) ==> open == old(open) - {lease} &&
                                     busy == old(busy)[old(open)[lease] := Count(old(busy), old(open)[lease]) - 1]
      ensures lease !in old(open) ==> open == old(open) && busy == old(busy)
    {
      hide BusyCounts, Collects, ViewOf, WellNamed, AllProper, NodesApart, Turns;
      if lease in open {
        LeaseClosed(busy, open, lease);
        var key := open[lease];
        open := open - {lease};
        if Count(busy, key) > 0 {
          busy := busy[key := Count(busy, key) - 1];
        }
      }
    }
  }

  lemma NothingRegistered(master: bool, localId: string)
    ensures BusyCounts(map[], map[]) && Collects([], master, localId, [], map[], {}) && ViewOf([], []) && WellNamed([])
  {
    forall key
      ensures Count(map[], key) == |Holders(map[], key)|
    {
      assert Holders(map[], key) == {};
    }
    var none: seq<string> := [];
    assert Ascending(none) && Members(none) == {};
    assert [] == LocalModels([], master, localId) + AllSlaves(none, map[], {});
    assert Names([], []);
  }

  lemma ViewMade(view: seq<Model>, named: seq<Model>, candidates: seq<Model>)
    requires SortedBy(view, ByPublicId) && multiset(view) == multiset(named)
    requires Names(named, candidates)
    ensures ViewOf(view, candidates)
  {
  }

  method Clashes(nodes: map<string, Snapshot>, nodeId: string, url: string) returns (clash: bool)
    ensures clash <==> exists id :: id in nodes && id != nodeId && nodes[id].url == url
  {
    var left := nodes.Keys;
    while left != {}
      invariant left <= nodes.Keys
      invariant forall id | id in nodes.Keys - left :: id == nodeId || nodes[id].url != url
      decreases left
    {
      var id :| id in left;
      if id != nodeId && nodes[id].url == url {
        return true;
      }
      left := left - {id};
    }
    return false;
  }

  method ReplicasFor(view: seq<Model>, selection: Selection, name: string, service: Service) returns (replicas: seq<Model>)
    ensures replicas == Replicas(view, selection, name, service)
  {
    var serving: seq<Model> := [];
    for i := 0 to |view|
      invariant serving == Serving(view[..i], selection, name, service)
    {
      assert view[..i + 1][..i] == view[..i];
      if Serves(view[i], selection, name, service) {
        serving := serving + [view[i]];
      }
    }
    assert view[..|view|] == view;
    replicas := Sort(serving, ByRoute);
  }

  method NameAll(candidates: seq<Model>) returns (named: seq<Model>)
    ensures Names(named, candidates)
  {
    hide AllHashed, OneRecordEach, KeysApart, AllAssigned;
    var models := new Model[|candidates|](i requires 0 <= i < |candidates| => candidates[i]);
    assert models[..] == candidates;
    AssignPublicIds(models);
    named := models[..];
  }
}

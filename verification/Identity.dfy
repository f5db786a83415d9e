/** Public names of the models of a cluster. Models that share a local ID are told
    apart by the hashes of their model and configuration. */
module Identity {
  import opened Basics
  import opened Ordering

  datatype Source = Master | Local | Slave

  datatype Model = Model(source: Source, nodeId: string, localId: string, modelHash: string, configHash: string,
                         publicId: string, available: bool, disabled: bool)

  // Keys

  function IdentityOf(m: Model): string {
    m.modelHash + ":" + m.configHash
  }

  function RouteSortKey(m: Model): string {
    m.nodeId + ":" + m.localId
  }

  function IdentitySortKey(m: Model): string {
    (if m.source.Slave? then "2:" else "0:") + RouteSortKey(m)
  }

  function ModelRouteKey(m: Model): string {
    m.nodeId + ":" + m.localId + ":" + IdentityOf(m)
  }

  predicate NoColon(s: string) {
    ':' !in s
  }

  /** The hashes have no colon in them; node IDs and local IDs may. */
  predicate Hashed(m: Model) {
    NoColon(m.modelHash) && NoColon(m.configHash)
  }

  lemma LastColon(a: string, b: string, c: string, d: string)
    requires NoColon(b) && NoColon(d) && a + ":" + b == c + ":" + d
    ensures a == c && b == d
  {
    var x, y := a + ":" + b, c + ":" + d;
    assert x[|a|] == ':' && y[|c|] == ':';
    assert forall i | |a| < i < |x| :: x[i] == b[i - |a| - 1];
    assert forall i | |c| < i < |y| :: y[i] == d[i - |c| - 1];
    assert |a| == |c|;
    assert a == x[..|a|] && c == y[..|c|] && b == x[|a| + 1..] && d == y[|c| + 1..];
  }

  /** A route key gives away the hashes; between node ID and local ID it may be read in several ways. */
  lemma RouteKeyParts(a: Model, b: Model)
    requires Hashed(a) && Hashed(b) && ModelRouteKey(a) == ModelRouteKey(b)
    ensures RouteSortKey(a) == RouteSortKey(b) && a.modelHash == b.modelHash && a.configHash == b.configHash
  {
    var x, y := RouteSortKey(a) + ":" + a.modelHash, RouteSortKey(b) + ":" + b.modelHash;
    assert ModelRouteKey(a) == x + ":" + a.configHash;
    assert ModelRouteKey(b) == y + ":" + b.configHash;
    LastColon(x, a.configHash, y, b.configHash);
    LastColon(RouteSortKey(a), a.modelHash, RouteSortKey(b), b.modelHash);
  }

  /** Neither node ID is the other with a colon and more after it. */
  predicate Apart(x: string, y: string) {
    !(x + ":" <= y) && !(y + ":" <= x)
  }

  lemma ColonBegins(x: string, c: string, y: string, d: string)
    requires x + ":" + c == y + ":" + d && |x| < |y|
    ensures x + ":" <= y
  {
    var s, t := x + ":" + c, y + ":" + d;
    assert s[..|x| + 1] == x + ":" && t[..|x| + 1] == y[..|x| + 1];
  }

  lemma ApartColon(x: string, c: string, y: string, d: string)
    requires Apart(x, y) && x + ":" + c == y + ":" + d
    ensures x == y && c == d
  {
    var s, t := x + ":" + c, y + ":" + d;
    if |x| < |y| {
      ColonBegins(x, c, y, d);
    }
    if |y| < |x| {
      ColonBegins(y, d, x, c);
    }
    assert x == s[..|x|] && y == t[..|y|] && c == s[|x| + 1..] && d == t[|y| + 1..];
  }

  ghost predicate IdentitiesTell(x: string, y: string) {
    forall a: Model, b: Model | a.modelHash == x && b.modelHash == y && IdentityOf(a) == IdentityOf(b) :: x == y && a.configHash == b.configHash
  }

  /** Identities tell pairs of hashes apart exactly when neither model hash is the
      other with a colon and more after it. */
  lemma IdentityInjective(x: string, y: string)
    ensures IdentitiesTell(x, y) <==> Apart(x, y)
  {
    if Apart(x, y) {
      forall a: Model, b: Model | a.modelHash == x && b.modelHash == y && IdentityOf(a) == IdentityOf(b)
        ensures x == y && a.configHash == b.configHash
      {
        ApartColon(x, a.configHash, y, b.configHash);
      }
    } else if x + ":" <= y {
      var a, b := HashesCollide(x, y);
    } else {
      var b, a := HashesCollide(y, x);
    }
  }

  lemma HashesCollide(x: string, y: string) returns (a: Model, b: Model)
    requires x + ":" <= y
    ensures a.modelHash == x && b.modelHash == y && IdentityOf(a) == IdentityOf(b)
  {
    var z := y[|x| + 1..];
    a := Model(Slave, "", "", x, z + ":", "", true, false);
    b := Model(Slave, "", "", y, "", "", true, false);
    assert y == x + ":" + z;
    assert x + ":" + (z + ":") == y + ":" + "";
  }

  lemma HashedApart(a: Model, b: Model)
    requires Hashed(a) && Hashed(b)
    ensures Apart(a.modelHash, b.modelHash)
  {
    NoColonNoPrefix(a.modelHash, b.modelHash);
    NoColonNoPrefix(b.modelHash, a.modelHash);
  }

  lemma NoColonNoPrefix(x: string, y: string)
    requires NoColon(y)
    ensures !(x + ":" <= y)
  {
    assert (x + ":")[|x|] == ':';
  }

  /** Models on two nodes whose IDs are not apart, with different local IDs and one route key. */
  lemma ColonsCollide(x: string, y: string, hash: string) returns (a: Model, b: Model)
    requires x + ":" <= y && NoColon(hash)
    ensures Hashed(a) && Hashed(b) && a.nodeId == x && b.nodeId == y
    ensures ModelRouteKey(a) == ModelRouteKey(b) && a.localId != b.localId
  {
    var z := y[|x| + 1..];
    a := Model(Slave, x, z + ":m", hash, hash, "", true, false);
    b := Model(Slave, y, "m", hash, hash, "", true, false);
    assert y == x + ":" + z;
    assert x + ":" + (z + ":m") == y + ":" + "m";
    assert RouteSortKey(a) == RouteSortKey(b);
  }

  ghost predicate KeysTell(x: string, y: string) {
    forall a, b | Hashed(a) && Hashed(b) && a.nodeId == x && b.nodeId == y && ModelRouteKey(a) == ModelRouteKey(b) ::
      x == y && a.localId == b.localId && IdentityOf(a) == IdentityOf(b)
  }

  /** Route keys tell the models of two nodes apart exactly when neither node's ID
      is the other's with a colon and more after it. */
  lemma RouteKeyInjective(x: string, y: string)
    ensures KeysTell(x, y) <==> Apart(x, y)
  {
    if Apart(x, y) {
      forall a, b | Hashed(a) && Hashed(b) && a.nodeId == x && b.nodeId == y && ModelRouteKey(a) == ModelRouteKey(b)
        ensures x == y && a.localId == b.localId && IdentityOf(a) == IdentityOf(b)
      {
        RouteKeyParts(a, b);
        ApartColon(x, a.localId, y, b.localId);
      }
    } else if x + ":" <= y {
      var a, b := ColonsCollide(x, y, "");
    } else {
      var b, a := ColonsCollide(y, x, "");
    }
  }

  // Public names

  function PublicName(base: string, index: nat): string {
    if index == 0 then base else base + "-" + Decimal(index + 1)
  }

  lemma PublicNameInjective(base: string, i: nat, j: nat)
    ensures PublicName(base, i) == PublicName(base, j) <==> i == j
  {
    if i > 0 && j > 0 && PublicName(base, i) == PublicName(base, j) {
      assert Decimal(i + 1) == PublicName(base, i)[|base| + 1..];
      assert Decimal(j + 1) == PublicName(base, j)[|base| + 1..];
      DecimalInjective(i + 1, j + 1);
    }
  }

  lemma LastDash(a: string, b: string, c: string, d: string)
    requires '-' !in b && '-' !in d && a + "-" + b == c + "-" + d
    ensures a == c
  {
    var x, y := a + "-" + b, c + "-" + d;
    assert x[|a|] == '-' && y[|c|] == '-';
    assert forall i | |a| < i < |x| :: x[i] == b[i - |a| - 1];
    assert forall i | |c| < i < |y| :: y[i] == d[i - |c| - 1];
    assert |a| == |c|;
    assert a == x[..|a|] && c == y[..|c|];
  }

  lemma NamesMeet(a: string, i: nat, b: string, j: nat)
    requires a != b
    ensures PublicName(a, i) == PublicName(b, j) <==>
            (i == 0 && j > 0 && a == b + "-" + Decimal(j + 1)) || (j == 0 && i > 0 && b == a + "-" + Decimal(i + 1))
  {
    if i > 0 && j > 0 && PublicName(a, i) == PublicName(b, j) {
      LastDash(a, Decimal(i + 1), b, Decimal(j + 1));
    }
  }

  lemma NumberHasNoColon(base: string, i: nat)
    ensures multiset(PublicName(base, i))[':'] == multiset(base)[':']
  {
    if i > 0 {
      var number := Decimal(i + 1);
      assert PublicName(base, i) == base + ("-" + number);
      assert ':' !in "-" + number;
    }
  }

  /** Models with one route key but different local IDs are never due the same name. */
  lemma SharedKeyNames(a: Model, b: Model, i: nat, j: nat)
    requires Hashed(a) && Hashed(b) && ModelRouteKey(a) == ModelRouteKey(b) && a.localId != b.localId
    ensures PublicName(a.localId, i) != PublicName(b.localId, j)
  {
    RouteKeyParts(a, b);
    if |a.nodeId| < |b.nodeId| {
      MoreColons(a, b);
    } else {
      MoreColons(b, a);
    }
    NumberHasNoColon(a.localId, i);
    NumberHasNoColon(b.localId, j);
  }

  lemma MoreColons(a: Model, b: Model)
    requires RouteSortKey(a) == RouteSortKey(b) && a.localId != b.localId && |a.nodeId| <= |b.nodeId|
    ensures multiset(a.localId)[':'] > multiset(b.localId)[':']
  {
    var x, y := RouteSortKey(a), RouteSortKey(b);
    var more := |b.nodeId| - |a.nodeId|;
    assert a.localId == x[|a.nodeId| + 1..] && b.localId == y[|b.nodeId| + 1..];
    assert more > 0;
    assert a.localId[..more] + b.localId == a.localId;
    assert a.localId[more - 1] == x[|b.nodeId|] == y[|b.nodeId|] == ':';
    assert ':' in a.localId[..more];
  }

  // Groups

  /** The models of one local ID. */
  function OfBase(models: seq<Model>, base: string): seq<Model> {
    if models == [] then []
    else OfBase(models[..|models| - 1], base) + if models[|models| - 1].localId == base then [models[|models| - 1]] else []
  }

  predicate ByIdentity(a: Model, b: Model) {
    AtMost(IdentitySortKey(a), IdentitySortKey(b))
  }

  function Ranked(models: seq<Model>, base: string): seq<Model> {
    Sort(OfBase(models, base), ByIdentity)
  }

  /** The identities of a list, in the order they first appear. */
  function Identities(list: seq<Model>): seq<string> {
    if list == [] then []
    else
      var before, id := Identities(list[..|list| - 1]), IdentityOf(list[|list| - 1]);
      if id in before then before else before + [id]
  }

  function IndexOf(x: string, xs: seq<string>): nat {
    if xs == [] || xs[0] == x then 0 else 1 + IndexOf(x, xs[1..])
  }

  /** The public name of a model among all models. */
  function AssignedId(models: seq<Model>, m: Model): string {
    PublicName(m.localId, IndexOf(IdentityOf(m), Identities(Ranked(models, m.localId))))
  }

  lemma {:induction false} OfBaseHolds(models: seq<Model>, base: string)
    ensures forall m :: m in OfBase(models, base) <==> m in models && m.localId == base
    ensures forall m :: multiset(OfBase(models, base))[m] == if m.localId == base then multiset(models)[m] else 0
    decreases |models|
  {
    if models != [] {
      OfBaseHolds(models[..|models| - 1], base);
      assert models == models[..|models| - 1] + [models[|models| - 1]];
    }
  }

  lemma ByIdentityOrder()
    ensures TotalPreorder(ByIdentity)
  {
    AtMostIsOrder();
  }

  lemma RankedHolds(models: seq<Model>, base: string)
    ensures SortedBy(Ranked(models, base), ByIdentity)
    ensures multiset(Ranked(models, base)) == multiset(OfBase(models, base))
    ensures forall m :: m in Ranked(models, base) <==> m in models && m.localId == base
  {
    ByIdentityOrder();
    SortSorts(OfBase(models, base), ByIdentity);
    OfBaseHolds(models, base);
    forall m
      ensures m in Ranked(models, base) <==> m in OfBase(models, base)
    {
      assert m in Ranked(models, base) <==> m in multiset(Ranked(models, base));
      assert m in OfBase(models, base) <==> m in multiset(OfBase(models, base));
    }
  }

  lemma {:induction false} IdentitiesHold(list: seq<Model>)
    ensures Distinct(Identities(list))
    ensures forall m | m in list :: IdentityOf(m) in Identities(list)
    ensures list != [] ==> Identities(list) != [] && Identities(list)[0] == IdentityOf(list[0])
    decreases |list|
  {
    if list != [] {
      IdentitiesHold(list[..|list| - 1]);
      assert forall m | m in list :: m in list[..|list| - 1] || m == list[|list| - 1];
    }
  }

  lemma {:induction false} IndexOfHolds(x: string, xs: seq<string>)
    requires x in xs
    ensures IndexOf(x, xs) < |xs| && xs[IndexOf(x, xs)] == x
  {
    if xs[0] != x {
      assert x in xs[1..];
      IndexOfHolds(x, xs[1..]);
    }
  }

  lemma IndexUnique(xs: seq<string>, i: nat)
    requires i < |xs| && Distinct(xs)
    ensures IndexOf(xs[i], xs) == i
  {
    IndexOfHolds(xs[i], xs);
  }

  lemma {:induction false} IdentitiesFrom(list: seq<Model>, i: nat) returns (m: Model)
    requires i < |Identities(list)|
    ensures m in list && IdentityOf(m) == Identities(list)[i]
    decreases |list|
  {
    var before := list[..|list| - 1];
    if i < |Identities(before)| {
      m := IdentitiesFrom(before, i);
    } else {
      m := list[|list| - 1];
    }
  }

  /** The identities among the models of one local ID. */
  function IdentitySet(models: seq<Model>, base: string): set<string> {
    set m | m in models && m.localId == base :: IdentityOf(m)
  }

  lemma {:induction false} DistinctCount(xs: seq<string>)
    requires Distinct(xs)
    ensures |set x | x in xs| == |xs|
    decreases |xs|
  {
    if xs != [] {
      var last := |xs| - 1;
      DistinctCount(xs[..last]);
      assert (set x | x in xs) == (set x | x in xs[..last]) + {xs[last]};
    }
  }

  lemma IdentityCount(models: seq<Model>, base: string)
    ensures |Identities(Ranked(models, base))| == |IdentitySet(models, base)|
  {
    hide Ranked, Identities, IdentityOf;
    var list := Ranked(models, base);
    var ids := Identities(list);
    RankedHolds(models, base);
    IdentitiesHold(list);
    DistinctCount(ids);
    forall id
      ensures id in IdentitySet(models, base) <==> id in ids
    {
      if id in IdentitySet(models, base) {
        var m :| m in models && m.localId == base && IdentityOf(m) == id;
        assert m in list;
      }
      if id in ids {
        var i :| 0 <= i < |ids| && ids[i] == id;
        var m := IdentitiesFrom(list, i);
      }
    }
    assert IdentitySet(models, base) == set x | x in ids;
  }

  /** Every rank below the number of identities is some model's. */
  lemma RankTaken(models: seq<Model>, base: string, i: nat) returns (m: Model)
    requires i < |IdentitySet(models, base)|
    ensures m in models && m.localId == base && AssignedId(models, m) == PublicName(base, i)
  {
    hide Ranked, Identities, IdentityOf;
    var list := Ranked(models, base);
    RankedHolds(models, base);
    IdentityCount(models, base);
    IdentitiesHold(list);
    m := IdentitiesFrom(list, i);
    IndexUnique(Identities(list), i);
  }

  lemma RankBelow(models: seq<Model>, m: Model) returns (i: nat)
    requires m in models
    ensures i < |IdentitySet(models, m.localId)| && AssignedId(models, m) == PublicName(m.localId, i)
  {
    hide Ranked, Identities, IdentityOf;
    var list := Ranked(models, m.localId);
    RankedHolds(models, m.localId);
    IdentityCount(models, m.localId);
    IdentitiesHold(list);
    IndexOfHolds(IdentityOf(m), Identities(list));
    i := IndexOf(IdentityOf(m), Identities(list));
  }

  /** `name` is `base` with the number of one of its groups but the first. */
  ghost predicate NumberedName(name: string, base: string, groups: nat) {
    exists k: nat :: 2 <= k <= groups && name == base + "-" + Decimal(k)
  }

  ghost predicate ShareName(models: seq<Model>, a: string, b: string) {
    exists m, n :: m in models && n in models && m.localId == a && n.localId == b && AssignedId(models, m) == AssignedId(models, n)
  }

  lemma NumberedShares(models: seq<Model>, a: string, b: string)
    requires a != b && |IdentitySet(models, b)| > 0 && NumberedName(b, a, |IdentitySet(models, a)|)
    ensures ShareName(models, a, b)
  {
    hide AssignedId, IdentitySet;
    var k: nat :| 2 <= k <= |IdentitySet(models, a)| && b == a + "-" + Decimal(k);
    var m := RankTaken(models, a, k - 1);
    var n := RankTaken(models, b, 0);
    NamesMeet(a, k - 1, b, 0);
  }

  /** Models of two local IDs share a public name exactly when one local ID is the
      other with the number of one of the other's groups. */
  lemma NamesCollideExactly(models: seq<Model>, a: string, b: string)
    requires a != b
    ensures ShareName(models, a, b) <==>
            && |IdentitySet(models, a)| > 0 && |IdentitySet(models, b)| > 0
            && (NumberedName(b, a, |IdentitySet(models, a)|) || NumberedName(a, b, |IdentitySet(models, b)|))
  {
    hide AssignedId, IdentitySet;
    if ShareName(models, a, b) {
      var m, n :| m in models && n in models && m.localId == a && n.localId == b && AssignedId(models, m) == AssignedId(models, n);
      var i := RankBelow(models, m);
      var j := RankBelow(models, n);
      NamesMeet(a, i, b, j);
    } else {
      if |IdentitySet(models, b)| > 0 && NumberedName(b, a, |IdentitySet(models, a)|) {
        NumberedShares(models, a, b);
      }
      if |IdentitySet(models, a)| > 0 && NumberedName(a, b, |IdentitySet(models, b)|) {
        NumberedShares(models, b, a);
        ShareSymmetric(models, b, a);
      }
    }
  }

  lemma ShareSymmetric(models: seq<Model>, a: string, b: string)
    requires ShareName(models, a, b)
    ensures ShareName(models, b, a)
  {
    hide AssignedId;
    var m, n :| m in models && n in models && m.localId == a && n.localId == b && AssignedId(models, m) == AssignedId(models, n);
    assert n in models && m in models;
  }

  /** Two models of `m` with different hashes beside one of `m-2`: two local IDs, one public name. */
  lemma SecondGroupMeetsName(models: seq<Model>)
    requires |models| == 3 && models[0].localId == models[1].localId == "m" && models[2].localId == "m-2"
    requires IdentityOf(models[0]) != IdentityOf(models[1])
    ensures ShareName(models, "m", "m-2")
  {
    hide AssignedId, IdentityOf;
    var ids := IdentitySet(models, "m");
    assert models[0] in models && models[1] in models && models[2] in models;
    assert IdentityOf(models[0]) in ids && IdentityOf(models[1]) in ids;
    assert ids == {IdentityOf(models[0]), IdentityOf(models[1])};
    assert IdentityOf(models[2]) in IdentitySet(models, "m-2");
    assert "m-2" == "m" + "-" + Decimal(2);
    NumberedShares(models, "m", "m-2");
  }

  // Main properties

  ghost predicate AllHashed(models: seq<Model>) {
    forall m | m in models :: Hashed(m)
  }

  /** One record for each node and local ID. */
  ghost predicate OneRecordEach(models: seq<Model>) {
    forall i, j | 0 <= i < j < |models| :: models[i].nodeId != models[j].nodeId || models[i].localId != models[j].localId
  }

  /** Among models with one local ID, two get the same public name exactly when both hashes
      match, where neither model hash is the other with a colon and more after it. */
  lemma SameNameSameHashes(models: seq<Model>, a: Model, b: Model)
    requires a in models && b in models && a.localId == b.localId && Apart(a.modelHash, b.modelHash)
    ensures AssignedId(models, a) == AssignedId(models, b) <==> a.modelHash == b.modelHash && a.configHash == b.configHash
  {
    hide Ranked, Identities, IdentityOf, Apart;
    RankedHolds(models, a.localId);
    var ids := Identities(Ranked(models, a.localId));
    IdentitiesHold(Ranked(models, a.localId));
    IndexOfHolds(IdentityOf(a), ids);
    IndexOfHolds(IdentityOf(b), ids);
    PublicNameInjective(a.localId, IndexOf(IdentityOf(a), ids), IndexOf(IdentityOf(b), ids));
    IdentityInjective(a.modelHash, b.modelHash);
    SameHashes(a, b);
  }

  lemma SameHashes(a: Model, b: Model)
    ensures a.modelHash == b.modelHash && a.configHash == b.configHash ==> IdentityOf(a) == IdentityOf(b)
  {
  }

  lemma KeysTellApart(a: Model, b: Model)
    requires a.localId == b.localId && ByIdentity(a, b) && ByIdentity(b, a)
    ensures a.nodeId == b.nodeId
  {
    AtMostTotal(IdentitySortKey(a), IdentitySortKey(b));
    var x, y := RouteSortKey(a), RouteSortKey(b);
    assert IdentitySortKey(a)[2..] == x && IdentitySortKey(b)[2..] == y;
    assert |a.nodeId| == |b.nodeId| && a.nodeId == x[..|a.nodeId|] && b.nodeId == y[..|b.nodeId|];
  }

  lemma RankedTellsApart(models: seq<Model>, base: string)
    requires OneRecordEach(models)
    ensures TellsApart(ByIdentity, Ranked(models, base))
  {
    hide ByIdentity, Ranked;
    var list := Ranked(models, base);
    RankedHolds(models, base);
    forall i, j | 0 <= i < |list| && 0 <= j < |list| && ByIdentity(list[i], list[j]) && ByIdentity(list[j], list[i])
      ensures list[i] == list[j]
    {
      assert list[i] in list && list[j] in list;
      KeysTellApart(list[i], list[j]);
    }
  }

  lemma RankedUnique(models: seq<Model>, models': seq<Model>, base: string)
    requires multiset(models) == multiset(models') && OneRecordEach(models)
    ensures Ranked(models, base) == Ranked(models', base)
  {
    hide ByIdentity, Ranked;
    RankedHolds(models, base);
    RankedHolds(models', base);
    OfBaseHolds(models, base);
    OfBaseHolds(models', base);
    assert multiset(OfBase(models, base)) == multiset(OfBase(models', base));
    RankedTellsApart(models, base);
    SortedUnique(Ranked(models, base), Ranked(models', base), ByIdentity);
  }

  /** The order in which models were registered does not matter. */
  lemma RegistrationOrderIrrelevant(models: seq<Model>, models': seq<Model>, m: Model)
    requires multiset(models) == multiset(models') && OneRecordEach(models)
    ensures AssignedId(models, m) == AssignedId(models', m)
  {
    RankedUnique(models, models', m.localId);
  }

  lemma LocalBeforeSlave(a: Model, b: Model)
    requires !a.source.Slave? && b.source.Slave?
    ensures !ByIdentity(b, a)
  {
  }

  /** All local models are of one node. */
  ghost predicate OneLocalNode(models: seq<Model>) {
    forall a, b | a in models && b in models && !a.source.Slave? && !b.source.Slave? :: a.nodeId == b.nodeId
  }

  lemma LocalFirst(models: seq<Model>, own: Model)
    requires own in models && !own.source.Slave? && OneRecordEach(models) && OneLocalNode(models)
    ensures Ranked(models, own.localId) != [] && Ranked(models, own.localId)[0] == own
  {
    hide ByIdentity;
    var list := Ranked(models, own.localId);
    RankedHolds(models, own.localId);
    var i :| 0 <= i < |list| && list[i] == own;
    var first := list[0];
    assert i > 0 ==> ByIdentity(first, own);
    if first.source.Slave? {
      LocalBeforeSlave(own, first);
    }
    assert first in models;
    assert first.nodeId == own.nodeId && first.localId == own.localId;
  }

  /** The model of the master, or of a lone node, keeps its bare local ID, whatever
      slaves bring; of the models with its local ID those with its hashes share it and no other. */
  lemma LocalKeepsName(models: seq<Model>, own: Model, m: Model)
    requires own in models && !own.source.Slave? && OneRecordEach(models) && OneLocalNode(models)
    requires m in models && m.localId == own.localId && Apart(own.modelHash, m.modelHash)
    ensures AssignedId(models, own) == own.localId
    ensures AssignedId(models, m) == own.localId <==> m.modelHash == own.modelHash && m.configHash == own.configHash
  {
    hide Ranked, Identities, IdentityOf;
    LocalFirst(models, own);
    var ids := Identities(Ranked(models, own.localId));
    IdentitiesHold(Ranked(models, own.localId));
    assert ids[0] == IdentityOf(own);
    assert IndexOf(IdentityOf(own), ids) == 0;
    SameNameSameHashes(models, own, m);
  }

  /** Some group always has the bare local ID. */
  lemma BareNameGiven(models: seq<Model>, base: string) returns (m: Model)
    requires exists x :: x in models && x.localId == base
    ensures m in models && m.localId == base && AssignedId(models, m) == base
  {
    hide Identities, IdentityOf;
    RankedHolds(models, base);
    var x :| x in models && x.localId == base;
    var list := Ranked(models, base);
    assert x in list;
    m := list[0];
    assert m in list;
    IdentitiesHold(list);
    assert IndexOf(IdentityOf(m), Identities(list)) == 0;
  }

  // The assignment, in place

  /** Group `g` holds exactly the models of the `g`-th identity. */
  ghost predicate GroupsOf(groups: seq<seq<Model>>, list: seq<Model>) {
    && |groups| == |Identities(list)|
    && (forall g | 0 <= g < |groups| :: groups[g] != [])
    && (forall g, m | 0 <= g < |groups| && m in groups[g] :: IdentityOf(m) == Identities(list)[g] && m in list)
    && (forall m | m in list :: exists g :: 0 <= g < |groups| && m in groups[g])
  }

  lemma IdentitiesGrow(list: seq<Model>, m: Model)
    ensures Identities(list + [m]) == if IdentityOf(m) in Identities(list) then Identities(list) else Identities(list) + [IdentityOf(m)]
  {
  }

  lemma GroupsGrow(groups: seq<seq<Model>>, grown: seq<seq<Model>>, list: seq<Model>, m: Model, found: nat)
    requires GroupsOf(groups, list) && found <= |groups|
    requires if found < |groups| then
               Identities(list)[found] == IdentityOf(m) && grown == groups[found := groups[found] + [m]]
             else IdentityOf(m) !in Identities(list) && grown == groups + [[m]]
    ensures GroupsOf(grown, list + [m])
  {
    hide IdentityOf, Identities;
    IdentitiesGrow(list, m);
    assert forall x :: x in list + [m] <==> x in list || x == m;
    forall g, x | 0 <= g < |grown| && x in grown[g]
      ensures IdentityOf(x) == Identities(list + [m])[g] && x in list + [m]
    {
      if g < |groups| && x in groups[g] {
        assert IdentityOf(x) == Identities(list)[g];
      }
    }
    forall x | x in list + [m]
      ensures exists g :: 0 <= g < |grown| && x in grown[g]
    {
      if x in list {
        var g :| 0 <= g < |groups| && x in groups[g];
        assert x in grown[g];
      } else {
        assert m in grown[found];
      }
    }
  }

  /** The first group of an identity, or the number of groups. */
  method FindGroup(groups: seq<seq<Model>>, ghost list: seq<Model>, id: string) returns (found: nat)
    requires GroupsOf(groups, list)
    ensures found <= |groups|
    ensures if found < |groups| then Identities(list)[found] == id else id !in Identities(list)
  {
    hide IdentityOf, Identities;
    found := 0;
    while found < |groups|
      invariant found <= |groups| && forall g | 0 <= g < found :: Identities(list)[g] != id
    {
      assert groups[found][0] in groups[found];
      if IdentityOf(groups[found][0]) == id {
        return;
      }
      found := found + 1;
    }
  }

  method IdentityGroups(list: seq<Model>) returns (groups: seq<seq<Model>>)
    ensures GroupsOf(groups, list)
  {
    hide IdentityOf, Identities, GroupsOf;
    groups := [];
    NoGroups();
    for i := 0 to |list|
      invariant GroupsOf(groups, list[..i])
    {
      var m := list[i];
      var found := FindGroup(groups, list[..i], IdentityOf(m));
      GroupsCount(groups, list[..i]);
      ghost var earlier := groups;
      if found < |groups| {
        groups := groups[found := groups[found] + [m]];
      } else {
        groups := groups + [[m]];
      }
      GroupsGrow(earlier, groups, list[..i], m, found);
      assert list[..i + 1] == list[..i] + [m];
    }
    assert list[..|list|] == list;
  }

  lemma NoGroups()
    ensures GroupsOf([], [])
  {
  }

  lemma GroupsCount(groups: seq<seq<Model>>, list: seq<Model>)
    requires GroupsOf(groups, list)
    ensures |groups| == |Identities(list)|
  {
  }

  function Bases(models: seq<Model>): set<string> {
    set m | m in models :: m.localId
  }

  /** The models by local ID, each list in the order given. */
  method GroupByBase(models: seq<Model>) returns (byBase: map<string, seq<Model>>)
    ensures byBase.Keys == Bases(models)
    ensures forall base | base in byBase :: byBase[base] == OfBase(models, base)
  {
    hide OfBase;
    byBase := map[];
    for i := 0 to |models|
      invariant byBase.Keys == Bases(models[..i])
      invariant forall base | base in byBase :: byBase[base] == OfBase(models[..i], base)
    {
      var m := models[i];
      assert models[..i + 1] == models[..i] + [m];
      BaseGrows(models[..i], m);
      var group := [];
      if m.localId in byBase {
        group := byBase[m.localId];
      } else {
        OfBaseEmpty(models[..i], m.localId);
      }
      byBase := byBase[m.localId := group + [m]];
    }
    assert models[..|models|] == models;
  }

  lemma BaseGrows(models: seq<Model>, m: Model)
    ensures forall base :: OfBase(models + [m], base) == OfBase(models, base) + if m.localId == base then [m] else []
    ensures Bases(models + [m]) == Bases(models) + {m.localId}
  {
  }

  lemma {:induction false} OfBaseEmpty(models: seq<Model>, base: string)
    requires base !in Bases(models)
    ensures OfBase(models, base) == []
    decreases |models|
  {
    if models != [] {
      var before, last := models[..|models| - 1], models[|models| - 1];
      assert models == before + [last];
      BaseGrows(before, last);
      OfBaseEmpty(before, base);
    }
  }

  /** No two models with different local IDs have one route key. */
  ghost predicate KeysApart(models: seq<Model>) {
    forall a, b | a in models && b in models && ModelRouteKey(a) == ModelRouteKey(b) :: a.localId == b.localId
  }

  /** No node ID is another with a colon and more after it. */
  ghost predicate NodeIdsApart(models: seq<Model>) {
    forall a, b | a in models && b in models :: Apart(a.nodeId, b.nodeId)
  }

  lemma NodeIdsKeysApart(models: seq<Model>)
    requires AllHashed(models) && NodeIdsApart(models)
    ensures KeysApart(models)
  {
    hide IdentityOf, ModelRouteKey, Hashed, Apart;
    forall a, b | a in models && b in models && ModelRouteKey(a) == ModelRouteKey(b)
      ensures a.localId == b.localId
    {
      RouteKeyInjective(a.nodeId, b.nodeId);
    }
  }

  lemma KeyIdentity(a: Model, b: Model)
    requires Hashed(a) && Hashed(b) && ModelRouteKey(a) == ModelRouteKey(b)
    ensures IdentityOf(a) == IdentityOf(b)
  {
    RouteKeyParts(a, b);
  }

  /** A colon in a node ID: two models, each alone with its local ID, that cannot both get their names. */
  lemma ColonInNodeId(hash: string) returns (models: seq<Model>)
    requires NoColon(hash)
    ensures |models| == 2 && models[0].nodeId == "a" && models[1].nodeId == "a:b" && AllHashed(models) && OneRecordEach(models)
    ensures models[0].localId == "b:c" && models[1].localId == "c" && !KeysApart(models)
    ensures AssignedId(models, models[0]) == "b:c" && AssignedId(models, models[1]) == "c"
  {
    hide AssignedId;
    var a, b := Model(Slave, "a", "b:c", hash, hash, "", true, false), Model(Slave, "a:b", "c", hash, hash, "", true, false);
    models := [a, b];
    assert RouteSortKey(a) == RouteSortKey(b);
    assert a in models && b in models && ModelRouteKey(a) == ModelRouteKey(b);
    var x := BareNameGiven(models, "b:c");
    var y := BareNameGiven(models, "c");
  }

  /** The routes of these models lead to their assigned names. */
  ghost predicate Named(routes: map<string, string>, models: seq<Model>, part: set<string>) {
    forall m | m in models && m.localId in part ::
      ModelRouteKey(m) in routes && routes[ModelRouteKey(m)] == AssignedId(models, m)
  }

  ghost predicate Routed(routes: map<string, string>, models: seq<Model>, part: set<string>) {
    forall m | m in models && m.localId in part :: ModelRouteKey(m) in routes
  }

  ghost predicate Within(groups: seq<seq<Model>>, key: string) {
    exists g, m :: 0 <= g < |groups| && m in groups[g] && ModelRouteKey(m) == key
  }

  ghost predicate GroupKeysApart(groups: seq<seq<Model>>) {
    forall g, h, a, b | 0 <= g < |groups| && 0 <= h < |groups| && a in groups[g] && b in groups[h] && ModelRouteKey(a) == ModelRouteKey(b) :: g == h
  }

  ghost predicate GroupsNamed(routes: map<string, string>, base: string, groups: seq<seq<Model>>, count: nat) {
    forall g, m | 0 <= g < count && g < |groups| && m in groups[g] ::
      ModelRouteKey(m) in routes && routes[ModelRouteKey(m)] == PublicName(base, g)
  }

  /** Names the groups of one local ID. */
  method NameGroups(base: string, groups: seq<seq<Model>>, routes: map<string, string>) returns (r: map<string, string>)
    ensures forall key | key in routes && !Within(groups, key) :: key in r && r[key] == routes[key]
    ensures forall key | key in routes || Within(groups, key) :: key in r
    ensures GroupKeysApart(groups) ==> GroupsNamed(r, base, groups, |groups|)
  {
    hide ModelRouteKey;
    r := routes;
    for index := 0 to |groups|
      invariant forall key | key in routes && !Within(groups, key) :: key in r && r[key] == routes[key]
      invariant forall key | key in routes :: key in r
      invariant forall g, m | 0 <= g < index && m in groups[g] :: ModelRouteKey(m) in r
      invariant GroupKeysApart(groups) ==> GroupsNamed(r, base, groups, index)
    {
      var publicId := base;
      if index > 0 {
        publicId := base + "-" + Decimal(index + 1);
      }
      r := NameGroup(groups[index], publicId, r);
    }
  }

  method NameGroup(group: seq<Model>, publicId: string, routes: map<string, string>) returns (r: map<string, string>)
    ensures forall m | m in group :: ModelRouteKey(m) in r && r[ModelRouteKey(m)] == publicId
    ensures forall key | key in routes && (forall m | m in group :: ModelRouteKey(m) != key) :: key in r && r[key] == routes[key]
    ensures forall key | key in routes :: key in r
  {
    hide ModelRouteKey;
    r := routes;
    for i := 0 to |group|
      invariant forall j | 0 <= j < i :: ModelRouteKey(group[j]) in r && r[ModelRouteKey(group[j])] == publicId
      invariant forall key | key in routes && (forall m | m in group :: ModelRouteKey(m) != key) :: key in r && r[key] == routes[key]
      invariant forall key | key in routes :: key in r
    {
      r := r[ModelRouteKey(group[i]) := publicId];
    }
  }

  function Renamed(m: Model, routes: map<string, string>): Model {
    if ModelRouteKey(m) in routes then m.(publicId := routes[ModelRouteKey(m)]) else m
  }

  ghost predicate AllAssigned(named: seq<Model>, models: seq<Model>) {
    |named| == |models| && forall i | 0 <= i < |named| :: named[i].publicId == AssignedId(models, models[i])
  }

  /** Every model's public name, set in place. Where no hash has a colon and records
      are distinct, all names are the assigned ones exactly when models with different local IDs
      have different route keys. */
  method AssignPublicIds(models: array<Model>)
    modifies models
    ensures forall i | 0 <= i < models.Length :: models[i] == old(models[i]).(publicId := models[i].publicId)
    ensures AllHashed(old(models[..])) && OneRecordEach(old(models[..])) ==>
              (AllAssigned(models[..], old(models[..])) <==> KeysApart(old(models[..])))
  {
    hide ModelRouteKey, AssignedId, AllHashed, KeysApart, Named, Routed, Bases, AllAssigned;
    var all := models[..];
    var byBase := GroupByBase(all);
    var baseIds := Listed(byBase.Keys);
    var routes := NameBases(all, byBase, baseIds);
    for index := 0 to models.Length
      invariant forall i | 0 <= i < index :: models[i] == Renamed(all[i], routes)
      invariant forall i | index <= i < models.Length :: models[i] == all[i]
    {
      if ModelRouteKey(models[index]) in routes {
        models[index] := models[index].(publicId := routes[ModelRouteKey(models[index])]);
      }
    }
    if AllHashed(all) {
      RenamedExactly(all, models[..], routes);
    }
  }

  lemma RenamedExactly(all: seq<Model>, named: seq<Model>, routes: map<string, string>)
    requires AllHashed(all) && Routed(routes, all, Bases(all))
    requires KeysApart(all) ==> Named(routes, all, Bases(all))
    requires |named| == |all| && forall i | 0 <= i < |all| :: named[i] == Renamed(all[i], routes)
    ensures AllAssigned(named, all) <==> KeysApart(all)
  {
    hide ModelRouteKey, AssignedId, Named, Routed, Hashed, Bases;
    if KeysApart(all) {
      forall i | 0 <= i < |all|
        ensures named[i].publicId == AssignedId(all, all[i])
      {
        RouteNamed(all, routes, i);
      }
    } else {
      var a, b :| a in all && b in all && ModelRouteKey(a) == ModelRouteKey(b) && a.localId != b.localId;
      SharedKeyMisnames(all, a, b, routes);
    }
  }

  /** Models with different local IDs and one route key cannot both get their assigned names. */
  lemma SharedKeyMisnames(all: seq<Model>, a: Model, b: Model, routes: map<string, string>)
    requires a in all && b in all && Hashed(a) && Hashed(b) && ModelRouteKey(a) == ModelRouteKey(b) && a.localId != b.localId
    requires Routed(routes, all, Bases(all))
    ensures Renamed(a, routes).publicId != AssignedId(all, a) || Renamed(b, routes).publicId != AssignedId(all, b)
  {
    hide ModelRouteKey, Hashed, Ranked, Identities, PublicName, IndexOf;
    SharedKeyNames(a, b, IndexOf(IdentityOf(a), Identities(Ranked(all, a.localId))),
                   IndexOf(IdentityOf(b), Identities(Ranked(all, b.localId))));
    assert a.localId in Bases(all);
  }

  lemma RouteNamed(all: seq<Model>, routes: map<string, string>, i: nat)
    requires Named(routes, all, Bases(all)) && i < |all|
    ensures ModelRouteKey(all[i]) in routes && routes[ModelRouteKey(all[i])] == AssignedId(all, all[i])
  {
  }

  method NameBases(all: seq<Model>, byBase: map<string, seq<Model>>, baseIds: seq<string>) returns (routes: map<string, string>)
    requires byBase.Keys == Bases(all) && forall base | base in byBase :: byBase[base] == OfBase(all, base)
    requires forall base :: base in baseIds <==> base in byBase
    ensures Routed(routes, all, Bases(all))
    ensures AllHashed(all) && KeysApart(all) ==> Named(routes, all, Bases(all))
  {
    hide ModelRouteKey, AssignedId, Ranked, OfBase, Named, Routed, GroupsOf, AllHashed, KeysApart, Within, Bases;
    routes := map[];
    ghost var part: set<string> := {};
    NothingNamed(routes, all);
    for i := 0 to |baseIds|
      invariant forall base :: base in part <==> base in baseIds[..i]
      invariant Routed(routes, all, part)
      invariant AllHashed(all) && KeysApart(all) ==> Named(routes, all, part)
    {
      var base := baseIds[i];
      assert base in baseIds;
      var sorted := Sort(byBase[base], ByIdentity);
      RankedIs(all, base, sorted);
      var groups := IdentityGroups(sorted);
      ghost var before := routes;
      routes := NameGroups(base, groups, routes);
      BaseRouted(all, base, groups, before, routes, part);
      if AllHashed(all) && KeysApart(all) {
        RankedGroupsApart(all, base, groups);
        BaseNamed(all, base, groups, before, routes, part);
      }
      part := part + {base};
    }
    assert baseIds[..|baseIds|] == baseIds;
    assert part == Bases(all);
  }

  lemma NothingNamed(routes: map<string, string>, all: seq<Model>)
    ensures Named(routes, all, {}) && Routed(routes, all, {})
  {
  }

  lemma BaseRouted(all: seq<Model>, base: string, groups: seq<seq<Model>>, before: map<string, string>, routes: map<string, string>, part: set<string>)
    requires Routed(before, all, part) && GroupsOf(groups, Ranked(all, base))
    requires forall key | key in before || Within(groups, key) :: key in routes
    ensures Routed(routes, all, part + {base})
  {
    hide ModelRouteKey, Ranked, Identities, IdentityOf, GroupsOf;
    RankedHolds(all, base);
    forall m | m in all && m.localId in part + {base}
      ensures ModelRouteKey(m) in routes
    {
      if m.localId == base {
        var g := GroupFor(groups, Ranked(all, base), m);
        assert Within(groups, ModelRouteKey(m));
      }
    }
  }

  lemma RankedIs(all: seq<Model>, base: string, sorted: seq<Model>)
    requires sorted == Sort(OfBase(all, base), ByIdentity)
    ensures sorted == Ranked(all, base)
  {
  }

  lemma GroupIdentity(groups: seq<seq<Model>>, list: seq<Model>, g: nat, m: Model)
    requires GroupsOf(groups, list) && g < |groups| && m in groups[g]
    ensures m in list && g < |Identities(list)| && IdentityOf(m) == Identities(list)[g]
  {
  }

  lemma RankedGroupsApart(all: seq<Model>, base: string, groups: seq<seq<Model>>)
    requires AllHashed(all) && GroupsOf(groups, Ranked(all, base))
    ensures GroupKeysApart(groups)
  {
    hide ModelRouteKey, Ranked, Identities, IdentityOf, GroupsOf, Hashed;
    var list := Ranked(all, base);
    RankedHolds(all, base);
    IdentitiesHold(list);
    forall g, h, a, b | 0 <= g < |groups| && 0 <= h < |groups| && a in groups[g] && b in groups[h] && ModelRouteKey(a) == ModelRouteKey(b)
      ensures g == h
    {
      GroupIdentity(groups, list, g, a);
      GroupIdentity(groups, list, h, b);
      KeyIdentity(a, b);
    }
  }

  lemma OthersOutside(all: seq<Model>, base: string, groups: seq<seq<Model>>, m: Model)
    requires KeysApart(all) && GroupsOf(groups, Ranked(all, base)) && m in all && m.localId != base
    ensures !Within(groups, ModelRouteKey(m))
  {
    hide ModelRouteKey, Ranked, Identities, IdentityOf;
    RankedHolds(all, base);
    forall g, x | 0 <= g < |groups| && x in groups[g]
      ensures ModelRouteKey(x) != ModelRouteKey(m)
    {
      assert x in Ranked(all, base);
    }
  }

  lemma GroupFor(groups: seq<seq<Model>>, list: seq<Model>, m: Model) returns (g: nat)
    requires GroupsOf(groups, list) && m in list
    ensures g < |groups| && m in groups[g] && g < |Identities(list)| && IdentityOf(m) == Identities(list)[g]
  {
    g :| 0 <= g < |groups| && m in groups[g];
  }

  lemma MemberNamed(all: seq<Model>, groups: seq<seq<Model>>, routes: map<string, string>, m: Model)
    requires GroupsOf(groups, Ranked(all, m.localId)) && GroupsNamed(routes, m.localId, groups, |groups|) && m in all
    ensures ModelRouteKey(m) in routes && routes[ModelRouteKey(m)] == AssignedId(all, m)
  {
    hide ModelRouteKey, Ranked, Identities, IdentityOf, IndexOf, PublicName, GroupsOf;
    var list := Ranked(all, m.localId);
    RankedHolds(all, m.localId);
    IdentitiesHold(list);
    assert m in list;
    var g := GroupFor(groups, list, m);
    IndexUnique(Identities(list), g);
  }

  lemma BaseNamed(all: seq<Model>, base: string, groups: seq<seq<Model>>, before: map<string, string>, routes: map<string, string>, part: set<string>)
    requires KeysApart(all) && Named(before, all, part) && GroupsOf(groups, Ranked(all, base))
    requires forall key | key in before && !Within(groups, key) :: key in routes && routes[key] == before[key]
    requires GroupsNamed(routes, base, groups, |groups|)
    ensures Named(routes, all, part + {base})
  {
    hide ModelRouteKey, Ranked, GroupsOf, GroupsNamed, KeysApart, Within, AssignedId;
    forall m | m in all && m.localId in part + {base}
      ensures ModelRouteKey(m) in routes && routes[ModelRouteKey(m)] == AssignedId(all, m)
    {
      if m.localId == base {
        MemberNamed(all, groups, routes, m);
      } else {
        OthersOutside(all, base, groups, m);
      }
    }
  }
}

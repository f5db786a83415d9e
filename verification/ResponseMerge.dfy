/** Merging the analytics responses of a cluster's nodes. Averages are exact
    reals; counts are unbounded. */
module ResponseMerge {
  import opened KeyedTotals
  import opened Ordering

  const RECENT_LIMIT := 100

  datatype Summary = Summary(
    requests: int, successes: int, failures: int, inputTokens: int, outputTokens: int, totalTokens: int,
    images: int, embeddings: int, audioSeconds: real, audioTokens: int,
    averageDuration: real, averageTokensPS: real, averagePromptPS: real, loads: int, averageLoad: real,
    vramPeak: int, vramPeakPercent: real, vramTotal: int, modelVram: int)

  const NO_SUMMARY := Summary(0, 0, 0, 0, 0, 0, 0, 0, 0.0, 0, 0.0, 0.0, 0.0, 0, 0.0, 0, 0.0, 0, 0)

  /** The numbers of a timeline bucket. */
  datatype Numbers = Numbers(
    requests: int, failures: int, inputTokens: int, outputTokens: int, totalTokens: int,
    images: int, embeddings: int, audioSeconds: real, loads: int,
    averageTokensPS: real, tokensSamples: int, averagePromptPS: real, promptSamples: int,
    vramPeak: int, vramPeakPercent: real, vramTotal: int, modelVram: int)

  const NO_NUMBERS := Numbers(0, 0, 0, 0, 0, 0, 0, 0.0, 0, 0.0, 0, 0.0, 0, 0, 0.0, 0, 0)

  datatype SectionCount = SectionCount(section: string, requests: int)

  datatype Bucket = Bucket(start: int, numbers: Numbers, sections: seq<SectionCount>)

  /** A line of the section, model or node list. A section line names neither
      model nor node and its average load time is zero. */
  datatype Usage = Usage(
    node: string, model: string, section: string, requests: int, totalTokens: int, images: int, embeddings: int,
    audioSeconds: real, loads: int, averageLoad: real, vramPeak: int, vramPeakPercent: real, modelVram: int)

  datatype Recent = Recent(node: string, finishedAt: int, detail: string)

  datatype Version = Version(node: string, version: string, firstSeen: int, lastSeen: int, events: int)

  datatype NodeError = NodeError(node: string, message: string)

  datatype Response = Response(
    enabled: bool, from: int, to: int, granularity: string, nodeIds: seq<string>, modelIds: seq<string>,
    summary: Summary, timeline: seq<Bucket>, sections: seq<Usage>, models: seq<Usage>, nodes: seq<Usage>,
    recent: seq<Recent>, versions: seq<Version>, errors: seq<NodeError>)

  // Adding numbers

  function Highest(a: int, b: int): int {
    if a <= 0 && b <= 0 then 0 else if a > b then a else b
  }

  function Higher(a: real, b: real): real {
    if b > a then b else a
  }

  function WeightedAverage(leftCount: int, leftValue: real, rightCount: int, rightValue: real): real {
    if leftCount + rightCount == 0 then 0.0
    else (leftValue * leftCount as real + rightValue * rightCount as real) / (leftCount + rightCount) as real
  }

  lemma QuotientTimes(total: real, count: real)
    requires count != 0.0
    ensures total / count * count == total
  {
  }

  /** What an average stands for: its value times its count. */
  function Mass(count: int, value: real): real {
    value * count as real
  }

  lemma MassOfNone(value: real)
    ensures Mass(0, value) == 0.0
  {
  }

  lemma AverageMass(m: int, x: real, n: int, y: real)
    requires m >= 0 && n >= 0
    ensures Mass(m + n, WeightedAverage(m, x, n, y)) == Mass(m, x) + Mass(n, y)
  {
    if m + n == 0 {
      MassOfNone(x);
      MassOfNone(y);
      MassOfNone(0.0);
    } else {
      QuotientTimes(x * m as real + y * n as real, (m + n) as real);
    }
  }

  lemma WeightedAssociative(m: int, x: real, n: int, y: real, k: int, z: real)
    requires m >= 0 && n >= 0 && k >= 0
    ensures WeightedAverage(m + n, WeightedAverage(m, x, n, y), k, z) == WeightedAverage(m, x, n + k, WeightedAverage(n, y, k, z))
  {
    AverageMass(m, x, n, y);
    AverageMass(n, y, k, z);
    AverageOfMass(m + n, WeightedAverage(m, x, n, y), k, z);
    AverageOfMass(m, x, n + k, WeightedAverage(n, y, k, z));
  }

  function MassAverage(count: int, mass: real): real {
    if count == 0 then 0.0 else mass / count as real
  }

  lemma AverageOfMass(m: int, x: real, n: int, y: real)
    ensures WeightedAverage(m, x, n, y) == MassAverage(m + n, Mass(m, x) + Mass(n, y))
  {
  }

  function AddSummary(a: Summary, b: Summary): Summary {
    Summary(
      a.requests + b.requests, a.successes + b.successes, a.failures + b.failures, a.inputTokens + b.inputTokens,
      a.outputTokens + b.outputTokens, a.totalTokens + b.totalTokens, a.images + b.images, a.embeddings + b.embeddings,
      a.audioSeconds + b.audioSeconds, a.audioTokens + b.audioTokens,
      WeightedAverage(a.requests, a.averageDuration, b.requests, b.averageDuration),
      WeightedAverage(a.requests, a.averageTokensPS, b.requests, b.averageTokensPS),
      WeightedAverage(a.requests, a.averagePromptPS, b.requests, b.averagePromptPS),
      a.loads + b.loads,
      WeightedAverage(a.loads, a.averageLoad, b.loads, b.averageLoad),
      Highest(a.vramPeak, b.vramPeak), Higher(a.vramPeakPercent, b.vramPeakPercent),
      Highest(a.vramTotal, b.vramTotal), Highest(a.modelVram, b.modelVram))
  }

  /** Where there were requests, failures are those that did not succeed. */
  function Finished(s: Summary): Summary {
    if s.requests > 0 then s.(failures := s.requests - s.successes) else s
  }

  predicate Counted(s: Summary) {
    s.requests >= 0 && s.loads >= 0
  }

  function PlusSummary(a: Summary, b: Summary): Summary {
    Finished(AddSummary(a, b))
  }

  lemma AddSummaryAssociative(a: Summary, b: Summary, c: Summary)
    requires Counted(a) && Counted(b) && Counted(c)
    ensures AddSummary(AddSummary(a, b), c) == AddSummary(a, AddSummary(b, c))
  {
    hide WeightedAverage;
    WeightedAssociative(a.requests, a.averageDuration, b.requests, b.averageDuration, c.requests, c.averageDuration);
    WeightedAssociative(a.requests, a.averageTokensPS, b.requests, b.averageTokensPS, c.requests, c.averageTokensPS);
    WeightedAssociative(a.requests, a.averagePromptPS, b.requests, b.averagePromptPS, c.requests, c.averagePromptPS);
    WeightedAssociative(a.loads, a.averageLoad, b.loads, b.averageLoad, c.loads, c.averageLoad);
  }

  lemma FinishedOnce(a: Summary, b: Summary)
    requires Counted(a) && Counted(b)
    ensures Finished(AddSummary(Finished(a), b)) == Finished(AddSummary(a, b)) == Finished(AddSummary(a, Finished(b)))
  {
  }

  lemma PlusSummaryAssociative(a: Summary, b: Summary, c: Summary)
    requires Counted(a) && Counted(b) && Counted(c)
    ensures PlusSummary(PlusSummary(a, b), c) == PlusSummary(a, PlusSummary(b, c))
  {
    hide WeightedAverage;
    FinishedOnce(AddSummary(a, b), c);
    FinishedOnce(a, AddSummary(b, c));
    AddSummaryAssociative(a, b, c);
  }

  function AddNumbers(a: Numbers, b: Numbers): Numbers {
    Numbers(
      a.requests + b.requests, a.failures + b.failures, a.inputTokens + b.inputTokens, a.outputTokens + b.outputTokens,
      a.totalTokens + b.totalTokens, a.images + b.images, a.embeddings + b.embeddings, a.audioSeconds + b.audioSeconds,
      a.loads + b.loads,
      WeightedAverage(a.tokensSamples, a.averageTokensPS, b.tokensSamples, b.averageTokensPS), a.tokensSamples + b.tokensSamples,
      WeightedAverage(a.promptSamples, a.averagePromptPS, b.promptSamples, b.averagePromptPS), a.promptSamples + b.promptSamples,
      Highest(a.vramPeak, b.vramPeak), Higher(a.vramPeakPercent, b.vramPeakPercent),
      Highest(a.vramTotal, b.vramTotal), Highest(a.modelVram, b.modelVram))
  }

  predicate Sampled(n: Numbers) {
    n.tokensSamples >= 0 && n.promptSamples >= 0
  }

  lemma AddNumbersAssociative(a: Numbers, b: Numbers, c: Numbers)
    requires Sampled(a) && Sampled(b) && Sampled(c)
    ensures AddNumbers(AddNumbers(a, b), c) == AddNumbers(a, AddNumbers(b, c))
  {
    hide WeightedAverage;
    WeightedAssociative(a.tokensSamples, a.averageTokensPS, b.tokensSamples, b.averageTokensPS, c.tokensSamples, c.averageTokensPS);
    WeightedAssociative(a.promptSamples, a.averagePromptPS, b.promptSamples, b.averagePromptPS, c.promptSamples, c.averagePromptPS);
  }

  /** A model or node line added to another; the first one's names stay. */
  function AddUsage(a: Usage, b: Usage): Usage {
    Usage(
      a.node, a.model, a.section, a.requests + b.requests, a.totalTokens + b.totalTokens, a.images + b.images,
      a.embeddings + b.embeddings, a.audioSeconds + b.audioSeconds, a.loads + b.loads,
      WeightedAverage(a.loads, a.averageLoad, b.loads, b.averageLoad),
      Highest(a.vramPeak, b.vramPeak), Higher(a.vramPeakPercent, b.vramPeakPercent), Highest(a.modelVram, b.modelVram))
  }

  predicate LoadsCounted(u: Usage) {
    u.loads >= 0
  }

  lemma AddUsageAssociative(a: Usage, b: Usage, c: Usage)
    requires LoadsCounted(a) && LoadsCounted(b) && LoadsCounted(c)
    ensures AddUsage(AddUsage(a, b), c) == AddUsage(a, AddUsage(b, c))
  {
    hide WeightedAverage;
    WeightedAssociative(a.loads, a.averageLoad, b.loads, b.averageLoad, c.loads, c.averageLoad);
  }

  lemma UsageAdds()
    ensures Adds(AddUsage, LoadsCounted)
  {
    hide WeightedAverage;
    forall a, b, c | LoadsCounted(a) && LoadsCounted(b) && LoadsCounted(c)
      ensures AddUsage(AddUsage(a, b), c) == AddUsage(a, AddUsage(b, c))
    {
      AddUsageAssociative(a, b, c);
    }
    assert Associative(AddUsage, LoadsCounted);
    assert Closed(AddUsage, LoadsCounted);
  }

  // Timeline buckets

  /** A bucket's numbers and its requests by section. */
  datatype Totals = Totals(numbers: Numbers, sections: map<string, int>)

  const NO_TOTALS := Totals(NO_NUMBERS, map[])

  function PlusInt(a: int, b: int): int {
    a + b
  }

  predicate AnyInt(a: int) {
    true
  }

  lemma IntAdds()
    ensures Adds(PlusInt, AnyInt)
  {
  }

  function SectionEntries(sections: seq<SectionCount>): seq<(string, int)> {
    seq(|sections|, i requires 0 <= i < |sections| => (sections[i].section, sections[i].requests))
  }

  function SectionTotals(sections: seq<SectionCount>): map<string, int> {
    Index(SectionEntries(sections), PlusInt)
  }

  function TotalsOf(b: Bucket): Totals {
    Totals(b.numbers, SectionTotals(b.sections))
  }

  function PlusTotals(a: Totals, b: Totals): Totals {
    Totals(AddNumbers(a.numbers, b.numbers), Combined(a.sections, b.sections, PlusInt))
  }

  predicate SampledTotals(t: Totals) {
    Sampled(t.numbers)
  }

  lemma PlusTotalsAssociative(a: Totals, b: Totals, c: Totals)
    requires SampledTotals(a) && SampledTotals(b) && SampledTotals(c)
    ensures PlusTotals(PlusTotals(a, b), c) == PlusTotals(a, PlusTotals(b, c))
  {
    hide WeightedAverage;
    IntAdds();
    CombinedAssociative(a.sections, b.sections, c.sections, PlusInt, AnyInt);
    AddNumbersAssociative(a.numbers, b.numbers, c.numbers);
  }

  lemma TotalsAdd()
    ensures Adds(PlusTotals, SampledTotals)
  {
    hide WeightedAverage;
    forall a, b, c | SampledTotals(a) && SampledTotals(b) && SampledTotals(c)
      ensures PlusTotals(PlusTotals(a, b), c) == PlusTotals(a, PlusTotals(b, c))
    {
      PlusTotalsAssociative(a, b, c);
    }
    assert Associative(PlusTotals, SampledTotals);
    assert Closed(PlusTotals, SampledTotals);
  }

  /** What adding to nothing leaves alone: no peak is negative and no sample means no average. */
  predicate Settled(n: Numbers) {
    && Sampled(n) && n.vramPeak >= 0 && n.vramPeakPercent >= 0.0 && n.vramTotal >= 0 && n.modelVram >= 0
    && (n.tokensSamples == 0 ==> n.averageTokensPS == 0.0) && (n.promptSamples == 0 ==> n.averagePromptPS == 0.0)
  }

  lemma WeightedWithNothing(n: int, y: real)
    requires n >= 0
    ensures WeightedAverage(n, y, 0, 0.0) == WeightedAverage(0, 0.0, n, y) == if n == 0 then 0.0 else y
  {
  }

  function FromNothing(t: Totals): Totals {
    PlusTotals(NO_TOTALS, t)
  }

  lemma FromNothingSettles(t: Totals)
    requires SampledTotals(t)
    ensures Settled(FromNothing(t).numbers)
    ensures Settled(t.numbers) ==> FromNothing(t) == t == PlusTotals(t, NO_TOTALS)
  {
  }

  lemma AddedSettles(n: Numbers, m: Numbers)
    requires Settled(n) && Sampled(m)
    ensures Settled(AddNumbers(n, m))
  {
  }

  /** Adding an item to a bucket already there. */
  lemma AddToBucket(t: Totals, item: Totals)
    requires Settled(t.numbers) && SampledTotals(item)
    ensures PlusTotals(t, item) == PlusTotals(t, FromNothing(item))
    ensures Settled(PlusTotals(t, item).numbers)
  {
    hide WeightedAverage;
    FromNothingSettles(t);
    PlusTotalsAssociative(t, NO_TOTALS, item);
    AddedSettles(t.numbers, item.numbers);
  }

  // Keyed lists

  datatype Listing = BySection | ByModel | ByNode

  function KeyOf(l: Listing, u: Usage): string {
    match l
    case BySection => u.section
    case ByModel => u.node + "\0" + u.model
    case ByNode => u.node
  }

  function UsageEntries(l: Listing, list: seq<Usage>): seq<(string, Usage)> {
    seq(|list|, i requires 0 <= i < |list| => (KeyOf(l, list[i]), list[i]))
  }

  function UsageIndex(l: Listing, list: seq<Usage>): map<string, Usage> {
    Index(UsageEntries(l, list), AddUsage)
  }

  function BucketEntries(list: seq<Bucket>): seq<(int, Totals)> {
    seq(|list|, i requires 0 <= i < |list| => (list[i].start, FromNothing(TotalsOf(list[i]))))
  }

  function Times(list: seq<Recent>): seq<int> {
    Mapped(list, (r: Recent) => r.finishedAt)
  }

  predicate Later(x: int, y: int) {
    x >= y
  }

  predicate VersionOrder(a: Version, b: Version) {
    if a.node != b.node then AtMost(a.node, b.node) else a.firstSeen <= b.firstSeen
  }

  lemma VersionsOrdered()
    ensures TotalPreorder(VersionOrder) && TotalPreorder(Later)
  {
    AtMostIsOrder();
  }

  /** What adding to nothing leaves alone. */
  predicate SettledSummary(s: Summary) {
    && Counted(s) && s.vramPeak >= 0 && s.vramPeakPercent >= 0.0 && s.vramTotal >= 0 && s.modelVram >= 0
    && (s.requests == 0 ==> s.averageDuration == 0.0 && s.averageTokensPS == 0.0 && s.averagePromptPS == 0.0)
    && (s.loads == 0 ==> s.averageLoad == 0.0)
  }

  lemma AddNoSummary(s: Summary)
    requires SettledSummary(s)
    ensures AddSummary(NO_SUMMARY, s) == s == AddSummary(s, NO_SUMMARY)
    ensures PlusSummary(NO_SUMMARY, Finished(s)) == Finished(s)
  {
    WeightedWithNothing(s.requests, s.averageDuration);
    WeightedWithNothing(s.requests, s.averageTokensPS);
    WeightedWithNothing(s.requests, s.averagePromptPS);
    WeightedWithNothing(s.loads, s.averageLoad);
    FinishedOnce(NO_SUMMARY, s);
  }

  lemma AddToSummary(s: Summary, t: Summary)
    requires SettledSummary(s) && Counted(t)
    ensures SettledSummary(AddSummary(s, t))
    ensures Finished(AddSummary(s, t)) == PlusSummary(Finished(s), PlusSummary(NO_SUMMARY, t))
  {
    AddNoSummary(s);
    AddSummaryAssociative(s, NO_SUMMARY, t);
    FinishedOnce(s, AddSummary(NO_SUMMARY, t));
    FinishedOnce(s, PlusSummary(NO_SUMMARY, t));
  }

  // What a response says, whatever the order of its lists

  datatype Digest = Digest(
    enabled: bool, from: int, to: int, granularity: string, nodeIds: set<string>, modelIds: set<string>, summary: Summary,
    timeline: map<int, Totals>, sections: map<string, Usage>, models: map<string, Usage>, nodes: map<string, Usage>,
    finished: seq<int>, versions: seq<Version>, errors: seq<NodeError>)

  const NO_DIGEST := Digest(false, 0, 0, "", {}, {}, NO_SUMMARY, map[], map[], map[], map[], [], [], [])

  function Named(names: seq<string>): set<string> {
    set name | name in names && name != ""
  }

  function DigestOf(r: Response): Digest {
    Digest(r.enabled, r.from, if r.to > 0 then r.to else 0, r.granularity, Named(r.nodeIds), Named(r.modelIds),
           PlusSummary(NO_SUMMARY, r.summary), Index(BucketEntries(r.timeline), PlusTotals),
           UsageIndex(BySection, r.sections), UsageIndex(ByModel, r.models), UsageIndex(ByNode, r.nodes),
           Top(Times(r.recent), RECENT_LIMIT, Later), Sort(r.versions, VersionOrder), r.errors)
  }

  /** The earlier start, zero standing for none. */
  function Earlier(a: int, b: int): int {
    if a == 0 || (b > 0 && b < a) then b else a
  }

  function Plus(a: Digest, b: Digest): Digest {
    Digest(a.enabled || b.enabled, Earlier(a.from, b.from), if b.to > a.to then b.to else a.to,
           if a.granularity == "" then b.granularity else a.granularity,
           a.nodeIds + b.nodeIds, a.modelIds + b.modelIds, PlusSummary(a.summary, b.summary),
           Combined(a.timeline, b.timeline, PlusTotals), Combined(a.sections, b.sections, AddUsage),
           Combined(a.models, b.models, AddUsage), Combined(a.nodes, b.nodes, AddUsage),
           Top(a.finished + b.finished, RECENT_LIMIT, Later), Sort(a.versions + b.versions, VersionOrder), a.errors + b.errors)
  }

  ghost predicate UsagesSound(list: seq<Usage>) {
    forall i | 0 <= i < |list| :: list[i].loads >= 0
  }

  /** What nodes report: counts are not negative, nor is the start of the window. */
  ghost predicate Sound(r: Response) {
    && r.from >= 0 && Counted(r.summary)
    && (forall i | 0 <= i < |r.timeline| :: Sampled(r.timeline[i].numbers))
    && UsagesSound(r.sections) && UsagesSound(r.models) && UsagesSound(r.nodes)
  }

  ghost predicate SoundDigest(d: Digest) {
    && d.from >= 0 && d.to >= 0 && Counted(d.summary) && AllOk(d.timeline, SampledTotals)
    && AllOk(d.sections, LoadsCounted) && AllOk(d.models, LoadsCounted) && AllOk(d.nodes, LoadsCounted)
    && d.finished == Top(d.finished, RECENT_LIMIT, Later) && d.versions == Sort(d.versions, VersionOrder)
    && SettledSummary(d.summary) && Finished(d.summary) == d.summary
  }

  lemma MapsAssociative(a: Digest, b: Digest, c: Digest)
    requires SoundDigest(a) && SoundDigest(b) && SoundDigest(c)
    ensures Combined(Combined(a.timeline, b.timeline, PlusTotals), c.timeline, PlusTotals) ==
            Combined(a.timeline, Combined(b.timeline, c.timeline, PlusTotals), PlusTotals)
    ensures Combined(Combined(a.sections, b.sections, AddUsage), c.sections, AddUsage) ==
            Combined(a.sections, Combined(b.sections, c.sections, AddUsage), AddUsage)
    ensures Combined(Combined(a.models, b.models, AddUsage), c.models, AddUsage) ==
            Combined(a.models, Combined(b.models, c.models, AddUsage), AddUsage)
    ensures Combined(Combined(a.nodes, b.nodes, AddUsage), c.nodes, AddUsage) ==
            Combined(a.nodes, Combined(b.nodes, c.nodes, AddUsage), AddUsage)
    ensures AllOk(Combined(a.timeline, b.timeline, PlusTotals), SampledTotals)
    ensures AllOk(Combined(a.sections, b.sections, AddUsage), LoadsCounted)
    ensures AllOk(Combined(a.models, b.models, AddUsage), LoadsCounted)
    ensures AllOk(Combined(a.nodes, b.nodes, AddUsage), LoadsCounted)
  {
    hide WeightedAverage;
    TotalsAdd();
    CombinedAssociative(a.timeline, b.timeline, c.timeline, PlusTotals, SampledTotals);
    UsageAdds();
    CombinedAssociative(a.sections, b.sections, c.sections, AddUsage, LoadsCounted);
    CombinedAssociative(a.models, b.models, c.models, AddUsage, LoadsCounted);
    CombinedAssociative(a.nodes, b.nodes, c.nodes, AddUsage, LoadsCounted);
  }

  lemma PlusAssociative(a: Digest, b: Digest, c: Digest)
    requires SoundDigest(a) && SoundDigest(b) && SoundDigest(c)
    ensures Plus(Plus(a, b), c) == Plus(a, Plus(b, c))
  {
    hide WeightedAverage, Sort, Insert;
    PlusSummaryAssociative(a.summary, b.summary, c.summary);
    MapsAssociative(a, b, c);
    VersionsOrdered();
    TopAssociative(a.finished, b.finished, c.finished, RECENT_LIMIT, Later);
    SortAssociative(a.versions, b.versions, c.versions, VersionOrder);
    assert a.errors + b.errors + c.errors == a.errors + (b.errors + c.errors);
    assert a.nodeIds + b.nodeIds + c.nodeIds == a.nodeIds + (b.nodeIds + c.nodeIds);
    assert a.modelIds + b.modelIds + c.modelIds == a.modelIds + (b.modelIds + c.modelIds);
  }

  lemma PlusSound(a: Digest, b: Digest)
    requires SoundDigest(a) && SoundDigest(b)
    ensures SoundDigest(Plus(a, b))
  {
    hide WeightedAverage, Sort, Insert;
    MapsAssociative(a, b, b);
    VersionsOrdered();
    TopAssociative(a.finished, b.finished, b.finished, RECENT_LIMIT, Later);
    SortParts(a.versions + b.versions, [], VersionOrder);
    AddToSummary(a.summary, b.summary);
  }

  lemma PlusNothing(d: Digest)
    requires SoundDigest(d)
    ensures Plus(NO_DIGEST, d) == d == Plus(d, NO_DIGEST)
  {
    hide WeightedAverage, Sort, Insert;
    AddNoSummary(d.summary);
    CombinedEmpty(d.timeline, PlusTotals);
    CombinedEmpty(d.sections, AddUsage);
    CombinedEmpty(d.models, AddUsage);
    CombinedEmpty(d.nodes, AddUsage);
    assert [] + d.finished == d.finished == d.finished + [];
    assert [] + d.versions == d.versions == d.versions + [];
  }

  lemma UsageIndexSound(l: Listing, list: seq<Usage>)
    requires UsagesSound(list)
    ensures AllOk(UsageIndex(l, list), LoadsCounted)
  {
    UsageAdds();
    AddEntriesCombines(map[], UsageEntries(l, list), AddUsage, LoadsCounted);
  }

  lemma DigestSound(r: Response)
    requires Sound(r)
    ensures SoundDigest(DigestOf(r))
  {
    hide WeightedAverage, Sort, Insert;
    AddToSummary(NO_SUMMARY, r.summary);
    UsageIndexSound(BySection, r.sections);
    UsageIndexSound(ByModel, r.models);
    UsageIndexSound(ByNode, r.nodes);
    TotalsAdd();
    forall i | 0 <= i < |r.timeline|
      ensures SampledTotals(BucketEntries(r.timeline)[i].1)
    {
      FromNothingSettles(TotalsOf(r.timeline[i]));
    }
    AddEntriesCombines(map[], BucketEntries(r.timeline), PlusTotals, SampledTotals);
    VersionsOrdered();
    TopParts(Times(r.recent), [], RECENT_LIMIT, Later);
    SortParts(r.versions, [], VersionOrder);
  }

  // Section counts of a bucket

  predicate SectionOrder(a: SectionCount, b: SectionCount) {
    AtMost(a.section, b.section)
  }

  lemma AddEntryCommutes(m: map<string, int>, a: SectionCount, b: SectionCount)
    ensures AddEntry(AddEntry(m, a.section, a.requests, PlusInt), b.section, b.requests, PlusInt) ==
            AddEntry(AddEntry(m, b.section, b.requests, PlusInt), a.section, a.requests, PlusInt)
  {
  }

  lemma SectionAppended(list: seq<SectionCount>, x: SectionCount)
    ensures SectionTotals(list + [x]) == AddEntry(SectionTotals(list), x.section, x.requests, PlusInt)
  {
    assert SectionEntries(list + [x]) == SectionEntries(list) + [(x.section, x.requests)];
    AddEntriesAppend(map[], SectionEntries(list), [(x.section, x.requests)], PlusInt);
    AddOne(SectionTotals(list), x.section, x.requests, PlusInt);
  }

  lemma CombinedGrows(a: map<string, int>, b: map<string, int>, x: SectionCount)
    ensures AddEntry(Combined(a, b, PlusInt), x.section, x.requests, PlusInt) ==
            Combined(a, AddEntry(b, x.section, x.requests, PlusInt), PlusInt)
  {
  }

  lemma {:induction false} SectionAddedFirst(m: map<string, int>, x: SectionCount, list: seq<SectionCount>)
    ensures AddEntries(AddEntry(m, x.section, x.requests, PlusInt), SectionEntries(list), PlusInt) ==
            AddEntry(AddEntries(m, SectionEntries(list), PlusInt), x.section, x.requests, PlusInt)
    decreases |list|
  {
    if list != [] {
      var first := list[0];
      assert SectionEntries(list)[1..] == SectionEntries(list[1..]);
      AddEntryCommutes(m, x, first);
      SectionAddedFirst(AddEntry(m, first.section, first.requests, PlusInt), x, list[1..]);
    }
  }

  lemma SectionPrepended(x: SectionCount, list: seq<SectionCount>)
    ensures SectionTotals([x] + list) == AddEntry(SectionTotals(list), x.section, x.requests, PlusInt)
  {
    assert SectionEntries([x] + list)[1..] == SectionEntries(list);
    SectionAddedFirst(map[], x, list);
  }

  lemma {:induction false} SectionInserted(x: SectionCount, list: seq<SectionCount>)
    ensures SectionTotals(Insert(x, list, SectionOrder)) == AddEntry(SectionTotals(list), x.section, x.requests, PlusInt)
    decreases |list|
  {
    if list == [] || SectionOrder(x, list[0]) {
      SectionPrepended(x, list);
      assert [x] + list == Insert(x, list, SectionOrder);
    } else {
      SectionInserted(x, list[1..]);
      SectionPrepended(list[0], Insert(x, list[1..], SectionOrder));
      SectionPrepended(list[0], list[1..]);
      assert list == [list[0]] + list[1..];
      AddEntryCommutes(SectionTotals(list[1..]), x, list[0]);
    }
  }

  lemma {:induction false} SectionsSorted(list: seq<SectionCount>)
    ensures SectionTotals(Sort(list, SectionOrder)) == SectionTotals(list)
    decreases |list|
  {
    if list != [] {
      SectionsSorted(list[1..]);
      SectionInserted(list[0], Sort(list[1..], SectionOrder));
      SectionPrepended(list[0], list[1..]);
      assert list == [list[0]] + list[1..];
    }
  }

  lemma {:induction false} SectionBumped(list: seq<SectionCount>, i: nat, more: int)
    requires i < |list|
    ensures SectionTotals(list[i := list[i].(requests := list[i].requests + more)]) ==
            AddEntry(SectionTotals(list), list[i].section, more, PlusInt)
    decreases |list|
  {
    var last := |list| - 1;
    var bumped := list[i := list[i].(requests := list[i].requests + more)];
    SectionAppended(list[..last], list[last]);
    SectionAppended(bumped[..last], bumped[last]);
    assert list == list[..last] + [list[last]] && bumped == bumped[..last] + [bumped[last]];
    if i < last {
      SectionBumped(list[..last], i, more);
      assert bumped[..last] == list[..last][i := bumped[i]];
      AddEntryCommutes(SectionTotals(list[..last]), SectionCount(list[i].section, more), list[last]);
    } else {
      assert bumped[..last] == list[..last];
    }
  }

  ghost predicate SectionsOnce(list: seq<SectionCount>) {
    forall i, j | 0 <= i < j < |list| :: list[i].section != list[j].section
  }

  lemma SectionsOncePermuted(list: seq<SectionCount>, other: seq<SectionCount>)
    requires multiset(list) == multiset(other)
    ensures SectionsOnce(list) ==> SectionsOnce(other)
  {
    if SectionsOnce(list) {
      DistinctPermuted(list, other);
      forall i, j | 0 <= i < j < |other|
        ensures other[i].section != other[j].section
      {
        assert other[i] in multiset(list) && other[j] in multiset(list);
      }
    }
  }

  method MergeTimelineSections(left: seq<SectionCount>, right: seq<SectionCount>) returns (merged: seq<SectionCount>)
    ensures SectionTotals(merged) == Combined(SectionTotals(left), SectionTotals(right), PlusInt)
    ensures SortedBy(merged, SectionOrder) && (SectionsOnce(left) ==> SectionsOnce(merged))
  {
    merged := left;
    assert SectionTotals(right[..0]) == map[];
    CombinedEmpty(SectionTotals(left), PlusInt);
    for i := 0 to |right|
      invariant SectionTotals(merged) == Combined(SectionTotals(left), SectionTotals(right[..i]), PlusInt)
      invariant SectionsOnce(left) ==> SectionsOnce(merged)
    {
      var index := 0;
      while index < |merged| && merged[index].section != right[i].section
        invariant index <= |merged| && forall k | 0 <= k < index :: merged[k].section != right[i].section
      {
        index := index + 1;
      }
      assert right[..i + 1] == right[..i] + [right[i]];
      SectionAppended(right[..i], right[i]);
      CombinedGrows(SectionTotals(left), SectionTotals(right[..i]), right[i]);
      if index == |merged| {
        SectionAppended(merged, right[i]);
        merged := merged + [right[i]];
      } else {
        SectionBumped(merged, index, right[i].requests);
        merged := merged[index := merged[index].(requests := merged[index].requests + right[i].requests)];
      }
    }
    assert right[..|right|] == right;
    SectionsSorted(merged);
    AtMostIsOrder();
    SortSorts(merged, SectionOrder);
    SectionsOncePermuted(merged, Sort(merged, SectionOrder));
    merged := Sort(merged, SectionOrder);
  }

  method AddTimeline(left: Bucket, right: Bucket) returns (b: Bucket)
    ensures b.start == left.start && TotalsOf(b) == PlusTotals(TotalsOf(left), TotalsOf(right))
    ensures SectionsOnce(left.sections) ==> Tidy(b)
  {
    var sections := MergeTimelineSections(left.sections, right.sections);
    b := Bucket(left.start, AddNumbers(left.numbers, right.numbers), sections);
  }

  /** Each section once, in the order of the names. */
  ghost predicate Tidy(b: Bucket) {
    SortedBy(b.sections, SectionOrder) && SectionsOnce(b.sections)
  }

  // The merger

  ghost predicate BucketsKept(m: map<int, Bucket>) {
    forall start | start in m :: m[start].start == start && Settled(m[start].numbers) && Tidy(m[start])
  }

  function AddBucket(m: map<int, Totals>, item: Bucket): map<int, Totals> {
    AddEntry(m, item.start, FromNothing(TotalsOf(item)), PlusTotals)
  }

  lemma BucketsGrow(m: map<int, Totals>, items: seq<Bucket>, i: nat)
    requires i < |items|
    ensures AddEntries(m, BucketEntries(items[..i + 1]), PlusTotals) ==
            AddBucket(AddEntries(m, BucketEntries(items[..i]), PlusTotals), items[i])
  {
    var item := items[i];
    var before, entry := BucketEntries(items[..i]), (item.start, FromNothing(TotalsOf(item)));
    assert BucketEntries(items[..i + 1]) == before + [entry];
    AddEntriesAppend(m, before, [entry], PlusTotals);
    AddOne(AddEntries(m, before, PlusTotals), entry.0, entry.1, PlusTotals);
  }

  function BucketFor(m: map<int, Bucket>, start: int): Bucket {
    if start in m then m[start] else Bucket(start, NO_NUMBERS, [])
  }

  lemma EmptyBucket(start: int)
    ensures TotalsOf(Bucket(start, NO_NUMBERS, [])) == NO_TOTALS && Settled(NO_NUMBERS)
  {
  }

  lemma BucketAdded(m: map<int, Bucket>, item: Bucket, added: Bucket)
    requires BucketsKept(m) && Sampled(item.numbers)
    requires added.start == item.start && TotalsOf(added) == PlusTotals(TotalsOf(BucketFor(m, item.start)), TotalsOf(item))
    ensures Settled(added.numbers)
    ensures ValuedMap(m[item.start := added], TotalsOf) == AddBucket(ValuedMap(m, TotalsOf), item)
  {
    hide WeightedAverage, PlusTotals, SectionTotals, Settled;
    var existing := BucketFor(m, item.start);
    EmptyBucket(item.start);
    AddToBucket(TotalsOf(existing), TotalsOf(item));
    assert TotalsOf(added) == AddBucket(ValuedMap(m, TotalsOf), item)[item.start];
  }

  /** One item of a timeline, added to its bucket or to a new one. */
  method AddOneBucket(m: map<int, Bucket>, item: Bucket) returns (r: map<int, Bucket>)
    requires BucketsKept(m) && Sampled(item.numbers)
    ensures BucketsKept(r)
    ensures ValuedMap(r, TotalsOf) == AddBucket(ValuedMap(m, TotalsOf), item)
  {
    assert SectionsOnce(BucketFor(m, item.start).sections);
    var added := AddTimeline(BucketFor(m, item.start), item);
    BucketAdded(m, item, added);
    r := m[item.start := added];
  }

  method AddBuckets(m: map<int, Bucket>, items: seq<Bucket>) returns (r: map<int, Bucket>)
    requires BucketsKept(m) && forall i | 0 <= i < |items| :: Sampled(items[i].numbers)
    ensures BucketsKept(r)
    ensures ValuedMap(r, TotalsOf) == AddEntries(ValuedMap(m, TotalsOf), BucketEntries(items), PlusTotals)
  {
    r := m;
    for i := 0 to |items|
      invariant BucketsKept(r)
      invariant ValuedMap(r, TotalsOf) == AddEntries(ValuedMap(m, TotalsOf), BucketEntries(items[..i]), PlusTotals)
    {
      BucketsGrow(ValuedMap(m, TotalsOf), items, i);
      r := AddOneBucket(r, items[i]);
    }
    assert items[..|items|] == items;
  }

  ghost predicate Keyed(l: Listing, m: map<string, Usage>) {
    forall key | key in m :: KeyOf(l, m[key]) == key && m[key].loads >= 0
  }

  method AddUsages(l: Listing, m: map<string, Usage>, items: seq<Usage>) returns (r: map<string, Usage>)
    requires Keyed(l, m) && UsagesSound(items)
    ensures Keyed(l, r) && r == Combined(m, UsageIndex(l, items), AddUsage)
  {
    r := m;
    for i := 0 to |items|
      invariant Keyed(l, r) && r == AddEntries(m, UsageEntries(l, items[..i]), AddUsage)
    {
      var key := KeyOf(l, items[i]);
      assert UsageEntries(l, items[..i + 1]) == UsageEntries(l, items[..i]) + [(key, items[i])];
      AddEntriesAppend(m, UsageEntries(l, items[..i]), [(key, items[i])], AddUsage);
      AddOne(r, key, items[i], AddUsage);
      r := r[key := if key in r then AddUsage(r[key], items[i]) else items[i]];
    }
    assert items[..|items|] == items;
    UsageAdds();
    AddEntriesCombines(m, UsageEntries(l, items), AddUsage, LoadsCounted);
  }

  method AddFilterValues(names: set<string>, candidates: seq<string>) returns (r: set<string>)
    ensures r == names + Named(candidates) && ("" !in names ==> "" !in r)
  {
    r := names;
    for i := 0 to |candidates|
      invariant r == names + Named(candidates[..i])
    {
      if candidates[i] != "" {
        r := r + {candidates[i]};
      }
    }
    assert candidates[..|candidates|] == candidates;
  }

  /** Everything a merged response shows is in place: sorted, and cut where the lists are bounded. */
  ghost predicate Presented(r: Response) {
    && r.to >= 0 && PlusSummary(NO_SUMMARY, r.summary) == r.summary
    && Ascending(r.nodeIds) && "" !in r.nodeIds && Ascending(r.modelIds) && "" !in r.modelIds
    && Times(r.recent) == Top(Times(r.recent), RECENT_LIMIT, Later)
    && r.versions == Sort(r.versions, VersionOrder)
    && SortedBy(r.timeline, ByStart) && SortedBy(r.sections, ByRequests)
    && SortedBy(r.models, ByRequestsThenModel) && SortedBy(r.nodes, ByNodeId)
    && BucketsPresented(r.timeline) && forall l :: KeysOnce(UsageEntries(l, UsageList(l, r)))
  }

  /** A timeline has each start once, and in each bucket each section once. */
  ghost predicate BucketsPresented(timeline: seq<Bucket>) {
    && KeysOnce(BucketEntries(timeline))
    && forall i | 0 <= i < |timeline| :: Tidy(timeline[i]) && Settled(timeline[i].numbers)
  }

  predicate ByStart(a: Bucket, b: Bucket) {
    a.start <= b.start
  }

  predicate ByRequests(a: Usage, b: Usage) {
    a.requests >= b.requests
  }

  predicate ByRequestsThenModel(a: Usage, b: Usage) {
    if a.requests == b.requests then AtMost(a.model, b.model) else a.requests > b.requests
  }

  predicate ByNodeId(a: Usage, b: Usage) {
    AtMost(a.node, b.node)
  }

  lemma ListingsOrdered()
    ensures TotalPreorder(ByStart) && TotalPreorder(ByRequests) && TotalPreorder(ByRequestsThenModel) && TotalPreorder(ByNodeId)
  {
    AtMostIsOrder();
  }

  ghost predicate Lists<K, V>(values: seq<V>, entries: seq<(K, V)>, m: map<K, V>) {
    && Enumerates(entries, m) && |values| == |entries|
    && forall i | 0 <= i < |values| :: entries[i].1 == values[i] && entries[i].0 in m && m[entries[i].0] == values[i]
  }

  function ByValue<K, V>(le: (V, V) -> bool): ((K, V), (K, V)) -> bool {
    (e: (K, V), f: (K, V)) => le(e.1, f.1)
  }

  function Values<K, V>(entries: seq<(K, V)>): seq<V> {
    seq(|entries|, i requires 0 <= i < |entries| => entries[i].1)
  }

  lemma SortedEntries<K(!new), V(!new)>(entries: seq<(K, V)>, le: (V, V) -> bool)
    requires TotalPreorder(le)
    ensures var sorted := Sort(entries, ByValue(le)); multiset(sorted) == multiset(entries) && SortedBy(Values(sorted), le)
  {
    var ordered := ByValue<K, V>(le);
    forall x: (K, V), y: (K, V)
      ensures ordered(x, y) == le(x.1, y.1)
    {
    }
    assert TotalPreorder(ordered);
    SortSorts(entries, ByValue(le));
    var sorted := Sort(entries, ByValue(le));
    forall i, j | 0 <= i < j < |sorted|
      ensures le(sorted[i].1, sorted[j].1)
    {
      assert ByValue(le)(sorted[i], sorted[j]);
    }
  }

  lemma EnumeratesEach<K, V>(entries: seq<(K, V)>, m: map<K, V>, i: nat)
    requires Enumerates(entries, m) && i < |entries|
    ensures entries[i].0 in m && m[entries[i].0] == entries[i].1
  {
    assert entries[i] in multiset(entries);
    assert entries[i] in m.Items;
  }

  /** The values of a map, sorted; equals may come in any order. */
  method SortedValues<K(==, !new), V(==, !new)>(m: map<K, V>, le: (V, V) -> bool) returns (values: seq<V>, ghost entries: seq<(K, V)>)
    requires TotalPreorder(le)
    ensures Lists(values, entries, m) && SortedBy(values, le)
  {
    var unsorted := Entries(m);
    SortedEntries(unsorted, le);
    var sorted := Sort(unsorted, ByValue(le));
    entries := sorted;
    values := Values(sorted);
    forall i | 0 <= i < |entries|
      ensures entries[i].0 in m && m[entries[i].0] == entries[i].1
    {
      EnumeratesEach(entries, m, i);
    }
  }

  lemma UsagesListed(l: Listing, m: map<string, Usage>, entries: seq<(string, Usage)>, values: seq<Usage>)
    requires Keyed(l, m) && Lists(values, entries, m)
    ensures UsageIndex(l, values) == m && UsagesSound(values) && KeysOnce(UsageEntries(l, values))
  {
    EnumeratesOnce(entries, m);
    var same := (u: Usage) => u;
    assert UsageEntries(l, values) == Valued(entries, same);
    EnumerationIndexes(entries, m, same, AddUsage);
    assert ValuedMap(m, same) == m;
  }

  lemma BucketsListed(m: map<int, Bucket>, entries: seq<(int, Bucket)>, values: seq<Bucket>)
    requires BucketsKept(m) && Lists(values, entries, m)
    ensures Index(BucketEntries(values), PlusTotals) == ValuedMap(m, TotalsOf)
    ensures (forall i | 0 <= i < |values| :: Sampled(values[i].numbers)) && BucketsPresented(values)
  {
    EnumeratesOnce(entries, m);
    forall i | 0 <= i < |values|
      ensures FromNothing(TotalsOf(values[i])) == TotalsOf(values[i]) && values[i].start == entries[i].0
      ensures Tidy(values[i]) && Settled(values[i].numbers)
    {
      var start := entries[i].0;
      assert start in m && m[start] == values[i];
      assert m[start].start == start && Settled(m[start].numbers);
      FromNothingSettles(TotalsOf(values[i]));
    }
    assert BucketEntries(values) == Valued(entries, TotalsOf);
    EnumerationIndexes(entries, m, TotalsOf, PlusTotals);
  }

  predicate RecentFirst(a: Recent, b: Recent) {
    a.finishedAt >= b.finishedAt
  }

  method LatestRecent(recent: seq<Recent>) returns (shown: seq<Recent>)
    ensures Times(shown) == Top(Times(recent), RECENT_LIMIT, Later) && multiset(shown) <= multiset(recent)
  {
    var sorted := Sort(recent, RecentFirst);
    SortSorts(recent, RecentFirst);
    SortMapped(recent, (r: Recent) => r.finishedAt, RecentFirst, Later);
    assert Times(sorted) == Sort(Times(recent), Later);
    shown := if |sorted| > RECENT_LIMIT then sorted[..RECENT_LIMIT] else sorted;
    assert sorted == shown + sorted[|shown|..];
    assert Times(shown) == Take(Times(sorted), RECENT_LIMIT);
  }

  class Merger {
    var enabled: bool
    var from: int
    var to: int
    var granularity: string
    var nodeIds: set<string>
    var modelIds: set<string>
    var summary: Summary
    var timeline: map<int, Bucket>
    var sections: map<string, Usage>
    var models: map<string, Usage>
    var nodes: map<string, Usage>
    var recent: seq<Recent>
    var versions: seq<Version>
    var errors: seq<NodeError>

    ghost predicate Valid()
      reads this
    {
      && from >= 0 && to >= 0 && "" !in nodeIds && "" !in modelIds
      && SettledSummary(summary) && BucketsKept(timeline)
      && Keyed(BySection, sections) && Keyed(ByModel, models) && Keyed(ByNode, nodes)
    }

    /** What the responses added so far say together. */
    function Said(): Digest
      reads this
    {
      Digest(enabled, from, to, granularity, nodeIds, modelIds, Finished(summary), ValuedMap(timeline, TotalsOf),
             sections, models, nodes, Top(Times(recent), RECENT_LIMIT, Later), Sort(versions, VersionOrder), errors)
    }

    constructor ()
      ensures Valid() && Said() == NO_DIGEST
    {
      enabled, from, to, granularity, nodeIds, modelIds := false, 0, 0, "", {}, {};
      summary, timeline, sections, models, nodes := NO_SUMMARY, map[], map[], map[], map[];
      recent, versions, errors := [], [], [];
    }

    method AddHeader(r: Response)
      modifies this`enabled, this`from, this`to, this`granularity
      ensures enabled == (old(enabled) || r.enabled) && from == Earlier(old(from), r.from)
      ensures to == (if r.to > old(to) then r.to else old(to))
      ensures granularity == if old(granularity) == "" then r.granularity else old(granularity)
    {
      enabled := enabled || r.enabled;
      if from == 0 || (r.from > 0 && r.from < from) {
        from := r.from;
      }
      if r.to > to {
        to := r.to;
      }
      if granularity == "" {
        granularity := r.granularity;
      }
    }

    method AddLists(r: Response)
      requires Sound(r) && BucketsKept(timeline) && Keyed(BySection, sections) && Keyed(ByModel, models) && Keyed(ByNode, nodes)
      modifies this`timeline, this`sections, this`models, this`nodes
      ensures BucketsKept(timeline) && Keyed(BySection, sections) && Keyed(ByModel, models) && Keyed(ByNode, nodes)
      ensures ValuedMap(timeline, TotalsOf) == Combined(old(ValuedMap(timeline, TotalsOf)), Index(BucketEntries(r.timeline), PlusTotals), PlusTotals)
      ensures sections == Combined(old(sections), UsageIndex(BySection, r.sections), AddUsage)
      ensures models == Combined(old(models), UsageIndex(ByModel, r.models), AddUsage)
      ensures nodes == Combined(old(nodes), UsageIndex(ByNode, r.nodes), AddUsage)
    {
      hide WeightedAverage, Index, AddEntries, UsageIndex, Combined, ValuedMap, Keyed, BucketsKept;
      TimelineCombined(timeline, r.timeline);
      timeline := AddBuckets(timeline, r.timeline);
      sections := AddUsages(BySection, sections, r.sections);
      models := AddUsages(ByModel, models, r.models);
      nodes := AddUsages(ByNode, nodes, r.nodes);
    }

    method AddHistory(r: Response)
      modifies this`recent, this`versions, this`errors
      ensures recent == old(recent) + r.recent && versions == old(versions) + r.versions && errors == old(errors) + r.errors
      ensures Top(Times(recent), RECENT_LIMIT, Later) ==
              Top(Top(Times(old(recent)), RECENT_LIMIT, Later) + Top(Times(r.recent), RECENT_LIMIT, Later), RECENT_LIMIT, Later)
      ensures Sort(versions, VersionOrder) == Sort(Sort(old(versions), VersionOrder) + Sort(r.versions, VersionOrder), VersionOrder)
    {
      hide Top, Sort, Insert, Times;
      RecentJoined(recent, r.recent);
      VersionsJoined(versions, r.versions);
      recent := recent + r.recent;
      versions := versions + r.versions;
      errors := errors + r.errors;
    }

    method AddFilters(r: Response)
      requires "" !in nodeIds && "" !in modelIds
      modifies this`nodeIds, this`modelIds
      ensures nodeIds == old(nodeIds) + Named(r.nodeIds) && modelIds == old(modelIds) + Named(r.modelIds)
      ensures "" !in nodeIds && "" !in modelIds
    {
      hide Named;
      nodeIds := AddFilterValues(nodeIds, r.nodeIds);
      modelIds := AddFilterValues(modelIds, r.modelIds);
    }

    method AddTotals(t: Summary)
      requires SettledSummary(summary) && Counted(t)
      modifies this`summary
      ensures SettledSummary(summary)
      ensures Finished(summary) == PlusSummary(old(Finished(summary)), PlusSummary(NO_SUMMARY, t))
    {
      hide SettledSummary, Counted, AddSummary, Finished, PlusSummary;
      AddToSummary(summary, t);
      summary := AddSummary(summary, t);
    }

    /** What is one for the whole response. */
    method AddScalars(r: Response)
      requires "" !in nodeIds && "" !in modelIds && SettledSummary(summary) && Counted(r.summary)
      modifies this`enabled, this`from, this`to, this`granularity, this`nodeIds, this`modelIds, this`summary
      ensures enabled == (old(enabled) || r.enabled) && from == Earlier(old(from), r.from)
      ensures to == (if r.to > old(to) then r.to else old(to))
      ensures granularity == if old(granularity) == "" then r.granularity else old(granularity)
      ensures nodeIds == old(nodeIds) + Named(r.nodeIds) && modelIds == old(modelIds) + Named(r.modelIds)
      ensures "" !in nodeIds && "" !in modelIds && SettledSummary(summary)
      ensures Finished(summary) == PlusSummary(old(Finished(summary)), PlusSummary(NO_SUMMARY, r.summary))
    {
      hide Earlier, Named, SettledSummary, Counted, Finished, PlusSummary, AddSummary;
      AddHeader(r);
      AddFilters(r);
      AddTotals(r.summary);
    }

    /** One more response: what is said is what was said plus what it says. */
    method Add(r: Response)
      requires Valid() && Sound(r)
      modifies this
      ensures Valid() && Said() == Plus(old(Said()), DigestOf(r))
      ensures recent == old(recent) + r.recent
    {
      hide Plus, WeightedAverage, AddSummary, PlusSummary, Finished, Top, Sort, Insert, Index, AddEntries, UsageIndex, Combined, ValuedMap,
        Keyed, BucketsKept, SettledSummary, Counted, Named, Times, Mapped, UsagesSound, BucketEntries, TotalsOf, Sampled;
      ghost var before := Said();
      AddScalars(r);
      AddLists(r);
      AddHistory(r);
      PlusIs(before, DigestOf(r), Said());
    }

    /** The merged response says what was said, with its lists in order. */
    method Result() returns (r: Response)
      requires Valid()
      ensures Sound(r) && Presented(r) && DigestOf(r) == Said()
      ensures multiset(r.recent) <= multiset(recent)
    {
      hide WeightedAverage, AddSummary, Sort, Insert, AddEntries, Keyed, BucketsKept, Lists, TotalPreorder, KeysOnce, BucketsPresented, UsageEntries, BucketEntries;
      ListingsOrdered();
      var timelineList, timelineEntries := SortedValues(timeline, ByStart);
      BucketsListed(timeline, timelineEntries, timelineList);
      var sectionList, sectionEntries := SortedValues(sections, ByRequests);
      UsagesListed(BySection, sections, sectionEntries, sectionList);
      var modelList, modelEntries := SortedValues(models, ByRequestsThenModel);
      UsagesListed(ByModel, models, modelEntries, modelList);
      var nodeList, nodeEntries := SortedValues(nodes, ByNodeId);
      UsagesListed(ByNode, nodes, nodeEntries, nodeList);
      var shown := LatestRecent(recent);
      var nodeNames := Listed(nodeIds);
      var modelNames := Listed(modelIds);
      VersionsOrdered();
      TopParts(Times(recent), [], RECENT_LIMIT, Later);
      SortParts(versions, [], VersionOrder);
      AddNoSummary(summary);
      r := Response(enabled, from, to, granularity, nodeNames, modelNames,
                    if summary.requests > 0 then summary.(failures := summary.requests - summary.successes) else summary,
                    timelineList, sectionList, modelList, nodeList, shown, Sort(versions, VersionOrder), errors);
      assert Named(nodeNames) == nodeIds && Named(modelNames) == modelIds;
    }
  }

  lemma PlusIs(a: Digest, b: Digest, s: Digest)
    requires s.enabled == (a.enabled || b.enabled) && s.from == Earlier(a.from, b.from)
    requires s.to == (if b.to > a.to then b.to else a.to)
    requires s.granularity == (if a.granularity == "" then b.granularity else a.granularity)
    requires s.nodeIds == a.nodeIds + b.nodeIds && s.modelIds == a.modelIds + b.modelIds
    requires s.summary == PlusSummary(a.summary, b.summary)
    requires s.timeline == Combined(a.timeline, b.timeline, PlusTotals)
    requires s.sections == Combined(a.sections, b.sections, AddUsage)
    requires s.models == Combined(a.models, b.models, AddUsage) && s.nodes == Combined(a.nodes, b.nodes, AddUsage)
    requires s.finished == Top(a.finished + b.finished, RECENT_LIMIT, Later)
    requires s.versions == Sort(a.versions + b.versions, VersionOrder) && s.errors == a.errors + b.errors
    ensures s == Plus(a, b)
  {
  }

  lemma TimelineCombined(m: map<int, Bucket>, items: seq<Bucket>)
    requires BucketsKept(m) && forall i | 0 <= i < |items| :: Sampled(items[i].numbers)
    ensures AddEntries(ValuedMap(m, TotalsOf), BucketEntries(items), PlusTotals) ==
            Combined(ValuedMap(m, TotalsOf), Index(BucketEntries(items), PlusTotals), PlusTotals)
  {
    hide WeightedAverage;
    forall i | 0 <= i < |items|
      ensures SampledTotals(BucketEntries(items)[i].1)
    {
      FromNothingSettles(TotalsOf(items[i]));
    }
    forall start | start in m
      ensures SampledTotals(ValuedMap(m, TotalsOf)[start])
    {
      assert Settled(m[start].numbers);
    }
    TotalsAdd();
    AddEntriesCombines(ValuedMap(m, TotalsOf), BucketEntries(items), PlusTotals, SampledTotals);
  }

  lemma RecentJoined(a: seq<Recent>, b: seq<Recent>)
    ensures Top(Times(a + b), RECENT_LIMIT, Later) ==
            Top(Top(Times(a), RECENT_LIMIT, Later) + Top(Times(b), RECENT_LIMIT, Later), RECENT_LIMIT, Later)
  {
    VersionsOrdered();
    assert Times(a + b) == Times(a) + Times(b);
    TopParts(Times(a), Times(b), RECENT_LIMIT, Later);
  }

  lemma VersionsJoined(a: seq<Version>, b: seq<Version>)
    ensures Sort(a + b, VersionOrder) == Sort(Sort(a, VersionOrder) + Sort(b, VersionOrder), VersionOrder)
  {
    VersionsOrdered();
    SortParts(a, b, VersionOrder);
  }

  /** What a list of responses says, one added after the other. */
  function Total(responses: seq<Response>): Digest {
    Fold(responses, DigestOf, NO_DIGEST, Plus)
  }

  ghost predicate AllSound(responses: seq<Response>) {
    All(responses, Sound)
  }

  /** What `Merge` may return for these responses. */
  ghost predicate Merges(responses: seq<Response>, r: Response) {
    Sound(r) && Presented(r) && DigestOf(r) == Total(responses)
  }

  method Merge(responses: seq<Response>) returns (r: Response)
    requires AllSound(responses)
    ensures Merges(responses, r)
  {
    hide Plus, DigestOf, WeightedAverage, Sort, Insert, AddEntries;
    var merger := new Merger();
    for i := 0 to |responses|
      invariant fresh(merger) && merger.Valid() && merger.Said() == Total(responses[..i])
    {
      merger.Add(responses[i]);
      FoldStep(responses[..i], responses[i], DigestOf, NO_DIGEST, Plus);
      assert responses[..i + 1] == responses[..i] + [responses[i]];
    }
    assert responses[..|responses|] == responses;
    r := merger.Result();
  }

  // Grouping

  lemma DigestsClosed()
    ensures Closed(Plus, SoundDigest)
  {
    hide WeightedAverage, Sort, Insert;
    forall a, b | SoundDigest(a) && SoundDigest(b)
      ensures SoundDigest(Plus(a, b))
    {
      PlusSound(a, b);
    }
  }

  lemma DigestsAssociative()
    ensures Associative(Plus, SoundDigest)
  {
    hide WeightedAverage, Sort, Insert;
    forall a, b, c | SoundDigest(a) && SoundDigest(b) && SoundDigest(c)
      ensures Plus(Plus(a, b), c) == Plus(a, Plus(b, c))
    {
      PlusAssociative(a, b, c);
    }
  }

  lemma NoDigestSound()
    ensures SoundDigest(NO_DIGEST)
  {
  }

  lemma DigestsNeutral()
    ensures Neutral(NO_DIGEST, Plus, SoundDigest)
  {
    hide WeightedAverage, Sort, Insert;
    forall d | SoundDigest(d)
      ensures Plus(NO_DIGEST, d) == d == Plus(d, NO_DIGEST)
    {
      PlusNothing(d);
    }
    NoDigestSound();
  }

  lemma DigestsSound()
    ensures Maps(DigestOf, Sound, SoundDigest)
  {
    hide WeightedAverage, Sort, Insert;
    forall r | Sound(r)
      ensures SoundDigest(DigestOf(r))
    {
      DigestSound(r);
    }
  }

  lemma DigestsAdd()
    ensures Adds(Plus, SoundDigest) && Neutral(NO_DIGEST, Plus, SoundDigest) && Maps(DigestOf, Sound, SoundDigest)
  {
    DigestsClosed();
    DigestsAssociative();
    DigestsNeutral();
    DigestsSound();
  }

  lemma TotalAppend(a: seq<Response>, b: seq<Response>)
    requires AllSound(a) && AllSound(b)
    ensures Total(a + b) == Plus(Total(a), Total(b))
  {
    DigestsAdd();
    FoldAppend(a, b, DigestOf, NO_DIGEST, Plus, Sound, SoundDigest);
  }

  /** A cluster answered in steps: a node's own response, or the merge of some answers. */
  datatype Tree = Node(response: Response) | Group(members: seq<Tree>)

  function Leaves(t: Tree): seq<Response>
    decreases t, 0
  {
    match t
    case Node(response) => [response]
    case Group(members) => AllLeaves(members)
  }

  function AllLeaves(trees: seq<Tree>): seq<Response>
    decreases trees, 1
  {
    if trees == [] then [] else AllLeaves(trees[..|trees| - 1]) + Leaves(trees[|trees| - 1])
  }

  /** `r` may come out of the tree: every group is one call of `Merge`. */
  ghost predicate Outcome(t: Tree, r: Response)
    decreases t, 0
  {
    match t
    case Node(response) => r == response
    case Group(members) => exists answers: seq<Response> :: Outcomes(members, answers) && Merges(answers, r)
  }

  ghost predicate Outcomes(trees: seq<Tree>, answers: seq<Response>)
    decreases trees, 1
  {
    |trees| == |answers| &&
    (trees != [] ==>
      && Outcomes(trees[..|trees| - 1], answers[..|trees| - 1])
      && Outcome(trees[|trees| - 1], answers[|trees| - 1]))
  }

  /** However the responses are grouped, what comes out says what they say one after the other. */
  lemma {:induction false} GroupingKeepsTotal(t: Tree, r: Response)
    requires Outcome(t, r) && All(Leaves(t), Sound)
    ensures Sound(r) && DigestOf(r) == Total(Leaves(t))
    decreases t, 0
  {
    hide Plus, DigestOf, Sound, Presented;
    match t
    case Node(response) =>
      assert response == Leaves(t)[0];
      DigestsAdd();
      FoldStep([], response, DigestOf, NO_DIGEST, Plus);
      assert [] + [response] == [response];
      NeutralLeft(DigestOf(response));
    case Group(members) =>
      var answers: seq<Response> :| Outcomes(members, answers) && Merges(answers, r);
      GroupsKeepTotal(members, answers);
      MergesSays(answers, r);
  }

  lemma NeutralLeft(d: Digest)
    requires Neutral(NO_DIGEST, Plus, SoundDigest) && SoundDigest(d)
    ensures Plus(NO_DIGEST, d) == d
  {
  }

  lemma MergesSays(answers: seq<Response>, r: Response)
    requires Merges(answers, r)
    ensures Sound(r) && Presented(r) && DigestOf(r) == Total(answers)
  {
  }

  lemma AllSplit<R>(a: seq<R>, b: seq<R>, sound: R -> bool)
    requires All(a + b, sound)
    ensures All(a, sound) && All(b, sound)
  {
    assert forall i | 0 <= i < |a| :: a[i] == (a + b)[i];
    assert forall i | 0 <= i < |b| :: b[i] == (a + b)[|a| + i];
  }

  lemma TotalStep(responses: seq<Response>, last: Response)
    ensures Total(responses + [last]) == Plus(Total(responses), DigestOf(last))
  {
    hide Plus, DigestOf;
    FoldStep(responses, last, DigestOf, NO_DIGEST, Plus);
  }

  lemma GroupsStep(before: seq<Response>, last: seq<Response>, answers: seq<Response>, answer: Response)
    requires AllSound(before) && AllSound(last)
    requires AllSound(answers) && Total(answers) == Total(before) && Sound(answer) && DigestOf(answer) == Total(last)
    ensures AllSound(answers + [answer]) && Total(answers + [answer]) == Total(before + last)
  {
    hide Plus, DigestOf, Sound, Total;
    TotalStep(answers, answer);
    TotalAppend(before, last);
  }

  lemma LastTree(trees: seq<Tree>, answers: seq<Response>)
    requires Outcomes(trees, answers) && trees != []
    ensures var n := |trees| - 1;
            && |answers| == n + 1 && Outcomes(trees[..n], answers[..n]) && Outcome(trees[n], answers[n])
            && AllLeaves(trees) == AllLeaves(trees[..n]) + Leaves(trees[n])
  {
    hide Merges, Outcome, Leaves;
  }

  lemma {:induction false} GroupsKeepTotal(trees: seq<Tree>, answers: seq<Response>)
    requires Outcomes(trees, answers) && All(AllLeaves(trees), Sound)
    ensures AllSound(answers) && Total(answers) == Total(AllLeaves(trees))
    decreases trees, 1
  {
    hide Plus, DigestOf, Sound, Presented, Total, Merges;
    if trees == [] {
      assert AllLeaves(trees) == [] && answers == [];
    } else {
      hide Outcome, Outcomes, AllLeaves, Leaves;
      var n := |trees| - 1;
      LastTree(trees, answers);
      AllSplit(AllLeaves(trees[..n]), Leaves(trees[n]), Sound);
      GroupsKeepTotal(trees[..n], answers[..n]);
      GroupingKeepsTotal(trees[n], answers[n]);
      GroupsStep(AllLeaves(trees[..n]), Leaves(trees[n]), answers[..n], answers[n]);
      assert answers == answers[..n] + [answers[n]];
    }
  }

  /** Merging is hierarchical: two ways of grouping the same responses show the same
      summary, the same windows and filters, the same timeline and node lists, the same
      section and model lines, each once, the same finishing times and the same versions. */
  lemma GroupingIrrelevant(t: Tree, u: Tree, r: Response, s: Response)
    requires t.Group? && u.Group? && Leaves(t) == Leaves(u) && All(Leaves(t), Sound)
    requires Outcome(t, r) && Outcome(u, s)
    ensures r.enabled == s.enabled && r.from == s.from && r.to == s.to && r.granularity == s.granularity
    ensures r.nodeIds == s.nodeIds && r.modelIds == s.modelIds && r.summary == s.summary
    ensures r.timeline == s.timeline && r.nodes == s.nodes
    ensures multiset(r.sections) == multiset(s.sections) && multiset(r.models) == multiset(s.models)
    ensures Times(r.recent) == Times(s.recent) && r.versions == s.versions && r.errors == s.errors
  {
    hide DigestOf, Presented, Sound, Total, UsageIndex, Index;
    GroupingKeepsTotal(t, r);
    GroupingKeepsTotal(u, s);
    GroupPresented(t, r);
    GroupPresented(u, s);
    SameDigestSameAnswer(r, s);
  }

  lemma UsageShared(l: Listing, a: seq<Usage>, b: seq<Usage>, i: nat)
    requires KeysOnce(UsageEntries(l, a)) && KeysOnce(UsageEntries(l, b)) && UsageIndex(l, a) == UsageIndex(l, b) && i < |a|
    ensures a[i] in b
  {
    var x, y := UsageEntries(l, a), UsageEntries(l, b);
    IndexOfOnce(x, AddUsage);
    IndexOfOnce(y, AddUsage);
    assert x[i].0 in UsageIndex(l, b);
    var j :| 0 <= j < |y| && y[j].0 == x[i].0;
    assert b[j] == y[j].1 == x[i].1;
  }

  /** Lines with each key once are given by what they add up to. */
  lemma SameUsages(l: Listing, a: seq<Usage>, b: seq<Usage>)
    requires KeysOnce(UsageEntries(l, a)) && KeysOnce(UsageEntries(l, b)) && UsageIndex(l, a) == UsageIndex(l, b)
    ensures multiset(a) == multiset(b) && UsagesOnce(l, a)
  {
    forall u
      ensures u in a <==> u in b
    {
      if i :| 0 <= i < |a| && a[i] == u {
        UsageShared(l, a, b, i);
      }
      if i :| 0 <= i < |b| && b[i] == u {
        UsageShared(l, b, a, i);
      }
    }
    UsagesDistinct(l, a);
    UsagesDistinct(l, b);
    SameItems(a, b);
  }

  ghost predicate UsagesOnce(l: Listing, list: seq<Usage>) {
    forall i, j | 0 <= i < j < |list| :: KeyOf(l, list[i]) != KeyOf(l, list[j])
  }

  lemma UsagesDistinct(l: Listing, list: seq<Usage>)
    requires KeysOnce(UsageEntries(l, list))
    ensures UsagesOnce(l, list) && Distinct(list)
  {
    var entries := UsageEntries(l, list);
    forall i, j | 0 <= i < j < |list|
      ensures KeyOf(l, list[i]) != KeyOf(l, list[j])
    {
      assert entries[i].0 != entries[j].0;
    }
  }

  /** A list sorted by what its lines differ in has one order. */
  lemma SameNodes(a: seq<Usage>, b: seq<Usage>)
    requires multiset(a) == multiset(b) && SortedBy(a, ByNodeId) && SortedBy(b, ByNodeId) && KeysOnce(UsageEntries(ByNode, a))
    ensures a == b
  {
    UsagesDistinct(ByNode, a);
    AtMostIsOrder();
    assert TellsApart(ByNodeId, a);
    SortedUnique(a, b, ByNodeId);
  }

  lemma SectionShared(a: seq<SectionCount>, b: seq<SectionCount>, i: nat)
    requires SectionsOnce(a) && SectionsOnce(b) && SectionTotals(a) == SectionTotals(b) && i < |a|
    ensures a[i] in b
  {
    var x, y := SectionEntries(a), SectionEntries(b);
    assert KeysOnce(x) && KeysOnce(y);
    IndexOfOnce(x, PlusInt);
    IndexOfOnce(y, PlusInt);
    assert x[i].0 in SectionTotals(b);
    var j :| 0 <= j < |y| && y[j].0 == x[i].0;
    assert b[j] == a[i];
  }

  lemma SameSections(a: Bucket, b: Bucket)
    requires Tidy(a) && Tidy(b) && SectionTotals(a.sections) == SectionTotals(b.sections)
    ensures a.sections == b.sections
  {
    forall x
      ensures x in a.sections <==> x in b.sections
    {
      if i :| 0 <= i < |a.sections| && a.sections[i] == x {
        SectionShared(a.sections, b.sections, i);
      }
      if i :| 0 <= i < |b.sections| && b.sections[i] == x {
        SectionShared(b.sections, a.sections, i);
      }
    }
    SameItems(a.sections, b.sections);
    AtMostIsOrder();
    assert TellsApart(SectionOrder, a.sections);
    SortedUnique(a.sections, b.sections, SectionOrder);
  }

  lemma BucketShared(a: seq<Bucket>, b: seq<Bucket>, i: nat)
    requires BucketsPresented(a) && BucketsPresented(b) && i < |a|
    requires Index(BucketEntries(a), PlusTotals) == Index(BucketEntries(b), PlusTotals)
    ensures a[i] in b
  {
    hide Tidy, Settled, SampledTotals, PlusTotals, WeightedAverage, SectionTotals;
    var x, y := BucketEntries(a), BucketEntries(b);
    IndexOfOnce(x, PlusTotals);
    IndexOfOnce(y, PlusTotals);
    assert x[i].0 in Index(y, PlusTotals);
    var j :| 0 <= j < |y| && y[j].0 == x[i].0;
    assert Settled(a[i].numbers) && Settled(b[j].numbers) && Tidy(a[i]) && Tidy(b[j]);
    SettledStands(a[i]);
    SettledStands(b[j]);
    assert TotalsOf(a[i]) == x[i].1 == y[j].1 == TotalsOf(b[j]);
    SameSections(a[i], b[j]);
    assert a[i] == b[j];
  }

  lemma SettledStands(b: Bucket)
    requires Settled(b.numbers)
    ensures FromNothing(TotalsOf(b)) == TotalsOf(b)
  {
    FromNothingSettles(TotalsOf(b));
  }

  lemma StartsDistinct(list: seq<Bucket>)
    requires KeysOnce(BucketEntries(list))
    ensures forall i, j | 0 <= i < j < |list| :: list[i].start != list[j].start
  {
    var entries := BucketEntries(list);
    forall i, j | 0 <= i < j < |list|
      ensures list[i].start != list[j].start
    {
      assert entries[i].0 != entries[j].0;
    }
  }

  lemma SameTimeline(a: seq<Bucket>, b: seq<Bucket>)
    requires BucketsPresented(a) && BucketsPresented(b) && SortedBy(a, ByStart) && SortedBy(b, ByStart)
    requires Index(BucketEntries(a), PlusTotals) == Index(BucketEntries(b), PlusTotals)
    ensures a == b
  {
    hide BucketEntries, Tidy, Settled, Index;
    forall x
      ensures x in a <==> x in b
    {
      if i :| 0 <= i < |a| && a[i] == x {
        BucketShared(a, b, i);
      }
      if i :| 0 <= i < |b| && b[i] == x {
        BucketShared(b, a, i);
      }
    }
    StartsDistinct(a);
    StartsDistinct(b);
    SameItems(a, b);
    assert TellsApart(ByStart, a);
    SortedUnique(a, b, ByStart);
  }

  lemma SameDigestSameAnswer(r: Response, s: Response)
    requires Presented(r) && Presented(s) && DigestOf(r) == DigestOf(s)
    ensures r.enabled == s.enabled && r.from == s.from && r.to == s.to && r.granularity == s.granularity
    ensures r.nodeIds == s.nodeIds && r.modelIds == s.modelIds && r.summary == s.summary
    ensures r.timeline == s.timeline && r.nodes == s.nodes
    ensures multiset(r.sections) == multiset(s.sections) && multiset(r.models) == multiset(s.models)
    ensures Times(r.recent) == Times(s.recent) && r.versions == s.versions && r.errors == s.errors
  {
    hide WeightedAverage, PlusSummary, Top, Sort, Index, UsageIndex, Named, SortedBy, Ascending, KeysOnce, BucketsPresented, UsageEntries;
    SameNames(r.nodeIds, s.nodeIds);
    SameNames(r.modelIds, s.modelIds);
    SameTimeline(r.timeline, s.timeline);
    forall l
      ensures multiset(UsageList(l, r)) == multiset(UsageList(l, s))
    {
      assert KeysOnce(UsageEntries(l, UsageList(l, r))) && KeysOnce(UsageEntries(l, UsageList(l, s)));
      SameUsages(l, UsageList(l, r), UsageList(l, s));
    }
    assert multiset(UsageList(BySection, r)) == multiset(r.sections) && multiset(UsageList(ByModel, r)) == multiset(r.models);
    assert multiset(UsageList(ByNode, r)) == multiset(UsageList(ByNode, s));
    SameNodes(r.nodes, s.nodes);
  }

  function UsageList(l: Listing, r: Response): seq<Usage> {
    match l
    case BySection => r.sections
    case ByModel => r.models
    case ByNode => r.nodes
  }

  lemma GroupPresented(t: Tree, r: Response)
    requires t.Group? && Outcome(t, r)
    ensures Presented(r)
  {
    hide Presented;
    var answers: seq<Response> :| Outcomes(t.members, answers) && Merges(answers, r);
    MergesSays(answers, r);
  }

  lemma SameNames(a: seq<string>, b: seq<string>)
    requires Named(a) == Named(b) && "" !in a && "" !in b && Ascending(a) && Ascending(b)
    ensures a == b
  {
    forall x
      ensures x in a <==> x in b
    {
      assert x in Named(a) <==> x in a;
      assert x in Named(b) <==> x in b;
    }
    AscendingUnique(a, b);
  }
}

/** The analytics tables: raw events, which are pruned after a while, and hour
    and day rollups, which are kept. Numbers are exact reals; instants are whole
    milliseconds since the epoch. */
module Rollups {
  import opened Basics

  const HOUR_MS := 3600000
  const DAY_MS := 86400000

  datatype Period = Hour | Day

  datatype Kind = Request | ModelLoad

  datatype Labels = Labels(node: string, model: string, section: string, mode: string, route: string)

  /** A normalized event. */
  datatype Event = Event(labels: Labels, kind: Kind, success: bool, finishedAt: int, duration: real,
                         inputTokens: real, outputTokens: real, totalTokens: real, tokensPS: real, promptPS: real,
                         images: real, embeddings: real, audioSeconds: real, audioTokens: real,
                         workVramMax: real, loadVramAfter: real, vramPeakPercent: real, vramTotal: real, modelVram: real)

  predicate Normalized(e: Event) {
    e.tokensPS >= 0.0 && e.promptPS >= 0.0 && e.workVramMax >= 0.0 && e.loadVramAfter >= 0.0
  }

  datatype Column =
    | RequestCount | SuccessCount | DurationTotal | InputTokens | OutputTokens | TotalTokens
    | TokensPSSum | TokensPSCount | PromptPSSum | PromptPSCount
    | ImageCount | EmbeddingCount | AudioSeconds | AudioTokens | LoadCount | LoadDurationTotal
    | VramPeakMb | VramPeakPercent | VramTotalMb | ModelVramMb

  datatype Merge = Sum | Maximum

  function Rule(c: Column): Merge {
    match c
    case VramPeakMb | VramPeakPercent | VramTotalMb | ModelVramMb => Maximum
    case _ => Sum
  }

  /** What the queries aggregate a column by. */
  function Aggregate(c: Column): Merge {
    match c
    case RequestCount | SuccessCount | DurationTotal | InputTokens | OutputTokens | TotalTokens => Sum
    case TokensPSSum | TokensPSCount | PromptPSSum | PromptPSCount => Sum
    case ImageCount | EmbeddingCount | AudioSeconds | AudioTokens | LoadCount | LoadDurationTotal => Sum
    case VramPeakMb | VramPeakPercent | VramTotalMb | ModelVramMb => Maximum
  }

  datatype Key = Key(period: Period, bucket: int, labels: Labels)

  datatype Row = Row(key: Key, cells: Column -> real)

  // Times

  function BucketStart(t: int, period: Period): int {
    if period.Hour? then t / HOUR_MS * HOUR_MS else DayStart(t)
  }

  function DayStart(t: int): int {
    t / DAY_MS * DAY_MS
  }

  /** The start of the first day whose raw events are kept; zero when they are kept for ever. */
  function Cutoff(now: int, retention: int): int {
    if retention <= 0 then 0 else DayStart(now - retention)
  }

  lemma DayStartBounds(t: int)
    ensures DayStart(t) <= t < DayStart(t) + DAY_MS
    ensures DayStart(BucketStart(t, Hour)) == DayStart(t)
  {
    var h := t / HOUR_MS;
    assert t / DAY_MS == h / 24;
    assert h * HOUR_MS / DAY_MS == h / 24;
  }

  lemma DayStartMonotone(s: int, t: int)
    requires s <= t
    ensures DayStart(s) <= DayStart(t)
  {
  }

  lemma DaysInOrder(s: int, t: int)
    ensures DayStart(s) <= DayStart(t) <==> DayStart(s) <= t
    ensures DayStart(s) <= DayStart(t) <==> s <= DayStart(t) + DAY_MS - 1
  {
  }

  // Aggregates; a missing value is the NULL of an aggregate over no rows

  function Both(m: Merge, x: Option<real>, y: Option<real>): Option<real> {
    match (x, y)
    case (None, _) => y
    case (_, None) => x
    case (Some(a), Some(b)) => Some(Combine(m, a, b))
  }

  function Combine(m: Merge, x: real, y: real): real {
    if m.Sum? then x + y else if x > y then x else y
  }

  function Coalesce(x: Option<real>): real {
    if x.Some? then x.value else 0.0
  }

  /** A sum over a count; zero where either is missing. */
  function Quotient(sum: Option<real>, count: real): real {
    if sum.None? || count == 0.0 then 0.0 else sum.value / count
  }

  // The rollup table

  function Flag(b: bool): real {
    if b then 1.0 else 0.0
  }

  /** What one event adds to a column of its two rows. */
  function Cell(e: Event, c: Column): real {
    match c
    case RequestCount => Flag(e.kind.Request?)
    case SuccessCount => if e.kind.Request? then Flag(e.success) else 0.0
    case DurationTotal => if e.kind.Request? then e.duration else 0.0
    case InputTokens => e.inputTokens
    case OutputTokens => e.outputTokens
    case TotalTokens => e.totalTokens
    case TokensPSSum => e.tokensPS
    case TokensPSCount => Flag(e.tokensPS > 0.0)
    case PromptPSSum => e.promptPS
    case PromptPSCount => Flag(e.promptPS > 0.0)
    case ImageCount => e.images
    case EmbeddingCount => e.embeddings
    case AudioSeconds => e.audioSeconds
    case AudioTokens => e.audioTokens
    case LoadCount => Flag(e.kind.ModelLoad?)
    case LoadDurationTotal => if e.kind.ModelLoad? then e.duration else 0.0
    case VramPeakMb => Combine(Maximum, Combine(Maximum, e.workVramMax, 0.0), e.loadVramAfter)
    case VramPeakPercent => e.vramPeakPercent
    case VramTotalMb => e.vramTotal
    case ModelVramMb => e.modelVram
  }

  function KeyOf(e: Event, period: Period): Key {
    Key(period, BucketStart(e.finishedAt, period), e.labels)
  }

  function RowOf(e: Event, period: Period): Row {
    Row(KeyOf(e, period), c => Cell(e, c))
  }

  /** Insert a row, or merge it into the row of its key. */
  function Upsert(rows: seq<Row>, row: Row): seq<Row> {
    if rows == [] then [row]
    else if rows[0].key == row.key then
      [Row(row.key, c => Combine(Rule(c), rows[0].cells(c), row.cells(c)))] + rows[1..]
    else [rows[0]] + Upsert(rows[1..], row)
  }

  function UpsertAll(rows: seq<Row>, added: seq<Row>): seq<Row>
    decreases |added|
  {
    if added == [] then rows else UpsertAll(Upsert(rows, added[0]), added[1..])
  }

  /** The rows the events are written as, hour before day, one pair an event. */
  function RowsOf(events: seq<Event>): seq<Row> {
    if events == [] then [] else [RowOf(events[0], Hour), RowOf(events[0], Day)] + RowsOf(events[1..])
  }

  lemma RowsOfOne(e: Event)
    ensures RowsOf([e]) == [RowOf(e, Hour), RowOf(e, Day)]
  {
  }

  function Rolled(events: seq<Event>): seq<Row> {
    UpsertAll([], RowsOf(events))
  }

  /** An aggregate of one column over the rows whose key is chosen. */
  function Select(rows: seq<Row>, p: Key -> bool, c: Column): Option<real> {
    if rows == [] then None
    else
      var rest := Select(rows[1..], p, c);
      if p(rows[0].key) then Both(Aggregate(c), Some(rows[0].cells(c)), rest) else rest
  }

  lemma {:induction false} SelectAppend(a: seq<Row>, b: seq<Row>, p: Key -> bool, c: Column)
    ensures Select(a + b, p, c) == Both(Aggregate(c), Select(a, p, c), Select(b, p, c))
    decreases |a|
  {
    if a == [] {
      assert a + b == b;
    } else {
      assert (a + b)[0] == a[0] && (a + b)[1..] == a[1..] + b;
      SelectAppend(a[1..], b, p, c);
    }
  }

  lemma BothLaws(m: Merge, x: Option<real>, y: Option<real>, z: Option<real>)
    ensures Both(m, Both(m, x, y), z) == Both(m, x, Both(m, y, z))
    ensures Both(m, x, y) == Both(m, y, x)
  {
  }

  function One(row: Row, p: Key -> bool, c: Column): Option<real> {
    if p(row.key) then Some(row.cells(c)) else None
  }

  lemma SelectHead(row: Row, rows: seq<Row>, p: Key -> bool, c: Column)
    ensures Select([row] + rows, p, c) == Both(Aggregate(c), One(row, p, c), Select(rows, p, c))
  {
  }

  /** Merging a row into the table has the effect on every aggregate that keeping it apart would have. */
  lemma {:induction false} UpsertTotals(rows: seq<Row>, row: Row, p: Key -> bool, c: Column)
    ensures Select(Upsert(rows, row), p, c) == Both(Aggregate(c), Select(rows, p, c), One(row, p, c))
    decreases |rows|
  {
    if rows == [] {
      SelectHead(row, [], p, c);
      assert [row] + [] == [row];
    } else {
      var first, rest := rows[0], rows[1..];
      var x, y, z := One(first, p, c), Select(rest, p, c), One(row, p, c);
      assert rows == [first] + rest;
      SelectHead(first, rest, p, c);
      BothLaws(Aggregate(c), x, y, z);
      BothLaws(Aggregate(c), x, z, y);
      BothLaws(Aggregate(c), y, z, None);
      if first.key == row.key {
        assert Upsert(rows, row) == [Upsert(rows, row)[0]] + rest;
        SelectHead(Upsert(rows, row)[0], rest, p, c);
        assert One(Upsert(rows, row)[0], p, c) == Both(Aggregate(c), x, z);
      } else {
        UpsertTotals(rest, row, p, c);
        SelectHead(first, Upsert(rest, row), p, c);
      }
    }
  }

  lemma {:induction false} UpsertAllTotals(rows: seq<Row>, added: seq<Row>, p: Key -> bool, c: Column)
    ensures Select(UpsertAll(rows, added), p, c) == Both(Aggregate(c), Select(rows, p, c), Select(added, p, c))
    decreases |added|
  {
    if added != [] {
      UpsertTotals(rows, added[0], p, c);
      UpsertAllTotals(Upsert(rows, added[0]), added[1..], p, c);
      assert added == [added[0]] + added[1..];
      SelectHead(added[0], added[1..], p, c);
      BothLaws(Aggregate(c), Select(rows, p, c), One(added[0], p, c), Select(added[1..], p, c));
    }
  }

  lemma {:induction false} UpsertAllAppend(rows: seq<Row>, a: seq<Row>, b: seq<Row>)
    ensures UpsertAll(rows, a + b) == UpsertAll(UpsertAll(rows, a), b)
    decreases |a|
  {
    if a == [] {
      assert a + b == b;
    } else {
      assert (a + b)[0] == a[0] && (a + b)[1..] == a[1..] + b;
      UpsertAllAppend(Upsert(rows, a[0]), a[1..], b);
    }
  }

  lemma {:induction false} RowsOfAppend(a: seq<Event>, b: seq<Event>)
    ensures RowsOf(a + b) == RowsOf(a) + RowsOf(b)
    decreases |a|
  {
    if a == [] {
      assert a + b == b;
    } else {
      assert (a + b)[0] == a[0] && (a + b)[1..] == a[1..] + b;
      RowsOfAppend(a[1..], b);
    }
  }

  /** Taking another database's rollups in gives every aggregate over the events of both. */
  lemma ImportKeepsTotals(here: seq<Event>, there: seq<Event>, p: Key -> bool, c: Column)
    ensures Select(UpsertAll(Rolled(here), Rolled(there)), p, c) == Select(Rolled(here + there), p, c)
  {
    UpsertAllTotals(Rolled(here), Rolled(there), p, c);
    UpsertAllTotals([], RowsOf(here), p, c);
    UpsertAllTotals([], RowsOf(there), p, c);
    UpsertAllTotals([], RowsOf(here + there), p, c);
    RowsOfAppend(here, there);
    SelectAppend(RowsOf(here), RowsOf(there), p, c);
  }

  // The primary key

  function KeySet(rows: seq<Row>): set<Key> {
    if rows == [] then {} else {rows[0].key} + KeySet(rows[1..])
  }

  predicate KeysDistinct(rows: seq<Row>) {
    rows == [] || (rows[0].key !in KeySet(rows[1..]) && KeysDistinct(rows[1..]))
  }

  lemma {:induction false} UpsertKeys(rows: seq<Row>, row: Row)
    requires KeysDistinct(rows)
    ensures KeysDistinct(Upsert(rows, row)) && KeySet(Upsert(rows, row)) == KeySet(rows) + {row.key}
    decreases |rows|
  {
    var updated := Upsert(rows, row);
    if rows == [] {
    } else if rows[0].key == row.key {
      assert updated[1..] == rows[1..];
    } else {
      assert updated[0] == rows[0] && updated[1..] == Upsert(rows[1..], row);
      UpsertKeys(rows[1..], row);
    }
  }

  lemma {:induction false} UpsertAllKeys(rows: seq<Row>, added: seq<Row>)
    requires KeysDistinct(rows)
    ensures KeysDistinct(UpsertAll(rows, added))
    decreases |added|
  {
    if added != [] {
      UpsertKeys(rows, added[0]);
      UpsertAllKeys(Upsert(rows, added[0]), added[1..]);
    }
  }

  function Exactly(key: Key): Key -> bool {
    (k: Key) => k == key
  }

  lemma {:induction false} SelectMissing(rows: seq<Row>, key: Key, c: Column)
    requires key !in KeySet(rows)
    ensures Select(rows, Exactly(key), c) == None
    decreases |rows|
  {
    if rows != [] {
      SelectMissing(rows[1..], key, c);
    }
  }

  lemma {:induction false} SelectRow(rows: seq<Row>, i: nat, c: Column)
    requires KeysDistinct(rows) && i < |rows|
    ensures rows[i].key in KeySet(rows) && Select(rows, Exactly(rows[i].key), c) == Some(rows[i].cells(c))
    decreases i
  {
    if i == 0 {
      SelectMissing(rows[1..], rows[0].key, c);
    } else {
      SelectRow(rows[1..], i - 1, c);
    }
  }

  /** Each row holds the total of the events of its key, and there is one row a key. */
  lemma RowHoldsItsEvents(events: seq<Event>, i: nat, c: Column)
    requires i < |Rolled(events)|
    ensures KeysDistinct(Rolled(events))
    ensures Some(Rolled(events)[i].cells(c)) == Select(RowsOf(events), Exactly(Rolled(events)[i].key), c)
  {
    UpsertAllKeys([], RowsOf(events));
    SelectRow(Rolled(events), i, c);
    UpsertAllTotals([], RowsOf(events), Exactly(Rolled(events)[i].key), c);
  }

  // The hours of a day

  function HoursOf(day: int, keep: Labels -> bool): Key -> bool {
    (k: Key) => k.period.Hour? && DayStart(k.bucket) == day && keep(k.labels)
  }

  function DayOf(day: int, keep: Labels -> bool): Key -> bool {
    (k: Key) => k.period.Day? && k.bucket == day && keep(k.labels)
  }

  lemma {:induction false} HourRowsAreDayRows(events: seq<Event>, day: int, keep: Labels -> bool, c: Column)
    ensures Select(RowsOf(events), HoursOf(day, keep), c) == Select(RowsOf(events), DayOf(day, keep), c)
    decreases |events|
  {
    if events != [] {
      var e := events[0];
      var rows := RowsOf(events);
      DayStartBounds(e.finishedAt);
      assert rows[1..][1..] == RowsOf(events[1..]);
      HourRowsAreDayRows(events[1..], day, keep, c);
    }
  }

  /** The hour rollups of a day add up, column by column, to its day rollups. */
  lemma HoursMakeTheDay(events: seq<Event>, day: int, keep: Labels -> bool, c: Column)
    ensures Select(Rolled(events), HoursOf(day, keep), c) == Select(Rolled(events), DayOf(day, keep), c)
  {
    UpsertAllTotals([], RowsOf(events), HoursOf(day, keep), c);
    UpsertAllTotals([], RowsOf(events), DayOf(day, keep), c);
    HourRowsAreDayRows(events, day, keep, c);
  }

  // The raw table

  /** What a column's query reads from one raw event; an absent value is not aggregated. */
  function Expression(e: Event, c: Column): Option<real> {
    match c
    case DurationTotal => if e.kind.Request? then Some(e.duration) else None
    case TokensPSSum => if e.kind.Request? then NonZero(e.tokensPS) else None
    case PromptPSSum => if e.kind.Request? then NonZero(e.promptPS) else None
    case LoadDurationTotal => if e.kind.ModelLoad? then Some(e.duration) else None
    case VramPeakMb => Some(if e.workVramMax > e.loadVramAfter then e.workVramMax else e.loadVramAfter)
    case RequestCount => Some(if e.kind.Request? then 1.0 else 0.0)
    case SuccessCount => Some(if e.kind.Request? then Flag(e.success) else 0.0)
    case LoadCount => Some(if e.kind.ModelLoad? then 1.0 else 0.0)
    case InputTokens => Some(e.inputTokens)
    case OutputTokens => Some(e.outputTokens)
    case TotalTokens => Some(e.totalTokens)
    case ImageCount => Some(e.images)
    case EmbeddingCount => Some(e.embeddings)
    case AudioSeconds => Some(e.audioSeconds)
    case AudioTokens => Some(e.audioTokens)
    case VramPeakPercent => Some(e.vramPeakPercent)
    case VramTotalMb => Some(e.vramTotal)
    case ModelVramMb => Some(e.modelVram)
    case TokensPSCount | PromptPSCount => None
  }

  function NonZero(x: real): Option<real> {
    if x == 0.0 then None else Some(x)
  }

  function RawSelect(events: seq<Event>, p: Event -> bool, c: Column): Option<real> {
    if events == [] then None
    else
      var rest := RawSelect(events[1..], p, c);
      if p(events[0]) then Both(Aggregate(c), Expression(events[0], c), rest) else rest
  }

  /** How many values a raw average is taken over. */
  function RawCount(events: seq<Event>, p: Event -> bool, c: Column): nat {
    if events == [] then 0
    else RawCount(events[1..], p, c) + if p(events[0]) && Expression(events[0], c).Some? then 1 else 0
  }

  // Summaries

  datatype Summary = Summary(
    requests: real, successes: real, failures: real, inputTokens: real, outputTokens: real, totalTokens: real,
    images: real, embeddings: real, audioSeconds: real, audioTokens: real, averageDuration: real,
    averageTokensPS: real, averagePromptPS: real, loads: real, averageLoad: real,
    vramPeakMb: real, vramPeakPercent: real, vramTotalMb: real, modelVramMb: real)

  function Within(start: int, end: int, keep: Labels -> bool): Event -> bool {
    (e: Event) => start <= e.finishedAt <= end && keep(e.labels)
  }

  /** The day rows a window touches: its ends are rounded down to whole days. */
  function DayRows(start: int, end: int, keep: Labels -> bool): Key -> bool {
    (k: Key) => k.period.Day? && DayStart(start) <= k.bucket <= DayStart(end) && keep(k.labels)
  }

  function RawTotal(events: seq<Event>, p: Event -> bool, c: Column): real {
    Coalesce(RawSelect(events, p, c))
  }

  function RawAverage(events: seq<Event>, p: Event -> bool, c: Column): real {
    Quotient(RawSelect(events, p, c), RawCount(events, p, c) as real)
  }

  function RawSummary(events: seq<Event>, start: int, end: int, keep: Labels -> bool): Summary {
    var p := Within(start, end, keep);
    Summary(RawTotal(events, p, RequestCount), RawTotal(events, p, SuccessCount),
            RawTotal(events, p, RequestCount) - RawTotal(events, p, SuccessCount),
            RawTotal(events, p, InputTokens), RawTotal(events, p, OutputTokens), RawTotal(events, p, TotalTokens),
            RawTotal(events, p, ImageCount), RawTotal(events, p, EmbeddingCount), RawTotal(events, p, AudioSeconds),
            RawTotal(events, p, AudioTokens),
            RawAverage(events, p, DurationTotal), RawAverage(events, p, TokensPSSum), RawAverage(events, p, PromptPSSum),
            RawTotal(events, p, LoadCount), RawAverage(events, p, LoadDurationTotal),
            RawTotal(events, p, VramPeakMb), RawTotal(events, p, VramPeakPercent), RawTotal(events, p, VramTotalMb),
            RawTotal(events, p, ModelVramMb))
  }

  function RowTotal(rows: seq<Row>, p: Key -> bool, c: Column): real {
    Coalesce(Select(rows, p, c))
  }

  function RowAverage(rows: seq<Row>, p: Key -> bool, c: Column, n: Column): real {
    Quotient(Select(rows, p, c), RowTotal(rows, p, n))
  }

  function RollupSummary(rows: seq<Row>, start: int, end: int, keep: Labels -> bool): Summary {
    var p := DayRows(start, end, keep);
    Summary(RowTotal(rows, p, RequestCount), RowTotal(rows, p, SuccessCount),
            RowTotal(rows, p, RequestCount) - RowTotal(rows, p, SuccessCount),
            RowTotal(rows, p, InputTokens), RowTotal(rows, p, OutputTokens), RowTotal(rows, p, TotalTokens),
            RowTotal(rows, p, ImageCount), RowTotal(rows, p, EmbeddingCount), RowTotal(rows, p, AudioSeconds),
            RowTotal(rows, p, AudioTokens),
            RowAverage(rows, p, DurationTotal, RequestCount),
            RowAverage(rows, p, TokensPSSum, TokensPSCount), RowAverage(rows, p, PromptPSSum, PromptPSCount),
            RowTotal(rows, p, LoadCount), RowAverage(rows, p, LoadDurationTotal, LoadCount),
            RowTotal(rows, p, VramPeakMb), RowTotal(rows, p, VramPeakPercent), RowTotal(rows, p, VramTotalMb),
            RowTotal(rows, p, ModelVramMb))
  }

  // Day rollups against raw events

  /** The window of whole days a rollup query answers for. */
  function Touched(start: int, end: int, keep: Labels -> bool): Event -> bool {
    Within(DayStart(start), DayStart(end) + DAY_MS - 1, keep)
  }

  lemma TouchedByDay(e: Event, start: int, end: int, keep: Labels -> bool)
    ensures DayRows(start, end, keep)(KeyOf(e, Day)) == Touched(start, end, keep)(e)
    ensures !DayRows(start, end, keep)(KeyOf(e, Hour))
  {
    DaysInOrder(start, e.finishedAt);
    DaysInOrder(e.finishedAt, end);
  }

  /** A column's cells repeat its raw values, zero standing for an absent one. */
  predicate Mirrors(e: Event, c: Column) {
    Cell(e, c) == Coalesce(Expression(e, c)) && (Aggregate(c).Maximum? ==> Expression(e, c).Some?)
  }

  lemma {:induction false} DayRowsMirrorRaw(events: seq<Event>, start: int, end: int, keep: Labels -> bool, c: Column)
    requires forall e | e in events :: Mirrors(e, c)
    ensures var rows, raw := Select(RowsOf(events), DayRows(start, end, keep), c), RawSelect(events, Touched(start, end, keep), c);
            Coalesce(rows) == Coalesce(raw) && (raw.Some? ==> rows.Some?)
    ensures (forall e | e in events :: Expression(e, c).Some?) ==>
              Select(RowsOf(events), DayRows(start, end, keep), c) == RawSelect(events, Touched(start, end, keep), c)
    decreases |events|
  {
    if events != [] {
      var rows := RowsOf(events);
      assert rows[1..][1..] == RowsOf(events[1..]);
      assert rows[1..][0] == RowOf(events[0], Day);
      TouchedByDay(events[0], start, end, keep);
      assert events[0] in events;
      DayRowsMirrorRaw(events[1..], start, end, keep, c);
    }
  }

  /** Column `n` counts the present values of column `c`. */
  predicate Counts(e: Event, n: Column, c: Column) {
    Aggregate(n).Sum? && Cell(e, n) == Flag(Expression(e, c).Some?)
  }

  lemma {:induction false} DayRowsCountRaw(events: seq<Event>, start: int, end: int, keep: Labels -> bool, n: Column, c: Column)
    requires forall e | e in events :: Counts(e, n, c)
    ensures Coalesce(Select(RowsOf(events), DayRows(start, end, keep), n)) == RawCount(events, Touched(start, end, keep), c) as real
    decreases |events|
  {
    if events != [] {
      var rows := RowsOf(events);
      assert rows[1..][1..] == RowsOf(events[1..]);
      assert rows[1..][0] == RowOf(events[0], Day);
      TouchedByDay(events[0], start, end, keep);
      assert events[0] in events;
      DayRowsCountRaw(events[1..], start, end, keep, n, c);
    }
  }

  lemma {:induction false} CountedWhenPresent(events: seq<Event>, p: Event -> bool, c: Column)
    ensures RawCount(events, p, c) == 0 <==> RawSelect(events, p, c).None?
    decreases |events|
  {
    if events != [] {
      CountedWhenPresent(events[1..], p, c);
    }
  }

  predicate LoadsWithoutRates(events: seq<Event>) {
    forall e | e in events && e.kind.ModelLoad? :: e.tokensPS == 0.0 && e.promptPS == 0.0
  }

  predicate IsRate(c: Column) {
    c.TokensPSSum? || c.TokensPSCount? || c.PromptPSSum? || c.PromptPSCount?
  }

  lemma ColumnsMirror(e: Event)
    requires Normalized(e)
    ensures forall c | !IsRate(c) :: Mirrors(e, c)
    ensures Counts(e, RequestCount, DurationTotal) && Counts(e, LoadCount, LoadDurationTotal)
    ensures e.kind.Request? || (e.tokensPS == 0.0 && e.promptPS == 0.0) ==>
              Mirrors(e, TokensPSSum) && Counts(e, TokensPSCount, TokensPSSum) &&
              Mirrors(e, PromptPSSum) && Counts(e, PromptPSCount, PromptPSSum)
  {
  }

  lemma TotalsAgree(events: seq<Event>, start: int, end: int, keep: Labels -> bool, c: Column)
    requires forall e | e in events :: Normalized(e)
    requires !IsRate(c)
    ensures RowTotal(Rolled(events), DayRows(start, end, keep), c) == RawTotal(events, Touched(start, end, keep), c)
  {
    forall e | e in events
      ensures Mirrors(e, c)
    {
      ColumnsMirror(e);
    }
    UpsertAllTotals([], RowsOf(events), DayRows(start, end, keep), c);
    DayRowsMirrorRaw(events, start, end, keep, c);
  }

  lemma AveragesAgree(events: seq<Event>, start: int, end: int, keep: Labels -> bool, c: Column, n: Column)
    requires Aggregate(c).Sum?
    requires forall e | e in events :: Mirrors(e, c) && Counts(e, n, c)
    ensures RowAverage(Rolled(events), DayRows(start, end, keep), c, n) == RawAverage(events, Touched(start, end, keep), c)
  {
    UpsertAllTotals([], RowsOf(events), DayRows(start, end, keep), c);
    UpsertAllTotals([], RowsOf(events), DayRows(start, end, keep), n);
    DayRowsMirrorRaw(events, start, end, keep, c);
    DayRowsCountRaw(events, start, end, keep, n, c);
    CountedWhenPresent(events, Touched(start, end, keep), c);
  }

  lemma DurationsAgree(events: seq<Event>, start: int, end: int, keep: Labels -> bool)
    requires forall e | e in events :: Normalized(e)
    ensures var rows, p, q := Rolled(events), DayRows(start, end, keep), Touched(start, end, keep);
            && RowAverage(rows, p, DurationTotal, RequestCount) == RawAverage(events, q, DurationTotal)
            && RowAverage(rows, p, LoadDurationTotal, LoadCount) == RawAverage(events, q, LoadDurationTotal)
  {
    forall e | e in events
      ensures Mirrors(e, DurationTotal) && Mirrors(e, LoadDurationTotal)
      ensures Counts(e, RequestCount, DurationTotal) && Counts(e, LoadCount, LoadDurationTotal)
    {
      ColumnsMirror(e);
    }
    AveragesAgree(events, start, end, keep, DurationTotal, RequestCount);
    AveragesAgree(events, start, end, keep, LoadDurationTotal, LoadCount);
  }

  lemma RatesAgree(events: seq<Event>, start: int, end: int, keep: Labels -> bool)
    requires forall e | e in events :: Normalized(e)
    requires LoadsWithoutRates(events)
    ensures var rows, p, q := Rolled(events), DayRows(start, end, keep), Touched(start, end, keep);
            && RowAverage(rows, p, TokensPSSum, TokensPSCount) == RawAverage(events, q, TokensPSSum)
            && RowAverage(rows, p, PromptPSSum, PromptPSCount) == RawAverage(events, q, PromptPSSum)
  {
    forall e | e in events
      ensures Mirrors(e, TokensPSSum) && Counts(e, TokensPSCount, TokensPSSum)
      ensures Mirrors(e, PromptPSSum) && Counts(e, PromptPSCount, PromptPSSum)
    {
      ColumnsMirror(e);
    }
    AveragesAgree(events, start, end, keep, TokensPSSum, TokensPSCount);
    AveragesAgree(events, start, end, keep, PromptPSSum, PromptPSCount);
  }

  function WithoutRates(s: Summary): Summary {
    s.(averageTokensPS := 0.0, averagePromptPS := 0.0)
  }

  /** The summary of whole days, had no event been pruned. */
  function DaysSummary(events: seq<Event>, start: int, end: int, keep: Labels -> bool): Summary {
    RawSummary(events, DayStart(start), DayStart(end) + DAY_MS - 1, keep)
  }

  lemma RollupsAnswerButRates(events: seq<Event>, start: int, end: int, keep: Labels -> bool)
    requires forall e | e in events :: Normalized(e)
    ensures WithoutRates(RollupSummary(Rolled(events), start, end, keep)) == WithoutRates(DaysSummary(events, start, end, keep))
  {
    TotalsAgree(events, start, end, keep, RequestCount);
    TotalsAgree(events, start, end, keep, SuccessCount);
    TotalsAgree(events, start, end, keep, InputTokens);
    TotalsAgree(events, start, end, keep, OutputTokens);
    TotalsAgree(events, start, end, keep, TotalTokens);
    TotalsAgree(events, start, end, keep, ImageCount);
    TotalsAgree(events, start, end, keep, EmbeddingCount);
    TotalsAgree(events, start, end, keep, AudioSeconds);
    TotalsAgree(events, start, end, keep, AudioTokens);
    TotalsAgree(events, start, end, keep, LoadCount);
    TotalsAgree(events, start, end, keep, VramPeakMb);
    TotalsAgree(events, start, end, keep, VramPeakPercent);
    TotalsAgree(events, start, end, keep, VramTotalMb);
    TotalsAgree(events, start, end, keep, ModelVramMb);
    DurationsAgree(events, start, end, keep);
  }

  /** Day rollups answer for the whole days touched as the raw events would. */
  lemma RollupsAnswerForDays(events: seq<Event>, start: int, end: int, keep: Labels -> bool)
    requires forall e | e in events :: Normalized(e)
    ensures WithoutRates(RollupSummary(Rolled(events), start, end, keep)) == WithoutRates(DaysSummary(events, start, end, keep))
    ensures LoadsWithoutRates(events) ==>
              RollupSummary(Rolled(events), start, end, keep) == DaysSummary(events, start, end, keep)
  {
    RollupsAnswerButRates(events, start, end, keep);
    if LoadsWithoutRates(events) {
      RatesAgree(events, start, end, keep);
      SameWithRates(RollupSummary(Rolled(events), start, end, keep), DaysSummary(events, start, end, keep));
    }
  }

  lemma SameWithRates(s: Summary, t: Summary)
    requires WithoutRates(s) == WithoutRates(t) && s.averageTokensPS == t.averageTokensPS && s.averagePromptPS == t.averagePromptPS
    ensures s == t
  {
  }

  ghost predicate AnswersAgree(events: seq<Event>, start: int, end: int, keep: Labels -> bool) {
    RollupSummary(Rolled(events), start, end, keep) == DaysSummary(events, start, end, keep)
  }

  /** A load that carries a rate is averaged by the rollups alone. */
  lemma LoneLoadDisagrees(e: Event)
    requires Normalized(e) && e.kind.ModelLoad? && (e.tokensPS > 0.0 || e.promptPS > 0.0)
    ensures !AnswersAgree([e], e.finishedAt, e.finishedAt, AnyLabels())
  {
    var t := e.finishedAt;
    var rows, p, q := Rolled([e]), DayRows(t, t, AnyLabels()), Touched(t, t, AnyLabels());
    LoneRow(e, TokensPSSum);
    LoneRow(e, TokensPSCount);
    LoneRow(e, PromptPSSum);
    LoneRow(e, PromptPSCount);
    assert RowAverage(rows, p, TokensPSSum, TokensPSCount) == e.tokensPS;
    assert RowAverage(rows, p, PromptPSSum, PromptPSCount) == e.promptPS;
    LoneRaw(e, q, TokensPSSum);
    LoneRaw(e, q, PromptPSSum);
    assert RawAverage([e], q, TokensPSSum) == 0.0 && RawAverage([e], q, PromptPSSum) == 0.0;
  }

  lemma LoneRaw(e: Event, p: Event -> bool, c: Column)
    ensures RawSelect([e], p, c) == if p(e) then Expression(e, c) else None
  {
  }

  lemma LoneRow(e: Event, c: Column)
    ensures Select(Rolled([e]), DayRows(e.finishedAt, e.finishedAt, AnyLabels()), c) == Some(Cell(e, c))
  {
    var t := e.finishedAt;
    var p := DayRows(t, t, AnyLabels());
    TouchedByDay(e, t, t, AnyLabels());
    DayStartBounds(t);
    var rows := RowsOf([e]);
    RowsOfOne(e);
    UpsertAllTotals([], rows, p, c);
    assert rows[1..] == [RowOf(e, Day)] && rows[1..][1..] == [];
    assert Select(rows[1..], p, c) == Some(Cell(e, c));
  }

  function AnyLabels(): Labels -> bool {
    (l: Labels) => true
  }

  ghost predicate AlwaysAgree(events: seq<Event>) {
    forall start, end, keep :: AnswersAgree(events, start, end, keep)
  }

  lemma AgreeWithoutRates(events: seq<Event>)
    requires (forall e | e in events :: Normalized(e)) && LoadsWithoutRates(events)
    ensures AlwaysAgree(events)
  {
    forall start, end, keep
      ensures AnswersAgree(events, start, end, keep)
    {
      RollupsAnswerForDays(events, start, end, keep);
    }
  }

  /** Rollup and raw summaries, rates included, agree on every history drawn
      from a set of events exactly when no load in the set carries a rate. */
  lemma RatesAgreeExactly(allowed: Event -> bool)
    requires forall e | allowed(e) :: Normalized(e)
    ensures (forall events: seq<Event> | (forall e | e in events :: allowed(e)) :: AlwaysAgree(events))
            <==> (forall e | allowed(e) && e.kind.ModelLoad? :: e.tokensPS == 0.0 && e.promptPS == 0.0)
  {
    if forall e | allowed(e) && e.kind.ModelLoad? :: e.tokensPS == 0.0 && e.promptPS == 0.0 {
      forall events: seq<Event> | forall e | e in events :: allowed(e)
        ensures AlwaysAgree(events)
      {
        AgreeWithoutRates(events);
      }
    } else {
      var e :| allowed(e) && e.kind.ModelLoad? && !(e.tokensPS == 0.0 && e.promptPS == 0.0);
      LoneLoadDisagrees(e);
      assert forall f | f in [e] :: allowed(f);
      assert !AlwaysAgree([e]);
    }
  }

  // Histories of writes and prunes

  datatype State = State(raw: seq<Event>, rollups: seq<Row>)

  datatype Op = Write(events: seq<Event>) | Prune(now: int)

  function Since(events: seq<Event>, t: int): seq<Event> {
    if events == [] then []
    else (if events[0].finishedAt < t then [] else [events[0]]) + Since(events[1..], t)
  }

  function Apply(s: State, retention: int, op: Op): State {
    match op
    case Write(events) => State(s.raw + events, UpsertAll(s.rollups, RowsOf(events)))
    case Prune(now) => if retention <= 0 then s else s.(raw := Since(s.raw, Cutoff(now, retention)))
  }

  function Run(retention: int, ops: seq<Op>): State {
    if ops == [] then State([], []) else Apply(Run(retention, ops[..|ops| - 1]), retention, ops[|ops| - 1])
  }

  /** Every event ever written, pruned or not. */
  function Written(ops: seq<Op>): seq<Event> {
    if ops == [] then []
    else Written(ops[..|ops| - 1]) + if ops[|ops| - 1].Write? then ops[|ops| - 1].events else []
  }

  /** The instants of the prunes, in order. */
  function Prunings(ops: seq<Op>): seq<int> {
    if ops == [] then []
    else Prunings(ops[..|ops| - 1]) + if ops[|ops| - 1].Prune? then [ops[|ops| - 1].now] else []
  }

  /** Before this instant raw events may be missing. */
  function Horizon(retention: int, prunes: seq<int>): int {
    if prunes == [] then 0
    else
      var h, cutoff := Horizon(retention, prunes[..|prunes| - 1]), Cutoff(prunes[|prunes| - 1], retention);
      if cutoff > h then cutoff else h
  }

  lemma HorizonGrows(retention: int, prunes: seq<int>, now: int)
    ensures var h, cutoff := Horizon(retention, prunes), Cutoff(now, retention);
            Horizon(retention, prunes + [now]) == if cutoff > h then cutoff else h
  {
    assert (prunes + [now])[..|prunes|] == prunes;
  }

  lemma {:induction false} SinceAppend(a: seq<Event>, b: seq<Event>, t: int)
    ensures Since(a + b, t) == Since(a, t) + Since(b, t)
    decreases |a|
  {
    if a == [] {
      assert a + b == b;
    } else {
      assert (a + b)[0] == a[0] && (a + b)[1..] == a[1..] + b;
      SinceAppend(a[1..], b, t);
    }
  }

  lemma {:induction false} SinceTwice(events: seq<Event>, s: int, t: int)
    requires s <= t
    ensures Since(Since(events, s), t) == Since(events, t)
    decreases |events|
  {
    if events != [] {
      var head := if events[0].finishedAt < s then [] else [events[0]];
      SinceAppend(head, Since(events[1..], s), t);
      SinceTwice(events[1..], s, t);
      if head != [] {
        assert head[1..] == [];
      }
    }
  }

  lemma {:induction false} SinceKeepsWindow(events: seq<Event>, t: int, p: Event -> bool, c: Column)
    requires forall e | p(e) :: e.finishedAt >= t
    ensures RawSelect(Since(events, t), p, c) == RawSelect(events, p, c)
    ensures RawCount(Since(events, t), p, c) == RawCount(events, p, c)
    decreases |events|
  {
    if events != [] {
      SinceKeepsWindow(events[1..], t, p, c);
      if events[0].finishedAt >= t {
        assert Since(events, t)[1..] == Since(events[1..], t);
      } else {
        assert Since(events, t) == Since(events[1..], t);
      }
    }
  }

  /** What every history keeps: the raw table has all events from the horizon on,
      and the rollups are those of every event ever written. */
  lemma {:induction false} HistoryKeeps(retention: int, ops: seq<Op>)
    ensures var h := Horizon(retention, Prunings(ops)); Since(Run(retention, ops).raw, h) == Since(Written(ops), h)
    ensures Run(retention, ops).rollups == Rolled(Written(ops))
    decreases |ops|
  {
    if ops != [] {
      var before, op := ops[..|ops| - 1], ops[|ops| - 1];
      var s, all := Run(retention, before), Written(before);
      var h, h' := Horizon(retention, Prunings(before)), Horizon(retention, Prunings(ops));
      HistoryKeeps(retention, before);
      match op
      case Write(events) =>
        assert Prunings(before) + [] == Prunings(before);
        SinceAppend(s.raw, events, h);
        SinceAppend(all, events, h);
        RowsOfAppend(all, events);
        UpsertAllAppend([], RowsOf(all), RowsOf(events));
      case Prune(now) =>
        HorizonGrows(retention, Prunings(before), now);
        SinceTwice(s.raw, h, h');
        SinceTwice(all, h, h');
        if retention > 0 {
          SinceTwice(s.raw, Cutoff(now, retention), h');
        }
        assert all + [] == all;
    }
  }

  // Queries

  predicate UsesRollups(retention: int, now: int, start: int) {
    Cutoff(now, retention) > 0 && start < Cutoff(now, retention)
  }

  function Answer(s: State, retention: int, now: int, start: int, end: int, keep: Labels -> bool): Summary {
    if UsesRollups(retention, now, start) then RollupSummary(s.rollups, start, end, keep)
    else RawSummary(s.raw, start, end, keep)
  }

  predicate PrunedBy(prunes: seq<int>, now: int) {
    forall t | t in prunes :: t <= now
  }

  /** Each prune so far spared what finished at `start` or later. */
  predicate Spared(retention: int, prunes: seq<int>, start: int) {
    forall t | t in prunes :: Cutoff(t, retention) <= start
  }

  lemma {:induction false} HorizonSpared(retention: int, prunes: seq<int>, start: int)
    requires 0 <= start
    ensures Horizon(retention, prunes) <= start <==> Spared(retention, prunes, start)
    decreases |prunes|
  {
    if prunes != [] {
      HorizonSpared(retention, prunes[..|prunes| - 1], start);
      assert prunes == prunes[..|prunes| - 1] + [prunes[|prunes| - 1]];
    }
  }

  lemma SparedByCutoff(retention: int, prunes: seq<int>, now: int, start: int)
    requires PrunedBy(prunes, now) && 0 <= start && !UsesRollups(retention, now, start)
    ensures Spared(retention, prunes, start)
  {
    forall t | t in prunes
      ensures Cutoff(t, retention) <= start
    {
      DayStartMonotone(t - retention, now - retention);
    }
  }

  lemma RawAnswersWhenSpared(retention: int, ops: seq<Op>, start: int, end: int, keep: Labels -> bool)
    requires 0 <= start && Spared(retention, Prunings(ops), start)
    ensures RawSummary(Run(retention, ops).raw, start, end, keep) == RawSummary(Written(ops), start, end, keep)
  {
    HistoryKeeps(retention, ops);
    HorizonSpared(retention, Prunings(ops), start);
    var h := Horizon(retention, Prunings(ops));
    var p := Within(start, end, keep);
    forall c: Column
      ensures RawSelect(Run(retention, ops).raw, p, c) == RawSelect(Written(ops), p, c)
      ensures RawCount(Run(retention, ops).raw, p, c) == RawCount(Written(ops), p, c)
    {
      SinceKeepsWindow(Run(retention, ops).raw, h, p, c);
      SinceKeepsWindow(Written(ops), h, p, c);
    }
  }

  ghost predicate RawRight(retention: int, ops: seq<Op>, start: int, end: int) {
    forall keep :: RawSummary(Run(retention, ops).raw, start, end, keep) == RawSummary(Written(ops), start, end, keep)
  }

  /** A request that used nothing. */
  function RequestAt(t: int): Event {
    Event(Labels("", "", "", "", ""), Request, true, t, 0.0, 0.0, 0.0, 0.0, 0.0, 0.0, 0.0, 0.0, 0.0, 0.0, 0.0, 0.0, 0.0, 0.0, 0.0)
  }

  function PruneOps(prunes: seq<int>): seq<Op> {
    seq(|prunes|, i requires 0 <= i < |prunes| => Prune(prunes[i]))
  }

  /** One event written and then these prunes: it is gone exactly when it finished before their horizon. */
  lemma {:induction false} WrittenThenPruned(retention: int, e: Event, prunes: seq<int>)
    requires e.finishedAt >= 0
    ensures var ops := [Write([e])] + PruneOps(prunes);
            && Prunings(ops) == prunes && Written(ops) == [e]
            && Run(retention, ops).raw == if e.finishedAt < Horizon(retention, prunes) then [] else [e]
    decreases |prunes|
  {
    hide UpsertAll, RowsOf;
    if prunes == [] {
      HistoryExtends(retention, [], Write([e]));
      assert [] + [Write([e])] == [Write([e])] + PruneOps(prunes) && [] + [e] == [e];
    } else {
      var before, now := prunes[..|prunes| - 1], prunes[|prunes| - 1];
      var earlier := [Write([e])] + PruneOps(before);
      WrittenThenPruned(retention, e, before);
      HistoryExtends(retention, earlier, Prune(now));
      assert earlier + [Prune(now)] == [Write([e])] + PruneOps(prunes) && before + [now] == prunes;
      HorizonGrows(retention, before, now);
      SinceLone(e, Cutoff(now, retention));
    }
  }

  lemma SinceLone(e: Event, t: int)
    ensures Since([e], t) == if e.finishedAt < t then [] else [e]
  {
    assert [e][1..] == [];
  }

  lemma LoneRequestCounts(t: int, end: int)
    requires t <= end
    ensures RawSummary([RequestAt(t)], t, end, AnyLabels()).requests == 1.0
    ensures RawSummary([], t, end, AnyLabels()).requests == 0.0
  {
    hide RawAverage;
    LoneRaw(RequestAt(t), Within(t, end, AnyLabels()), RequestCount);
  }

  /** Whatever was written between and around these prunes, the raw table answers as if
      nothing had been pruned: exactly when each of them spared the window's start. */
  lemma RawRightExactly(retention: int, prunes: seq<int>, start: int, end: int)
    requires 0 <= start <= end
    ensures (forall ops | Prunings(ops) == prunes :: RawRight(retention, ops, start, end)) <==> Spared(retention, prunes, start)
  {
    hide RawSummary, Run, Written, Prunings, Spared, Horizon;
    if Spared(retention, prunes, start) {
      forall ops, keep | Prunings(ops) == prunes
        ensures RawSummary(Run(retention, ops).raw, start, end, keep) == RawSummary(Written(ops), start, end, keep)
      {
        RawAnswersWhenSpared(retention, ops, start, end, keep);
      }
    } else {
      var ops := [Write([RequestAt(start)])] + PruneOps(prunes);
      HorizonSpared(retention, prunes, start);
      WrittenThenPruned(retention, RequestAt(start), prunes);
      LoneRequestCounts(start, end);
      assert RawSummary(Run(retention, ops).raw, start, end, AnyLabels()) != RawSummary(Written(ops), start, end, AnyLabels());
      assert !RawRight(retention, ops, start, end);
    }
  }

  /** A query that chose the raw table is right on every history exactly when each
      prune between the choice and the read spared the window's start. */
  lemma ReadAfterChoiceExactly(retention: int, earlier: seq<int>, now: int, later: seq<int>, start: int, end: int)
    requires 0 <= start <= end && PrunedBy(earlier, now) && !UsesRollups(retention, now, start)
    ensures (forall ops | Prunings(ops) == earlier + later :: RawRight(retention, ops, start, end)) <==> Spared(retention, later, start)
  {
    SparedByCutoff(retention, earlier, now, start);
    RawRightExactly(retention, earlier + later, start, end);
  }

  /** Pruning never changes an answer. For every history of writes and prunes, a
      summary starting at or after the cutoff is that of every event ever written
      in its window, and an earlier one that of every event ever written on the
      days it touches; with a rate on no load, rate averages included. */
  lemma PruningKeepsAnswers(retention: int, ops: seq<Op>, now: int, start: int, end: int, keep: Labels -> bool)
    requires PrunedBy(Prunings(ops), now) && 0 <= start
    requires forall e | e in Written(ops) :: Normalized(e)
    ensures var answer := Answer(Run(retention, ops), retention, now, start, end, keep);
            if !UsesRollups(retention, now, start) then answer == RawSummary(Written(ops), start, end, keep)
            else
              && WithoutRates(answer) == WithoutRates(DaysSummary(Written(ops), start, end, keep))
              && (LoadsWithoutRates(Written(ops)) ==> answer == DaysSummary(Written(ops), start, end, keep))
  {
    if UsesRollups(retention, now, start) {
      HistoryKeeps(retention, ops);
      RollupsAnswerForDays(Written(ops), start, end, keep);
    } else {
      SparedByCutoff(retention, Prunings(ops), now, start);
      RawAnswersWhenSpared(retention, ops, start, end, keep);
    }
  }

  /** The input that shows it: one millisecond before midnight a query over a day still
      in the raw table chooses that table, and a prune at midnight takes the day away. */
  lemma MidnightPrune()
    ensures var ops := [Write([RequestAt(DAY_MS)]), Prune(3 * DAY_MS)];
            && !UsesRollups(DAY_MS, 3 * DAY_MS - 1, DAY_MS)
            && RawSummary(Written(ops), DAY_MS, DAY_MS, AnyLabels()).requests == 1.0
            && RawSummary(Run(DAY_MS, ops).raw, DAY_MS, DAY_MS, AnyLabels()).requests == 0.0
  {
    hide RawSummary, Run, Written, Prunings;
    var e, prunes := RequestAt(DAY_MS), [3 * DAY_MS];
    WrittenThenPruned(DAY_MS, e, prunes);
    assert prunes[..0] == [] && Horizon(DAY_MS, prunes) == 2 * DAY_MS;
    assert [Write([e])] + PruneOps(prunes) == [Write([e]), Prune(3 * DAY_MS)];
    LoneRequestCounts(DAY_MS, DAY_MS);
  }

  // What the lists of nodes and models show

  function RowLabels(rows: seq<Row>, p: Key -> bool): set<Labels> {
    if rows == [] then {} else (if p(rows[0].key) then {rows[0].key.labels} else {}) + RowLabels(rows[1..], p)
  }

  function EventLabels(events: seq<Event>, p: Event -> bool): set<Labels> {
    if events == [] then {} else (if p(events[0]) then {events[0].labels} else {}) + EventLabels(events[1..], p)
  }

  lemma {:induction false} UpsertLabels(rows: seq<Row>, row: Row, p: Key -> bool)
    ensures RowLabels(Upsert(rows, row), p) == RowLabels(rows, p) + if p(row.key) then {row.key.labels} else {}
    decreases |rows|
  {
    var updated := Upsert(rows, row);
    if rows == [] {
    } else if rows[0].key == row.key {
      assert updated[1..] == rows[1..];
    } else {
      assert updated[0] == rows[0] && updated[1..] == Upsert(rows[1..], row);
      UpsertLabels(rows[1..], row, p);
    }
  }

  lemma {:induction false} RolledLabels(rows: seq<Row>, events: seq<Event>, start: int, end: int, keep: Labels -> bool)
    ensures RowLabels(UpsertAll(rows, RowsOf(events)), DayRows(start, end, keep)) ==
            RowLabels(rows, DayRows(start, end, keep)) + EventLabels(events, Touched(start, end, keep))
    decreases |events|
  {
    if events != [] {
      var added, p := RowsOf(events), DayRows(start, end, keep);
      var once := Upsert(rows, added[0]);
      assert added[1..][0] == added[1] && added[1..][1..] == RowsOf(events[1..]);
      assert UpsertAll(rows, added) == UpsertAll(Upsert(once, added[1]), RowsOf(events[1..]));
      TouchedByDay(events[0], start, end, keep);
      UpsertLabels(rows, added[0], p);
      UpsertLabels(once, added[1], p);
      RolledLabels(Upsert(once, added[1]), events[1..], start, end, keep);
    }
  }

  /** After any pruning, the rollups list exactly the nodes, models and sections of the days touched. */
  lemma PruningKeepsLabels(retention: int, ops: seq<Op>, start: int, end: int, keep: Labels -> bool)
    ensures RowLabels(Run(retention, ops).rollups, DayRows(start, end, keep)) == EventLabels(Written(ops), Touched(start, end, keep))
  {
    HistoryKeeps(retention, ops);
    RolledLabels([], Written(ops), start, end, keep);
  }

  // Query windows

  datatype Span = Hours24 | Days7 | Days30 | Days90 | All

  datatype Query = Query(span: Span, start: int, end: int, node: string, model: string, section: string)

  function SpanMs(span: Span): int {
    match span
    case Days7 => 7 * DAY_MS
    case Days30 => 30 * DAY_MS
    case Days90 => 90 * DAY_MS
    case _ => DAY_MS
  }

  /** A window with its missing ends filled in and filters trimmed; refused when it is empty. */
  function Normalize(q: Query, now: int): (r: Option<Query>)
    ensures r.Some? ==> 0 <= r.value.start <= r.value.end && r.value.span == q.span && KeepsQuery(r.value) == KeepsQuery(q)
    ensures r.Some? ==> r.value.end == if q.end == 0 then now else q.end
    ensures r.Some? && q.start == 0 && q.span != All ==>
              r.value.start == if r.value.end < SpanMs(q.span) then 0 else r.value.end - SpanMs(q.span)
    ensures r.Some? && !(q.start == 0 && q.span != All) ==> r.value.start == if q.start < 0 then 0 else q.start
    ensures r.None? <==> (if q.end == 0 then now else q.end) < (if q.start > 0 then q.start else 0)
  {
    TrimSpaceTwice(q.node);
    TrimSpaceTwice(q.model);
    TrimSpaceTwice(q.section);
    var end := if q.end == 0 then now else q.end;
    var start := if q.start == 0 && q.span != All then end - SpanMs(q.span) else q.start;
    var start := if start < 0 then 0 else start;
    if end < start then None
    else Some(Query(q.span, start, end, TrimSpace(q.node), TrimSpace(q.model), TrimSpace(q.section)))
  }

  /** The labels a query's filters let through; a blank filter lets all through. */
  function KeepsQuery(q: Query): Labels -> bool {
    KeepsLabels(TrimSpace(q.node), TrimSpace(q.model), TrimSpace(q.section))
  }

  function KeepsLabels(node: string, model: string, section: string): Labels -> bool {
    (l: Labels) => (node != "" ==> l.node == node) && (model != "" ==> l.model == model) && (section != "" ==> l.section == section)
  }

  class EventStore {
    const retention: int
    var raw: seq<Event>
    var rollups: seq<Row>
    /** Every write and prune so far, and the latest instant a prune was made at. */
    ghost var history: seq<Op>
    ghost var clock: int

    ghost predicate Valid()
      reads this
    {
      && State(raw, rollups) == Run(retention, history)
      && PrunedBy(Prunings(history), clock)
      && forall e | e in Written(history) :: Normalized(e)
    }

    constructor (retention: int, now: int)
      ensures Valid() && this.retention == retention && history == [] && clock == now
    {
      this.retention := retention;
      raw, rollups, history, clock := [], [], [], now;
    }

    /** One transaction. It fails while writing event `failAt`, or on committing
        when that is the number of events, and then leaves the tables alone. */
    method WriteEvents(events: seq<Event>, failAt: nat) returns (ok: bool)
      requires Valid() && forall e | e in events :: Normalized(e)
      modifies this`raw, this`rollups, this`history
      ensures Valid() && ok == (failAt > |events|)
      ensures history == old(history) + if ok then [Write(events)] else []
      ensures !ok ==> raw == old(raw) && rollups == old(rollups)
    {
      hide UpsertAll, RowsOf, Rolled, Normalized;
      var rawBefore, rollupsBefore := raw, rollups;
      NoRows(rollups, events);
      for i := 0 to |events|
        invariant raw == rawBefore + events[..i] && rollups == UpsertAll(rollupsBefore, RowsOf(events[..i]))
        invariant history == old(history) && i <= failAt
      {
        if i == failAt {
          raw, rollups := rawBefore, rollupsBefore;
          return false;
        }
        RowsGrow(rollupsBefore, events, i);
        raw := raw + [events[i]];
        rollups := WriteRollups(rollups, events[i]);
      }
      if failAt == |events| {
        raw, rollups := rawBefore, rollupsBefore;
        return false;
      }
      assert events[..|events|] == events;
      history := history + [Write(events)];
      HistoryExtends(retention, old(history), Write(events));
      return true;
    }

    /** The statement may fail, where there is one. */
    method Prune(now: int, works: bool) returns (ok: bool)
      requires Valid() && clock <= now
      modifies this`raw, this`history, this`clock
      ensures Valid() && clock == now && ok == (works || retention <= 0)
      ensures history == old(history) + (if ok then [Op.Prune(now)] else [])
      ensures !ok ==> raw == old(raw)
    {
      hide Since, Cutoff, Run, Prunings, Written, Normalized;
      ok := works || retention <= 0;
      clock := now;
      if ok {
        if retention > 0 {
          raw := Since(raw, Cutoff(now, retention));
        }
        history := history + [Op.Prune(now)];
        HistoryExtends(retention, old(history), Op.Prune(now));
        assert Written(old(history)) + [] == Written(old(history));
      }
    }

    /** Whether a query reads the rollups. If not, the prunes so far spared its window. */
    method ChooseTable(q: Query, now: int) returns (fromRollups: bool)
      requires Valid() && clock <= now && 0 <= q.start
      ensures fromRollups == UsesRollups(retention, now, q.start)
      ensures !fromRollups ==> Spared(retention, Prunings(history), q.start)
    {
      var cutoff := Cutoff(now, retention);
      fromRollups := cutoff > 0 && q.start < cutoff;
      if !fromRollups {
        SparedByCutoff(retention, Prunings(history), now, q.start);
      }
    }

    /** Reads the table chosen, perhaps after more writes and prunes. */
    method ReadSummary(q: Query, fromRollups: bool) returns (r: Summary)
      requires Valid() && 0 <= q.start
      ensures var all := Written(history);
              if fromRollups then
                && WithoutRates(r) == WithoutRates(DaysSummary(all, q.start, q.end, KeepsQuery(q)))
                && (LoadsWithoutRates(all) ==> r == DaysSummary(all, q.start, q.end, KeepsQuery(q)))
              else Spared(retention, Prunings(history), q.start) ==> r == RawSummary(all, q.start, q.end, KeepsQuery(q))
    {
      if fromRollups {
        HistoryKeeps(retention, history);
        RollupsAnswerForDays(Written(history), q.start, q.end, KeepsQuery(q));
        r := RollupSummary(rollups, q.start, q.end, KeepsQuery(q));
      } else {
        if Spared(retention, Prunings(history), q.start) {
          RawAnswersWhenSpared(retention, history, q.start, q.end, KeepsQuery(q));
        }
        r := RawSummary(raw, q.start, q.end, KeepsQuery(q));
      }
    }

    /** The summary of a query that nothing comes between: what it covers is said of every event ever written. */
    method QuerySummary(query: Query, now: int) returns (r: Option<Summary>)
      requires Valid() && clock <= now
      ensures r.Some? == Normalize(query, now).Some?
      ensures r.Some? ==>
                var q, all := Normalize(query, now).value, Written(history);
                if UsesRollups(retention, now, q.start) then
                  && WithoutRates(r.value) == WithoutRates(DaysSummary(all, q.start, q.end, KeepsQuery(query)))
                  && (LoadsWithoutRates(all) ==> r.value == DaysSummary(all, q.start, q.end, KeepsQuery(query)))
                else r.value == RawSummary(all, q.start, q.end, KeepsQuery(query))
    {
      var normalized := Normalize(query, now);
      if normalized.None? {
        return None;
      }
      var fromRollups := ChooseTable(normalized.value, now);
      var summary := ReadSummary(normalized.value, fromRollups);
      r := Some(summary);
    }
  }

  method WriteRollups(rows: seq<Row>, e: Event) returns (updated: seq<Row>)
    ensures updated == UpsertAll(rows, RowsOf([e]))
  {
    var periods := [Hour, Day];
    updated := rows;
    for i := 0 to 2
      invariant updated == UpsertAll(rows, [RowOf(e, Hour), RowOf(e, Day)][..i])
    {
      UpsertAllAppend(rows, [RowOf(e, Hour), RowOf(e, Day)][..i], [RowOf(e, periods[i])]);
      assert [RowOf(e, Hour), RowOf(e, Day)][..i + 1] == [RowOf(e, Hour), RowOf(e, Day)][..i] + [RowOf(e, periods[i])];
      updated := Upsert(updated, RowOf(e, periods[i]));
    }
    RowsOfOne(e);
  }

  lemma NoRows(rows: seq<Row>, events: seq<Event>)
    ensures UpsertAll(rows, RowsOf(events[..0])) == rows
  {
  }

  lemma RowsGrow(rows: seq<Row>, events: seq<Event>, i: nat)
    requires i < |events|
    ensures UpsertAll(rows, RowsOf(events[..i + 1])) == UpsertAll(UpsertAll(rows, RowsOf(events[..i])), RowsOf([events[i]]))
  {
    assert events[..i + 1] == events[..i] + [events[i]];
    RowsOfAppend(events[..i], [events[i]]);
    UpsertAllAppend(rows, RowsOf(events[..i]), RowsOf([events[i]]));
  }

  lemma HistoryExtends(retention: int, ops: seq<Op>, op: Op)
    ensures Prunings(ops + [op]) == Prunings(ops) + if op.Prune? then [op.now] else []
    ensures Run(retention, ops + [op]) == Apply(Run(retention, ops), retention, op)
    ensures Written(ops + [op]) == Written(ops) + if op.Write? then op.events else []
  {
  }
}

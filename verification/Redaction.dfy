/** Redaction of captured output: a longest-match scan over the concatenation
    of the chunks, whose result is dealt back to the chunks. */
module Redaction {
  import opened Basics

  datatype Chunk = Chunk(sequence: int, stream: string, offset: int, payload: Bytes)

  type Redactions = map<Bytes, Bytes>

  function Flat(chunks: seq<Chunk>): Bytes {
    if chunks == [] then [] else chunks[0].payload + Flat(chunks[1..])
  }

  lemma {:induction false} FlatAppend(a: seq<Chunk>, b: seq<Chunk>)
    ensures Flat(a + b) == Flat(a) + Flat(b)
    decreases |a|
  {
    if a == [] {
      assert a + b == b;
    } else {
      assert (a + b)[0] == a[0] && (a + b)[1..] == a[1..] + b;
      FlatAppend(a[1..], b);
    }
  }

  // ---------- White space ----------

  /** The UTF-8 form of a white-space character of Unicode. */
  predicate BlankRune(r: Bytes) {
    || (|r| == 1 && (r[0] == 0x20 || 0x09 <= r[0] <= 0x0D))
    || (|r| == 2 && r[0] == 0xC2 && (r[1] == 0x85 || r[1] == 0xA0))
    || (|r| == 3 && r[0] == 0xE1 && r[1] == 0x9A && r[2] == 0x80)
    || (|r| == 3 && r[0] == 0xE2 && r[1] == 0x80 && (0x80 <= r[2] <= 0x8A || r[2] == 0xA8 || r[2] == 0xA9 || r[2] == 0xAF))
    || (|r| == 3 && r[0] == 0xE2 && r[1] == 0x81 && r[2] == 0x9F)
    || (|r| == 3 && r[0] == 0xE3 && r[1] == 0x80 && r[2] == 0x80)
  }

  /** How many bytes of white space a text starts with: one character's, or none. */
  function BlankHead(s: Bytes): (n: nat)
    ensures n <= |s|
  {
    if |s| >= 1 && BlankRune(s[..1]) then 1
    else if |s| >= 2 && BlankRune(s[..2]) then 2
    else if |s| >= 3 && BlankRune(s[..3]) then 3
    else 0
  }

  function BlankTail(s: Bytes): (n: nat)
    ensures n <= |s|
  {
    if |s| >= 1 && BlankRune(s[|s| - 1..]) then 1
    else if |s| >= 2 && BlankRune(s[|s| - 2..]) then 2
    else if |s| >= 3 && BlankRune(s[|s| - 3..]) then 3
    else 0
  }

  function TrimLeft(s: Bytes): Bytes {
    if BlankHead(s) > 0 then TrimLeft(s[BlankHead(s)..]) else s
  }

  function TrimRight(s: Bytes): Bytes {
    if BlankTail(s) > 0 then TrimRight(s[..|s| - BlankTail(s)]) else s
  }

  function Trim(s: Bytes): Bytes {
    TrimRight(TrimLeft(s))
  }

  lemma {:induction false} TrimLeftHead(s: Bytes)
    ensures BlankHead(TrimLeft(s)) == 0
    decreases |s|
  {
    if BlankHead(s) > 0 {
      TrimLeftHead(s[BlankHead(s)..]);
    }
  }

  lemma {:induction false} TrimRightTail(s: Bytes)
    ensures BlankTail(TrimRight(s)) == 0 && TrimRight(s) <= s
    decreases |s|
  {
    if BlankTail(s) > 0 {
      TrimRightTail(s[..|s| - BlankTail(s)]);
    }
  }

  lemma HeadOfPrefix(t: Bytes, s: Bytes)
    requires t <= s && BlankHead(s) == 0
    ensures BlankHead(t) == 0
  {
    assert forall n | 0 <= n <= |t| :: t[..n] == s[..n];
  }

  /** A text once trimmed has nothing more to trim. */
  lemma TrimTwice(s: Bytes)
    ensures Trim(Trim(s)) == Trim(s)
  {
    hide BlankHead, BlankTail;
    var left := TrimLeft(s);
    TrimLeftHead(s);
    TrimRightTail(left);
    HeadOfPrefix(TrimRight(left), left);
  }

  // ---------- Keys ----------

  predicate Blank(key: Bytes) {
    Trim(key) == []
  }

  predicate OccursAt(key: Bytes, text: Bytes, at: nat) {
    at + |key| <= |text| && text[at..at + |key|] == key
  }

  predicate Longer(keys: seq<Bytes>) {
    forall i, j | 0 <= i < j < |keys| :: |keys[i]| >= |keys[j]|
  }

  /** A list of the keys that are not blank, longest first; ties in any order. */
  ghost predicate KeyOrder(keys: seq<Bytes>, redactions: Redactions) {
    && Longer(keys)
    && forall key :: key in keys <==> key in redactions && !Blank(key)
  }

  method ReplacementKeys(redactions: Redactions) returns (keys: seq<Bytes>)
    ensures KeyOrder(keys, redactions)
  {
    keys := [];
    var left := redactions.Keys;
    while left != {}
      invariant left <= redactions.Keys && Longer(keys)
      invariant forall key | key in keys :: key in redactions && !Blank(key)
      invariant forall key | key in redactions && key !in left && !Blank(key) :: key in keys
      decreases left
    {
      var key :| key in left;
      left := left - {key};
      if !Blank(key) {
        keys := InsertKey(keys, key);
      }
    }
  }

  /** One step of the sort by length. */
  function InsertKey(keys: seq<Bytes>, key: Bytes): (result: seq<Bytes>)
    requires Longer(keys)
    ensures Longer(result) && forall k :: k in result <==> k in keys || k == key
  {
    if keys == [] then [key]
    else if |keys[0]| < |key| then [key] + keys
    else
      var rest := InsertKey(keys[1..], key);
      assert forall k | k in rest :: |k| <= |keys[0]|;
      [keys[0]] + rest
  }

  lemma {:induction false} OrderExists(redactions: Redactions, some: set<Bytes>) returns (keys: seq<Bytes>)
    requires some <= redactions.Keys
    ensures Longer(keys) && forall key :: key in keys <==> key in some && !Blank(key)
    decreases some
  {
    if key :| key in some {
      keys := OrderExists(redactions, some - {key});
      if !Blank(key) {
        keys := InsertKey(keys, key);
      }
    } else {
      keys := [];
    }
  }

  /** Some order of the keys; which one it is does not matter. */
  ghost function Order(redactions: Redactions): (order: seq<Bytes>)
    ensures KeyOrder(order, redactions) && KeysOf(order, redactions)
  {
    SomeOrder(redactions);
    var order :| KeyOrder(order, redactions);
    OrderedKeysOf(order, redactions);
    order
  }

  lemma SomeOrder(redactions: Redactions)
    ensures exists order :: KeyOrder(order, redactions)
  {
    var order := OrderExists(redactions, redactions.Keys);
    assert KeyOrder(order, redactions);
  }

  function FirstMatch(keys: seq<Bytes>, text: Bytes, at: nat): (r: Option<Bytes>)
    ensures r.Some? ==> r.value in keys && OccursAt(r.value, text, at)
    ensures r.None? ==> forall key | key in keys :: !OccursAt(key, text, at)
  {
    if keys == [] then None
    else if OccursAt(keys[0], text, at) then Some(keys[0])
    else FirstMatch(keys[1..], text, at)
  }

  /** The first match of a longest-first list is a longest match. */
  lemma {:induction false} FirstIsLongest(keys: seq<Bytes>, text: Bytes, at: nat, key: Bytes)
    requires Longer(keys) && key in keys && OccursAt(key, text, at)
    ensures FirstMatch(keys, text, at).Some? && |key| <= |FirstMatch(keys, text, at).value|
    decreases |keys|
  {
    if !OccursAt(keys[0], text, at) {
      FirstIsLongest(keys[1..], text, at, key);
    } else {
      var i :| 0 <= i < |keys| && keys[i] == key;
      assert i > 0 ==> |keys[0]| >= |keys[i]|;
    }
  }

  lemma MatchCovered(a: seq<Bytes>, b: seq<Bytes>, redactions: Redactions, text: Bytes, at: nat)
    requires KeyOrder(a, redactions) && KeyOrder(b, redactions) && FirstMatch(a, text, at).Some?
    ensures FirstMatch(b, text, at).Some? && |FirstMatch(a, text, at).value| <= |FirstMatch(b, text, at).value|
  {
    var key := FirstMatch(a, text, at).value;
    assert key in redactions && !Blank(key);
    FirstIsLongest(b, text, at, key);
  }

  lemma SameLengthSameKey(x: Bytes, y: Bytes, text: Bytes, at: nat)
    requires OccursAt(x, text, at) && OccursAt(y, text, at) && |x| == |y|
    ensures x == y
  {
  }

  /** Which of two equally long keys comes first does not matter. */
  lemma OrderIrrelevant(a: seq<Bytes>, b: seq<Bytes>, redactions: Redactions, text: Bytes, at: nat)
    requires KeyOrder(a, redactions) && KeyOrder(b, redactions)
    ensures FirstMatch(a, text, at) == FirstMatch(b, text, at)
  {
    var x, y := FirstMatch(a, text, at), FirstMatch(b, text, at);
    if x.Some? {
      MatchCovered(a, b, redactions, text, at);
    }
    if y.Some? {
      MatchCovered(b, a, redactions, text, at);
      SameLengthSameKey(x.value, y.value, text, at);
    }
  }

  // ---------- Redacting one flat text ----------

  predicate KeysOf(keys: seq<Bytes>, redactions: Redactions) {
    forall key | key in keys :: key in redactions && |key| > 0
  }

  lemma OrderedKeysOf(keys: seq<Bytes>, redactions: Redactions)
    requires KeyOrder(keys, redactions)
    ensures KeysOf(keys, redactions)
  {
  }

  function Advance(keys: seq<Bytes>, text: Bytes, at: nat): (next: nat)
    requires at < |text| && forall key | key in keys :: |key| > 0
    ensures at < next <= |text|
  {
    match FirstMatch(keys, text, at)
    case Some(key) => at + |key|
    case None => at + 1
  }

  function Output(keys: seq<Bytes>, redactions: Redactions, text: Bytes, at: nat): Bytes
    requires at < |text| && KeysOf(keys, redactions)
  {
    match FirstMatch(keys, text, at)
    case Some(key) => redactions[key]
    case None => [text[at]]
  }

  function Redact(keys: seq<Bytes>, redactions: Redactions, text: Bytes, at: nat): Bytes
    requires at <= |text| && KeysOf(keys, redactions)
    decreases |text| - at
  {
    if at == |text| then []
    else Output(keys, redactions, text, at) + Redact(keys, redactions, text, Advance(keys, text, at))
  }

  lemma {:induction false} RedactOrderIrrelevant(a: seq<Bytes>, b: seq<Bytes>, redactions: Redactions, text: Bytes, at: nat)
    requires KeyOrder(a, redactions) && KeyOrder(b, redactions) && at <= |text|
    requires KeysOf(a, redactions) && KeysOf(b, redactions)
    ensures Redact(a, redactions, text, at) == Redact(b, redactions, text, at)
    decreases |text| - at
  {
    if at < |text| {
      SameStep(a, b, redactions, text, at);
      RedactOrderIrrelevant(a, b, redactions, text, Advance(a, text, at));
    }
  }

  /** The redaction of a text: the longest key at each position is replaced, left to right. */
  ghost function Redacted(redactions: Redactions, text: Bytes): Bytes {
    Redact(Order(redactions), redactions, text, 0)
  }

  lemma SameStep(a: seq<Bytes>, b: seq<Bytes>, redactions: Redactions, text: Bytes, at: nat)
    requires KeyOrder(a, redactions) && KeyOrder(b, redactions) && at < |text|
    requires KeysOf(a, redactions) && KeysOf(b, redactions)
    ensures Advance(a, text, at) == Advance(b, text, at)
    ensures Output(a, redactions, text, at) == Output(b, redactions, text, at)
  {
    OrderIrrelevant(a, b, redactions, text, at);
  }

  datatype Span = Span(start: nat, end: nat)

  /** The stretches of the text that redaction replaces, in order. */
  function Spans(keys: seq<Bytes>, text: Bytes, at: nat): seq<Span>
    requires at <= |text| && forall key | key in keys :: |key| > 0
    decreases |text| - at
  {
    if at == |text| then []
    else
      var next := Advance(keys, text, at);
      var rest := Spans(keys, text, next);
      if FirstMatch(keys, text, at).Some? then [Span(at, next)] + rest else rest
  }

  /** The spans are disjoint, in order, and each covers a key. */
  predicate SpansFit(spans: seq<Span>, redactions: Redactions, text: Bytes, at: nat)
    decreases |spans|
  {
    spans == []
    || (&& at <= spans[0].start < spans[0].end <= |text|
        && text[spans[0].start..spans[0].end] in redactions
        && SpansFit(spans[1..], redactions, text, spans[0].end))
  }

  function Splice(spans: seq<Span>, redactions: Redactions, text: Bytes, at: nat): Bytes
    requires at <= |text| && SpansFit(spans, redactions, text, at)
    decreases |spans|
  {
    if spans == [] then text[at..]
    else
      text[at..spans[0].start]
      + (redactions[text[spans[0].start..spans[0].end]] + Splice(spans[1..], redactions, text, spans[0].end))
  }

  lemma SpliceCopy(spans: seq<Span>, redactions: Redactions, text: Bytes, at: nat)
    requires at < |text| && SpansFit(spans, redactions, text, at + 1)
    ensures SpansFit(spans, redactions, text, at)
    ensures Splice(spans, redactions, text, at) == [text[at]] + Splice(spans, redactions, text, at + 1)
  {
  }

  lemma SpliceReplace(spans: seq<Span>, redactions: Redactions, text: Bytes, at: nat, next: nat)
    requires at < next <= |text| && SpansFit(spans, redactions, text, next) && text[at..next] in redactions
    ensures var all := [Span(at, next)] + spans;
            && SpansFit(all, redactions, text, at)
            && Splice(all, redactions, text, at) == redactions[text[at..next]] + Splice(spans, redactions, text, next)
  {
  }

  /** Redaction replaces exactly the spans and copies everything else. */
  lemma {:induction false} RedactIsSplice(keys: seq<Bytes>, redactions: Redactions, text: Bytes, at: nat)
    requires at <= |text| && KeysOf(keys, redactions)
    ensures SpansFit(Spans(keys, text, at), redactions, text, at)
    ensures Redact(keys, redactions, text, at) == Splice(Spans(keys, text, at), redactions, text, at)
    decreases |text| - at
  {
    if at < |text| {
      var next := Advance(keys, text, at);
      RedactIsSplice(keys, redactions, text, next);
      if FirstMatch(keys, text, at).Some? {
        SpliceReplace(Spans(keys, text, next), redactions, text, at, next);
      } else {
        SpliceCopy(Spans(keys, text, next), redactions, text, at);
      }
    }
  }

  ghost predicate Overlapped(spans: seq<Span>, start: nat, end: nat) {
    exists i :: 0 <= i < |spans| && spans[i].start < end && start < spans[i].end
  }

  /** No occurrence of a key survives untouched. */
  lemma {:induction false} OccurrencesOverlapSpans(keys: seq<Bytes>, text: Bytes, at: nat, key: Bytes, p: nat)
    requires at <= p && p <= |text| && forall key | key in keys :: |key| > 0
    requires key in keys && OccursAt(key, text, p)
    ensures Overlapped(Spans(keys, text, at), p, p + |key|)
    decreases |text| - at
  {
    var next := Advance(keys, text, at);
    var rest := Spans(keys, text, next);
    var spans := Spans(keys, text, at);
    if FirstMatch(keys, text, at).Some? && p < next {
      assert spans[0] == Span(at, next);
    } else {
      assert at < p;
      OccurrencesOverlapSpans(keys, text, next, key, p);
      var i :| 0 <= i < |rest| && rest[i].start < p + |key| && p < rest[i].end;
      assert rest[i] == spans[if FirstMatch(keys, text, at).Some? then i + 1 else i];
    }
  }

  // ---------- Redacting chunks ----------

  /** The chunk each byte of the concatenation came from. */
  function Owners(chunks: seq<Chunk>): (owners: seq<nat>)
    ensures |owners| == |Flat(chunks)|
    ensures forall i | 0 <= i < |owners| :: owners[i] < |chunks|
    ensures forall i, j | 0 <= i < j < |owners| :: owners[i] <= owners[j]
  {
    if chunks == [] then []
    else
      var last := |chunks| - 1;
      FlatAppend(chunks[..last], [chunks[last]]);
      assert chunks == chunks[..last] + [chunks[last]];
      assert Flat([chunks[last]]) == chunks[last].payload by { assert [chunks[last]][1..] == []; }
      Owners(chunks[..last]) + seq(|chunks[last].payload|, _ => last)
  }

  function Empties(n: nat): seq<Bytes> {
    seq(n, _ => [])
  }

  /** The scan from `at` on, each piece of output dealt to the owner of the byte it starts at. */
  function Dealt(keys: seq<Bytes>, redactions: Redactions, text: Bytes, owners: seq<nat>, n: nat, at: nat): (r: seq<Bytes>)
    requires at <= |text| == |owners| && KeysOf(keys, redactions)
    requires forall i | 0 <= i < |owners| :: owners[i] < n
    ensures |r| == n
    decreases |text| - at
  {
    if at == |text| then Empties(n)
    else
      var rest := Dealt(keys, redactions, text, owners, n, Advance(keys, text, at));
      rest[owners[at] := Output(keys, redactions, text, at) + rest[owners[at]]]
  }

  lemma {:induction false} DealtOrderIrrelevant(a: seq<Bytes>, b: seq<Bytes>, redactions: Redactions, text: Bytes, owners: seq<nat>, n: nat, at: nat)
    requires KeyOrder(a, redactions) && KeyOrder(b, redactions) && at <= |text| == |owners|
    requires KeysOf(a, redactions) && KeysOf(b, redactions) && forall i | 0 <= i < |owners| :: owners[i] < n
    ensures Dealt(a, redactions, text, owners, n, at) == Dealt(b, redactions, text, owners, n, at)
    decreases |text| - at
  {
    hide KeyOrder;
    if at < |text| {
      SameStep(a, b, redactions, text, at);
      DealtOrderIrrelevant(a, b, redactions, text, owners, n, Advance(a, text, at));
    }
  }

  lemma {:induction false} JoinEmpties(parts: seq<Bytes>, n: nat)
    requires n <= |parts| && forall c | 0 <= c < n :: parts[c] == []
    ensures Join(parts) == Join(parts[n..])
    decreases n
  {
    if n > 0 {
      JoinEmpties(parts[1..], n - 1);
      assert parts[1..][n - 1..] == parts[n..];
    }
  }

  lemma JoinUpdated(parts: seq<Bytes>, o: nat, piece: Bytes)
    requires o < |parts| && forall c | 0 <= c < o :: parts[c] == []
    ensures Join(parts[o := piece + parts[o]]) == piece + Join(parts)
  {
    var updated := parts[o := piece + parts[o]];
    JoinEmpties(parts, o);
    JoinEmpties(updated, o);
    assert parts[o..][1..] == updated[o..][1..];
    assert (piece + parts[o]) + Join(parts[o..][1..]) == piece + (parts[o] + Join(parts[o..][1..]));
  }

  /** Dealing loses nothing and keeps the order: joined again, it is the redaction of the flat text. */
  lemma {:induction false} DealtJoins(keys: seq<Bytes>, redactions: Redactions, text: Bytes, owners: seq<nat>, n: nat, at: nat)
    requires at <= |text| == |owners| && KeysOf(keys, redactions)
    requires forall i | 0 <= i < |owners| :: owners[i] < n
    requires forall i, j | 0 <= i < j < |owners| :: owners[i] <= owners[j]
    ensures var r := Dealt(keys, redactions, text, owners, n, at);
            && Join(r) == Redact(keys, redactions, text, at)
            && forall c | 0 <= c < n && (at < |text| ==> c < owners[at]) :: r[c] == []
    decreases |text| - at
  {
    if at == |text| {
      JoinEmpties(Empties(n), n);
    } else {
      var next := Advance(keys, text, at);
      DealtJoins(keys, redactions, text, owners, n, next);
      assert next < |text| ==> owners[at] <= owners[next];
      JoinUpdated(Dealt(keys, redactions, text, owners, n, next), owners[at], Output(keys, redactions, text, at));
    }
  }

  /** The chunks with their new payloads, those left empty dropped. */
  function Repacked(chunks: seq<Chunk>, payloads: seq<Bytes>): (r: seq<Chunk>)
    requires |chunks| == |payloads|
  {
    if chunks == [] then []
    else
      var rest := Repacked(chunks[1..], payloads[1..]);
      if payloads[0] == [] then rest else [chunks[0].(payload := payloads[0])] + rest
  }

  lemma {:induction false} RepackedFlat(chunks: seq<Chunk>, payloads: seq<Bytes>)
    requires |chunks| == |payloads|
    ensures Flat(Repacked(chunks, payloads)) == Join(payloads)
    decreases |chunks|
  {
    if chunks != [] {
      RepackedFlat(chunks[1..], payloads[1..]);
      var rest := Repacked(chunks[1..], payloads[1..]);
      if payloads[0] != [] {
        assert ([chunks[0].(payload := payloads[0])] + rest)[1..] == rest;
      }
    }
  }

  lemma {:induction false} RepackedAppend(a: seq<Chunk>, p: seq<Bytes>, c: Chunk, q: Bytes)
    requires |a| == |p|
    ensures Repacked(a + [c], p + [q]) == Repacked(a, p) + if q == [] then [] else [c.(payload := q)]
    decreases |a|
  {
    if a == [] {
      assert a + [c] == [c] && p + [q] == [q];
      assert Repacked([c][1..], [q][1..]) == [];
    } else {
      assert (a + [c])[1..] == a[1..] + [c] && (p + [q])[1..] == p[1..] + [q];
      RepackedAppend(a[1..], p[1..], c, q);
    }
  }

  /** The chunks redacted, each piece of output in the chunk its text started in. */
  ghost function Sanitized(chunks: seq<Chunk>, redactions: Redactions): seq<Chunk> {
    Repacked(chunks, Dealt(Order(redactions), redactions, Flat(chunks), Owners(chunks), |chunks|, 0))
  }

  method SanitizeChunks(chunks: seq<Chunk>, redactions: Redactions) returns (result: seq<Chunk>)
    ensures result == Sanitized(chunks, redactions)
    ensures Flat(result) == Redacted(redactions, Flat(chunks))
  {
    hide Dealt, Redact, Repacked, KeyOrder, KeysOf;
    if |chunks| == 0 {
      RepackedRedacts(chunks, redactions, Order(redactions));
      NoChunks(redactions);
      return [];
    }
    var keys := ReplacementKeys(redactions);
    OrderedKeysOf(keys, redactions);
    var combined, owners := Combine(chunks);
    var sanitized := Deal(keys, redactions, combined, owners, |chunks|);
    DealtOrderIrrelevant(keys, Order(redactions), redactions, combined, owners, |chunks|, 0);
    result := Repack(chunks, sanitized);
    RepackedRedacts(chunks, redactions, Order(redactions));
  }

  lemma NoChunks(redactions: Redactions)
    ensures Sanitized([], redactions) == []
  {
  }

  method Repack(chunks: seq<Chunk>, payloads: seq<Bytes>) returns (result: seq<Chunk>)
    requires |chunks| == |payloads|
    ensures result == Repacked(chunks, payloads)
  {
    result := [];
    for index := 0 to |chunks|
      invariant result == Repacked(chunks[..index], payloads[..index])
    {
      assert chunks[..index + 1] == chunks[..index] + [chunks[index]];
      assert payloads[..index + 1] == payloads[..index] + [payloads[index]];
      RepackedAppend(chunks[..index], payloads[..index], chunks[index], payloads[index]);
      if payloads[index] != [] {
        result := result + [chunks[index].(payload := payloads[index])];
      }
    }
    assert chunks[..|chunks|] == chunks && payloads[..|chunks|] == payloads;
  }

  method Combine(chunks: seq<Chunk>) returns (combined: Bytes, owners: seq<nat>)
    ensures combined == Flat(chunks) && owners == Owners(chunks)
  {
    combined, owners := [], [];
    for index := 0 to |chunks|
      invariant combined == Flat(chunks[..index]) && owners == Owners(chunks[..index])
    {
      combined := combined + chunks[index].payload;
      owners := Repeated(owners, index, |chunks[index].payload|);
      OwnersAppend(chunks[..index], chunks[index]);
      assert chunks[..index + 1] == chunks[..index] + [chunks[index]];
    }
    assert chunks[..|chunks|] == chunks;
  }

  method Repeated(owners: seq<nat>, index: nat, times: nat) returns (result: seq<nat>)
    ensures result == owners + seq(times, _ => index)
  {
    result := owners;
    for i := 0 to times
      invariant result == owners + seq(i, _ => index)
    {
      result := result + [index];
    }
  }

  lemma OwnersStep(chunks: seq<Chunk>)
    requires chunks != []
    ensures var last := |chunks| - 1; Owners(chunks) == Owners(chunks[..last]) + seq(|chunks[last].payload|, _ => last)
  {
  }

  lemma OwnersAppend(chunks: seq<Chunk>, chunk: Chunk)
    ensures Flat(chunks + [chunk]) == Flat(chunks) + chunk.payload
    ensures Owners(chunks + [chunk]) == Owners(chunks) + seq(|chunk.payload|, _ => |chunks|)
  {
    hide Owners, Flat;
    FlatAppend(chunks, [chunk]);
    FlatOne(chunk);
    assert (chunks + [chunk])[..|chunks|] == chunks;
    OwnersStep(chunks + [chunk]);
  }

  lemma FlatOne(chunk: Chunk)
    ensures Flat([chunk]) == chunk.payload
  {
    assert [chunk][1..] == [];
  }

  method MatchAt(keys: seq<Bytes>, combined: Bytes, position: nat) returns (matched: Option<Bytes>)
    ensures matched == FirstMatch(keys, combined, position)
  {
    matched := None;
    for k := 0 to |keys|
      invariant matched.None? && FirstMatch(keys, combined, position) == FirstMatch(keys[k..], combined, position)
    {
      if OccursAt(keys[k], combined, position) {
        return Some(keys[k]);
      }
      assert keys[k..][1..] == keys[k + 1..];
    }
  }

  function Zip(a: seq<Bytes>, b: seq<Bytes>): seq<Bytes>
    requires |a| == |b|
  {
    seq(|a|, c requires 0 <= c < |a| => a[c] + b[c])
  }

  lemma ZipEmpties(a: seq<Bytes>)
    ensures Zip(a, Empties(|a|)) == a && Zip(Empties(|a|), a) == a
  {
    assert forall c | 0 <= c < |a| :: a[c] + [] == a[c] && [] + a[c] == a[c];
    assert forall c | 0 <= c < |a| :: Zip(a, Empties(|a|))[c] == a[c] + [] && Zip(Empties(|a|), a)[c] == [] + a[c];
  }

  lemma ZipShift(a: seq<Bytes>, b: seq<Bytes>, o: nat, piece: Bytes)
    requires |a| == |b| && o < |a|
    ensures Zip(a[o := a[o] + piece], b) == Zip(a, b[o := piece + b[o]])
  {
    assert (a[o] + piece) + b[o] == a[o] + (piece + b[o]);
  }

  function Piece(redactions: Redactions, combined: Bytes, position: nat, matched: Option<Bytes>): Bytes
    requires position < |combined| && (matched.Some? ==> matched.value in redactions)
  {
    if matched.Some? then redactions[matched.value] else [combined[position]]
  }

  lemma DealtStep(keys: seq<Bytes>, redactions: Redactions, text: Bytes, owners: seq<nat>, n: nat, at: nat)
    requires at < |text| == |owners| && KeysOf(keys, redactions)
    requires forall i | 0 <= i < |owners| :: owners[i] < n
    ensures FirstMatch(keys, text, at).Some? ==> FirstMatch(keys, text, at).value in redactions
    ensures Advance(keys, text, at) == at + if FirstMatch(keys, text, at).Some? then |FirstMatch(keys, text, at).value| else 1
    ensures var rest := Dealt(keys, redactions, text, owners, n, Advance(keys, text, at));
            Dealt(keys, redactions, text, owners, n, at) ==
              rest[owners[at] := Piece(redactions, text, at, FirstMatch(keys, text, at)) + rest[owners[at]]]
  {
  }

  method Deal(keys: seq<Bytes>, redactions: Redactions, combined: Bytes, owners: seq<nat>, n: nat) returns (sanitized: seq<Bytes>)
    requires |combined| == |owners| && KeysOf(keys, redactions)
    requires forall i | 0 <= i < |owners| :: owners[i] < n
    ensures sanitized == Dealt(keys, redactions, combined, owners, n, 0)
  {
    hide Dealt, FirstMatch, Advance;
    sanitized := Empties(n);
    ghost var all := Dealt(keys, redactions, combined, owners, n, 0);
    ghost var rest := all;
    ZipEmpties(all);
    var position := 0;
    while position < |combined|
      invariant position <= |combined| && |sanitized| == n == |rest|
      invariant rest == Dealt(keys, redactions, combined, owners, n, position)
      invariant Zip(sanitized, rest) == all
    {
      var matched := MatchAt(keys, combined, position);
      DealtStep(keys, redactions, combined, owners, n, position);
      var owner := owners[position];
      var piece := Piece(redactions, combined, position, matched);
      rest := Dealt(keys, redactions, combined, owners, n, Advance(keys, combined, position));
      ZipShift(sanitized, rest, owner, piece);
      sanitized := sanitized[owner := sanitized[owner] + piece];
      position := position + if matched.Some? then |matched.value| else 1;
    }
    DealtEnd(keys, redactions, combined, owners, n);
    ZipEmpties(sanitized);
  }

  lemma DealtEnd(keys: seq<Bytes>, redactions: Redactions, text: Bytes, owners: seq<nat>, n: nat)
    requires |text| == |owners| && KeysOf(keys, redactions) && forall i | 0 <= i < |owners| :: owners[i] < n
    ensures Dealt(keys, redactions, text, owners, n, |text|) == Empties(n)
  {
  }

  lemma RepackedRedacts(chunks: seq<Chunk>, redactions: Redactions, order: seq<Bytes>)
    requires KeysOf(order, redactions)
    ensures Flat(Repacked(chunks, Dealt(order, redactions, Flat(chunks), Owners(chunks), |chunks|, 0)))
         == Redact(order, redactions, Flat(chunks), 0)
  {
    DealtJoins(order, redactions, Flat(chunks), Owners(chunks), |chunks|, 0);
    RepackedFlat(chunks, Dealt(order, redactions, Flat(chunks), Owners(chunks), |chunks|, 0));
  }

  /** However a text is cut into chunks, and however ties between keys are broken, what
      the chunks say joined is the redaction of the text. */
  lemma ChunkingIrrelevant(chunks: seq<Chunk>, redactions: Redactions, order: seq<Bytes>)
    requires KeyOrder(order, redactions) && KeysOf(order, redactions)
    ensures Flat(Repacked(chunks, Dealt(order, redactions, Flat(chunks), Owners(chunks), |chunks|, 0)))
         == Redacted(redactions, Flat(chunks))
  {
    hide Repacked, Dealt, Redact, KeyOrder, KeysOf;
    RepackedRedacts(chunks, redactions, order);
    RedactOrderIrrelevant(order, Order(redactions), redactions, Flat(chunks), 0);
  }

  // ---------- Secrets ----------

  const REDACTED: Bytes := [0x5B, 0x52, 0x45, 0x44, 0x41, 0x43, 0x54, 0x45, 0x44, 0x5D]

  /** The secrets without the white space around them, but for blank ones. */
  function Secrets(secrets: seq<Bytes>): set<Bytes> {
    set i | 0 <= i < |secrets| && !Blank(secrets[i]) :: Trim(secrets[i])
  }

  /** What a capture redacts: every secret becomes the mark, every other key what it was given to become. */
  function Merged(redactions: Redactions, secrets: seq<Bytes>): Redactions {
    map key | key in redactions.Keys + Secrets(secrets) :: if key in Secrets(secrets) then REDACTED else redactions[key]
  }

  lemma SecretsGrow(secrets: seq<Bytes>, n: nat)
    requires n < |secrets|
    ensures Secrets(secrets[..n + 1]) == Secrets(secrets[..n]) + if Blank(secrets[n]) then {} else {Trim(secrets[n])}
  {
    hide Blank, Trim;
    var grown, before := secrets[..n + 1], secrets[..n];
    assert forall i | 0 <= i < n :: grown[i] == before[i];
    forall key
      ensures key in Secrets(grown) <==> key in Secrets(before) || (!Blank(secrets[n]) && key == Trim(secrets[n]))
    {
      if key in Secrets(before) {
        var i :| 0 <= i < n && !Blank(before[i]) && Trim(before[i]) == key;
        assert grown[i] == before[i];
      }
      if !Blank(secrets[n]) && key == Trim(secrets[n]) {
        assert grown[n] == secrets[n];
      }
    }
  }

  method CaptureRedactions(redactions: Redactions, secrets: seq<Bytes>) returns (result: Redactions)
    ensures result == Merged(redactions, secrets)
  {
    hide Trim, Secrets;
    result := redactions;
    assert Secrets(secrets[..0]) == {} by {
      NoSecrets(secrets);
    }
    for n := 0 to |secrets|
      invariant result == Merged(redactions, secrets[..n])
    {
      var secret := Trim(secrets[n]);
      SecretsGrow(secrets, n);
      if secret != [] {
        result := result[secret := REDACTED];
      }
    }
    assert secrets[..|secrets|] == secrets;
  }

  lemma NoSecrets(secrets: seq<Bytes>)
    ensures Secrets(secrets[..0]) == {}
  {
  }

  /** Every secret is a key that the scan looks for. */
  lemma SecretIsKey(redactions: Redactions, secrets: seq<Bytes>, i: nat)
    requires i < |secrets| && !Blank(secrets[i])
    ensures var all := Merged(redactions, secrets); var key := Trim(secrets[i]);
            key in all && all[key] == REDACTED && !Blank(key)
  {
    TrimTwice(secrets[i]);
    assert Trim(secrets[i]) in Secrets(secrets);
  }
}

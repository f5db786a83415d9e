/** The capture hub: every subscriber keeps a bounded prefix of the bytes
    written since it subscribed, cut into numbered chunks; completing a capture
    stores the redaction of that prefix. */
module LoadCapture {
  import opened Basics
  import opened Redaction

  const MAX_CHUNK_BYTES := 262144

  datatype Subscription = Subscription(limit: nat, chunks: seq<Chunk>, captured: nat, truncated: bool)

  function Prefix(text: Bytes, limit: nat): Bytes {
    if |text| <= limit then text else text[..limit]
  }

  predicate Numbered(chunks: seq<Chunk>, last: int) {
    && (forall i, j | 0 <= i < j < |chunks| :: chunks[i].sequence < chunks[j].sequence)
    && (forall i | 0 <= i < |chunks| :: chunks[i].sequence <= last && 0 < |chunks[i].payload| <= MAX_CHUNK_BYTES)
  }

  /** The capture holds exactly the first `limit` bytes of what was written. */
  predicate Captures(s: Subscription, text: Bytes, last: int) {
    && s.limit > 0
    && Flat(s.chunks) == Prefix(text, s.limit)
    && s.captured == |Prefix(text, s.limit)|
    && s.truncated == (|text| > s.limit)
    && Numbered(s.chunks, last)
  }

  function Recorded(s: Subscription, chunk: Chunk): Subscription {
    var remaining := s.limit - s.captured;
    if remaining <= 0 then s.(truncated := true)
    else if |chunk.payload| > remaining then
      s.(chunks := s.chunks + [chunk.(payload := chunk.payload[..remaining])], captured := s.limit, truncated := true)
    else s.(chunks := s.chunks + [chunk], captured := s.captured + |chunk.payload|)
  }

  lemma RecordedCaptures(s: Subscription, text: Bytes, last: int, chunk: Chunk)
    requires Captures(s, text, last) && last < chunk.sequence && 0 < |chunk.payload| <= MAX_CHUNK_BYTES
    ensures Captures(Recorded(s, chunk), text + chunk.payload, chunk.sequence)
  {
    var r := Recorded(s, chunk);
    var remaining := s.limit - s.captured;
    if remaining > 0 {
      assert Prefix(text, s.limit) == text;
      var kept := if |chunk.payload| > remaining then chunk.payload[..remaining] else chunk.payload;
      var added := chunk.(payload := kept);
      FlatAppend(s.chunks, [added]);
      assert Flat([added]) == kept by { assert [added][1..] == []; }
      assert Prefix(text + chunk.payload, s.limit) == text + kept;
    } else {
      assert Prefix(text + chunk.payload, s.limit) == Prefix(text, s.limit);
    }
  }

  class Hub {
    var sequence: int
    var subscribers: map<nat, Subscription>
    /** What was written since each subscriber joined. */
    ghost var written: map<nat, Bytes>

    ghost predicate Valid()
      reads this
    {
      AllCapture(subscribers, written, sequence)
    }

    constructor ()
      ensures Valid() && subscribers == map[]
    {
      sequence, subscribers, written := 0, map[], map[];
    }

    method Subscribe(limit: int, id: nat)
      requires Valid() && id !in subscribers
      modifies this
      ensures Valid()
      ensures subscribers == old(subscribers)[id := Subscription(if limit < 1 then 1 else limit, [], 0, false)]
      ensures written == old(written)[id := []]
    {
      subscribers := subscribers[id := Subscription(if limit < 1 then 1 else limit, [], 0, false)];
      written := written[id := []];
    }

    /** The first call of the function `Subscribe` returns: stops the capture and hands it over. */
    method Stop(id: nat) returns (capture: Subscription, ghost text: Bytes)
      requires Valid() && id in subscribers
      modifies this`subscribers, this`written
      ensures Valid()
      ensures subscribers == old(subscribers) - {id} && written == old(written) - {id}
      ensures capture == old(subscribers)[id] && text == old(written)[id] && Captures(capture, text, sequence)
    {
      capture := subscribers[id];
      text := written[id];
      subscribers := subscribers - {id};
      written := written - {id};
    }

    method Record(stream: string, payload: Bytes, offset: int)
      requires Valid()
      modifies this
      ensures Valid()
      ensures Wrote(old(subscribers), old(written), subscribers, written, payload)
    {
      if subscribers == map[] {
        assert written == map[];
        return;
      }
      var start := 0;
      while start < |payload|
        invariant Valid() && 0 <= start
        invariant Wrote(old(subscribers), old(written), subscribers, written, Prefix(payload, start))
        decreases |payload| - start
      {
        var end := if start + MAX_CHUNK_BYTES < |payload| then start + MAX_CHUNK_BYTES else |payload|;
        PrefixGrows(payload, start);
        ghost var s, w := subscribers, written;
        RecordChunk(Chunk(sequence + 1, stream, offset, payload[start..end]));
        WroteMore(old(subscribers), old(written), s, w, subscribers, written, Prefix(payload, start), payload[start..end]);
        start := start + MAX_CHUNK_BYTES;
      }
      assert Prefix(payload, start) == payload;
    }

    /** One chunk, to every subscriber. */
    method RecordChunk(chunk: Chunk)
      requires Valid() && chunk.sequence == sequence + 1 && 0 < |chunk.payload| <= MAX_CHUNK_BYTES
      modifies this
      ensures Valid() && sequence == old(sequence) + 1
      ensures subscribers == RecordedBy(old(subscribers), chunk)
      ensures Wrote(old(subscribers), old(written), subscribers, written, chunk.payload)
    {
      hide Captures, Recorded, Wrote;
      RecordedAllCapture(subscribers, written, sequence, chunk);
      sequence := sequence + 1;
      subscribers := RecordAll(subscribers, chunk);
      written := WrittenTo(written, chunk.payload);
    }
  }

  /** From one state of the hub to another, every subscriber has been written `text`. */
  ghost predicate Wrote(s: map<nat, Subscription>, w: map<nat, Bytes>, s': map<nat, Subscription>, w': map<nat, Bytes>, text: Bytes) {
    && s.Keys == w.Keys == s'.Keys == w'.Keys
    && forall id | id in s' :: s'[id].limit == s[id].limit && w'[id] == w[id] + text
  }

  lemma WroteMore(s0: map<nat, Subscription>, w0: map<nat, Bytes>, s1: map<nat, Subscription>, w1: map<nat, Bytes>,
                  s2: map<nat, Subscription>, w2: map<nat, Bytes>, text: Bytes, chunk: Bytes)
    requires Wrote(s0, w0, s1, w1, text) && Wrote(s1, w1, s2, w2, chunk)
    ensures Wrote(s0, w0, s2, w2, text + chunk)
  {
  }

  lemma PrefixGrows(payload: Bytes, start: nat)
    requires start < |payload|
    ensures var end := if start + MAX_CHUNK_BYTES < |payload| then start + MAX_CHUNK_BYTES else |payload|;
            Prefix(payload, start + MAX_CHUNK_BYTES) == Prefix(payload, start) + payload[start..end]
  {
  }

  function RecordedBy(subscribers: map<nat, Subscription>, chunk: Chunk): map<nat, Subscription> {
    map id | id in subscribers :: Recorded(subscribers[id], chunk)
  }

  ghost function WrittenTo(written: map<nat, Bytes>, payload: Bytes): map<nat, Bytes> {
    map id | id in written :: written[id] + payload
  }

  method RecordAll(subscribers: map<nat, Subscription>, chunk: Chunk) returns (updated: map<nat, Subscription>)
    ensures updated == RecordedBy(subscribers, chunk)
  {
    updated := subscribers;
    var left := updated.Keys;
    while left != {}
      invariant left <= updated.Keys == subscribers.Keys
      invariant forall id | id in left :: updated[id] == subscribers[id]
      invariant forall id | id in updated.Keys - left :: updated[id] == Recorded(subscribers[id], chunk)
      decreases left
    {
      var id :| id in left;
      var recorded := RecordOne(updated[id], chunk);
      updated := updated[id := recorded];
      left := left - {id};
    }
  }

  ghost predicate AllCapture(subscribers: map<nat, Subscription>, written: map<nat, Bytes>, last: int) {
    && written.Keys == subscribers.Keys
    && forall id | id in subscribers :: Captures(subscribers[id], written[id], last)
  }

  lemma RecordedAllCapture(s: map<nat, Subscription>, w: map<nat, Bytes>, last: int, chunk: Chunk)
    requires AllCapture(s, w, last) && last < chunk.sequence && 0 < |chunk.payload| <= MAX_CHUNK_BYTES
    ensures AllCapture(RecordedBy(s, chunk), WrittenTo(w, chunk.payload), chunk.sequence)
    ensures Wrote(s, w, RecordedBy(s, chunk), WrittenTo(w, chunk.payload), chunk.payload)
  {
    forall id | id in s
      ensures Captures(Recorded(s[id], chunk), w[id] + chunk.payload, chunk.sequence)
      ensures Recorded(s[id], chunk).limit == s[id].limit
    {
      RecordedCaptures(s[id], w[id], last, chunk);
    }
  }

  method RecordOne(s: Subscription, chunk: Chunk) returns (r: Subscription)
    ensures r == Recorded(s, chunk)
  {
    var remaining := s.limit - s.captured;
    if remaining <= 0 {
      return s.(truncated := true);
    }
    r := s;
    var captured := chunk.payload;
    if |captured| > remaining {
      captured := captured[..remaining];
      r := r.(truncated := true);
    }
    r := r.(chunks := r.chunks + [chunk.(payload := captured)], captured := r.captured + |captured|);
  }

  /** A captured chunk, but for its payload. */
  ghost predicate From(chunk: Chunk, chunks: seq<Chunk>) {
    exists j :: 0 <= j < |chunks| && chunk == chunks[j].(payload := chunk.payload)
  }

  /** Completing a load: the captured chunks, redacted, as they are stored. Each
      keeps its place, and each piece of output is in the chunk its text started in. */
  method CompletePhysical(capture: Subscription, ghost text: Bytes, ghost last: int, redactions: Redactions, secrets: seq<Bytes>)
    returns (stored: seq<Chunk>)
    requires Captures(capture, text, last)
    ensures Flat(stored) == Redacted(Merged(redactions, secrets), Prefix(text, capture.limit))
    ensures stored == Sanitized(capture.chunks, Merged(redactions, secrets))
    ensures InOrder(stored, capture.chunks)
  {
    hide Merged, InOrder;
    var merged := CaptureRedactions(redactions, secrets);
    stored := SanitizeChunks(capture.chunks, merged);
    SanitizedInOrder(capture.chunks, merged);
  }

  /** Each chunk stored is one that was captured, but for its payload, in sequence order. */
  ghost predicate InOrder(stored: seq<Chunk>, chunks: seq<Chunk>) {
    && (forall i | 0 <= i < |stored| :: From(stored[i], chunks))
    && (forall i, j | 0 <= i < j < |stored| :: stored[i].sequence < stored[j].sequence)
  }

  lemma SanitizedInOrder(chunks: seq<Chunk>, redactions: Redactions)
    requires forall i, j | 0 <= i < j < |chunks| :: chunks[i].sequence < chunks[j].sequence
    ensures InOrder(Sanitized(chunks, redactions), chunks)
  {
    hide Dealt, Repacked, Owners, InOrder;
    RepackedInOrder(chunks, Dealt(Order(redactions), redactions, Flat(chunks), Owners(chunks), |chunks|, 0));
  }

  lemma {:induction false} RepackedFrom(chunks: seq<Chunk>, payloads: seq<Bytes>, i: nat) returns (j: nat)
    requires |chunks| == |payloads| && i < |Repacked(chunks, payloads)|
    ensures j < |chunks| && Repacked(chunks, payloads)[i] == chunks[j].(payload := Repacked(chunks, payloads)[i].payload)
    decreases |chunks|
  {
    var r, rest := Repacked(chunks, payloads), Repacked(chunks[1..], payloads[1..]);
    if payloads[0] != [] && i == 0 {
      j := 0;
    } else {
      j := RepackedFrom(chunks[1..], payloads[1..], if payloads[0] == [] then i else i - 1);
      j := j + 1;
    }
  }

  lemma {:induction false} RepackedInOrder(chunks: seq<Chunk>, payloads: seq<Bytes>)
    requires |chunks| == |payloads|
    requires forall i, j | 0 <= i < j < |chunks| :: chunks[i].sequence < chunks[j].sequence
    ensures InOrder(Repacked(chunks, payloads), chunks)
    decreases |chunks|
  {
    var r := Repacked(chunks, payloads);
    forall i | 0 <= i < |r|
      ensures From(r[i], chunks)
    {
      var j := RepackedFrom(chunks, payloads, i);
    }
    if chunks != [] {
      RepackedInOrder(chunks[1..], payloads[1..]);
      var rest := Repacked(chunks[1..], payloads[1..]);
      forall i | 0 <= i < |rest|
        ensures rest[i].sequence > chunks[0].sequence
      {
        var j := RepackedFrom(chunks[1..], payloads[1..], i);
      }
    }
  }

  /** No occurrence of a redacted key or of a secret in the captured bytes survives
      untouched in what is stored. */
  lemma StoredHidesKeys(redactions: Redactions, secrets: seq<Bytes>, text: Bytes, key: Bytes, p: nat)
    requires (key in redactions && !Blank(key)) || exists i :: 0 <= i < |secrets| && !Blank(secrets[i]) && key == Trim(secrets[i])
    requires OccursAt(key, text, p)
    ensures var all := Merged(redactions, secrets);
            var spans := Spans(Order(all), text, 0);
            SpansFit(spans, all, text, 0) && Redacted(all, text) == Splice(spans, all, text, 0) && Overlapped(spans, p, p + |key|)
  {
    hide Trim, Blank, Splice, Overlapped, SpansFit;
    var all := Merged(redactions, secrets);
    if i: nat :| i < |secrets| && !Blank(secrets[i]) && key == Trim(secrets[i]) {
      SecretIsKey(redactions, secrets, i);
    }
    assert key in Order(all);
    RedactIsSplice(Order(all), all, text, 0);
    OccurrencesOverlapSpans(Order(all), text, 0, key, p);
  }

  datatype Write = Write(stream: string, payload: Bytes, offset: int)

  function Payloads(writes: seq<Write>): seq<Bytes> {
    seq(|writes|, i requires 0 <= i < |writes| => writes[i].payload)
  }

  lemma PayloadsGrow(writes: seq<Write>, i: nat)
    requires i < |writes|
    ensures Join(Payloads(writes[..i + 1])) == Join(Payloads(writes[..i])) + writes[i].payload
  {
    assert Payloads(writes[..i + 1]) == Payloads(writes[..i]) + [writes[i].payload];
    JoinAppend(Payloads(writes[..i]), [writes[i].payload]);
    JoinOne(writes[i].payload);
  }

  /** Every write reaches every subscriber. */
  method WriteAll(hub: Hub, writes: seq<Write>)
    requires hub.Valid()
    modifies hub
    ensures hub.Valid()
    ensures Wrote(old(hub.subscribers), old(hub.written), hub.subscribers, hub.written, Join(Payloads(writes)))
  {
    for i := 0 to |writes|
      invariant hub.Valid()
      invariant Wrote(old(hub.subscribers), old(hub.written), hub.subscribers, hub.written, Join(Payloads(writes[..i])))
    {
      ghost var s, w := hub.subscribers, hub.written;
      hub.Record(writes[i].stream, writes[i].payload, writes[i].offset);
      WroteMore(old(hub.subscribers), old(hub.written), s, w, hub.subscribers, hub.written,
                Join(Payloads(writes[..i])), writes[i].payload);
      PayloadsGrow(writes, i);
    }
    assert writes[..|writes|] == writes;
  }

  /** A whole capture, from subscribing to storing: whatever else the hub serves
      and however the output was written, what is stored is the redaction of
      its first bytes. */
  method CaptureWrites(hub: Hub, id: nat, limit: int, writes: seq<Write>, redactions: Redactions, secrets: seq<Bytes>)
    returns (stored: seq<Chunk>)
    requires hub.Valid() && id !in hub.subscribers
    modifies hub
    ensures hub.Valid() && id !in hub.subscribers
    ensures Flat(stored) == Redacted(Merged(redactions, secrets),
                                     Prefix(Join(Payloads(writes)), if limit < 1 then 1 else limit))
    ensures forall i, j | 0 <= i < j < |stored| :: stored[i].sequence < stored[j].sequence
  {
    hub.Subscribe(limit, id);
    ghost var s, w := hub.subscribers, hub.written;
    WriteAll(hub, writes);
    ghost var last := hub.sequence;
    var capture, text := hub.Stop(id);
    assert text == w[id] + Join(Payloads(writes)) == Join(Payloads(writes));
    stored := CompletePhysical(capture, text, last, redactions, secrets);
  }
}

/** The streaming digest of an embedding response: a byte-at-a-time machine
    that copies the response, drops the contents of its vector arrays and
    counts the vectors. */
module EmbeddingDigest {
  import opened Basics
  import opened JsonText

  const DIGEST_LIMIT := 65536

  datatype Counting = EachElement | WholeArray

  const VECTOR_KEYS: map<Bytes, Counting> :=
    map[Ascii("data") := EachElement, Ascii("embeddings") := EachElement, Ascii("embedding") := WholeArray]

  // ---------- What the digest is for, on syntax trees ----------

  predicate IsVectorArray(m: Member) {
    PrintUnits(m.key) in VECTOR_KEYS && (m.value.Array? || m.value.EmptyArray?)
  }

  function ElideMember(m: Member): Member {
    if IsVectorArray(m) then m.(value := EmptyArray([])) else m
  }

  function ElideMembers(members: Members): Members {
    match members
    case LastMember(m) => LastMember(ElideMember(m))
    case MoreMembers(m, rest) => MoreMembers(ElideMember(m), ElideMembers(rest))
  }

  /** The document with every top-level vector array emptied. */
  function ElideVectors(doc: Document): Document {
    if doc.value.Object? then doc.(value := Object(ElideMembers(doc.value.members))) else doc
  }

  function CountItems(items: Items): nat {
    if items.LastItem? then 1 else 1 + CountItems(items.rest)
  }

  function MemberVectors(m: Member): nat {
    if !IsVectorArray(m) then 0
    else if VECTOR_KEYS[PrintUnits(m.key)] == WholeArray then 1
    else if m.value.Array? then CountItems(m.value.items)
    else 0
  }

  function MembersVectors(members: Members): nat {
    match members
    case LastMember(m) => MemberVectors(m)
    case MoreMembers(m, rest) => MemberVectors(m) + MembersVectors(rest)
  }

  function VectorCount(doc: Document): nat {
    if doc.value.Object? then MembersVectors(doc.value.members) else 0
  }

  // ---------- The machine, with an unbounded output ----------

  datatype Machine = Machine(
    kept: Bytes, vectors: nat, depth: int,
    inString: bool, escaped: bool, expectingKey: bool, capturingKey: bool, key: Bytes,
    elidedDepth: int, awaiting: bool, counting: Counting)
  {
    predicate Eliding() { elidedDepth > 0 }

    predicate AtElidedLevel() { Eliding() && depth == elidedDepth }

    /** Between tokens. */
    predicate Between() { !inString && !escaped && !capturingKey }
  }

  const START := Machine([], 0, 0, false, false, false, false, [], 0, false, EachElement)

  function Kept(m: Machine, b: byte): Machine {
    if m.Eliding() then m else m.(kept := m.kept + [b])
  }

  function ElementStarted(m: Machine, b: byte): Machine {
    if IsSpace(b) || b == CLOSE_BRACKET then m
    else if b == COMMA then m.(awaiting := true)
    else Started(m)
  }

  function Started(m: Machine): Machine {
    m.(vectors := if m.awaiting && m.counting == EachElement then m.vectors + 1 else m.vectors, awaiting := false)
  }

  function Opened(m: Machine, b: byte): Machine {
    var starts := b == OPEN_BRACKET && m.depth == 1 && !m.expectingKey && m.key in VECTOR_KEYS && !m.Eliding();
    var kept := Kept(m, b);
    var deeper := kept.(depth := m.depth + 1, expectingKey := m.expectingKey || (b == OPEN_BRACE && m.depth == 0));
    if !starts then deeper
    else
      var counting := VECTOR_KEYS[m.key];
      deeper.(elidedDepth := deeper.depth, counting := counting, awaiting := true,
              vectors := if counting == WholeArray then m.vectors + 1 else m.vectors)
  }

  function Closed(m: Machine, b: byte): Machine {
    var ended := if m.AtElidedLevel() then m.(elidedDepth := 0) else m;
    Kept(ended.(depth := m.depth - 1), b)
  }

  function StringConsumed(m: Machine, b: byte): Machine {
    var k := Kept(m, b);
    if !m.escaped && b == QUOTE then k.(inString := false, capturingKey := false)
    else
      k.(escaped := !m.escaped && b == BACKSLASH, key := if m.capturingKey then m.key + [b] else m.key)
  }

  function Consumed(m: Machine, b: byte): Machine {
    if m.inString then StringConsumed(m, b)
    else TokenConsumed(if m.AtElidedLevel() then ElementStarted(m, b) else m, b)
  }

  function TokenConsumed(c: Machine, b: byte): Machine {
    if b == QUOTE then Kept(c.(inString := true, capturingKey := c.depth == 1 && c.expectingKey, key := []), b)
    else if b == OPEN_BRACE || b == OPEN_BRACKET then Opened(c, b)
    else if b == CLOSE_BRACE || b == CLOSE_BRACKET then Closed(c, b)
    else if b == COLON then Kept(c.(expectingKey := c.expectingKey && c.depth != 1), b)
    else if b == COMMA then Kept(c.(expectingKey := c.expectingKey || c.depth == 1), b)
    else Kept(c, b)
  }

  function Run(m: Machine, input: Bytes): Machine
    decreases |input|
  {
    if input == [] then m else Run(Consumed(m, input[0]), input[1..])
  }

  function Bounded(text: Bytes): Bytes {
    if |text| <= DIGEST_LIMIT then text else text[..DIGEST_LIMIT]
  }

  // ---------- The digest object ----------

  class Digest {
    var digest: Bytes
    var overflowed: bool
    var vectors: nat
    var depth: int
    var inString: bool
    var escaped: bool
    var expectingKey: bool
    var capturingKey: bool
    var key: Bytes
    var elidedArrayDepth: int
    var awaitingElement: bool
    var elidedArrayCounts: Counting
    /** Everything kept so far, were there no limit. */
    ghost var kept: Bytes

    ghost predicate Valid()
      reads this
    {
      && digest == Bounded(kept)
      && overflowed == (|kept| > DIGEST_LIMIT)
    }

    ghost function State(): Machine
      reads this
    {
      Machine(kept, vectors, depth, inString, escaped, expectingKey, capturingKey, key,
              elidedArrayDepth, awaitingElement, elidedArrayCounts)
    }

    constructor ()
      ensures Valid() && State() == START
    {
      digest, overflowed, vectors, depth := [], false, 0, 0;
      inString, escaped, expectingKey, capturingKey, key := false, false, false, false, [];
      elidedArrayDepth, awaitingElement, elidedArrayCounts := 0, false, EachElement;
      kept := [];
    }

    method Write(chunk: Bytes)
      requires Valid()
      modifies this
      ensures Valid() && State() == Run(old(State()), chunk)
    {
      for i := 0 to |chunk|
        invariant Valid() && State() == Run(old(State()), chunk[..i])
      {
        RunAppend(old(State()), chunk[..i], [chunk[i]]);
        assert chunk[..i + 1] == chunk[..i] + [chunk[i]];
        ConsumeByte(chunk[i]);
      }
      assert chunk[..|chunk|] == chunk;
    }

    method ConsumeByte(value: byte)
      requires Valid()
      modifies this
      ensures Valid() && State() == Consumed(old(State()), value)
    {
      if inString {
        ConsumeStringByte(value);
        return;
      }
      if elidedArrayDepth > 0 && depth == elidedArrayDepth {
        CountElementStart(value);
      }
      ConsumeToken(value);
    }

    method ConsumeToken(value: byte)
      requires Valid()
      modifies this
      ensures Valid() && State() == TokenConsumed(old(State()), value)
    {
      if value == QUOTE {
        inString := true;
        capturingKey := depth == 1 && expectingKey;
        key := [];
      } else if value == OPEN_BRACE || value == OPEN_BRACKET {
        Open(value);
        return;
      } else if value == CLOSE_BRACE || value == CLOSE_BRACKET {
        Close(value);
        return;
      } else if value == COLON {
        if depth == 1 {
          expectingKey := false;
        }
      } else if value == COMMA {
        if depth == 1 {
          expectingKey := true;
        }
      }
      Keep(value);
    }

    method ConsumeStringByte(value: byte)
      requires Valid()
      modifies this
      ensures Valid() && State() == StringConsumed(old(State()), value)
    {
      Keep(value);
      if escaped {
        escaped := false;
      } else if value == BACKSLASH {
        escaped := true;
      } else if value == QUOTE {
        inString := false;
        capturingKey := false;
        return;
      }
      if capturingKey {
        key := key + [value];
      }
    }

    method CountElementStart(value: byte)
      requires Valid()
      modifies this
      ensures Valid() && State() == ElementStarted(old(State()), value)
    {
      if IsSpace(value) || value == CLOSE_BRACKET {
        return;
      }
      if value == COMMA {
        awaitingElement := true;
        return;
      }
      if awaitingElement && elidedArrayCounts == EachElement {
        vectors := vectors + 1;
      }
      awaitingElement := false;
    }

    method Open(value: byte)
      requires Valid()
      modifies this
      ensures Valid() && State() == Opened(old(State()), value)
    {
      hide Bounded;
      var isVectorArray := key in VECTOR_KEYS;
      var startsVectorArray := value == OPEN_BRACKET && depth == 1 && !expectingKey && isVectorArray && elidedArrayDepth <= 0;
      Keep(value);
      depth := depth + 1;
      if value == OPEN_BRACE && depth == 1 {
        expectingKey := true;
      }
      if startsVectorArray {
        EnterVectorArray(VECTOR_KEYS[key]);
      }
    }

    /** From here to the matching bracket nothing is kept. */
    method EnterVectorArray(counting: Counting)
      modifies this`elidedArrayDepth, this`elidedArrayCounts, this`awaitingElement, this`vectors
      ensures State() == old(State()).(elidedDepth := depth, counting := counting, awaiting := true,
                                       vectors := if counting == WholeArray then old(vectors) + 1 else old(vectors))
    {
      elidedArrayDepth := depth;
      elidedArrayCounts := counting;
      awaitingElement := true;
      if elidedArrayCounts == WholeArray {
        vectors := vectors + 1;
      }
    }

    method Close(value: byte)
      requires Valid()
      modifies this
      ensures Valid() && State() == Closed(old(State()), value)
    {
      if elidedArrayDepth > 0 && depth == elidedArrayDepth {
        elidedArrayDepth := 0;
      }
      depth := depth - 1;
      Keep(value);
    }

    method Keep(value: byte)
      requires Valid()
      modifies this`digest, this`overflowed, this`kept
      ensures Valid() && State() == Kept(old(State()), value)
    {
      if elidedArrayDepth > 0 {
        return;
      }
      kept := kept + [value];
      if overflowed {
        return;
      }
      if |digest| >= DIGEST_LIMIT {
        overflowed := true;
        return;
      }
      digest := digest + [value];
    }
  }

  // ---------- The simulation ----------

  lemma {:induction false} RunAppend(m: Machine, a: Bytes, b: Bytes)
    ensures Run(m, a + b) == Run(Run(m, a), b)
    decreases |a|
  {
    if a == [] {
      assert a + b == b;
    } else {
      assert (a + b)[0] == a[0] && (a + b)[1..] == a[1..] + b;
      RunAppend(Consumed(m, a[0]), a[1..], b);
    }
  }

  lemma RunOne(m: Machine, b: byte)
    ensures Run(m, [b]) == Consumed(m, b)
  {
  }

  function Copy(m: Machine, text: Bytes): Machine {
    if m.Eliding() then m else m.(kept := m.kept + text)
  }

  /** Equal but for the scratch field `key`. */
  predicate Same(a: Machine, b: Machine) {
    a == b.(key := a.key)
  }

  lemma CopyAppend(m: Machine, a: Bytes, b: Bytes)
    ensures Copy(Copy(m, a), b) == Copy(m, a + b)
  {
  }

  lemma {:induction false} RunInert(m: Machine, w: Bytes)
    requires m.Between() && !m.AtElidedLevel()
    requires forall i | 0 <= i < |w| :: IsInert(w[i])
    ensures Run(m, w) == Copy(m, w)
    decreases |w|
  {
    if w == [] {
      assert m.kept + w == m.kept;
    } else {
      RunInert(Kept(m, w[0]), w[1..]);
      CopyAppend(m, [w[0]], w[1..]);
      assert [w[0]] + w[1..] == w;
    }
  }

  lemma {:induction false} RunElidedSpace(m: Machine, w: Space)
    requires m.Between() && m.AtElidedLevel()
    ensures Run(m, w) == m
    decreases |w|
  {
    if w != [] {
      assert IsSpace(w[0]);
      RunElidedSpace(m, w[1..]);
    }
  }

  lemma {:induction false} RunElidedScalar(m: Machine, t: Bytes)
    requires m.Between() && m.AtElidedLevel()
    requires forall i | 0 <= i < |t| :: IsInert(t[i]) && !IsSpace(t[i])
    ensures |t| > 0 ==> Run(m, t) == Started(m)
    decreases |t|
  {
    if t != [] {
      RunElidedScalar(Started(m), t[1..]);
    }
  }

  lemma {:induction false} RunUnits(m: Machine, units: seq<Unit>)
    requires m.inString && !m.escaped
    ensures var text := PrintUnits(units);
            Run(m, text) == Copy(m, text).(key := if m.capturingKey then m.key + text else m.key)
    decreases |units|
  {
    if units == [] {
      assert m.kept + [] == m.kept && m.key + [] == m.key;
    } else {
      var head := match units[0] case Plain(b) => [b] case Escape(b) => [BACKSLASH, b];
      var next := Copy(m, head).(key := if m.capturingKey then m.key + head else m.key);
      assert Run(m, head) == next by {
        match units[0]
        case Plain(b) => RunOne(m, b);
        case Escape(b) =>
          var mid := Consumed(m, BACKSLASH);
          assert head[1..] == [b];
          RunOne(mid, b);
          assert (m.kept + [BACKSLASH]) + [b] == m.kept + head;
          assert (m.key + [BACKSLASH]) + [b] == m.key + head;
      }
      RunAppend(m, head, PrintUnits(units[1..]));
      RunUnits(next, units[1..]);
      CopyAppend(m, head, PrintUnits(units[1..]));
      assert m.key + head + PrintUnits(units[1..]) == m.key + (head + PrintUnits(units[1..]));
    }
  }

  lemma RunThree(m: Machine, a: Bytes, b: Bytes, c: Bytes)
    ensures Run(m, a + b + c) == Run(Run(Run(m, a), b), c)
  {
    RunAppend(m, a, b);
    RunAppend(m, a + b, c);
  }

  lemma CopyThree(m: Machine, a: Bytes, b: Bytes, c: Bytes)
    ensures Copy(Copy(Copy(m, a), b), c) == Copy(m, a + b + c)
  {
    hide Copy;
    CopyAppend(m, a, b);
    CopyAppend(m, a + b, c);
  }

  /** The machine inside a string it has just entered. */
  function InString(m: Machine): Machine {
    var c := if m.AtElidedLevel() then Started(m) else m;
    Copy(c, [QUOTE]).(inString := true, capturingKey := m.depth == 1 && m.expectingKey, key := [])
  }

  lemma RunString(m: Machine, units: seq<Unit>)
    requires m.Between()
    ensures var c := if m.AtElidedLevel() then Started(m) else m;
            Run(m, PrintString(units))
            == Copy(c, PrintString(units)).(key := if m.depth == 1 && m.expectingKey then PrintUnits(units) else [])
  {
    var c := if m.AtElidedLevel() then Started(m) else m;
    var body := PrintUnits(units);
    var entered := InString(m);
    assert Run(m, [QUOTE]) == entered by {
      RunOne(m, QUOTE);
    }
    var inside := Copy(entered, body).(key := if entered.capturingKey then [] + body else []);
    assert Run(entered, body) == inside by {
      RunUnits(entered, units);
    }
    assert Run(inside, [QUOTE]) == Copy(inside, [QUOTE]).(inString := false, capturingKey := false) by {
      RunOne(inside, QUOTE);
    }
    RunThree(m, [QUOTE], body, [QUOTE]);
    CopyThree(c, [QUOTE], body, [QUOTE]);
    assert [] + body == body;
  }

  /** A value copied whole: at depth 1 it must not open a vector array. */
  ghost predicate Copied(m: Machine, v: Value) {
    && m.Between() && m.depth >= 1 && !m.AtElidedLevel()
    && (m.depth == 1 && (v.Array? || v.EmptyArray?) && !m.Eliding() ==> m.expectingKey || m.key !in VECTOR_KEYS)
  }

  lemma {:induction false} RunCopiedValue(m: Machine, v: Value)
    requires Copied(m, v) && (m.Eliding() ==> m.depth > m.elidedDepth)
    ensures Same(Run(m, Print(v)), Copy(m, Print(v)))
    decreases v, 1
  {
    match v
    case Scalar(text) => RunInert(m, text);
    case Text(units) => RunString(m, units);
    case EmptyArray(pad) => RunBracketed(m, OPEN_BRACKET, pad, CLOSE_BRACKET) by {
      RunInert(Consumed(m, OPEN_BRACKET), pad);
    }
    case EmptyObject(pad) => RunBracketed(m, OPEN_BRACE, pad, CLOSE_BRACE) by {
      RunInert(Consumed(m, OPEN_BRACE), pad);
    }
    case Array(items) => RunBracketed(m, OPEN_BRACKET, PrintItems(items), CLOSE_BRACKET) by {
      RunCopiedItems(Consumed(m, OPEN_BRACKET), items);
    }
    case Object(members) => RunBracketed(m, OPEN_BRACE, PrintMembers(members), CLOSE_BRACE) by {
      RunCopiedMembers(Consumed(m, OPEN_BRACE), members);
    }
  }

  ghost predicate Bracket(m: Machine, open: byte, close: byte) {
    || (open == OPEN_BRACE && close == CLOSE_BRACE)
    || (open == OPEN_BRACKET && close == CLOSE_BRACKET
        && (m.depth == 1 && !m.Eliding() ==> m.expectingKey || m.key !in VECTOR_KEYS))
  }

  lemma OpenCopied(m: Machine, open: byte, close: byte)
    requires m.Between() && m.depth >= 1 && !m.AtElidedLevel() && Bracket(m, open, close)
    ensures Consumed(m, open) == Copy(m, [open]).(depth := m.depth + 1)
  {
  }

  lemma CloseCopied(m: Machine, close: byte)
    requires m.Between() && !m.AtElidedLevel() && (close == CLOSE_BRACE || close == CLOSE_BRACKET)
    ensures Consumed(m, close) == Copy(m, [close]).(depth := m.depth - 1)
  {
  }

  lemma RunBracketed(m: Machine, open: byte, inner: Bytes, close: byte)
    requires m.Between() && m.depth >= 1 && !m.AtElidedLevel() && (m.Eliding() ==> m.depth > m.elidedDepth)
    requires Bracket(m, open, close)
    requires Same(Run(Consumed(m, open), inner), Copy(Consumed(m, open), inner))
    ensures Same(Run(m, [open] + inner + [close]), Copy(m, [open] + inner + [close]))
  {
    OpenCopied(m, open, close);
    var after := Run(Consumed(m, open), inner);
    CloseCopied(after, close);
    RunOne(m, open);
    RunOne(after, close);
    RunThree(m, [open], inner, [close]);
    CopyThree(m, [open], inner, [close]);
  }

  /** White space, a copied value, white space. */
  lemma {:induction false} RunPadded(m: Machine, before: Space, v: Value, after: Space)
    requires Copied(m, v) && (m.Eliding() ==> m.depth > m.elidedDepth)
    ensures Same(Run(m, before + Print(v) + after), Copy(m, before + Print(v) + after))
    decreases v, 2
  {
    RunAppend(m, before, Print(v));
    RunAppend(m, before + Print(v), after);
    RunInert(m, before);
    RunCopiedValue(Copy(m, before), v);
    RunInert(Run(m, before + Print(v)), after);
    CopyAppend(m, before, Print(v));
    CopyAppend(m, before + Print(v), after);
  }

  lemma {:induction false} RunCopiedItems(m: Machine, items: Items)
    requires m.Between() && m.depth >= 2 && !m.AtElidedLevel() && (m.Eliding() ==> m.depth > m.elidedDepth)
    ensures Same(Run(m, PrintItems(items)), Copy(m, PrintItems(items)))
    decreases items
  {
    match items
    case LastItem(before, v, after) => RunPadded(m, before, v, after);
    case MoreItems(before, v, after, rest) =>
      var text := before + Print(v) + after;
      RunPadded(m, before, v, after);
      RunComma(m, text, PrintItems(rest));
      RunCopiedItems(Run(m, text + [COMMA]), rest);
  }

  /** Below the top level a comma is only copied. */
  lemma RunComma(m: Machine, text: Bytes, rest: Bytes)
    requires m.Between() && m.depth >= 2 && !m.AtElidedLevel()
    requires Same(Run(m, text), Copy(m, text))
    ensures Same(Run(m, text + [COMMA]), Copy(m, text + [COMMA]))
    ensures Run(m, text + [COMMA] + rest) == Run(Run(m, text + [COMMA]), rest)
    ensures Copy(Copy(m, text + [COMMA]), rest) == Copy(m, text + [COMMA] + rest)
  {
    RunAppend(m, text, [COMMA]);
    RunAppend(m, text + [COMMA], rest);
    RunOne(Run(m, text), COMMA);
    CopyAppend(m, text, [COMMA]);
    CopyAppend(m, text + [COMMA], rest);
  }

  lemma {:induction false} RunCopiedMember(m: Machine, member: Member)
    requires m.Between() && m.depth >= 2 && !m.AtElidedLevel() && (m.Eliding() ==> m.depth > m.elidedDepth)
    ensures Same(Run(m, PrintMember(member)), Copy(m, PrintMember(member)))
    decreases member
  {
    var m3 := RunKey(m, member);
    RunPadded(m3, member.beforeValue, member.value, member.after);
    MemberParts(m, member);
    CopyAppend(m, KeyPart(member), ValuePart(member));
  }

  function KeyPart(m: Member): Bytes {
    m.before + PrintString(m.key) + m.afterKey + [COLON]
  }

  function ValuePart(m: Member): Bytes {
    m.beforeValue + Print(m.value) + m.after
  }

  lemma MemberParts(m: Machine, member: Member)
    ensures PrintMember(member) == KeyPart(member) + ValuePart(member)
    ensures Run(m, PrintMember(member)) == Run(Run(m, KeyPart(member)), ValuePart(member))
  {
    assert PrintMember(member) == KeyPart(member) + ValuePart(member);
    RunAppend(m, KeyPart(member), ValuePart(member));
  }

  lemma ColonCopied(m: Machine)
    requires m.Between() && !m.AtElidedLevel()
    ensures Consumed(m, COLON) == Copy(m, [COLON]).(expectingKey := m.expectingKey && m.depth != 1)
  {
  }

  /** A member's key and colon; at depth 1 the key is captured. */
  lemma RunKey(m: Machine, member: Member) returns (after: Machine)
    requires m.Between() && m.depth >= 1 && !m.AtElidedLevel()
    ensures after == Run(m, KeyPart(member))
    ensures after == Copy(m, KeyPart(member)).(
              key := if m.depth == 1 && m.expectingKey then PrintUnits(member.key) else [],
              expectingKey := m.expectingKey && m.depth != 1)
  {
    hide Run, PrintString, PrintUnits, Consumed;
    var name := PrintString(member.key);
    var start := member.before + name + member.afterKey;
    RunThree(m, member.before, name, member.afterKey);
    RunInert(m, member.before);
    RunString(Copy(m, member.before), member.key);
    var named := Run(Copy(m, member.before), name);
    RunInert(named, member.afterKey);
    CopyThree(m, member.before, name, member.afterKey);
    var spaced := Run(m, start);
    ColonCopied(spaced);
    RunOne(spaced, COLON);
    RunAppend(m, start, [COLON]);
    CopyAppend(m, start, [COLON]);
    after := Consumed(spaced, COLON);
  }

  lemma {:induction false} RunCopiedMembers(m: Machine, members: Members)
    requires m.Between() && m.depth >= 2 && !m.AtElidedLevel() && (m.Eliding() ==> m.depth > m.elidedDepth)
    ensures Same(Run(m, PrintMembers(members)), Copy(m, PrintMembers(members)))
    decreases members
  {
    match members
    case LastMember(member) => RunCopiedMember(m, member);
    case MoreMembers(member, rest) =>
      RunCopiedMember(m, member);
      RunComma(m, PrintMember(member), PrintMembers(rest));
      RunCopiedMembers(Run(m, PrintMember(member) + [COMMA]), rest);
  }

  /** One element of an elided array: counted, not copied. */
  lemma RunElement(m: Machine, v: Value)
    requires m.Between() && m.AtElidedLevel() && m.depth >= 2
    ensures Same(Run(m, Print(v)), Started(m))
  {
    var s := Started(m);
    match v
    case Scalar(text) => RunElidedScalar(m, text);
    case Text(units) => RunString(m, units);
    case EmptyArray(pad) => RunElidedBracketed(m, OPEN_BRACKET, pad, CLOSE_BRACKET) by {
      RunInert(Consumed(m, OPEN_BRACKET), pad);
    }
    case EmptyObject(pad) => RunElidedBracketed(m, OPEN_BRACE, pad, CLOSE_BRACE) by {
      RunInert(Consumed(m, OPEN_BRACE), pad);
    }
    case Array(items) => RunElidedBracketed(m, OPEN_BRACKET, PrintItems(items), CLOSE_BRACKET) by {
      RunCopiedItems(Consumed(m, OPEN_BRACKET), items);
    }
    case Object(members) => RunElidedBracketed(m, OPEN_BRACE, PrintMembers(members), CLOSE_BRACE) by {
      RunCopiedMembers(Consumed(m, OPEN_BRACE), members);
    }
  }

  lemma RunElidedBracketed(m: Machine, open: byte, inner: Bytes, close: byte)
    requires m.Between() && m.AtElidedLevel() && m.depth >= 2
    requires (open == OPEN_BRACE && close == CLOSE_BRACE) || (open == OPEN_BRACKET && close == CLOSE_BRACKET)
    requires Same(Run(Consumed(m, open), inner), Copy(Consumed(m, open), inner))
    ensures Same(Run(m, [open] + inner + [close]), Started(m))
  {
    RunOne(m, open);
    RunAppend(m, [open], inner);
    RunAppend(m, [open] + inner, [close]);
    RunOne(Run(m, [open] + inner), close);
  }

  function Counted(m: Machine, n: nat): Machine {
    m.(vectors := if m.counting == EachElement then m.vectors + n else m.vectors, awaiting := false)
  }

  lemma {:induction false} RunElidedItems(m: Machine, items: Items)
    requires m.Between() && m.AtElidedLevel() && m.depth >= 2 && m.awaiting
    ensures Same(Run(m, PrintItems(items)), Counted(m, CountItems(items)))
    decreases items
  {
    var text := items.before + Print(items.value) + items.after;
    RunAppend(m, items.before, Print(items.value));
    RunAppend(m, items.before + Print(items.value), items.after);
    RunElidedSpace(m, items.before);
    RunElement(m, items.value);
    var done := Run(m, Print(items.value));
    RunElidedSpace(done, items.after);
    if items.MoreItems? {
      RunAppend(m, text, [COMMA]);
      RunAppend(m, text + [COMMA], PrintItems(items.rest));
      RunOne(done, COMMA);
      RunElidedItems(Consumed(done, COMMA), items.rest);
    }
  }

  /** The array of a top-level vector member: its brackets are kept, its
      contents dropped, its elements counted. */
  lemma RunVectorArray(m: Machine, v: Value)
    requires m.Between() && m.depth == 1 && !m.Eliding() && !m.expectingKey
    requires m.key in VECTOR_KEYS && (v.Array? || v.EmptyArray?)
    ensures var count := if VECTOR_KEYS[m.key] == WholeArray then 1 else if v.Array? then CountItems(v.items) else 0;
            var r := Run(m, Print(v));
            && r.kept == m.kept + Print(EmptyArray([]))
            && r.vectors == m.vectors + count
            && r.Between() && r.depth == 1 && !r.Eliding() && !r.expectingKey
  {
    var inner := if v.Array? then PrintItems(v.items) else v.pad;
    var entered := Consumed(m, OPEN_BRACKET);
    RunOne(m, OPEN_BRACKET);
    RunAppend(m, [OPEN_BRACKET], inner);
    RunAppend(m, [OPEN_BRACKET] + inner, [CLOSE_BRACKET]);
    if v.Array? {
      RunElidedItems(entered, v.items);
    } else {
      RunElidedSpace(entered, v.pad);
    }
    RunOne(Run(entered, inner), CLOSE_BRACKET);
    assert (m.kept + [OPEN_BRACKET]) + [CLOSE_BRACKET] == m.kept + Print(EmptyArray([]));
  }

  /** What the machine looks like between two tokens of the top-level object. */
  predicate AtTop(m: Machine, expectingKey: bool) {
    m.Between() && m.depth == 1 && !m.Eliding() && m.expectingKey == expectingKey
  }

  lemma RunTopMember(m: Machine, member: Member)
    requires AtTop(m, true)
    ensures var r := Run(m, PrintMember(member));
            && AtTop(r, false)
            && r.kept == m.kept + PrintMember(ElideMember(member))
            && r.vectors == m.vectors + MemberVectors(member)
  {
    var m3 := RunKey(m, member);
    MemberParts(m, member);
    MemberParts(m, ElideMember(member));
    CopyAppend(m, KeyPart(member), ValuePart(ElideMember(member)));
    if IsVectorArray(member) {
      RunThree(m3, member.beforeValue, Print(member.value), member.after);
      RunInert(m3, member.beforeValue);
      var m4 := Copy(m3, member.beforeValue);
      RunVectorArray(m4, member.value);
      RunInert(Run(m4, Print(member.value)), member.after);
      CopyThree(m3, member.beforeValue, Print(EmptyArray([])), member.after);
    } else {
      RunPadded(m3, member.beforeValue, member.value, member.after);
    }
  }

  lemma TopComma(m: Machine)
    requires m.Between() && m.depth == 1 && !m.Eliding()
    ensures Consumed(m, COMMA) == Copy(m, [COMMA]).(expectingKey := true)
  {
  }

  lemma {:induction false} RunTopMembers(m: Machine, members: Members)
    requires AtTop(m, true)
    ensures var r := Run(m, PrintMembers(members));
            && AtTop(r, false)
            && r.kept == m.kept + PrintMembers(ElideMembers(members))
            && r.vectors == m.vectors + MembersVectors(members)
    decreases members
  {
    RunTopMember(m, members.member);
    if members.MoreMembers? {
      var text := PrintMember(members.member);
      var after := Run(m, text);
      RunThree(m, text, [COMMA], PrintMembers(members.rest));
      RunOne(after, COMMA);
      TopComma(after);
      RunTopMembers(Consumed(after, COMMA), members.rest);
      CopyThree(m, PrintMember(ElideMember(members.member)), [COMMA], PrintMembers(ElideMembers(members.rest)));
    }
  }

  lemma {:induction false} RunTopItems(m: Machine, items: Items)
    requires m.Between() && m.depth == 1 && !m.Eliding() && (m.expectingKey || m.key !in VECTOR_KEYS)
    ensures var r := Run(m, PrintItems(items));
            Same(r, Copy(m, PrintItems(items)).(expectingKey := r.expectingKey))
    decreases items
  {
    RunPadded(m, items.before, items.value, items.after);
    if items.MoreItems? {
      var text := items.before + Print(items.value) + items.after;
      var after := Run(m, text);
      RunThree(m, text, [COMMA], PrintItems(items.rest));
      RunOne(after, COMMA);
      TopComma(after);
      RunTopItems(Consumed(after, COMMA), items.rest);
      CopyThree(m, text, [COMMA], PrintItems(items.rest));
    }
  }

  lemma RunTopValue(m: Machine, v: Value)
    requires m.Between() && m.depth == 0 && !m.Eliding() && !m.expectingKey && m.key == []
    ensures var r := Run(m, Print(v));
            && r.Between() && r.depth == 0 && !r.Eliding()
            && r.kept == m.kept + Print(if v.Object? then Object(ElideMembers(v.members)) else v)
            && r.vectors == m.vectors + if v.Object? then MembersVectors(v.members) else 0
  {
    var inArray, inObject := Consumed(m, OPEN_BRACKET), Consumed(m, OPEN_BRACE);
    match v
    case Scalar(text) => RunInert(m, text);
    case Text(units) => RunString(m, units);
    case EmptyArray(pad) =>
      RunInert(inArray, pad);
      RunTopBracketed(m, OPEN_BRACKET, pad, CLOSE_BRACKET, pad);
    case EmptyObject(pad) =>
      RunInert(inObject, pad);
      RunTopBracketed(m, OPEN_BRACE, pad, CLOSE_BRACE, pad);
    case Array(items) =>
      NotAVectorKey();
      RunTopItems(inArray, items);
      RunTopBracketed(m, OPEN_BRACKET, PrintItems(items), CLOSE_BRACKET, PrintItems(items));
    case Object(members) =>
      RunTopMembers(inObject, members);
      RunTopBracketed(m, OPEN_BRACE, PrintMembers(members), CLOSE_BRACE, PrintMembers(ElideMembers(members)));
  }

  lemma TopOpen(m: Machine, open: byte)
    requires m.Between() && m.depth == 0 && !m.Eliding() && (open == OPEN_BRACE || open == OPEN_BRACKET)
    ensures Consumed(m, open) == Copy(m, [open]).(depth := 1, expectingKey := m.expectingKey || open == OPEN_BRACE)
  {
  }

  /** Brackets at the top level, whose inside is replaced by `elided`. */
  lemma RunTopBracketed(m: Machine, open: byte, inner: Bytes, close: byte, elided: Bytes)
    requires m.Between() && m.depth == 0 && !m.Eliding() && (open == OPEN_BRACE || open == OPEN_BRACKET)
    requires close == CLOSE_BRACE || close == CLOSE_BRACKET
    requires var e := Consumed(m, open);
             var r := Run(e, inner);
             r.Between() && r.depth == 1 && !r.Eliding() && r.kept == e.kept + elided
    ensures var r := Run(m, [open] + inner + [close]);
            && r.Between() && r.depth == 0 && !r.Eliding()
            && r.kept == m.kept + ([open] + elided + [close])
            && r.vectors == Run(Consumed(m, open), inner).vectors
  {
    TopOpen(m, open);
    var after := Run(Consumed(m, open), inner);
    CloseCopied(after, close);
    RunOne(m, open);
    RunOne(after, close);
    RunThree(m, [open], inner, [close]);
    CopyThree(m, [open], elided, [close]);
  }

  lemma NotAVectorKey()
    ensures [] !in VECTOR_KEYS
  {
  }

  /** The machine computes exactly what the digest is for: on every JSON text it
      keeps the text of the document with its vector arrays emptied, and
      counts the vectors. */
  lemma DigestMeaning(doc: Document)
    ensures var r := Run(START, PrintDocument(doc));
            && r.kept == PrintDocument(ElideVectors(doc))
            && r.vectors == VectorCount(doc)
            && r.Between() && r.depth == 0 && !r.Eliding()
  {
    RunAppend(START, doc.before, Print(doc.value));
    RunAppend(START, doc.before + Print(doc.value), doc.after);
    RunInert(START, doc.before);
    var m := Copy(START, doc.before);
    RunTopValue(m, doc.value);
    RunInert(Run(m, Print(doc.value)), doc.after);
    assert [] + doc.before == doc.before;
  }

  /** The observer feeding a response body, read in any chunks, to the digest. */
  method Observe(chunks: seq<Bytes>, ghost doc: Document) returns (digest: Bytes, overflowed: bool, vectors: nat)
    requires Join(chunks) == PrintDocument(doc)
    ensures var text := PrintDocument(ElideVectors(doc));
            && overflowed == (|text| > DIGEST_LIMIT)
            && digest == Bounded(text)
    ensures vectors == VectorCount(doc)
  {
    var observer := new Digest();
    for i := 0 to |chunks|
      invariant fresh(observer)
      invariant observer.Valid() && observer.State() == Run(START, Join(chunks[..i]))
    {
      RunAppend(START, Join(chunks[..i]), chunks[i]);
      assert chunks[..i + 1] == chunks[..i] + [chunks[i]];
      JoinAppend(chunks[..i], [chunks[i]]);
      JoinOne(chunks[i]);
      observer.Write(chunks[i]);
    }
    assert chunks[..|chunks|] == chunks;
    DigestMeaning(doc);
    digest, overflowed, vectors := observer.digest, observer.overflowed, observer.vectors;
  }
}

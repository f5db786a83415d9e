/** JSON texts as bytes, with every choice of white space, escape and member
    order that sections 2, 4, 5 and 7 of RFC 8259 allow.  The subset types are
    a little wider than the grammar (any byte sequence free of quotes,
    structural characters and white space is a scalar), so a theorem about
    every `Document` covers every JSON text. */
module JsonText {
  import opened Basics

  const QUOTE: byte := 0x22
  const BACKSLASH: byte := 0x5C
  const OPEN_BRACE: byte := 0x7B
  const CLOSE_BRACE: byte := 0x7D
  const OPEN_BRACKET: byte := 0x5B
  const CLOSE_BRACKET: byte := 0x5D
  const COLON: byte := 0x3A
  const COMMA: byte := 0x2C

  predicate IsSpace(b: byte) {
    b == 0x20 || b == 0x09 || b == 0x0D || b == 0x0A
  }

  predicate IsInert(b: byte) {
    b !in {QUOTE, OPEN_BRACE, CLOSE_BRACE, OPEN_BRACKET, CLOSE_BRACKET, COLON, COMMA}
  }

  type Space = w: Bytes | forall i | 0 <= i < |w| :: IsSpace(w[i])

  type ScalarText = t: Bytes
    | |t| > 0 && forall i | 0 <= i < |t| :: IsInert(t[i]) && !IsSpace(t[i])
    witness [0x30]

  type PlainByte = b: byte | b != QUOTE && b != BACKSLASH witness 0x61

  /** One character of a string: itself, or a backslash and the byte it escapes. */
  datatype Unit = Plain(plain: PlainByte) | Escape(escaped: byte)

  datatype Value =
    | Scalar(text: ScalarText)
    | Text(units: seq<Unit>)
    | EmptyArray(pad: Space)
    | Array(items: Items)
    | EmptyObject(pad: Space)
    | Object(members: Members)

  datatype Items =
    | LastItem(before: Space, value: Value, after: Space)
    | MoreItems(before: Space, value: Value, after: Space, rest: Items)

  datatype Member = Member(before: Space, key: seq<Unit>, afterKey: Space, beforeValue: Space, value: Value, after: Space)

  datatype Members = LastMember(member: Member) | MoreMembers(member: Member, rest: Members)

  datatype Document = Document(before: Space, value: Value, after: Space)

  function PrintUnits(units: seq<Unit>): Bytes {
    if units == [] then []
    else (match units[0] case Plain(b) => [b] case Escape(b) => [BACKSLASH, b]) + PrintUnits(units[1..])
  }

  function PrintString(units: seq<Unit>): Bytes {
    [QUOTE] + PrintUnits(units) + [QUOTE]
  }

  function Print(v: Value): Bytes {
    match v
    case Scalar(text) => text
    case Text(units) => PrintString(units)
    case EmptyArray(pad) => [OPEN_BRACKET] + pad + [CLOSE_BRACKET]
    case Array(items) => [OPEN_BRACKET] + PrintItems(items) + [CLOSE_BRACKET]
    case EmptyObject(pad) => [OPEN_BRACE] + pad + [CLOSE_BRACE]
    case Object(members) => [OPEN_BRACE] + PrintMembers(members) + [CLOSE_BRACE]
  }

  function PrintItems(items: Items): Bytes {
    match items
    case LastItem(before, value, after) => before + Print(value) + after
    case MoreItems(before, value, after, rest) => before + Print(value) + after + [COMMA] + PrintItems(rest)
  }

  function PrintMember(m: Member): Bytes {
    m.before + PrintString(m.key) + m.afterKey + [COLON] + m.beforeValue + Print(m.value) + m.after
  }

  function PrintMembers(members: Members): Bytes {
    match members
    case LastMember(m) => PrintMember(m)
    case MoreMembers(m, rest) => PrintMember(m) + [COMMA] + PrintMembers(rest)
  }

  function PrintDocument(doc: Document): Bytes {
    doc.before + Print(doc.value) + doc.after
  }
}

/** Which configurations may share a loaded model: the canonical form whose hash
    is the fingerprint. How the JSON library reads a member name is the
    parameter `name`; the hash itself is not part of this model. */
module Fingerprint {
  import opened Basics
  import opened JsonText
  import opened Ordering

  // Canonical values

  datatype Norm =
    | Atom(text: ScalarText)
    | Quoted(units: seq<Unit>)
    | List(items: seq<Norm>)
    | Fields(fields: seq<Field>)

  datatype Field = Field(key: Bytes, value: Norm)

  function CanonicalText(n: Norm): Bytes
    decreases n, 0
  {
    match n
    case Atom(text) => text
    case Quoted(units) => PrintString(units)
    case List(items) => [OPEN_BRACKET] + ItemsText(items) + [CLOSE_BRACKET]
    case Fields(fields) => [OPEN_BRACE] + FieldsText(fields) + [CLOSE_BRACE]
  }

  function ItemsText(items: seq<Norm>): Bytes
    decreases items, 1
  {
    if items == [] then []
    else CanonicalText(items[0]) + Comma(|items| == 1) + ItemsText(items[1..])
  }

  function FieldsText(fields: seq<Field>): Bytes
    decreases fields, 1
  {
    if fields == [] then []
    else
      PrintString(EncodedKey(fields[0].key)) + [COLON] + CanonicalText(fields[0].value) +
      Comma(|fields| == 1) + FieldsText(fields[1..])
  }

  // Encoded member names

  /** The escapes of a name, as the JSON library writes one: quotes, backslashes,
      control characters, the characters special to HTML and the two line
      separators of Unicode (U+2028 and U+2029) are escaped. */
  function EncodedKey(key: Bytes): seq<Unit> {
    if key == [] then []
    else if |key| >= 3 && key[..2] == [0xE2, 0x80] && (key[2] == 0xA8 || key[2] == 0xA9) then
      Hex(0x20, if key[2] == 0xA8 then 0x28 else 0x29) + EncodedKey(key[3..])
    else EncodedByte(key[0]) + EncodedKey(key[1..])
  }

  function EncodedByte(b: byte): seq<Unit> {
    if b == QUOTE || b == BACKSLASH then [Escape(b)]
    else if b == 0x08 then [Escape(0x62)]
    else if b == 0x0C then [Escape(0x66)]
    else if b == 0x0A then [Escape(0x6E)]
    else if b == 0x0D then [Escape(0x72)]
    else if b == 0x09 then [Escape(0x74)]
    else if b < 0x20 || b == 0x3C || b == 0x3E || b == 0x26 then Hex(0, b)
    else [Plain(b)]
  }

  function HexDigit(n: int): PlainByte
    requires 0 <= n < 16
  {
    if n < 10 then (0x30 + n) as byte else (0x57 + n) as byte
  }

  function Hex(high: byte, low: byte): seq<Unit> {
    [Escape(0x75), Plain(HexDigit(high as int / 16)), Plain(HexDigit(high as int % 16)),
     Plain(HexDigit(low as int / 16)), Plain(HexDigit(low as int % 16))]
  }

  /** One step of the encoding: the bytes of a name it takes and the units it writes. */
  function StepBytes(key: Bytes): Bytes
    requires key != []
  {
    if |key| >= 3 && key[..2] == [0xE2, 0x80] && (key[2] == 0xA8 || key[2] == 0xA9) then key[..3] else key[..1]
  }

  function StepUnits(key: Bytes): seq<Unit>
    requires key != []
  {
    if |StepBytes(key)| == 3 then Hex(0x20, if key[2] == 0xA8 then 0x28 else 0x29) else EncodedByte(key[0])
  }

  lemma EncodedStep(key: Bytes)
    requires key != []
    ensures EncodedKey(key) == StepUnits(key) + EncodedKey(key[|StepBytes(key)|..])
    ensures |StepUnits(key)| == if StepUnits(key)[0] == Escape(0x75) then 5 else 1
    ensures key == StepBytes(key) + key[|StepBytes(key)|..]
  {
  }

  lemma StepsInjective(a: Bytes, b: Bytes)
    requires a != [] && b != [] && StepUnits(a) == StepUnits(b)
    ensures StepBytes(a) == StepBytes(b)
  {
  }

  lemma {:induction false} EncodedKeyInjective(a: Bytes, b: Bytes)
    requires EncodedKey(a) == EncodedKey(b)
    ensures a == b
    decreases |a|
  {
    if a != [] {
      EncodedStep(a);
      if b != [] {
        EncodedStep(b);
        var x, y := StepUnits(a), StepUnits(b);
        assert x[0] == EncodedKey(a)[0] == y[0];
        assert x == EncodedKey(a)[..|x|] && y == EncodedKey(b)[..|y|];
        StepsInjective(a, b);
        assert EncodedKey(a)[|x|..] == EncodedKey(a[|StepBytes(a)|..]);
        assert EncodedKey(b)[|y|..] == EncodedKey(b[|StepBytes(b)|..]);
        EncodedKeyInjective(a[|StepBytes(a)|..], b[|StepBytes(b)|..]);
      }
    } else if b != [] {
      EncodedStep(b);
    }
  }

  // Canonical texts can be read back in one way only

  /** Units end at the first quote that is not escaped. */
  lemma {:induction false} UnitsEnd(a: seq<Unit>, b: seq<Unit>, r: Bytes, s: Bytes)
    requires PrintUnits(a) + [QUOTE] + r == PrintUnits(b) + [QUOTE] + s
    ensures a == b && r == s
    decreases |a|
  {
    var x, y := PrintUnits(a) + [QUOTE] + r, PrintUnits(b) + [QUOTE] + s;
    if a == [] || b == [] {
      assert x[0] == y[0];
      if a == [] && b == [] {
        assert r == x[1..] && s == y[1..];
      }
    } else {
      assert x[0] == y[0];
      var n := if x[0] == BACKSLASH then 2 else 1;
      assert x[n..] == PrintUnits(a[1..]) + [QUOTE] + r;
      assert y[n..] == PrintUnits(b[1..]) + [QUOTE] + s;
      assert n == 2 ==> x[1] == y[1];
      UnitsEnd(a[1..], b[1..], r, s);
      assert a == [a[0]] + a[1..] && b == [b[0]] + b[1..];
    }
  }

  lemma StringsEnd(a: seq<Unit>, b: seq<Unit>, r: Bytes, s: Bytes)
    requires PrintString(a) + r == PrintString(b) + s
    ensures a == b && r == s
  {
    var x, y := PrintString(a) + r, PrintString(b) + s;
    assert x[1..] == PrintUnits(a) + [QUOTE] + r;
    assert y[1..] == PrintUnits(b) + [QUOTE] + s;
    UnitsEnd(a, b, r, s);
  }

  /** What may follow a value: nothing, or a byte that ends one. */
  predicate Ends(r: Bytes) {
    r == [] || r[0] == COMMA || r[0] == CLOSE_BRACKET || r[0] == CLOSE_BRACE
  }

  lemma AtomsEnd(a: ScalarText, b: ScalarText, r: Bytes, s: Bytes)
    requires a + r == b + s && Ends(r) && Ends(s)
    ensures a == b && r == s
  {
    var x, y := a + r, b + s;
    assert (forall i | 0 <= i < |a| :: x[i] == a[i]) && (forall i | 0 <= i < |b| :: y[i] == b[i]);
    assert (r != [] ==> x[|a|] == r[0]) && (s != [] ==> y[|b|] == s[0]);
    assert |a| == |b|;
    assert a == x[..|a|] && b == y[..|b|] && r == x[|a|..] && s == y[|b|..];
  }

  lemma TextStarts(n: Norm)
    ensures |CanonicalText(n)| > 0
    ensures match n
            case Atom(text) => IsInert(CanonicalText(n)[0])
            case Quoted(_) => CanonicalText(n)[0] == QUOTE
            case List(_) => CanonicalText(n)[0] == OPEN_BRACKET
            case Fields(_) => CanonicalText(n)[0] == OPEN_BRACE
  {
  }

  function Comma(last: bool): Bytes {
    if last then [] else [COMMA]
  }

  lemma ItemsTextSplit(items: seq<Norm>, tail: Bytes)
    requires items != []
    ensures ItemsText(items) + tail == CanonicalText(items[0]) + (Comma(|items| == 1) + (ItemsText(items[1..]) + tail))
  {
    hide CanonicalText;
  }

  lemma FieldsTextSplit(fields: seq<Field>, tail: Bytes)
    requires fields != []
    ensures FieldsText(fields) + tail ==
            PrintString(EncodedKey(fields[0].key)) +
              ([COLON] + (CanonicalText(fields[0].value) + (Comma(|fields| == 1) + (FieldsText(fields[1..]) + tail))))
  {
    hide CanonicalText, PrintString, EncodedKey;
    Associates(PrintString(EncodedKey(fields[0].key)), [COLON], CanonicalText(fields[0].value), Comma(|fields| == 1),
               FieldsText(fields[1..]), tail);
  }

  lemma Associates(a: Bytes, b: Bytes, c: Bytes, d: Bytes, e: Bytes, f: Bytes)
    ensures a + b + c + d + e + f == a + (b + (c + (d + (e + f))))
  {
  }

  lemma BracketSplit(open: byte, body: Bytes, close: byte, r: Bytes)
    ensures ([open] + body + [close] + r)[1..] == body + ([close] + r)
  {
  }

  lemma CommaSplit(x: Bytes, y: Bytes, lastX: bool, lastY: bool, close: byte, r: Bytes, s: Bytes)
    requires close != COMMA
    requires lastX ==> x == [close] + r
    requires lastY ==> y == [close] + s
    requires Comma(lastX) + x == Comma(lastY) + y
    ensures lastX == lastY && x == y
  {
    var p, q := Comma(lastX) + x, Comma(lastY) + y;
    assert lastX ==> p[0] == close && p == x;
    assert lastY ==> q[0] == close && q == y;
    assert !lastX ==> p[0] == COMMA && p[1..] == x;
    assert !lastY ==> q[0] == COMMA && q[1..] == y;
  }

  /** A canonical text, whatever ends it, is the text of one value only. */
  lemma {:induction false} TextInjective(a: Norm, b: Norm, r: Bytes, s: Bytes)
    requires CanonicalText(a) + r == CanonicalText(b) + s && Ends(r) && Ends(s)
    ensures a == b && r == s
    decreases a, 0
  {
    hide PrintString, ItemsText, FieldsText;
    TextStarts(a);
    TextStarts(b);
    assert (CanonicalText(a) + r)[0] == CanonicalText(a)[0] && (CanonicalText(b) + s)[0] == CanonicalText(b)[0];
    if a.Atom? {
      AtomsEnd(a.text, b.text, r, s);
    } else if a.Quoted? {
      StringsEnd(a.units, b.units, r, s);
    } else if a.List? {
      BracketSplit(OPEN_BRACKET, ItemsText(a.items), CLOSE_BRACKET, r);
      BracketSplit(OPEN_BRACKET, ItemsText(b.items), CLOSE_BRACKET, s);
      ItemsInjective(a.items, b.items, r, s);
    } else {
      BracketSplit(OPEN_BRACE, FieldsText(a.fields), CLOSE_BRACE, r);
      BracketSplit(OPEN_BRACE, FieldsText(b.fields), CLOSE_BRACE, s);
      FieldsInjective(a.fields, b.fields, r, s);
    }
  }

  lemma ItemsTextStarts(items: seq<Norm>, r: Bytes)
    ensures var x := ItemsText(items) + ([CLOSE_BRACKET] + r); x[0] == CLOSE_BRACKET <==> items == []
  {
  }

  lemma {:induction false} ItemsInjective(a: seq<Norm>, b: seq<Norm>, r: Bytes, s: Bytes)
    requires ItemsText(a) + ([CLOSE_BRACKET] + r) == ItemsText(b) + ([CLOSE_BRACKET] + s)
    ensures a == b && r == s
    decreases a, 1
  {
    hide CanonicalText;
    var x, y := [CLOSE_BRACKET] + r, [CLOSE_BRACKET] + s;
    ItemsTextStarts(a, r);
    ItemsTextStarts(b, s);
    if a == [] {
      assert ItemsText(a) + x == x && ItemsText(b) + y == y;
      assert r == x[1..] && s == y[1..];
    } else {
      ItemsTextSplit(a, x);
      ItemsTextSplit(b, y);
      assert ItemsText([]) + x == x && ItemsText([]) + y == y;
      var after, otherAfter := ItemsText(a[1..]) + x, ItemsText(b[1..]) + y;
      TextInjective(a[0], b[0], Comma(|a| == 1) + after, Comma(|b| == 1) + otherAfter);
      CommaSplit(after, otherAfter, |a| == 1, |b| == 1, CLOSE_BRACKET, r, s);
      ItemsInjective(a[1..], b[1..], r, s);
      assert a == [a[0]] + a[1..] && b == [b[0]] + b[1..];
    }
  }

  lemma FieldsTextStarts(fields: seq<Field>, r: Bytes)
    ensures var x := FieldsText(fields) + ([CLOSE_BRACE] + r); x[0] == CLOSE_BRACE <==> fields == []
  {
  }

  lemma HeadSplit(head: byte, x: Bytes, y: Bytes)
    requires [head] + x == [head] + y
    ensures x == y
  {
    assert ([head] + x)[1..] == x && ([head] + y)[1..] == y;
  }

  lemma {:induction false} FieldsInjective(a: seq<Field>, b: seq<Field>, r: Bytes, s: Bytes)
    requires FieldsText(a) + ([CLOSE_BRACE] + r) == FieldsText(b) + ([CLOSE_BRACE] + s)
    ensures a == b && r == s
    decreases a, 1
  {
    hide CanonicalText, PrintString, EncodedKey;
    var x, y := [CLOSE_BRACE] + r, [CLOSE_BRACE] + s;
    FieldsTextStarts(a, r);
    FieldsTextStarts(b, s);
    if a == [] {
      assert FieldsText(a) + x == x && FieldsText(b) + y == y;
      assert r == x[1..] && s == y[1..];
    } else {
      FieldsTextSplit(a, x);
      FieldsTextSplit(b, y);
      assert FieldsText([]) + x == x && FieldsText([]) + y == y;
      var after, otherAfter := FieldsText(a[1..]) + x, FieldsText(b[1..]) + y;
      var value := CanonicalText(a[0].value) + (Comma(|a| == 1) + after);
      var otherValue := CanonicalText(b[0].value) + (Comma(|b| == 1) + otherAfter);
      StringsEnd(EncodedKey(a[0].key), EncodedKey(b[0].key), [COLON] + value, [COLON] + otherValue);
      EncodedKeyInjective(a[0].key, b[0].key);
      HeadSplit(COLON, value, otherValue);
      TextInjective(a[0].value, b[0].value, Comma(|a| == 1) + after, Comma(|b| == 1) + otherAfter);
      CommaSplit(after, otherAfter, |a| == 1, |b| == 1, CLOSE_BRACE, r, s);
      FieldsInjective(a[1..], b[1..], r, s);
      assert a == [a[0]] + a[1..] && b == [b[0]] + b[1..];
    }
  }

  // Documents

  type Name = seq<Unit> -> Bytes

  function Chars(b: Bytes): string {
    seq(|b|, i requires 0 <= i < |b| => b[i] as int as char)
  }

  lemma CharsInjective(a: Bytes, b: Bytes)
    requires Chars(a) == Chars(b)
    ensures a == b
  {
    assert forall i | 0 <= i < |a| :: Chars(a)[i] as int == a[i] as int;
    assert forall i | 0 <= i < |b| :: Chars(b)[i] as int == b[i] as int;
    forall i | 0 <= i < |a|
      ensures a[i] == b[i]
    {
      assert Chars(a)[i] == Chars(b)[i];
    }
  }

  function Keys(fields: seq<Field>): seq<string> {
    seq(|fields|, i requires 0 <= i < |fields| => Chars(fields[i].key))
  }

  /** Puts a field where its name belongs. */
  function InsertField(f: Field, fields: seq<Field>): seq<Field> {
    if fields == [] then [f]
    else if AtMost(Chars(f.key), Chars(fields[0].key)) then [f] + fields
    else [fields[0]] + InsertField(f, fields[1..])
  }

  /** A value with its white space dropped and its members in the order of their names. */
  function Normal(v: Value, name: Name): Norm {
    match v
    case Scalar(text) => Atom(text)
    case Text(units) => Quoted(units)
    case EmptyArray(_) => List([])
    case Array(items) => List(NormalItems(items, name))
    case EmptyObject(_) => Fields([])
    case Object(members) => Fields(NormalMembers(members, name))
  }

  function NormalItems(items: Items, name: Name): seq<Norm> {
    match items
    case LastItem(_, value, _) => [Normal(value, name)]
    case MoreItems(_, value, _, rest) => [Normal(value, name)] + NormalItems(rest, name)
  }

  function NormalMembers(members: Members, name: Name): seq<Field> {
    match members
    case LastMember(m) => [Field(name(m.key), Normal(m.value, name))]
    case MoreMembers(m, rest) => InsertField(Field(name(m.key), Normal(m.value, name)), NormalMembers(rest, name))
  }

  /** No object anywhere in the value names a member twice. */
  predicate Unique(v: Value, name: Name) {
    match v
    case Array(items) => UniqueItems(items, name)
    case Object(members) => UniqueMembers(members, name)
    case _ => true
  }

  predicate UniqueItems(items: Items, name: Name) {
    match items
    case LastItem(_, value, _) => Unique(value, name)
    case MoreItems(_, value, _, rest) => Unique(value, name) && UniqueItems(rest, name)
  }

  predicate UniqueMembers(members: Members, name: Name) {
    match members
    case LastMember(m) => Unique(m.value, name)
    case MoreMembers(m, rest) => Unique(m.value, name) && name(m.key) !in MemberMap(rest, name) && UniqueMembers(rest, name)
  }

  function MemberMap(members: Members, name: Name): map<Bytes, Value> {
    match members
    case LastMember(m) => map[name(m.key) := m.value]
    case MoreMembers(m, rest) => MemberMap(rest, name)[name(m.key) := m.value]
  }

  // What it means to agree

  function Size(v: Value): nat {
    match v
    case Array(items) => SizeItems(items)
    case Object(members) => SizeMembers(members)
    case _ => 0
  }

  function SizeItems(items: Items): nat {
    match items
    case LastItem(_, value, _) => 1 + Size(value)
    case MoreItems(_, value, _, rest) => 1 + Size(value) + SizeItems(rest)
  }

  function SizeMembers(members: Members): nat {
    match members
    case LastMember(m) => 1 + Size(m.value)
    case MoreMembers(m, rest) => 1 + Size(m.value) + SizeMembers(rest)
  }

  lemma {:induction false} MembersSmaller(members: Members, name: Name)
    ensures forall key | key in MemberMap(members, name) :: Size(MemberMap(members, name)[key]) < SizeMembers(members)
  {
    if members.MoreMembers? {
      MembersSmaller(members.rest, name);
    }
  }

  function ItemValues(items: Items): seq<Value> {
    match items
    case LastItem(_, value, _) => [value]
    case MoreItems(_, value, _, rest) => [value] + ItemValues(rest)
  }

  function Named(v: Value, name: Name): map<Bytes, Value>
    requires v.Object? || v.EmptyObject?
  {
    if v.EmptyObject? then map[] else MemberMap(v.members, name)
  }

  lemma {:induction false} ItemsSmaller(items: Items)
    ensures forall i | 0 <= i < |ItemValues(items)| :: Size(ItemValues(items)[i]) < SizeItems(items)
  {
    if items.MoreItems? {
      ItemsSmaller(items.rest);
    }
  }

  /** Two values agree when they read the same up to member order and the white
      space between tokens; scalars and strings are compared as they are written. */
  ghost predicate Same(v: Value, w: Value, name: Name)
    decreases Size(v)
  {
    match v
    case Scalar(text) => w.Scalar? && text == w.text
    case Text(units) => w.Text? && units == w.units
    case EmptyArray(_) => w.EmptyArray?
    case EmptyObject(_) => w.EmptyObject?
    case Array(items) =>
      ItemsSmaller(items);
      var a := ItemValues(items);
      w.Array? && |a| == |ItemValues(w.items)| && forall i | 0 <= i < |a| :: Same(a[i], ItemValues(w.items)[i], name)
    case Object(members) =>
      MembersSmaller(members, name);
      var a := MemberMap(members, name);
      w.Object? && a.Keys == MemberMap(w.members, name).Keys &&
      forall key | key in a :: Same(a[key], MemberMap(w.members, name)[key], name)
  }

  // A list of fields in order stands for a map of members

  ghost predicate Stands(fields: seq<Field>, values: map<Bytes, Value>, name: Name) {
    && Ascending(Keys(fields))
    && (forall i | 0 <= i < |fields| :: fields[i].key in values && fields[i].value == Normal(values[fields[i].key], name))
    && (forall key | key in values :: Chars(key) in Keys(fields))
  }

  lemma FieldInserted(f: Field, fields: seq<Field>, values: map<Bytes, Value>, value: Value, name: Name)
    requires Stands(fields, values, name) && f.key !in values && f.value == Normal(value, name)
    ensures Stands(InsertField(f, fields), values[f.key := value], name)
  {
    hide Normal, AtMost, InsertString, InsertAny;
    var r := InsertField(f, fields);
    KeyInserted(f, fields);
    KeyMissing(f, fields, values, name);
    InsertStringNew(Chars(f.key), Keys(fields));
    InsertStringAscends(Chars(f.key), Keys(fields));
    forall i | 0 <= i < |r|
      ensures r[i].key in values[f.key := value] && r[i].value == Normal(values[f.key := value][r[i].key], name)
    {
      FieldAdded(f, fields, i);
      if r[i] != f {
        var j :| 0 <= j < |fields| && fields[j] == r[i];
      }
    }
  }

  lemma KeyMissing(f: Field, fields: seq<Field>, values: map<Bytes, Value>, name: Name)
    requires Stands(fields, values, name) && f.key !in values
    ensures Chars(f.key) !in Keys(fields)
  {
    forall i | 0 <= i < |fields|
      ensures Chars(f.key) != Keys(fields)[i]
    {
      if Chars(f.key) == Keys(fields)[i] {
        CharsInjective(f.key, fields[i].key);
      }
    }
  }

  lemma {:induction false} FieldAdded(f: Field, fields: seq<Field>, i: nat)
    requires i < |InsertField(f, fields)|
    ensures InsertField(f, fields)[i] == f || InsertField(f, fields)[i] in fields
    decreases |fields|
  {
    if fields != [] && !AtMost(Chars(f.key), Chars(fields[0].key)) && i > 0 {
      FieldAdded(f, fields[1..], i - 1);
    }
  }

  /** Insertion where equal strings count as new, which for a new string is the same. */
  function InsertAny(x: string, xs: seq<string>): seq<string> {
    if xs == [] then [x] else if AtMost(x, xs[0]) then [x] + xs else [xs[0]] + InsertAny(x, xs[1..])
  }

  lemma {:induction false} InsertStringNew(x: string, xs: seq<string>)
    requires x !in xs
    ensures InsertAny(x, xs) == InsertString(x, xs)
    decreases |xs|
  {
    if xs != [] {
      InsertStringNew(x, xs[1..]);
    }
  }

  lemma {:induction false} KeyInserted(f: Field, fields: seq<Field>)
    ensures Keys(InsertField(f, fields)) == InsertAny(Chars(f.key), Keys(fields))
    decreases |fields|
  {
    if fields == [] {
    } else if AtMost(Chars(f.key), Chars(fields[0].key)) {
      assert Keys([f] + fields) == [Chars(f.key)] + Keys(fields);
    } else {
      var rest := InsertField(f, fields[1..]);
      assert Keys(fields)[1..] == Keys(fields[1..]);
      assert Keys([fields[0]] + rest) == [Chars(fields[0].key)] + Keys(rest);
      KeyInserted(f, fields[1..]);
    }
  }

  lemma {:induction false} MembersStand(members: Members, name: Name)
    requires UniqueMembers(members, name)
    ensures Stands(NormalMembers(members, name), MemberMap(members, name), name)
  {
    match members
    case LastMember(m) =>
      assert Keys(NormalMembers(members, name)) == [Chars(name(m.key))];
    case MoreMembers(m, rest) =>
      MembersStand(rest, name);
      FieldInserted(Field(name(m.key), Normal(m.value, name)), NormalMembers(rest, name), MemberMap(rest, name), m.value, name);
  }

  /** The same names and, name by name, values that normalize alike. */
  ghost predicate PrintAlike(values: map<Bytes, Value>, otherValues: map<Bytes, Value>, name: Name) {
    && values.Keys == otherValues.Keys
    && forall key | key in values && key in otherValues :: Normal(values[key], name) == Normal(otherValues[key], name)
  }

  /** Two maps of members have one list of fields exactly when they have the same
      names and, name by name, values that normalize alike. */
  lemma StandsInjective(fields: seq<Field>, values: map<Bytes, Value>, otherFields: seq<Field>, otherValues: map<Bytes, Value>, name: Name)
    requires Stands(fields, values, name) && Stands(otherFields, otherValues, name)
    ensures fields == otherFields <==> PrintAlike(values, otherValues, name)
  {
    if fields == otherFields {
      SameFieldsSameKeys(fields, values, otherValues, name);
      SameFieldsSameKeys(fields, otherValues, values, name);
      forall key | key in values
        ensures key in otherValues && Normal(values[key], name) == Normal(otherValues[key], name)
      {
        var i := FieldOf(fields, values, key, name);
      }
    }
    if PrintAlike(values, otherValues, name) {
      KeysListed(fields, values, otherValues, name, otherFields);
      KeysListed(otherFields, otherValues, values, name, fields);
      AscendingUnique(Keys(fields), Keys(otherFields));
      forall i | 0 <= i < |fields|
        ensures fields[i] == otherFields[i]
      {
        assert Keys(fields)[i] == Keys(otherFields)[i];
        CharsInjective(fields[i].key, otherFields[i].key);
      }
      assert |Keys(fields)| == |Keys(otherFields)|;
      assert fields == otherFields;
    }
  }

  lemma FieldOf(fields: seq<Field>, values: map<Bytes, Value>, key: Bytes, name: Name) returns (i: nat)
    requires Stands(fields, values, name) && key in values
    ensures i < |fields| && fields[i].key == key && fields[i].value == Normal(values[key], name)
  {
    i :| 0 <= i < |Keys(fields)| && Keys(fields)[i] == Chars(key);
    CharsInjective(fields[i].key, key);
  }

  lemma SameFieldsSameKeys(fields: seq<Field>, values: map<Bytes, Value>, otherValues: map<Bytes, Value>, name: Name)
    requires Stands(fields, values, name) && Stands(fields, otherValues, name)
    ensures values.Keys <= otherValues.Keys
  {
    forall key | key in values
      ensures key in otherValues
    {
      var i := FieldOf(fields, values, key, name);
    }
  }

  lemma KeysListed(fields: seq<Field>, values: map<Bytes, Value>, otherValues: map<Bytes, Value>, name: Name, otherFields: seq<Field>)
    requires Stands(fields, values, name) && Stands(otherFields, otherValues, name) && values.Keys == otherValues.Keys
    ensures forall x | x in Keys(fields) :: x in Keys(otherFields)
  {
    forall x | x in Keys(fields)
      ensures x in Keys(otherFields)
    {
      var i :| 0 <= i < |fields| && Keys(fields)[i] == x;
      assert fields[i].key in values.Keys;
      assert fields[i].key in otherValues;
    }
  }

  lemma {:induction false} NormalItemsAt(items: Items, name: Name)
    ensures |NormalItems(items, name)| == |ItemValues(items)|
    ensures forall i | 0 <= i < |ItemValues(items)| :: NormalItems(items, name)[i] == Normal(ItemValues(items)[i], name)
    ensures UniqueItems(items, name) ==> forall i | 0 <= i < |ItemValues(items)| :: Unique(ItemValues(items)[i], name)
  {
    if items.MoreItems? {
      NormalItemsAt(items.rest, name);
    }
  }

  lemma {:induction false} MembersUnique(members: Members, name: Name)
    requires UniqueMembers(members, name)
    ensures forall key | key in MemberMap(members, name) :: Unique(MemberMap(members, name)[key], name)
  {
    if members.MoreMembers? {
      MembersUnique(members.rest, name);
    }
  }

  /** Values normalize alike exactly when they agree. */
  lemma {:induction false} NormalExact(v: Value, w: Value, name: Name)
    requires Unique(v, name) && Unique(w, name)
    ensures Normal(v, name) == Normal(w, name) <==> Same(v, w, name)
    decreases Size(v)
  {
    if v.Array? && w.Array? {
      var a, b := ItemValues(v.items), ItemValues(w.items);
      NormalItemsAt(v.items, name);
      NormalItemsAt(w.items, name);
      ItemsSmaller(v.items);
      if |a| == |b| {
        forall i | 0 <= i < |a|
          ensures Normal(a[i], name) == Normal(b[i], name) <==> Same(a[i], b[i], name)
        {
          NormalExact(a[i], b[i], name);
        }
      }
    } else if v.Object? && w.Object? {
      var a, b := MemberMap(v.members, name), MemberMap(w.members, name);
      MembersStand(v.members, name);
      MembersStand(w.members, name);
      MembersSmaller(v.members, name);
      MembersUnique(v.members, name);
      MembersUnique(w.members, name);
      forall key | key in a && key in b
        ensures Normal(a[key], name) == Normal(b[key], name) <==> Same(a[key], b[key], name)
      {
        NormalExact(a[key], b[key], name);
      }
      StandsInjective(NormalMembers(v.members, name), a, NormalMembers(w.members, name), b, name);
    } else {
      NotEmpty(v, name);
      NotEmpty(w, name);
    }
  }

  lemma NotEmpty(v: Value, name: Name)
    ensures v.Array? ==> Normal(v, name) != List([])
    ensures v.Object? ==> Normal(v, name) != Fields([])
  {
    if v.Object? && v.members.MoreMembers? {
      var m, rest := v.members.member, NormalMembers(v.members.rest, name);
      assert |InsertField(Field(name(m.key), Normal(m.value, name)), rest)| > 0;
    }
  }

  /** Canonical texts are equal exactly when the values agree. */
  lemma CanonicalExact(v: Value, w: Value, name: Name)
    requires Unique(v, name) && Unique(w, name)
    ensures CanonicalText(Normal(v, name)) == CanonicalText(Normal(w, name)) <==> Same(v, w, name)
  {
    hide CanonicalText, Normal, Same;
    if CanonicalText(Normal(v, name)) == CanonicalText(Normal(w, name)) {
      assert CanonicalText(Normal(v, name)) + [] == CanonicalText(Normal(w, name)) + [];
      TextInjective(Normal(v, name), Normal(w, name), [], []);
    }
    NormalExact(v, w, name);
  }

  // Decoding, refusing repeated members

  /** Like the decoder: fails on a value that is not an object, and on a repeated member anywhere. */
  method DecodeUnique(v: Value, name: Name) returns (r: Option<map<Bytes, Value>>)
    ensures r.Some? <==> (v.Object? || v.EmptyObject?) && Unique(v, name)
    ensures r.Some? ==> r.value == Named(v, name)
    decreases Size(v), 0
  {
    if v.EmptyObject? {
      return Some(map[]);
    }
    if !v.Object? {
      return None;
    }
    var values: map<Bytes, Value> := map[];
    var left := Some(v.members);
    while left.Some?
      invariant left.None? ==> MemberMap(v.members, name) == values && UniqueMembers(v.members, name)
      invariant left.Some? ==>
                  && MemberMap(v.members, name) == MemberMap(left.value, name) + values
                  && (UniqueMembers(v.members, name) <==> UniqueMembers(left.value, name) && values.Keys !! MemberMap(left.value, name).Keys)
                  && SizeMembers(left.value) <= Size(v)
      decreases if left.Some? then 1 + SizeMembers(left.value) else 0
    {
      var member, key := left.value.member, name(left.value.member.key);
      if key in values {
        assert key in MemberMap(left.value, name);
        return None;
      }
      var valid := ValidateUnique(member.value, name);
      if !valid {
        return None;
      }
      values := values[key := member.value];
      left := if left.value.LastMember? then None else Some(left.value.rest);
    }
    return Some(values);
  }

  method ValidateUnique(v: Value, name: Name) returns (valid: bool)
    ensures valid == Unique(v, name)
    decreases Size(v), 1
  {
    if v.Object? {
      var decoded := DecodeUnique(v, name);
      return decoded.Some?;
    }
    if v.Array? {
      var left := Some(v.items);
      while left.Some?
        invariant UniqueItems(v.items, name) <==> (left.Some? ==> UniqueItems(left.value, name))
        invariant left.Some? ==> SizeItems(left.value) <= Size(v)
        decreases if left.Some? then 1 + SizeItems(left.value) else 0
      {
        var itemValid := ValidateUnique(left.value.value, name);
        if !itemValid {
          return false;
        }
        left := if left.value.LastItem? then None else Some(left.value.rest);
      }
    }
    return true;
  }

  // Canonical printing

  function InsertKey(key: Bytes, keys: seq<Bytes>): seq<Bytes> {
    if keys == [] then [key]
    else if key == keys[0] then keys
    else if AtMost(Chars(key), Chars(keys[0])) then [key] + keys
    else [keys[0]] + InsertKey(key, keys[1..])
  }

  function KeyChars(keys: seq<Bytes>): seq<string> {
    seq(|keys|, i requires 0 <= i < |keys| => Chars(keys[i]))
  }

  lemma {:induction false} InsertKeyChars(key: Bytes, keys: seq<Bytes>)
    ensures KeyChars(InsertKey(key, keys)) == InsertString(Chars(key), KeyChars(keys))
    ensures forall k :: k in InsertKey(key, keys) <==> k == key || k in keys
    decreases |keys|
  {
    if keys != [] {
      assert KeyChars(keys)[1..] == KeyChars(keys[1..]);
      assert forall k :: k in keys <==> k == keys[0] || k in keys[1..];
      if Chars(key) == Chars(keys[0]) {
        CharsInjective(key, keys[0]);
      }
      InsertKeyChars(key, keys[1..]);
    }
  }

  /** The names of a set in order. */
  method SortedKeys(names: set<Bytes>) returns (keys: seq<Bytes>)
    ensures Ascending(KeyChars(keys)) && forall k :: k in keys <==> k in names
  {
    keys := [];
    var left := names;
    while left != {}
      invariant left <= names && Ascending(KeyChars(keys))
      invariant forall k :: k in keys <==> k in names - left
      decreases left
    {
      var key :| key in left;
      InsertKeyChars(key, keys);
      InsertStringAscends(Chars(key), KeyChars(keys));
      keys := InsertKey(key, keys);
      left := left - {key};
    }
  }

  lemma {:induction false} FieldsTextGrows(fields: seq<Field>, f: Field)
    ensures FieldsText(fields + [f]) ==
            FieldsText(fields) + Comma(fields == []) + PrintString(EncodedKey(f.key)) + [COLON] + CanonicalText(f.value)
    decreases |fields|
  {
    hide CanonicalText, PrintString, EncodedKey;
    var all := fields + [f];
    if fields == [] {
      assert all == [f] && all[1..] == [];
    } else {
      assert all[0] == fields[0] && all[1..] == fields[1..] + [f];
      FieldsTextGrows(fields[1..], f);
    }
  }

  lemma {:induction false} ItemsTextGrows(items: seq<Norm>, n: Norm)
    ensures ItemsText(items + [n]) == ItemsText(items) + Comma(items == []) + CanonicalText(n)
    decreases |items|
  {
    hide CanonicalText;
    var all := items + [n];
    if items == [] {
      assert all == [n] && all[1..] == [];
    } else {
      assert all[0] == items[0] && all[1..] == items[1..] + [n];
      ItemsTextGrows(items[1..], n);
    }
  }

  /** The fields of some names, in the order given. */
  ghost function FieldsFor(keys: seq<Bytes>, values: map<Bytes, Value>, name: Name): seq<Field>
    requires forall i | 0 <= i < |keys| :: keys[i] in values
  {
    seq(|keys|, i requires 0 <= i < |keys| => Field(keys[i], Normal(values[keys[i]], name)))
  }

  lemma FieldsForStand(keys: seq<Bytes>, values: map<Bytes, Value>, name: Name)
    requires Ascending(KeyChars(keys)) && forall k :: k in keys <==> k in values
    ensures Stands(FieldsFor(keys, values, name), values, name)
  {
    var fields := FieldsFor(keys, values, name);
    assert Keys(fields) == KeyChars(keys);
    forall key | key in values
      ensures Chars(key) in Keys(fields)
    {
      var i :| 0 <= i < |keys| && keys[i] == key;
      assert Keys(fields)[i] == Chars(key);
    }
  }

  ghost predicate AllUnique(values: map<Bytes, Value>, name: Name) {
    forall key | key in values :: Unique(values[key], name)
  }

  lemma FieldsTextEnds(fields: seq<Field>)
    ensures FieldsText([]) == [] && CanonicalText(Fields(fields)) == [OPEN_BRACE] + FieldsText(fields) + [CLOSE_BRACE]
  {
  }

  lemma LeftAssociates(a: Bytes, b: Bytes, c: Bytes, d: Bytes, e: Bytes)
    ensures a + b + c + d + [COLON] + e == a + (b + c + d + [COLON] + e)
    ensures a + b + [] == a + b
  {
  }

  /** The canonical text of an object given by its members, or nothing when one of them repeats a member. */
  method CanonicalObject(values: map<Bytes, Value>, name: Name, ghost bound: nat) returns (text: Option<Bytes>, ghost fields: seq<Field>)
    requires forall key | key in values :: Size(values[key]) < bound
    ensures text.Some? <==> AllUnique(values, name)
    ensures text.Some? ==> Stands(fields, values, name) && text.value == CanonicalText(Fields(fields))
    decreases bound, 0
  {
    hide PrintString, EncodedKey, CanonicalText, FieldsText, Normal, AtMost, Ascending, Stands;
    var keys := SortedKeys(values.Keys);
    fields := FieldsFor(keys, values, name);
    FieldsForStand(keys, values, name);
    FieldsTextEnds(fields);
    var output := [OPEN_BRACE];
    for index := 0 to |keys|
      invariant output == [OPEN_BRACE] + FieldsText(fields[..index])
      invariant forall i | 0 <= i < index :: Unique(values[keys[i]], name)
    {
      if index > 0 {
        output := output + [COMMA];
      }
      var value := CanonicalValue(values[keys[index]], name);
      if value.None? {
        return None, fields;
      }
      output := output + PrintString(EncodedKey(keys[index])) + [COLON] + value.value;
      assert fields[..index + 1] == fields[..index] + [fields[index]];
      FieldsTextGrows(fields[..index], fields[index]);
      LeftAssociates([OPEN_BRACE], FieldsText(fields[..index]), Comma(index == 0), PrintString(EncodedKey(keys[index])), value.value);
    }
    assert fields[..|keys|] == fields;
    text := Some(output + [CLOSE_BRACE]);
  }

  /** The canonical text of a value, or nothing when it repeats a member. */
  method CanonicalValue(v: Value, name: Name) returns (text: Option<Bytes>)
    ensures text.Some? <==> Unique(v, name)
    ensures text.Some? ==> text.value == CanonicalText(Normal(v, name))
    decreases Size(v), 1
  {
    match v
    case Scalar(t) => text := Some(t);
    case Text(units) => text := Some(PrintString(units));
    case EmptyObject(_) => text := Some([OPEN_BRACE, CLOSE_BRACE]);
    case Object(members) =>
      var decoded := DecodeUnique(v, name);
      if decoded.None? {
        return None;
      }
      MembersSmaller(members, name);
      MembersUnique(members, name);
      MembersStand(members, name);
      ghost var fields;
      text, fields := CanonicalObject(decoded.value, name, Size(v));
      StandsInjective(fields, decoded.value, NormalMembers(members, name), decoded.value, name);
    case EmptyArray(_) => text := Some([OPEN_BRACKET, CLOSE_BRACKET]);
    case Array(items) => text := CanonicalItems(items, name);
  }

  lemma ItemsTextEnds(items: seq<Norm>)
    ensures ItemsText([]) == [] && CanonicalText(List(items)) == [OPEN_BRACKET] + ItemsText(items) + [CLOSE_BRACKET]
  {
  }

  method CanonicalItems(items: Items, name: Name) returns (text: Option<Bytes>)
    ensures text.Some? <==> UniqueItems(items, name)
    ensures text.Some? ==> text.value == CanonicalText(List(NormalItems(items, name)))
    decreases SizeItems(items), 0
  {
    hide PrintString, CanonicalText, ItemsText, Normal, Unique;
    var output := [OPEN_BRACKET];
    var index := 0;
    ghost var done: seq<Norm> := [];
    var left := Some(items);
    ItemsTextEnds(NormalItems(items, name));
    while left.Some?
      invariant index == |done| && output == [OPEN_BRACKET] + ItemsText(done)
      invariant left.None? ==> done == NormalItems(items, name) && UniqueItems(items, name)
      invariant left.Some? ==> done + NormalItems(left.value, name) == NormalItems(items, name)
      invariant left.Some? ==> (UniqueItems(items, name) <==> UniqueItems(left.value, name)) && SizeItems(left.value) <= SizeItems(items)
      decreases if left.Some? then 1 + SizeItems(left.value) else 0
    {
      if index > 0 {
        output := output + [COMMA];
      }
      var item := CanonicalValue(left.value.value, name);
      if item.None? {
        return None;
      }
      output := output + item.value;
      ghost var norm := Normal(left.value.value, name);
      ItemsTextGrows(done, norm);
      LeftAssociates([OPEN_BRACKET], ItemsText(done), Comma(index == 0), [], item.value);
      assert left.value.MoreItems? ==>
          done + ([norm] + NormalItems(left.value.rest, name)) == (done + [norm]) + NormalItems(left.value.rest, name);
      done := done + [norm];
      index := index + 1;
      left := if left.value.LastItem? then None else Some(left.value.rest);
    }
    text := Some(output + [CLOSE_BRACKET]);
  }

  // The fingerprint

  const JINJA_KWARGS: Bytes := Ascii("jinja_kwargs")
  const KWARGS_PRECEDENCE: Bytes := Ascii("router_jinja_kwargs_precedence")
  const ROUTER_PREFIX: Bytes := Ascii("router_")
  const GENERATION_DEFAULTS: Bytes := Ascii("gendefaults")
  const GENERATION_DEFAULTS_OVERWRITE: Bytes := Ascii("gendefaultsoverwrite")

  /** The names of an object, as a JSON array of strings. */
  function KeyArray(keys: seq<Bytes>): Value {
    if keys == [] then EmptyArray([]) else Array(KeyItems(keys))
  }

  function KeyItems(keys: seq<Bytes>): Items
    requires keys != []
  {
    if |keys| == 1 then LastItem([], Text(EncodedKey(keys[0])), [])
    else MoreItems([], Text(EncodedKey(keys[0])), [], KeyItems(keys[1..]))
  }

  lemma {:induction false} KeyItemsNormal(keys: seq<Bytes>, name: Name)
    requires keys != []
    ensures |NormalItems(KeyItems(keys), name)| == |keys| && UniqueItems(KeyItems(keys), name)
    ensures forall i | 0 <= i < |keys| :: NormalItems(KeyItems(keys), name)[i] == Quoted(EncodedKey(keys[i]))
    decreases |keys|
  {
    if |keys| > 1 {
      KeyItemsNormal(keys[1..], name);
    }
  }

  lemma KeyArrayInjective(a: seq<Bytes>, b: seq<Bytes>, name: Name)
    ensures Normal(KeyArray(a), name) == Normal(KeyArray(b), name) <==> a == b
    ensures Unique(KeyArray(a), name)
  {
    if a != [] {
      KeyItemsNormal(a, name);
    }
    if b != [] {
      KeyItemsNormal(b, name);
    }
    if Normal(KeyArray(a), name) == Normal(KeyArray(b), name) {
      assert |a| == |b|;
      forall i | 0 <= i < |a|
        ensures a[i] == b[i]
      {
        assert NormalItems(KeyItems(a), name)[i] == NormalItems(KeyItems(b), name)[i];
        EncodedKeyInjective(a[i], b[i]);
      }
    }
  }

  /** What is fingerprinted: the precedence is dropped and the template arguments give way to their names. */
  function PhysicalValues(values: map<Bytes, Value>, keys: seq<Bytes>): map<Bytes, Value> {
    (values - {KWARGS_PRECEDENCE})[JINJA_KWARGS := KeyArray(keys)]
  }

  function NamesOf(kwargs: Option<Value>, name: Name): set<Bytes> {
    if kwargs.Some? && (kwargs.value.Object? || kwargs.value.EmptyObject?) then Named(kwargs.value, name).Keys else {}
  }

  ghost predicate ListsNames(keys: seq<Bytes>, names: set<Bytes>) {
    Ascending(KeyChars(keys)) && forall k :: k in keys <==> k in names
  }

  /** `text` is what is hashed for these values and template arguments. */
  ghost predicate Hashes(text: Bytes, values: map<Bytes, Value>, kwargs: Option<Value>, name: Name) {
    exists keys, fields ::
      ListsNames(keys, NamesOf(kwargs, name)) && Stands(fields, PhysicalValues(values, keys), name) && text == CanonicalText(Fields(fields))
  }

  /** Everywhere but in the template arguments and their precedence. */
  ghost predicate AgreeElsewhere(values: map<Bytes, Value>, otherValues: map<Bytes, Value>, name: Name) {
    forall key | key != JINJA_KWARGS && key != KWARGS_PRECEDENCE ::
      (key in values <==> key in otherValues) && (key in values && key in otherValues ==> Same(values[key], otherValues[key], name))
  }

  lemma KeysUnique(a: seq<Bytes>, b: seq<Bytes>, names: set<Bytes>)
    requires ListsNames(a, names) && ListsNames(b, names)
    ensures a == b
  {
    forall x
      ensures x in KeyChars(a) <==> x in KeyChars(b)
    {
      if x in KeyChars(a) {
        ListedElsewhere(a, b, x);
      }
      if x in KeyChars(b) {
        ListedElsewhere(b, a, x);
      }
    }
    AscendingUnique(KeyChars(a), KeyChars(b));
    assert |a| == |KeyChars(a)| == |KeyChars(b)| == |b|;
    forall i | 0 <= i < |a|
      ensures a[i] == b[i]
    {
      assert KeyChars(a)[i] == KeyChars(b)[i];
      CharsInjective(a[i], b[i]);
    }
  }

  lemma ListedElsewhere(a: seq<Bytes>, b: seq<Bytes>, x: string)
    requires x in KeyChars(a) && forall k :: k in a <==> k in b
    ensures x in KeyChars(b)
  {
    var i :| 0 <= i < |a| && KeyChars(a)[i] == x;
    assert a[i] in b;
    var j :| 0 <= j < |b| && b[j] == a[i];
    assert KeyChars(b)[j] == x;
  }

  /** Two hashed texts are equal exactly when the template arguments have the same
      names and everything else but the precedence agrees. */
  lemma HashedTextExact(text: Bytes, values: map<Bytes, Value>, kwargs: Option<Value>,
                        otherText: Bytes, otherValues: map<Bytes, Value>, otherKwargs: Option<Value>, name: Name)
    requires Hashes(text, values, kwargs, name) && Hashes(otherText, otherValues, otherKwargs, name)
    requires AllUnique(values, name) && AllUnique(otherValues, name)
    ensures text == otherText <==> NamesOf(kwargs, name) == NamesOf(otherKwargs, name) && AgreeElsewhere(values, otherValues, name)
  {
    hide CanonicalText, Normal, Stands, Same, Ascending;
    var keys, fields :|
      ListsNames(keys, NamesOf(kwargs, name)) && Stands(fields, PhysicalValues(values, keys), name) &&
      text == CanonicalText(Fields(fields));
    var otherKeys, otherFields :|
      ListsNames(otherKeys, NamesOf(otherKwargs, name)) && Stands(otherFields, PhysicalValues(otherValues, otherKeys), name) &&
      otherText == CanonicalText(Fields(otherFields));
    if text == otherText {
      assert text + [] == otherText + [];
      TextInjective(Fields(fields), Fields(otherFields), [], []);
    }
    assert text == otherText <==> fields == otherFields;
    StandsInjective(fields, PhysicalValues(values, keys), otherFields, PhysicalValues(otherValues, otherKeys), name);
    PhysicalAgree(values, keys, otherValues, otherKeys, name);
    if NamesOf(kwargs, name) == NamesOf(otherKwargs, name) {
      KeysUnique(keys, otherKeys, NamesOf(kwargs, name));
    }
    if keys == otherKeys {
      assert forall k :: k in NamesOf(kwargs, name) <==> k in keys;
    }
  }

  lemma PhysicalAgree(values: map<Bytes, Value>, keys: seq<Bytes>, otherValues: map<Bytes, Value>, otherKeys: seq<Bytes>, name: Name)
    requires AllUnique(values, name) && AllUnique(otherValues, name)
    ensures var p, q := PhysicalValues(values, keys), PhysicalValues(otherValues, otherKeys);
            PrintAlike(p, q, name) <==> keys == otherKeys && AgreeElsewhere(values, otherValues, name)
  {
    hide Normal, Same, KeyArray;
    var p, q := PhysicalValues(values, keys), PhysicalValues(otherValues, otherKeys);
    KeyArrayInjective(keys, otherKeys, name);
    forall key | key in values && key in otherValues
      ensures Normal(values[key], name) == Normal(otherValues[key], name) <==> Same(values[key], otherValues[key], name)
    {
      NormalExact(values[key], otherValues[key], name);
    }
    if PrintAlike(p, q, name) {
      assert JINJA_KWARGS in p && JINJA_KWARGS in q;
      forall key | key != JINJA_KWARGS && key != KWARGS_PRECEDENCE
        ensures key in values <==> key in otherValues
        ensures key in values && key in otherValues ==> Same(values[key], otherValues[key], name)
      {
        assert key in p <==> key in values;
        assert key in q <==> key in otherValues;
      }
    }
    if keys == otherKeys && AgreeElsewhere(values, otherValues, name) {
      forall key
        ensures key in p <==> key in q
        ensures key in p && key in q ==> Normal(p[key], name) == Normal(q[key], name)
      {
        assert key == JINJA_KWARGS || key == KWARGS_PRECEDENCE || (key in values <==> key in otherValues);
      }
    }
  }

  /** The text that is hashed, or nothing when the arguments are no proper object or a value repeats a member. */
  method PhysicalLoadText(values: map<Bytes, Value>, kwargs: Option<Value>, name: Name, ghost bound: nat) returns (text: Option<Bytes>)
    requires AllUnique(values, name) && forall key | key in values :: Size(values[key]) < bound
    ensures text.Some? <==> (kwargs.Some? ==> (kwargs.value.Object? || kwargs.value.EmptyObject?) && Unique(kwargs.value, name))
    ensures text.Some? ==> Hashes(text.value, values, kwargs, name)
  {
    hide CanonicalText, Normal, Stands, Same, Ascending, Unique, KeyArray;
    var keys: seq<Bytes> := [];
    if kwargs.Some? {
      var arguments := DecodeUnique(kwargs.value, name);
      if arguments.None? {
        return None;
      }
      keys := SortedKeys(arguments.value.Keys);
    } else {
      NothingListed();
    }
    KeyArrayInjective(keys, keys, name);
    var physical := (values - {KWARGS_PRECEDENCE})[JINJA_KWARGS := KeyArray(keys)];
    ghost var fields;
    text, fields := CanonicalObject(physical, name, bound + 1 + Size(KeyArray(keys)));
    assert ListsNames(keys, NamesOf(kwargs, name)) && physical == PhysicalValues(values, keys);
  }

  lemma NothingListed()
    ensures Ascending(KeyChars([]))
  {
  }

  // Profiles

  /** A configuration value that is text, read as a JSON document. */
  datatype Embedded = Blank | Malformed | Parsed(value: Value)

  datatype Kwargs = NoKwargs | BadKwargs | SomeKwargs(value: Value)

  predicate IsNull(v: Value) {
    v.Scalar? && v.text == Ascii("null")
  }

  function ObjectKwargs(v: Value, name: Name): Kwargs {
    if (v.Object? || v.EmptyObject?) && Unique(v, name) then SomeKwargs(v) else BadKwargs
  }

  /** The template arguments of a configuration: an object, or a text that holds one. */
  function ReadKwargs(values: map<Bytes, Value>, embedded: seq<Unit> -> Embedded, name: Name): Kwargs {
    if JINJA_KWARGS !in values || IsNull(values[JINJA_KWARGS]) then NoKwargs
    else
      var v := values[JINJA_KWARGS];
      if v.Text? then
        match embedded(v.units)
        case Blank => NoKwargs
        case Malformed => BadKwargs
        case Parsed(w) => if IsNull(w) then NoKwargs else ObjectKwargs(w, name)
      else ObjectKwargs(v, name)
  }

  function Given(kwargs: Kwargs): Option<Value> {
    if kwargs.SomeKwargs? then Some(kwargs.value) else None
  }

  predicate RouterOnly(key: Bytes) {
    |key| >= |ROUTER_PREFIX| && key[..|ROUTER_PREFIX|] == ROUTER_PREFIX
  }

  /** The values that reach the launched process. */
  function LaunchValues(values: map<Bytes, Value>, injects: bool): map<Bytes, Value> {
    map key | key in values && !RouterOnly(key) && !(injects && (key == GENERATION_DEFAULTS || key == GENERATION_DEFAULTS_OVERWRITE)) :: values[key]
  }

  datatype Policy = Policy(shareByLaunch: bool, injects: map<Bytes, Value> -> bool)

  function LoadValues(policy: Policy, values: map<Bytes, Value>): map<Bytes, Value> {
    if policy.shareByLaunch then LaunchValues(values, policy.injects(values)) else values
  }

  predicate IsObject(v: Value) {
    v.Object? || v.EmptyObject?
  }

  /** The precedence setting is missing, null or one of two words; `word` reads a text
      without the white space around it and in lower case. */
  predicate PrecedenceReadable(values: map<Bytes, Value>, word: seq<Unit> -> Bytes) {
    KWARGS_PRECEDENCE in values && !IsNull(values[KWARGS_PRECEDENCE]) ==>
      && values[KWARGS_PRECEDENCE].Text?
      && word(values[KWARGS_PRECEDENCE].units) in {Ascii("config"), Ascii("client")}
  }

  /** The text hashed for a configuration; a faulty configuration has none. */
  method ProfileText(content: Value, policy: Policy, embedded: seq<Unit> -> Embedded, word: seq<Unit> -> Bytes, name: Name)
    returns (text: Option<Bytes>)
    ensures text.Some? <==>
              && IsObject(content) && Unique(content, name)
              && !ReadKwargs(Named(content, name), embedded, name).BadKwargs?
              && PrecedenceReadable(Named(content, name), word)
    ensures text.Some? ==> TextOf(text.value, content, policy, embedded, name)
  {
    hide Unique, Hashes;
    var decoded := DecodeUnique(content, name);
    if decoded.None? {
      return None;
    }
    var values := decoded.value;
    var kwargs := ReadKwargs(values, embedded, name);
    if kwargs.BadKwargs? || !PrecedenceReadable(values, word) {
      return None;
    }
    NamedUnique(content, name);
    text := PhysicalLoadText(LoadValues(policy, values), Given(kwargs), name, Size(content));
  }

  ghost predicate TextOf(text: Bytes, content: Value, policy: Policy, embedded: seq<Unit> -> Embedded, name: Name) {
    && IsObject(content) && Unique(content, name)
    && Hashes(text, LoadValues(policy, Named(content, name)), Given(ReadKwargs(Named(content, name), embedded, name)), name)
  }

  lemma NamedUnique(content: Value, name: Name)
    requires IsObject(content) && Unique(content, name)
    ensures AllUnique(Named(content, name), name)
    ensures forall key | key in Named(content, name) :: Size(Named(content, name)[key]) < Size(content)
  {
    if content.Object? {
      MembersUnique(content.members, name);
      MembersSmaller(content.members, name);
    }
  }

  function KwargsNames(content: Value, embedded: seq<Unit> -> Embedded, name: Name): set<Bytes>
    requires IsObject(content)
  {
    NamesOf(Given(ReadKwargs(Named(content, name), embedded, name)), name)
  }

  /** Two configurations have one hashed text exactly when their template
      arguments have the same names and the values to load with, but for those
      arguments and their precedence, agree up to member order and white space. */
  lemma SharesExactly(v: Value, w: Value, x: Bytes, y: Bytes, policy: Policy, embedded: seq<Unit> -> Embedded, name: Name)
    requires TextOf(x, v, policy, embedded, name) && TextOf(y, w, policy, embedded, name)
    ensures x == y <==>
            && KwargsNames(v, embedded, name) == KwargsNames(w, embedded, name)
            && AgreeElsewhere(LoadValues(policy, Named(v, name)), LoadValues(policy, Named(w, name)), name)
  {
    hide Hashes, Unique, AgreeElsewhere;
    NamedUnique(v, name);
    NamedUnique(w, name);
    HashedTextExact(x, LoadValues(policy, Named(v, name)), Given(ReadKwargs(Named(v, name), embedded, name)),
                    y, LoadValues(policy, Named(w, name)), Given(ReadKwargs(Named(w, name), embedded, name)), name);
  }

  lemma {:induction false} SameAsItself(v: Value, name: Name)
    requires Unique(v, name)
    ensures Same(v, v, name)
  {
    NormalExact(v, v, name);
  }

  /** Configurations that differ only in what their template arguments say, not in which there are, share a loaded model. */
  lemma KwargsValuesIrrelevant(v: Value, w: Value, x: Bytes, y: Bytes, policy: Policy, embedded: seq<Unit> -> Embedded, name: Name)
    requires TextOf(x, v, policy, embedded, name) && TextOf(y, w, policy, embedded, name)
    requires Named(v, name) - {JINJA_KWARGS} == Named(w, name) - {JINJA_KWARGS}
    requires policy.shareByLaunch ==> policy.injects(Named(v, name)) == policy.injects(Named(w, name))
    requires KwargsNames(v, embedded, name) == KwargsNames(w, embedded, name)
    ensures x == y
  {
    hide Hashes, Unique, Same, KwargsNames;
    var a, b := LoadValues(policy, Named(v, name)), LoadValues(policy, Named(w, name));
    NamedUnique(v, name);
    NamedUnique(w, name);
    forall key | key != JINJA_KWARGS && key != KWARGS_PRECEDENCE
      ensures (key in a <==> key in b) && (key in a && key in b ==> Same(a[key], b[key], name))
    {
      assert key in Named(v, name) - {JINJA_KWARGS} <==> key in Named(v, name);
      assert key in Named(w, name) - {JINJA_KWARGS} <==> key in Named(w, name);
      if key in a && key in b {
        assert a[key] == (Named(v, name) - {JINJA_KWARGS})[key] == (Named(w, name) - {JINJA_KWARGS})[key] == b[key];
        SameAsItself(a[key], name);
      }
    }
    SharesExactly(v, w, x, y, policy, embedded, name);
  }
}

/** JSON values, the compact text the snippet writer produces for them, and a reader of
    that text.  Objects keep their members in printed order; a number is its token. */
module JsonText {
  import opened Contracts
  import opened NixString

  datatype Value =
    | Null
    | Bool(flag: bool)
    | Number(token: Text)
    | Str(text: Text)
    | Array(items: Items)
    | Object(members: Members)

  datatype Items = NoItem | Item(value: Value, rest: Items)

  datatype Members = NoMember | Member(key: Text, value: Value, rest: Members)

  const COMMA: Code := 44
  const COLON: Code := 58
  const OPEN_ARRAY: Code := 91
  const CLOSE_ARRAY: Code := 93
  const OPEN_OBJECT: Code := 123
  const CLOSE_OBJECT: Code := 125

  const NULL: Text := [110, 117, 108, 108]
  const TRUE: Text := [116, 114, 117, 101]
  const FALSE: Text := [102, 97, 108, 115, 101]

  /** Digits, signs, point and exponent letters. */
  predicate NumberCode(c: Code) {
    48 <= c <= 57 || c == 45 || c == 43 || c == 46 || c == 101 || c == 69
  }

  predicate StartsNumber(c: Code) {
    48 <= c <= 57 || c == 45
  }

  predicate Token(t: Text) {
    t != [] && StartsNumber(t[0]) && forall i :: 0 <= i < |t| ==> NumberCode(t[i])
  }

  predicate WellFormed(v: Value) {
    match v
    case Number(token) => Token(token)
    case Array(items) => ItemsFormed(items)
    case Object(members) => MembersFormed(members)
    case _ => true
  }

  predicate ItemsFormed(items: Items) {
    items.Item? ==> WellFormed(items.value) && ItemsFormed(items.rest)
  }

  predicate MembersFormed(members: Members) {
    members.Member? ==> WellFormed(members.value) && MembersFormed(members.rest)
  }

  // ---------------------------------------------------------------------- printing

  function Print(v: Value): Text {
    match v
    case Null => NULL
    case Bool(flag) => if flag then TRUE else FALSE
    case Number(token) => token
    case Str(text) => JsonString(text, true)
    case Array(items) => [OPEN_ARRAY] + PrintItems(items, true)
    case Object(members) => [OPEN_OBJECT] + PrintMembers(members, true)
  }

  function Separator(first: bool): Text {
    if first then [] else [COMMA]
  }

  function PrintItems(items: Items, first: bool): Text {
    match items
    case NoItem => [CLOSE_ARRAY]
    case Item(value, rest) => Separator(first) + Print(value) + PrintItems(rest, false)
  }

  function PrintMembers(members: Members, first: bool): Text {
    match members
    case NoMember => [CLOSE_OBJECT]
    case Member(key, value, rest) =>
      Separator(first) + JsonString(key, true) + [COLON] + Print(value) + PrintMembers(rest, false)
  }

  // ----------------------------------------------------------------------- reading

  function NumberEnd(t: Text): (n: nat)
    ensures n <= |t|
    ensures t != [] && NumberCode(t[0]) ==> n > 0
  {
    if t == [] || !NumberCode(t[0]) then 0 else 1 + NumberEnd(t[1..])
  }

  /** The value at the start of a compact JSON text, and what follows it. */
  function Read(t: Text): (r: Option<(Value, Text)>)
    ensures r.Some? ==> |r.value.1| < |t|
    decreases |t|, 0
  {
    if t == [] then None
    else if t[0] == QUOTE then
      var text := JsonRest(t[1..]);
      if text.None? then None else Some((Str(text.value.0), text.value.1))
    else if t[0] == OPEN_ARRAY then
      var items := ReadItems(t[1..], true);
      if items.None? then None else Some((Array(items.value.0), items.value.1))
    else if t[0] == OPEN_OBJECT then
      var members := ReadMembers(t[1..], true);
      if members.None? then None else Some((Object(members.value.0), members.value.1))
    else if NULL <= t then Some((Null, t[4..]))
    else if TRUE <= t then Some((Bool(true), t[4..]))
    else if FALSE <= t then Some((Bool(false), t[5..]))
    else if StartsNumber(t[0]) then Some((Number(t[..NumberEnd(t)]), t[NumberEnd(t)..]))
    else None
  }

  /** Past the comma, where one is due. */
  function Separated(t: Text, first: bool): (r: Option<Text>)
    ensures r.Some? ==> |r.value| <= |t|
  {
    if first then Some(t) else if t != [] && t[0] == COMMA then Some(t[1..]) else None
  }

  function ReadItems(t: Text, first: bool): (r: Option<(Items, Text)>)
    ensures r.Some? ==> |r.value.1| < |t|
    decreases |t|, 1
  {
    if t != [] && t[0] == CLOSE_ARRAY then Some((NoItem, t[1..]))
    else
      var start := Separated(t, first);
      if start.None? then None
      else
        var value := Read(start.value);
        if value.None? then None
        else
          var rest := ReadItems(value.value.1, false);
          if rest.None? then None else Some((Item(value.value.0, rest.value.0), rest.value.1))
  }

  function ReadMembers(t: Text, first: bool): (r: Option<(Members, Text)>)
    ensures r.Some? ==> |r.value.1| < |t|
    decreases |t|, 1
  {
    if t != [] && t[0] == CLOSE_OBJECT then Some((NoMember, t[1..]))
    else
      var start := Separated(t, first);
      if start.None? || start.value == [] || start.value[0] != QUOTE then None
      else
        var key := JsonRest(start.value[1..]);
        if key.None? || key.value.1 == [] || key.value.1[0] != COLON then None
        else
          var value := Read(key.value.1[1..]);
          if value.None? then None
          else
            var rest := ReadMembers(value.value.1, false);
            if rest.None? then None
            else Some((Member(key.value.0, value.value.0, rest.value.0), rest.value.1))
  }

  // -------------------------------------------------------------------- round trip

  /** The value with every split surrogate pair joined. */
  function MergedValue(v: Value): Value {
    match v
    case Str(text) => Str(Merged(text))
    case Array(items) => Array(MergedItems(items))
    case Object(members) => Object(MergedMembers(members))
    case _ => v
  }

  function MergedItems(items: Items): Items {
    match items
    case NoItem => NoItem
    case Item(value, rest) => Item(MergedValue(value), MergedItems(rest))
  }

  function MergedMembers(members: Members): Members {
    match members
    case NoMember => NoMember
    case Member(key, value, rest) => Member(Merged(key), MergedValue(value), MergedMembers(rest))
  }

  predicate Whole(v: Value) {
    match v
    case Str(text) => NoSplitPair(text)
    case Array(items) => WholeItems(items)
    case Object(members) => WholeMembers(members)
    case _ => true
  }

  predicate WholeItems(items: Items) {
    items.Item? ==> Whole(items.value) && WholeItems(items.rest)
  }

  predicate WholeMembers(members: Members) {
    members.Member? ==> NoSplitPair(members.key) && Whole(members.value) && WholeMembers(members.rest)
  }

  /** What may follow a value: nothing that could continue a number. */
  predicate Closed(rest: Text) {
    rest == [] || !NumberCode(rest[0])
  }

  lemma {:induction false} NumberEndsThere(token: Text, rest: Text)
    requires (forall i :: 0 <= i < |token| ==> NumberCode(token[i])) && Closed(rest)
    ensures NumberEnd(token + rest) == |token|
    decreases |token|
  {
    if token == [] {
      assert token + rest == rest;
    } else {
      assert (token + rest)[0] == token[0] && (token + rest)[1..] == token[1..] + rest;
      NumberEndsThere(token[1..], rest);
    }
  }

  lemma ReadString(text: Text, rest: Text)
    ensures var t := JsonString(text, true) + rest;
            t != [] && t[0] == QUOTE && JsonRest(t[1..]) == Some((Merged(text), rest))
  {
    var t := JsonString(text, true) + rest;
    assert t == [QUOTE] + (JsonBody(text, true) + [QUOTE] + rest);
    assert t[1..] == JsonBody(text, true) + [QUOTE] + rest;
    JsonReadsBody(text, rest);
  }

  lemma ReadWord(v: Value, rest: Text)
    requires v.Null? || v.Bool?
    ensures Read(Print(v) + rest) == Some((v, rest))
  {
    var word := Print(v);
    var t := word + rest;
    assert t[0] == word[0] && t[|word|..] == rest && word <= t;
    assert t[1] == word[1];
  }

  lemma ReadNumber(token: Text, rest: Text)
    requires Token(token) && Closed(rest)
    ensures Read(token + rest) == Some((Number(token), rest))
  {
    var t := token + rest;
    NumberEndsThere(token, rest);
    assert t[0] == token[0] && t[..|token|] == token && t[|token|..] == rest;
  }

  lemma PrintItemsCloses(items: Items, rest: Text)
    ensures Closed(PrintItems(items, false) + rest)
  {
    hide Print;
    var t := PrintItems(items, false);
    assert t[0] == COMMA || t[0] == CLOSE_ARRAY;
  }

  lemma PrintMembersCloses(members: Members, rest: Text)
    ensures Closed(PrintMembers(members, false) + rest)
  {
    hide Print, JsonString;
    var t := PrintMembers(members, false);
    assert t[0] == COMMA || t[0] == CLOSE_OBJECT;
  }

  lemma ReadPlain(v: Value, rest: Text)
    requires WellFormed(v) && Closed(rest) && (v.Number? || v.Str?)
    ensures Read(Print(v) + rest) == Some((MergedValue(v), rest))
  {
    hide JsonString, JsonRest, ReadItems, ReadMembers;
    if v.Number? { ReadNumber(v.token, rest); } else { ReadString(v.text, rest); }
  }

  lemma ReadArray(items: Items, rest: Text)
    requires ReadItems(PrintItems(items, true) + rest, true) == Some((MergedItems(items), rest))
    ensures Read(Print(Array(items)) + rest) == Some((MergedValue(Array(items)), rest))
  {
    hide ReadItems, PrintItems, MergedItems;
    var t := Print(Array(items)) + rest;
    assert t == [OPEN_ARRAY] + (PrintItems(items, true) + rest);
    assert t[0] == OPEN_ARRAY && t[1..] == PrintItems(items, true) + rest;
  }

  lemma ReadObject(members: Members, rest: Text)
    requires ReadMembers(PrintMembers(members, true) + rest, true) == Some((MergedMembers(members), rest))
    ensures Read(Print(Object(members)) + rest) == Some((MergedValue(Object(members)), rest))
  {
    hide ReadMembers, PrintMembers, MergedMembers;
    var t := Print(Object(members)) + rest;
    assert t == [OPEN_OBJECT] + (PrintMembers(members, true) + rest);
    assert t[0] == OPEN_OBJECT && t[1..] == PrintMembers(members, true) + rest;
  }

  lemma {:induction false} ReadPrinted(v: Value, rest: Text)
    requires WellFormed(v) && Closed(rest)
    ensures Read(Print(v) + rest) == Some((MergedValue(v), rest))
    decreases v
  {
    hide Read, Print, ReadItems, ReadMembers, PrintItems, PrintMembers;
    match v
    case Null => ReadWord(v, rest);
    case Bool(_) => ReadWord(v, rest);
    case Number(_) => ReadPlain(v, rest);
    case Str(_) => ReadPlain(v, rest);
    case Array(items) =>
      ReadPrintedItems(items, true, rest);
      ReadArray(items, rest);
    case Object(members) =>
      ReadPrintedMembers(members, true, rest);
      ReadObject(members, rest);
  }

  /** Every printed value starts with a character that closes no array. */
  lemma PrintStarts(v: Value)
    requires WellFormed(v)
    ensures Print(v) != [] && Print(v)[0] != CLOSE_ARRAY
  {
    hide JsonBody, PrintItems, PrintMembers;
  }

  lemma {:induction false} ReadPrintedItems(items: Items, first: bool, rest: Text)
    requires ItemsFormed(items)
    ensures ReadItems(PrintItems(items, first) + rest, first) == Some((MergedItems(items), rest))
    decreases items
  {
    hide Print, Read;
    var t := PrintItems(items, first) + rest;
    match items
    case NoItem => assert t[0] == CLOSE_ARRAY && t[1..] == rest;
    case Item(value, more) =>
      var after := PrintItems(more, false) + rest;
      PrintItemsCloses(more, rest);
      ReadPrinted(value, after);
      ReadPrintedItems(more, false, rest);
      PrintStarts(value);
      assert t == Separator(first) + (Print(value) + after);
      if first {
        assert t == Print(value) + after && t[0] == Print(value)[0];
      } else {
        assert t[0] == COMMA && t[1..] == Print(value) + after;
      }
  }

  lemma MemberRead(t: Text, first: bool, start: Text, key: (Text, Text), value: (Value, Text), more: (Members, Text))
    requires t != [] && t[0] != CLOSE_OBJECT && Separated(t, first) == Some(start)
    requires start != [] && start[0] == QUOTE && JsonRest(start[1..]) == Some(key)
    requires key.1 != [] && key.1[0] == COLON && Read(key.1[1..]) == Some(value)
    requires ReadMembers(value.1, false) == Some(more)
    ensures ReadMembers(t, first) == Some((Member(key.0, value.0, more.0), more.1))
  {
    hide Read, JsonRest, Separated;
  }

  lemma {:induction false} ReadPrintedMembers(members: Members, first: bool, rest: Text)
    requires MembersFormed(members)
    ensures ReadMembers(PrintMembers(members, first) + rest, first) == Some((MergedMembers(members), rest))
    decreases members
  {
    hide Print, Read, JsonString, JsonRest, Separator, Separated, Closed;
    var t := PrintMembers(members, first) + rest;
    match members
    case NoMember => assert t[0] == CLOSE_OBJECT && t[1..] == rest;
    case Member(key, value, more) =>
      hide ReadMembers;
      var quoted, printed, tail := JsonString(key, true), Print(value), PrintMembers(more, false);
      var after := tail + rest;
      var colon := [COLON] + (printed + after);
      PrintMembersCloses(more, rest);
      ReadPrinted(value, after);
      ReadPrintedMembers(more, false, rest);
      ReadString(key, colon);
      MemberLayout(first, quoted, printed, tail, rest);
      MemberRead(t, first, quoted + colon, (Merged(key), colon), (MergedValue(value), after), (MergedMembers(more), rest));
  }

  lemma MemberLayout(first: bool, quoted: Text, printed: Text, tail: Text, rest: Text)
    ensures var colon := [COLON] + (printed + (tail + rest));
            var start := quoted + colon;
            var t := Separator(first) + quoted + [COLON] + printed + tail + rest;
            && t != [] && Separated(t, first) == Some(start)
            && (start[0] == QUOTE ==> t[0] != CLOSE_OBJECT)
            && colon[0] == COLON && colon[1..] == printed + (tail + rest)
  {
    var colon := [COLON] + (printed + (tail + rest));
    var t := Separator(first) + quoted + [COLON] + printed + tail + rest;
    assert t == Separator(first) + (quoted + colon);
    if first { assert t == quoted + colon; } else { assert t[0] == COMMA && t[1..] == quoted + colon; }
  }

  lemma {:induction false} MergedValueSame(v: Value)
    ensures MergedValue(v) == v <==> Whole(v)
    decreases v
  {
    match v
    case Str(text) => MergedSame(text);
    case Array(items) => MergedItemsSame(items);
    case Object(members) => MergedMembersSame(members);
    case _ =>
  }

  lemma {:induction false} MergedItemsSame(items: Items)
    ensures MergedItems(items) == items <==> WholeItems(items)
    decreases items
  {
    if items.Item? {
      MergedValueSame(items.value);
      MergedItemsSame(items.rest);
    }
  }

  lemma {:induction false} MergedMembersSame(members: Members)
    ensures MergedMembers(members) == members <==> WholeMembers(members)
    decreases members
  {
    if members.Member? {
      MergedSame(members.key);
      MergedValueSame(members.value);
      MergedMembersSame(members.rest);
    }
  }

  lemma StringPrintable(text: Text)
    ensures Printable(JsonString(text, true))
  {
    AsciiBody(text);
  }

  lemma {:induction false} PrintedPrintable(v: Value)
    requires WellFormed(v)
    ensures Printable(Print(v))
    decreases v
  {
    match v
    case Number(token) =>
    case Str(text) => StringPrintable(text);
    case Array(items) => ItemsPrintable(items, true);
    case Object(members) => MembersPrintable(members, true);
    case _ =>
  }

  lemma {:induction false} ItemsPrintable(items: Items, first: bool)
    requires ItemsFormed(items)
    ensures Printable(PrintItems(items, first))
    decreases items
  {
    if items.Item? {
      PrintedPrintable(items.value);
      ItemsPrintable(items.rest, false);
    }
  }

  lemma {:induction false} MembersPrintable(members: Members, first: bool)
    requires MembersFormed(members)
    ensures Printable(PrintMembers(members, first))
    decreases members
  {
    if members.Member? {
      StringPrintable(members.key);
      PrintedPrintable(members.value);
      MembersPrintable(members.rest, false);
    }
  }

  /** A value written as JSON inside a Nix string comes back through Nix and a JSON reader,
      whatever its strings contain, exactly when no string holds a split surrogate pair. */
  lemma ValueThroughNix(v: Value)
    requires WellFormed(v)
    ensures NixDecode(NixLiteral(Print(v))) == Some(Print(v))
    ensures Read(Print(v)) == Some((MergedValue(v), []))
    ensures Read(NixDecode(NixLiteral(Print(v))).value) == Some((v, [])) <==> Whole(v)
  {
    PrintedPrintable(v);
    NixRoundTrip(Print(v));
    ReadPrinted(v, []);
    assert Print(v) + [] == Print(v);
    MergedValueSame(v);
  }

  /** Two halves of a surrogate pair come back as the one code point they spell. */
  lemma SplitPairIsJoined(high: Code, low: Code)
    requires High(high) && Low(low)
    ensures var v := Str([high, low]);
            && NixDecode(NixLiteral(Print(v))) == Some(Print(v))
            && Read(Print(v)) == Some((Str([Joined(high, low)]), []))
  {
    hide Print, Read, NixDecode, NixLiteral, Joined;
    ValueThroughNix(Str([high, low]));
    assert [high, low][2..] == [] && Merged([]) == [];
    assert Merged([high, low]) == [Joined(high, low)] + [] == [Joined(high, low)];
  }
}

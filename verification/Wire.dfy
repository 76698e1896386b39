/** The text of an event stream: what prism-adapter/server.py writes for
    `completed_events`, and how the gateway takes it apart again, by lines. */
module Wire {
  import opened Prelude
  import opened Json
  import opened EventStream

  // ---------------------------------------------------------------- one event as JSON

  datatype Kind =
    | AsResponse | AsProgress | AsAdded | AsPart | AsText | AsWhole | AsArguments | AsInput | AsItem | AsEnd
  {
    function Name(): string {
      match this
      case AsResponse => "response.created"
      case AsProgress => "response.in_progress"
      case AsAdded => "response.output_item.added"
      case AsPart => "response.content_part.added"
      case AsText => "response.output_text.done"
      case AsWhole => "response.content_part.done"
      case AsArguments => "response.function_call_arguments.done"
      case AsInput => "response.custom_tool_call_input.done"
      case AsItem => "response.output_item.done"
      case AsEnd => "response.completed"
    }
  }

  function KindNamed(name: string): Option<Kind> {
    if name == "response.created" then Some(AsResponse)
    else if name == "response.in_progress" then Some(AsProgress)
    else if name == "response.output_item.added" then Some(AsAdded)
    else if name == "response.content_part.added" then Some(AsPart)
    else if name == "response.output_text.done" then Some(AsText)
    else if name == "response.content_part.done" then Some(AsWhole)
    else if name == "response.function_call_arguments.done" then Some(AsArguments)
    else if name == "response.custom_tool_call_input.done" then Some(AsInput)
    else if name == "response.output_item.done" then Some(AsItem)
    else if name == "response.completed" then Some(AsEnd)
    else None
  }

  function KindOf(e: Event): Kind {
    match e
    case Created(_) => AsResponse
    case InProgress(_) => AsProgress
    case ItemAdded(_, _) => AsAdded
    case PartAdded(_, _, _, _) => AsPart
    case TextDone(_, _, _, _) => AsText
    case PartDone(_, _, _, _) => AsWhole
    case ArgumentsDone(_, _, _) => AsArguments
    case InputDone(_, _, _) => AsInput
    case ItemDone(_, _) => AsItem
    case Completed(_) => AsEnd
  }

  function Placed(index: int, more: Fields): Fields {
    Field("output_index", Int(index), more)
  }

  function Details(index: int, id: Json, more: Fields): Fields {
    Placed(index, Field("item_id", id, more))
  }

  function InPart(index: int, id: Json, place: int, more: Fields): Fields {
    Details(index, id, Field("content_index", Int(place), more))
  }

  function Payload(e: Event): Fields {
    match e
    case Created(r) => Field("response", Obj(r), NoFields)
    case InProgress(r) => Field("response", Obj(r), NoFields)
    case ItemAdded(i, item) => Placed(i, Field("item", Obj(item), NoFields))
    case PartAdded(i, id, p, part) => InPart(i, id, p, Field("part", Obj(part), NoFields))
    case TextDone(i, id, p, text) => InPart(i, id, p, Field("text", text, NoFields))
    case PartDone(i, id, p, part) => InPart(i, id, p, Field("part", Obj(part), NoFields))
    case ArgumentsDone(i, id, v) => Details(i, id, Field("arguments", v, NoFields))
    case InputDone(i, id, v) => Details(i, id, Field("input", v, NoFields))
    case ItemDone(i, item) => Placed(i, Field("item", Obj(item), NoFields))
    case Completed(r) => Field("response", Obj(r), NoFields)
  }

  /** What `emit` appends when `n` events are there already. */
  function Encode(e: Event, n: nat): Json {
    Obj(Field("type", Str(KindOf(e).Name()), Field("sequence_number", Int(n), Payload(e))))
  }

  function IntAt(f: Fields, key: string): Option<int> {
    match Get(f, key)
    case Some(Int(n)) => Some(n)
    case _ => None
  }

  function ObjAt(f: Fields, key: string): Option<Fields> {
    match Get(f, key)
    case Some(Obj(g)) => Some(g)
    case _ => None
  }

  function ReadPart(kind: Kind, f: Fields): Option<Event> {
    var i :- IntAt(f, "output_index");
    var id :- Get(f, "item_id");
    var p :- IntAt(f, "content_index");
    if kind == AsText then
      var text :- Get(f, "text");
      Some(TextDone(i, id, p, text))
    else
      var part :- ObjAt(f, "part");
      Some(if kind == AsPart then PartAdded(i, id, p, part) else PartDone(i, id, p, part))
  }

  function ReadCall(kind: Kind, f: Fields): Option<Event> {
    var i :- IntAt(f, "output_index");
    var id :- Get(f, "item_id");
    if kind == AsArguments then
      var v :- Get(f, "arguments");
      Some(ArgumentsDone(i, id, v))
    else
      var v :- Get(f, "input");
      Some(InputDone(i, id, v))
  }

  function ReadItem(kind: Kind, f: Fields): Option<Event> {
    var i :- IntAt(f, "output_index");
    var item :- ObjAt(f, "item");
    Some(if kind == AsAdded then ItemAdded(i, item) else ItemDone(i, item))
  }

  function ReadResponse(kind: Kind, f: Fields): Option<Event> {
    var r :- ObjAt(f, "response");
    Some(if kind == AsResponse then Created(r) else if kind == AsProgress then InProgress(r) else Completed(r))
  }

  function ReadEvent(kind: Kind, f: Fields): Option<Event> {
    if kind == AsResponse || kind == AsProgress || kind == AsEnd then ReadResponse(kind, f)
    else if kind == AsAdded || kind == AsItem then ReadItem(kind, f)
    else if kind == AsArguments || kind == AsInput then ReadCall(kind, f)
    else ReadPart(kind, f)
  }

  /** The event and its sequence number. */
  function Decode(v: Json): Option<(Event, int)> {
    if !v.Obj? then None
    else
      var n :- IntAt(v.fields, "sequence_number");
      match Get(v.fields, "type")
      case Some(Str(name)) =>
        var kind :- KindNamed(name);
        var e :- ReadEvent(kind, v.fields);
        Some((e, n))
      case _ => None
  }

  /** Names of equal length that have to be told apart. */
  lemma {:induction false} KeysDiffer()
    ensures "type" != "item" && "type" != "part" && "type" != "text"
  {
    assert "type"[0] != "item"[0] && "type"[0] != "part"[0] && "type"[1] != "text"[1];
  }

  lemma {:induction false} NamedKind(kind: Kind)
    ensures KindNamed(kind.Name()) == Some(kind)
  {
    assert "response.output_item.added"[9] != "response.content_part.done"[9];
    assert "response.output_item.done"[16] != "response.output_text.done"[16];
    assert "response.function_call_arguments.done"[9] != "response.custom_tool_call_input.done"[9];
  }

  lemma {:induction false} PayloadAt(e: Event, n: nat, key: string)
    requires key != "type" && key != "sequence_number"
    ensures Get(Encode(e, n).fields, key) == Get(Payload(e), key)
  {
    assert Get(Field("sequence_number", Int(n), Payload(e)), key) == Get(Payload(e), key);
  }

  lemma {:induction false} PartAt(i: int, id: Json, p: int, more: Fields, key: string)
    requires key != "output_index" && key != "item_id" && key != "content_index"
    ensures Get(InPart(i, id, p, more), key) == Get(more, key) == Get(Details(i, id, more), key)
    ensures Get(InPart(i, id, p, more), "content_index") == Some(Int(p))
    ensures Get(InPart(i, id, p, more), "item_id") == Some(id) == Get(Details(i, id, more), "item_id")
  {
    var last := Field("content_index", Int(p), more);
    var middle := Field("item_id", id, last);
    assert Get(middle, key) == Get(last, key) == Get(more, key);
    assert Get(middle, "content_index") == Get(last, "content_index");
  }

  lemma {:induction false} EncodedPart(e: Event, n: nat)
    requires e.PartAdded? || e.PartDone? || e.TextDone?
    ensures ReadPart(KindOf(e), Encode(e, n).fields) == Some(e)
  {
    KeysDiffer();
    PayloadAt(e, n, "output_index");
    PayloadAt(e, n, "item_id");
    PayloadAt(e, n, "content_index");
    PayloadAt(e, n, "text");
    PayloadAt(e, n, "part");
    PartAt(e.index, e.id, e.place, Payload(e).rest.rest.rest, if e.TextDone? then "text" else "part");
  }

  lemma {:induction false} EncodedCall(e: Event, n: nat)
    requires e.ArgumentsDone? || e.InputDone?
    ensures ReadCall(KindOf(e), Encode(e, n).fields) == Some(e)
  {
    KeysDiffer();
    PayloadAt(e, n, "output_index");
    PayloadAt(e, n, "item_id");
    PayloadAt(e, n, "arguments");
    PayloadAt(e, n, "input");
    PartAt(e.index, e.id, 0, Payload(e).rest.rest, if e.InputDone? then "input" else "arguments");
  }

  lemma {:induction false} EncodedItem(e: Event, n: nat)
    requires e.ItemAdded? || e.ItemDone?
    ensures ReadItem(KindOf(e), Encode(e, n).fields) == Some(e)
  {
    KeysDiffer();
    PayloadAt(e, n, "output_index");
    PayloadAt(e, n, "item");
  }

  lemma {:induction false} EncodedResponse(e: Event, n: nat)
    requires e.Created? || e.InProgress? || e.Completed?
    ensures ReadResponse(KindOf(e), Encode(e, n).fields) == Some(e)
  {
    PayloadAt(e, n, "response");
  }

  /** The payload is read by the function its kind selects. */
  lemma {:induction false} EncodedPayload(e: Event, n: nat)
    ensures ReadEvent(KindOf(e), Encode(e, n).fields) == Some(e)
  {
    if e.ItemAdded? || e.ItemDone? {
      EncodedItem(e, n);
    } else if e.ArgumentsDone? || e.InputDone? {
      EncodedCall(e, n);
    } else if e.PartAdded? || e.PartDone? || e.TextDone? {
      EncodedPart(e, n);
    } else {
      EncodedResponse(e, n);
    }
  }

  lemma {:induction false} EncodedEvent(e: Event, n: nat)
    ensures Decode(Encode(e, n)) == Some((e, n))
  {
    NamedKind(KindOf(e));
    var f := Encode(e, n).fields;
    assert Get(f, "sequence_number") == Get(f.rest, "sequence_number");
    EncodedPayload(e, n);
  }

  // ---------------------------------------------------------------- printed text has no line break

  predicate OneLine(s: string) {
    '\n' !in s
  }

  lemma {:induction false} DigitsOnOneLine(s: string)
    requires DigitRun(s) == |s|
    ensures OneLine(s)
  {
    if s != "" {
      DigitsOnOneLine(s[1..]);
      assert s == [s[0]] + s[1..];
    }
  }

  lemma {:induction false} NumberOnOneLine(s: string)
    requires IsFloatSpelling(s)
    ensures OneLine(s)
  {
    var sign := SignLength(s);
    var b := s[sign..];
    var whole := IntLength(b);
    WholeIsDigits(b);
    DigitsOnOneLine(b[..whole]);
    MoreOnOneLine(b[whole..]);
    assert s == s[..sign] + b[..whole] + b[whole..];
  }

  lemma {:induction false} MoreOnOneLine(s: string)
    requires MoreLength(s) == |s|
    ensures OneLine(s)
  {
    var n := FractionLength(s);
    if n > 0 {
      DigitRunTaken(s[1..]);
      DigitsOnOneLine(s[1..][..n - 1]);
      assert s[..n] == [s[0]] + s[1..][..n - 1];
    }
    ExponentOnOneLine(s[n..]);
    assert s == s[..n] + s[n..];
  }

  lemma {:induction false} ExponentOnOneLine(s: string)
    requires ExponentLength(s) == |s|
    ensures OneLine(s)
  {
    if s != "" {
      var sign := if |s| > 1 && IsSign(s[1]) then 1 else 0;
      DigitsOnOneLine(s[1 + sign..]);
      assert s == s[..1 + sign] + s[1 + sign..];
    }
  }

  lemma {:induction false} EscapeOnOneLine(s: string)
    ensures OneLine(Escape(s))
  {
    if s != "" {
      EscapeOnOneLine(s[1..]);
    }
  }

  lemma {:induction false} PrintOnOneLine(v: Json, st: Style)
    requires Strict(v)
    ensures OneLine(Print(v, st))
    decreases v
  {
    match v
    case Int(n) =>
      DecimalDigits(if n < 0 then -n else n);
      DigitsOnOneLine(Decimal(if n < 0 then -n else n));
    case Float(l) => NumberOnOneLine(l);
    case Str(s) => EscapeOnOneLine(s);
    case Arr(items) => PrintItemsOnOneLine(items, st);
    case Obj(f) => PrintFieldsOnOneLine(f, st);
    case _ =>
  }

  lemma {:induction false} PrintItemsOnOneLine(items: Items, st: Style)
    requires StrictItems(items)
    ensures OneLine(PrintItems(items, st))
    decreases items
  {
    if items.Item? {
      PrintOnOneLine(items.head, st);
      PrintItemsOnOneLine(items.tail, st);
    }
  }

  lemma {:induction false} PrintFieldsOnOneLine(f: Fields, st: Style)
    requires StrictFields(f)
    ensures OneLine(PrintFields(f, st))
    decreases f
  {
    if f.Field? {
      EscapeOnOneLine(f.key);
      PrintOnOneLine(f.value, st);
      PrintFieldsOnOneLine(f.rest, st);
    }
  }

  // ---------------------------------------------------------------- lines

  function DataLine(v: Json): string {
    "data: " + Print(v, Compact)
  }

  function Block(e: Event, n: nat): string {
    "event: " + KindOf(e).Name() + "\n" + (DataLine(Encode(e, n)) + "\n" + "\n")
  }

  function Text(events: seq<Event>, n: nat): string {
    if events == [] then "" else Block(events[0], n) + Text(events[1..], n + 1)
  }

  function LineLength(s: string): (n: nat)
    ensures n <= |s|
  {
    if s == "" || s[0] == '\n' then 0 else 1 + LineLength(s[1..])
  }

  function Rest(s: string): string {
    if LineLength(s) < |s| then s[LineLength(s) + 1..] else ""
  }

  /** The JSON values of the lines that start with `data:`; other lines are ignored. */
  function Data(s: string): Option<seq<Json>>
    decreases |s|
  {
    if s == "" then Some([])
    else
      var line := s[..LineLength(s)];
      if "data:" <= line then
        var v :- Loads(line[5..]);
        var more :- Data(Rest(s));
        Some([v] + more)
      else Data(Rest(s))
  }

  lemma {:induction false} FirstLine(line: string, rest: string)
    requires OneLine(line)
    ensures LineLength(line + "\n" + rest) == |line|
    ensures Rest(line + "\n" + rest) == rest
  {
    var s := line + "\n" + rest;
    if line == "" {
      assert s == ['\n'] + rest;
    } else {
      FirstLine(line[1..], rest);
      assert s[1..] == line[1..] + "\n" + rest;
    }
    assert s[|line| + 1..] == rest;
  }

  lemma {:induction false} OtherLine(line: string, rest: string)
    requires OneLine(line) && !("data:" <= line)
    ensures Data(line + "\n" + rest) == Data(rest)
  {
    FirstLine(line, rest);
    assert (line + "\n" + rest)[..|line|] == line;
  }

  /** The blank after `data:` does not matter. */
  lemma {:induction false} LoadsAfterBlank(v: Json)
    requires Strict(v)
    ensures Loads([' '] + Print(v, Compact)) == Some(v)
  {
    var text := [' '] + Print(v, Compact);
    assert text[1..] == Print(v, Compact);
    PrintHead(v, Compact);
    DumpsRoundTrip(v, Compact);
  }

  lemma {:induction false} DataLineShape(v: Json)
    requires Strict(v)
    ensures OneLine(DataLine(v)) && "data:" <= DataLine(v) && DataLine(v)[5..] == [' '] + Print(v, Compact)
  {
    PrintOnOneLine(v, Compact);
  }

  lemma {:induction false} ValueLine(v: Json, line: string, rest: string)
    requires OneLine(line) && "data:" <= line && Loads(line[5..]) == Some(v)
    ensures Data(line + "\n" + rest) == match Data(rest) case None => None case Some(more) => Some([v] + more)
  {
    FirstLine(line, rest);
    assert (line + "\n" + rest)[..|line|] == line;
  }

  lemma {:induction false} KindOnOneLine(kind: Kind)
    ensures OneLine(kind.Name())
  {
    if kind == AsArguments || kind == AsInput {
      CallKindOnOneLine(kind);
    } else if kind == AsPart || kind == AsWhole || kind == AsAdded {
      LongKindOnOneLine(kind);
    }
  }

  lemma {:induction false} CallKindOnOneLine(kind: Kind)
    requires kind == AsArguments || kind == AsInput
    ensures OneLine(kind.Name())
  {
  }

  lemma {:induction false} LongKindOnOneLine(kind: Kind)
    requires kind == AsPart || kind == AsWhole || kind == AsAdded
    ensures OneLine(kind.Name())
  {
  }

  lemma {:induction false} BlockRead(e: Event, n: nat, rest: string)
    requires Strict(Encode(e, n))
    ensures Data(Block(e, n) + rest)
        == match Data(rest) case None => None case Some(more) => Some([Encode(e, n)] + more)
  {
    var name, data := "event: " + KindOf(e).Name(), DataLine(Encode(e, n));
    KindOnOneLine(KindOf(e));
    assert name[0] == 'e';
    assert Block(e, n) + rest == name + "\n" + (data + "\n" + ("" + "\n" + rest));
    OtherLine(name, data + "\n" + ("" + "\n" + rest));
    DataLineShape(Encode(e, n));
    LoadsAfterBlank(Encode(e, n));
    ValueLine(Encode(e, n), data, "" + "\n" + rest);
    OtherLine("", rest);
  }

  /** Each event with its own position, counted from `n`. */
  function Numbered(events: seq<Event>, n: nat): seq<Json> {
    if events == [] then [] else [Encode(events[0], n)] + Numbered(events[1..], n + 1)
  }

  predicate CanPrint(e: Event) {
    StrictFields(Payload(e))
  }

  predicate Printable(events: seq<Event>) {
    forall i :: 0 <= i < |events| ==> CanPrint(events[i])
  }

  lemma {:induction false} PayloadKeys(e: Event)
    ensures Distinct(Payload(e)) && "type" !in Keys(Payload(e)) && "sequence_number" !in Keys(Payload(e))
  {
    KeysDiffer();
    match e
    case Created(_) =>
    case InProgress(_) =>
    case Completed(_) =>
    case ItemAdded(i, item) =>
      LastKey(Field("item", Obj(item), NoFields));
    case ItemDone(i, item) =>
      LastKey(Field("item", Obj(item), NoFields));
    case PartAdded(i, id, p, part) =>
      LastKey(Field("part", Obj(part), NoFields));
      PartKeys(i, id, p, Field("part", Obj(part), NoFields));
    case PartDone(i, id, p, part) =>
      LastKey(Field("part", Obj(part), NoFields));
      PartKeys(i, id, p, Field("part", Obj(part), NoFields));
    case TextDone(i, id, p, text) =>
      LastKey(Field("text", text, NoFields));
      PartKeys(i, id, p, Field("text", text, NoFields));
    case ArgumentsDone(i, id, v) =>
      LastKey(Field("arguments", v, NoFields));
      PartKeys(i, id, 0, Field("arguments", v, NoFields));
    case InputDone(i, id, v) =>
      LastKey(Field("input", v, NoFields));
      PartKeys(i, id, 0, Field("input", v, NoFields));
  }

  lemma {:induction false} LastKey(f: Fields)
    requires f.Field? && f.rest.NoFields?
    ensures Keys(f) == {f.key} && Distinct(f)
  {
  }

  lemma {:induction false} PartKeys(i: int, id: Json, p: int, more: Fields)
    requires Distinct(more)
    requires !("output_index" in Keys(more) || "item_id" in Keys(more) || "content_index" in Keys(more))
    ensures Distinct(InPart(i, id, p, more)) && Distinct(Details(i, id, more))
    ensures Keys(InPart(i, id, p, more)) == Keys(more) + {"output_index", "item_id", "content_index"}
    ensures Keys(Details(i, id, more)) == Keys(more) + {"output_index", "item_id"}
  {
    var last := Field("content_index", Int(p), more);
    var middle := Field("item_id", id, last);
    assert Keys(last) == {"content_index"} + Keys(more);
    assert Keys(middle) == {"item_id"} + Keys(last);
    assert Distinct(middle);
  }

  lemma {:induction false} EncodedStrict(e: Event, n: nat)
    requires CanPrint(e)
    ensures Strict(Encode(e, n))
  {
    PayloadKeys(e);
    var tail := Field("sequence_number", Int(n), Payload(e));
    assert Keys(tail) == {"sequence_number"} + Keys(Payload(e));
    assert Distinct(tail) && StrictFields(tail) && "type" !in Keys(tail);
  }

  lemma {:induction false} TextRead(events: seq<Event>, n: nat)
    requires Printable(events)
    ensures Data(Text(events, n)) == Some(Numbered(events, n))
    decreases |events|
  {
    if events != [] {
      EncodedStrict(events[0], n);
      TextRead(events[1..], n + 1);
      BlockRead(events[0], n, Text(events[1..], n + 1));
    }
  }

  // ---------------------------------------------------------------- what the adapter sends can be printed

  lemma {:induction false} PlacedStrict(i: int, key: string, v: Json)
    requires Strict(v)
    ensures StrictFields(Placed(i, Field(key, v, NoFields)))
  {
  }

  lemma {:induction false} CallStrict(i: int, id: Json, key: string, v: Json)
    requires Strict(id) && Strict(v)
    ensures StrictFields(Details(i, id, Field(key, v, NoFields)))
  {
    assert StrictFields(Field(key, v, NoFields));
    assert StrictFields(Field("item_id", id, Field(key, v, NoFields)));
  }

  lemma {:induction false} PartStrict(i: int, id: Json, p: int, key: string, v: Json)
    requires Strict(id) && Strict(v)
    ensures StrictFields(InPart(i, id, p, Field(key, v, NoFields)))
  {
    var last := Field("content_index", Int(p), Field(key, v, NoFields));
    assert StrictFields(Field(key, v, NoFields));
    assert StrictFields(last);
    assert StrictFields(Field("item_id", id, last));
  }

  lemma {:induction false} PartPrintable(index: int, id: Json, place: int, part: Fields)
    requires Strict(id) && Strict(Obj(part)) && Get(part, "text").Some?
    ensures Printable(PartInThree(index, id, place, part))
  {
    PutIsStrict(part, "text", Str(""));
    StrictGet(part, "text");
    PartStrict(index, id, place, "part", Obj(Put(part, "text", Str(""))));
    PartStrict(index, id, place, "text", Get(part, "text").value);
    PartStrict(index, id, place, "part", Obj(part));
    var events := PartInThree(index, id, place, part);
    assert CanPrint(events[0]) && CanPrint(events[1]) && CanPrint(events[2]);
  }

  lemma {:induction false} PartsPrintable(parts: Items, index: int, id: Json, place: int)
    requires PartsOk(parts) && StrictItems(parts) && Strict(id)
    ensures Printable(PartEvents(parts, index, id, place))
    decreases parts
  {
    if parts.Item? {
      PartPrintable(index, id, place, parts.head.fields);
      PartsPrintable(parts.tail, index, id, place + 1);
    }
  }

  lemma {:induction false} DetailsPrintable(f: Fields, index: int)
    requires ItemOk(Obj(f)) && Strict(Obj(f))
    ensures Printable(EventStream.Details(f, index))
  {
    var id := Get(f, "id").value;
    StrictGet(f, "id");
    StrictGet(f, Body(f));
    if IsKind(f, "message") {
      PartsPrintable(Get(f, "content").value.items, index, id, 0);
    } else {
      CallStrict(index, id, Body(f), Get(f, Body(f)).value);
      assert CanPrint(EventStream.Details(f, index)[0]);
    }
  }

  lemma {:induction false} EmptiedStrict(f: Fields)
    requires Strict(Obj(f))
    ensures Strict(Obj(Emptied(f)))
  {
    PutIsStrict(f, "status", Str("in_progress"));
    PutIsStrict(Put(f, "status", Str("in_progress")), Body(f), if IsKind(f, "message") then Arr(NoItems) else Str(""));
  }

  lemma {:induction false} ItemPrintable(f: Fields, index: int)
    requires ItemOk(Obj(f)) && Strict(Obj(f))
    ensures Printable(ItemEvents(f, index))
  {
    DetailsPrintable(f, index);
    EmptiedStrict(f);
    PlacedStrict(index, "item", Obj(Emptied(f)));
    PlacedStrict(index, "item", Obj(f));
    assert CanPrint(ItemAdded(index, Emptied(f))) && CanPrint(ItemDone(index, f));
  }

  lemma {:induction false} AllPrintable(items: Items, index: int)
    requires ItemsOk(items) && StrictItems(items)
    ensures Printable(AllEvents(items, index))
    decreases items
  {
    if items.Item? {
      ItemPrintable(items.head.fields, index);
      AllPrintable(items.tail, index + 1);
    }
  }

  lemma {:induction false} StreamPrintable(response: Fields)
    requires ResponseOk(response) && Strict(Obj(response))
    ensures Printable(Stream(response))
  {
    StrictGet(response, "output");
    PutIsStrict(response, "status", Str("in_progress"));
    PutIsStrict(Put(response, "status", Str("in_progress")), "output", Arr(NoItems));
    AllPrintable(Output(response), 0);
    var r := Begun(response);
    assert CanPrint(Created(r)) && CanPrint(InProgress(r)) && CanPrint(Completed(response));
  }

  // ---------------------------------------------------------------- end to end

  /** Every value must be an event numbered by its position. */
  function Events(data: seq<Json>, n: nat): Option<seq<Event>> {
    if data == [] then Some([])
    else
      var (e, k) :- Decode(data[0]);
      if k != n then None
      else
        var more :- Events(data[1..], n + 1);
        Some([e] + more)
  }

  function Received(text: string): Option<Client> {
    var data :- Data(text);
    var events :- Events(data, 0);
    LearnAll(Waiting, events)
  }

  lemma {:induction false} NumberedEvents(events: seq<Event>, n: nat)
    ensures Events(Numbered(events, n), n) == Some(events)
    decreases |events|
  {
    if events != [] {
      EncodedEvent(events[0], n);
      NumberedEvents(events[1..], n + 1);
      assert events == [events[0]] + events[1..];
      assert Numbered(events, n)[1..] == Numbered(events[1..], n + 1);
    }
  }

  /** The bytes written for a finished response let a client that reads them line by line,
      insists on the numbers 0, 1, 2, ... and folds the events rebuild exactly the
      response's output, whatever text the items contain. */
  lemma {:induction false} TextReplay(response: Fields)
    requires ResponseOk(response) && Strict(Obj(response))
    ensures Received(Text(Stream(response), 0))
         == if AllDone(Output(response)) then Some(Finished(Output(response))) else None
  {
    StreamPrintable(response);
    TextRead(Stream(response), 0);
    NumberedEvents(Stream(response), 0);
    Replay(response);
  }
}

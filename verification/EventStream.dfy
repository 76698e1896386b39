/** Server-sent events for a finished response: prism-adapter/response_events.py, and the
    text prism-adapter/server.py writes for them.

    The events are judged by an independent client that reads the text line by line and
    folds what it learns, trusting no event that repeats what it already knows. */
module EventStream {
  import opened Prelude
  import opened Json

  // ---------------------------------------------------------------- lists

  function Snoc(items: Items, v: Json): Items {
    Concat(items, Item(v, NoItems))
  }

  function At(items: Items, i: nat): Json
    requires i < Count(items)
  {
    if i == 0 then items.head else At(items.tail, i - 1)
  }

  function Replace(items: Items, i: nat, v: Json): Items
    requires i < Count(items)
  {
    if i == 0 then Item(v, items.tail) else Item(items.head, Replace(items.tail, i - 1, v))
  }

  // ---------------------------------------------------------------- events

  datatype Event =
    | Created(response: Fields)
    | InProgress(response: Fields)
    | ItemAdded(index: int, item: Fields)
    | PartAdded(index: int, id: Json, place: int, part: Fields)
    | TextDone(index: int, id: Json, place: int, text: Json)
    | PartDone(index: int, id: Json, place: int, part: Fields)
    | ArgumentsDone(index: int, id: Json, arguments: Json)
    | InputDone(index: int, id: Json, input: Json)
    | ItemDone(index: int, item: Fields)
    | Completed(response: Fields)

  predicate IsKind(f: Fields, kind: string) {
    Get(f, "type") == Some(Str(kind))
  }

  predicate PartsOk(parts: Items) {
    parts.Item? ==> parts.head.Obj? && Get(parts.head.fields, "text").Some? && PartsOk(parts.tail)
  }

  /** The keys `completed_events` subscripts. */
  predicate ItemOk(v: Json) {
    && v.Obj? && Get(v.fields, "type").Some? && Get(v.fields, "id").Some?
    && if IsKind(v.fields, "message") then
         match Get(v.fields, "content")
         case Some(Arr(parts)) => PartsOk(parts)
         case _ => false
       else if IsKind(v.fields, "function_call") then Get(v.fields, "arguments").Some?
       else Get(v.fields, "input").Some?
  }

  predicate ItemsOk(items: Items) {
    items.Item? ==> ItemOk(items.head) && ItemsOk(items.tail)
  }

  predicate ResponseOk(response: Fields) {
    match Get(response, "output")
    case Some(Arr(items)) => ItemsOk(items)
    case _ => false
  }

  function Output(response: Fields): Items
    requires ResponseOk(response)
  {
    Get(response, "output").value.items
  }

  function Begun(response: Fields): Fields {
    Put(Put(response, "status", Str("in_progress")), "output", Arr(NoItems))
  }

  /** The field whose value arrives in events of its own, and what stands for it until then. */
  function Body(f: Fields): string {
    if IsKind(f, "message") then "content" else if IsKind(f, "function_call") then "arguments" else "input"
  }

  function Emptied(f: Fields): Fields {
    Put(Put(f, "status", Str("in_progress")), Body(f), if IsKind(f, "message") then Arr(NoItems) else Str(""))
  }

  /** One part of a message: announced without its text, then the text, then the whole. */
  function PartInThree(i: int, id: Json, p: int, part: Fields): seq<Event>
    requires Get(part, "text").Some?
  {
    [PartAdded(i, id, p, Put(part, "text", Str(""))),
     TextDone(i, id, p, Get(part, "text").value),
     PartDone(i, id, p, part)]
  }

  function PartEvents(parts: Items, index: int, id: Json, place: int): seq<Event>
    requires PartsOk(parts)
  {
    if parts.NoItems? then []
    else
      PartInThree(index, id, place, parts.head.fields) + PartEvents(parts.tail, index, id, place + 1)
  }

  function Details(f: Fields, index: int): seq<Event>
    requires ItemOk(Obj(f))
  {
    var id := Get(f, "id").value;
    if IsKind(f, "message") then PartEvents(Get(f, "content").value.items, index, id, 0)
    else if IsKind(f, "function_call") then [ArgumentsDone(index, id, Get(f, "arguments").value)]
    else [InputDone(index, id, Get(f, "input").value)]
  }

  function ItemEvents(f: Fields, index: int): seq<Event>
    requires ItemOk(Obj(f))
  {
    [ItemAdded(index, Emptied(f))] + Details(f, index) + [ItemDone(index, f)]
  }

  function AllEvents(items: Items, index: int): seq<Event>
    requires ItemsOk(items)
  {
    if items.NoItems? then [] else ItemEvents(items.head.fields, index) + AllEvents(items.tail, index + 1)
  }

  function Stream(response: Fields): seq<Event>
    requires ResponseOk(response)
  {
    [Created(Begun(response)), InProgress(Begun(response))] + AllEvents(Output(response), 0) + [Completed(response)]
  }

  method EmitParts(parts: Items, index: int, id: Json) returns (events: seq<Event>)
    requires PartsOk(parts)
    ensures events == PartEvents(parts, index, id, 0)
  {
    events := [];
    var rest, place := parts, 0;
    while rest.Item?
      invariant PartsOk(rest)
      invariant events + PartEvents(rest, index, id, place) == PartEvents(parts, index, id, 0)
      decreases rest
    {
      var part := rest.head.fields;
      ghost var before, tail := events, PartEvents(rest.tail, index, id, place + 1);
      ghost var three := PartInThree(index, id, place, part);
      events := events + [PartAdded(index, id, place, Put(part, "text", Str("")))];
      events := events + [TextDone(index, id, place, Get(part, "text").value)];
      events := events + [PartDone(index, id, place, part)];
      assert events == before + three;
      assert before + (three + tail) == events + tail;
      rest, place := rest.tail, place + 1;
    }
    assert events + [] == events;
  }

  method EmitItem(f: Fields, index: int) returns (events: seq<Event>)
    requires ItemOk(Obj(f))
    ensures events == ItemEvents(f, index)
  {
    events := [ItemAdded(index, Emptied(f))];
    if IsKind(f, "message") {
      var more := EmitParts(Get(f, "content").value.items, index, Get(f, "id").value);
      events := events + more;
    } else if IsKind(f, "function_call") {
      events := events + [ArgumentsDone(index, Get(f, "id").value, Get(f, "arguments").value)];
    } else {
      events := events + [InputDone(index, Get(f, "id").value, Get(f, "input").value)];
    }
    events := events + [ItemDone(index, f)];
  }

  lemma {:induction false} NextItem(events: seq<Event>, rest: Items, index: int, total: seq<Event>)
    requires rest.Item? && ItemsOk(rest) && events + AllEvents(rest, index) == total
    ensures (events + ItemEvents(rest.head.fields, index)) + AllEvents(rest.tail, index + 1) == total
  {
    assert events + (ItemEvents(rest.head.fields, index) + AllEvents(rest.tail, index + 1)) == total;
  }

  /** `completed_events`. */
  method CompletedEvents(response: Fields) returns (events: seq<Event>)
    requires ResponseOk(response)
    ensures events == Stream(response)
  {
    events := [Created(Begun(response)), InProgress(Begun(response))];
    ghost var opening := events;
    var rest, index := Output(response), 0;
    while rest.Item?
      invariant ItemsOk(rest)
      invariant events + AllEvents(rest, index) == opening + AllEvents(Output(response), 0)
      decreases rest
    {
      var more := EmitItem(rest.head.fields, index);
      NextItem(events, rest, index, opening + AllEvents(Output(response), 0));
      events := events + more;
      rest, index := rest.tail, index + 1;
    }
    assert events + [] == events;
    events := events + [Completed(response)];
  }

  // ---------------------------------------------------------------- the client

  datatype Client =
    | Waiting
    | Reading(done: Items, current: Option<Fields>)
    | Finished(output: Items)

  /** The item under construction, if the event speaks of it. */
  function Current(c: Client, index: int): Option<Fields> {
    if c.Reading? && index == Count(c.done) then c.current else None
  }

  function Content(c: Client, index: int, id: Json): Option<Items> {
    var f :- Current(c, index);
    if Get(f, "id") == Some(id) && Get(f, "content").Some? && Get(f, "content").value.Arr?
    then Some(Get(f, "content").value.items) else None
  }

  /** `item` and `part` of the closing events, and `response` of the last one, are only compared. */
  function Learn(c: Client, e: Event): Option<Client> {
    match e
    case Created(r) =>
      if c == Waiting && Get(r, "output") == Some(Arr(NoItems)) then Some(Reading(NoItems, None)) else None
    case InProgress(r) =>
      if c == Reading(NoItems, None) && Get(r, "output") == Some(Arr(NoItems)) then Some(c) else None
    case ItemAdded(i, item) =>
      if c.Reading? && c.current.None? && i == Count(c.done) then Some(c.(current := Some(item))) else None
    case PartAdded(i, id, p, part) =>
      var parts :- Content(c, i, id);
      if p != Count(parts) then None
      else Some(c.(current := Some(Put(c.current.value, "content", Arr(Snoc(parts, Obj(part)))))))
    case TextDone(i, id, p, text) =>
      var parts :- Content(c, i, id);
      if 0 <= p < Count(parts) && At(parts, p).Obj? then
        var part := Obj(Put(At(parts, p).fields, "text", text));
        Some(c.(current := Some(Put(c.current.value, "content", Arr(Replace(parts, p, part))))))
      else None
    case PartDone(i, id, p, part) =>
      var parts :- Content(c, i, id);
      if 0 <= p < Count(parts) && At(parts, p) == Obj(part) then Some(c) else None
    case ArgumentsDone(i, id, arguments) =>
      var f :- Current(c, i);
      if Get(f, "id") == Some(id) then Some(c.(current := Some(Put(f, "arguments", arguments)))) else None
    case InputDone(i, id, input) =>
      var f :- Current(c, i);
      if Get(f, "id") == Some(id) then Some(c.(current := Some(Put(f, "input", input)))) else None
    case ItemDone(i, item) =>
      var f :- Current(c, i);
      var whole := Put(f, "status", Str("completed"));
      if whole == item then Some(Reading(Snoc(c.done, Obj(whole)), None)) else None
    case Completed(r) =>
      if c.Reading? && c.current.None? && Get(r, "output") == Some(Arr(c.done)) then Some(Finished(c.done)) else None
  }

  function LearnAll(c: Client, events: seq<Event>): Option<Client>
    decreases |events|
  {
    if events == [] then Some(c)
    else
      var c' :- Learn(c, events[0]);
      LearnAll(c', events[1..])
  }

  lemma {:induction false} LearnInTurn(c: Client, a: seq<Event>, b: seq<Event>)
    ensures LearnAll(c, a + b) == match LearnAll(c, a) case None => None case Some(c') => LearnAll(c', b)
    decreases |a|
  {
    if a == [] {
      assert a + b == b;
    } else {
      assert (a + b)[0] == a[0] && (a + b)[1..] == a[1..] + b;
      if Learn(c, a[0]).Some? {
        LearnInTurn(Learn(c, a[0]).value, a[1..], b);
      }
    }
  }

  lemma {:induction false} LearnOne(c: Client, e: Event)
    ensures LearnAll(c, [e]) == Learn(c, e)
  {
    assert [e][1..] == [];
  }

  // ---------------------------------------------------------------- list laws

  lemma {:induction false} ConcatCount(a: Items, b: Items)
    ensures Count(Concat(a, b)) == Count(a) + Count(b)
  {
    if a.Item? {
      ConcatCount(a.tail, b);
    }
  }

  lemma {:induction false} ConcatNone(a: Items)
    ensures Concat(a, NoItems) == a
  {
    if a.Item? {
      ConcatNone(a.tail);
    }
  }

  lemma {:induction false} SnocConcat(a: Items, v: Json, b: Items)
    ensures Concat(Snoc(a, v), b) == Concat(a, Item(v, b))
  {
    if a.Item? {
      SnocConcat(a.tail, v, b);
    }
  }

  lemma {:induction false} SnocLast(a: Items, v: Json, w: Json)
    ensures Count(Snoc(a, v)) == Count(a) + 1
    ensures At(Snoc(a, v), Count(a)) == v && Replace(Snoc(a, v), Count(a), w) == Snoc(a, w)
  {
    ConcatCount(a, Item(v, NoItems));
    if a.Item? {
      SnocLast(a.tail, v, w);
    }
  }

  // ---------------------------------------------------------------- replay

  /** Client and item while the parts are arriving: `shown` of them are complete. */
  function Midway(done: Items, f: Fields, shown: Items): Client {
    Reading(done, Some(Put(f, "content", Arr(shown))))
  }

  lemma {:induction false} MidwayContent(done: Items, f: Fields, shown: Items, more: Items)
    requires Get(f, "id").Some?
    ensures Content(Midway(done, f, shown), Count(done), Get(f, "id").value) == Some(shown)
    ensures Put(Put(f, "content", Arr(shown)), "content", Arr(more)) == Put(f, "content", Arr(more))
  {
    PutThenGet(f, "content", Arr(shown), "id");
    PutThenGet(f, "content", Arr(shown), "content");
    PutTwice(f, "content", Arr(shown), Arr(more));
  }

  lemma {:induction false} OnePart(done: Items, f: Fields, shown: Items, part: Fields, id: Json)
    requires Get(f, "id") == Some(id) && Get(part, "text").Some?
    ensures LearnAll(Midway(done, f, shown), PartInThree(Count(done), id, Count(shown), part))
         == Some(Midway(done, f, Snoc(shown, Obj(part))))
  {
    var i, p, text := Count(done), Count(shown), Get(part, "text").value;
    var blank := Put(part, "text", Str(""));
    var a, b, d := PartAdded(i, id, p, blank), TextDone(i, id, p, text), PartDone(i, id, p, part);
    var m0, m1 := Midway(done, f, shown), Midway(done, f, Snoc(shown, Obj(blank)));
    var m2 := Midway(done, f, Snoc(shown, Obj(part)));
    assert Learn(m0, a) == Some(m1) by {
      MidwayContent(done, f, shown, Snoc(shown, Obj(blank)));
    }
    assert Learn(m1, b) == Some(m2) by {
      PutTwice(part, "text", Str(""), text);
      PutBack(part, "text", text);
      SnocLast(shown, Obj(blank), Obj(part));
      MidwayContent(done, f, Snoc(shown, Obj(blank)), Snoc(shown, Obj(part)));
    }
    assert Learn(m2, d) == Some(m2) by {
      SnocLast(shown, Obj(part), Obj(part));
      MidwayContent(done, f, Snoc(shown, Obj(part)), Snoc(shown, Obj(part)));
    }
    assert [a, b, d][1..] == [b, d] && [b, d][1..] == [d];
    LearnOne(m2, d);
  }

  lemma {:induction false} PartsReplay(done: Items, f: Fields, shown: Items, parts: Items)
    requires Get(f, "id").Some? && PartsOk(parts)
    ensures LearnAll(Midway(done, f, shown), PartEvents(parts, Count(done), Get(f, "id").value, Count(shown)))
         == Some(Midway(done, f, Concat(shown, parts)))
    decreases parts
  {
    if parts.NoItems? {
      ConcatNone(shown);
    } else {
      var part, i, p, id := parts.head.fields, Count(done), Count(shown), Get(f, "id").value;
      OnePart(done, f, shown, part, id);
      LearnInTurn(Midway(done, f, shown), PartInThree(i, id, p, part), PartEvents(parts.tail, i, id, p + 1));
      ConcatCount(shown, Item(parts.head, NoItems));
      PartsReplay(done, f, Snoc(shown, parts.head), parts.tail);
      SnocConcat(shown, parts.head, parts.tail);
    }
  }

  /** The details put back what `Emptied` took out. */
  lemma {:induction false} DetailsReplay(done: Items, f: Fields)
    requires ItemOk(Obj(f))
    ensures LearnAll(Reading(done, Some(Emptied(f))), Details(f, Count(done)))
         == Some(Reading(done, Some(Put(f, "status", Str("in_progress")))))
  {
    var started := Put(f, "status", Str("in_progress"));
    var c := Reading(done, Some(Emptied(f)));
    var value := Get(f, Body(f)).value;
    assert "id" != "status" && "id" != "content" && "id" != "arguments" && "id" != "input";
    assert "content"[0] != "status"[0];
    assert Body(f) != "status" && Body(f) != "id";
    PutThenGet(f, "status", Str("in_progress"), "id");
    PutThenGet(f, "status", Str("in_progress"), Body(f));
    PutBack(started, Body(f), value);
    if IsKind(f, "message") {
      PartsReplay(done, started, NoItems, value.items);
    } else {
      PutThenGet(started, Body(f), Str(""), "id");
      PutTwice(started, Body(f), Str(""), value);
      LearnOne(c, Details(f, Count(done))[0]);
    }
  }

  predicate IsDone(v: Json) {
    v.Obj? && Get(v.fields, "status") == Some(Str("completed"))
  }

  predicate AllDone(items: Items) {
    items.Item? ==> IsDone(items.head) && AllDone(items.tail)
  }

  lemma {:induction false} ItemReplay(done: Items, f: Fields)
    requires ItemOk(Obj(f))
    ensures LearnAll(Reading(done, None), ItemEvents(f, Count(done)))
         == if IsDone(Obj(f)) then Some(Reading(Snoc(done, Obj(f)), None)) else None
  {
    var i := Count(done);
    var c0, c1 := Reading(done, None), Reading(done, Some(Emptied(f)));
    var c2 := Reading(done, Some(Put(f, "status", Str("in_progress"))));
    LearnOne(c0, ItemAdded(i, Emptied(f)));
    LearnInTurn(c0, [ItemAdded(i, Emptied(f))], Details(f, i));
    DetailsReplay(done, f);
    LearnInTurn(c0, [ItemAdded(i, Emptied(f))] + Details(f, i), [ItemDone(i, f)]);
    LearnOne(c2, ItemDone(i, f));
    PutTwice(f, "status", Str("in_progress"), Str("completed"));
    PutBack(f, "status", Str("completed"));
  }

  lemma {:induction false} AllReplay(done: Items, items: Items)
    requires ItemsOk(items)
    ensures LearnAll(Reading(done, None), AllEvents(items, Count(done)))
         == if AllDone(items) then Some(Reading(Concat(done, items), None)) else None
    decreases items
  {
    if items.NoItems? {
      ConcatNone(done);
    } else {
      var f := items.head.fields;
      ItemReplay(done, f);
      LearnInTurn(Reading(done, None), ItemEvents(f, Count(done)), AllEvents(items.tail, Count(done) + 1));
      ConcatCount(done, Item(items.head, NoItems));
      AllReplay(Snoc(done, items.head), items.tail);
      SnocConcat(done, items.head, items.tail);
    }
  }

  /** A client that folds the stream ends with exactly the response's output; it refuses
      the stream exactly when some item of the response is not marked completed. */
  lemma {:induction false} Replay(response: Fields)
    requires ResponseOk(response)
    ensures LearnAll(Waiting, Stream(response))
         == if AllDone(Output(response)) then Some(Finished(Output(response))) else None
  {
    var r, items := Begun(response), Output(response);
    var opening := [Created(r), InProgress(r)];
    PutThenGet(Put(response, "status", Str("in_progress")), "output", Arr(NoItems), "output");
    assert opening[1..] == [InProgress(r)];
    LearnOne(Reading(NoItems, None), InProgress(r));
    assert LearnAll(Waiting, opening) == Some(Reading(NoItems, None));
    LearnInTurn(Waiting, opening, AllEvents(items, 0));
    AllReplay(NoItems, items);
    LearnInTurn(Waiting, opening + AllEvents(items, 0), [Completed(response)]);
    LearnOne(Reading(items, None), Completed(response));
  }

  // ---------------------------------------------------------------- each event, by its position

  /** The object with another value under one key. */
  ghost predicate Changes(f: Fields, g: Fields, key: string, value: Json) {
    Get(g, key) == Some(value) && forall k: string :: k != key ==> Get(g, k) == Get(f, k)
  }

  /** The object as it is announced: in progress, and without what will follow. */
  ghost predicate Announces(f: Fields, g: Fields, key: string, blank: Json) {
    && Get(g, "status") == Some(Str("in_progress")) && Get(g, key) == Some(blank)
    && forall k: string :: k != "status" && k != key ==> Get(g, k) == Get(f, k)
  }

  lemma {:induction false} PutChanges(f: Fields, key: string, value: Json)
    ensures Changes(f, Put(f, key, value), key, value)
  {
    forall k: string
      ensures Get(Put(f, key, value), k) == if k == key then Some(value) else Get(f, k)
    {
      PutThenGet(f, key, value, k);
    }
  }

  lemma {:induction false} PutAnnounces(f: Fields, key: string, blank: Json)
    requires key != "status"
    ensures Announces(f, Put(Put(f, "status", Str("in_progress")), key, blank), key, blank)
  {
    PutChanges(f, "status", Str("in_progress"));
    PutChanges(Put(f, "status", Str("in_progress")), key, blank);
  }

  /** The three events of the part at `place` of the item with this index and id. */
  ghost predicate PartTold(events: seq<Event>, index: nat, id: Json, place: nat, part: Json) {
    && |events| == 3 && part.Obj? && Get(part.fields, "text").Some?
    && events[0].PartAdded? && events[0].index == index && events[0].id == id && events[0].place == place
    && Changes(part.fields, events[0].part, "text", Str(""))
    && events[1] == TextDone(index, id, place, Get(part.fields, "text").value)
    && events[2] == PartDone(index, id, place, part.fields)
  }

  /** The events between announcing an item and closing it: three for each part of a message, here
      part `p`, or one with the value of a call. */
  ghost predicate DetailsTold(events: seq<Event>, index: nat, f: Fields, p: nat)
    requires ItemOk(Obj(f))
  {
    var id := Get(f, "id").value;
    if Get(f, "type") == Some(Str("message")) then
      var parts := Get(f, "content").value.items;
      && |events| == 3 * Count(parts)
      && (p < Count(parts) ==> PartTold(events[3 * p..3 * p + 3], index, id, p, At(parts, p)))
    else if Get(f, "type") == Some(Str("function_call")) then
      events == [ArgumentsDone(index, id, Get(f, "arguments").value)]
    else
      events == [InputDone(index, id, Get(f, "input").value)]
  }

  /** The item in progress, without the value its details bring. */
  ghost predicate IsAnnounced(f: Fields, item: Fields) {
    if Get(f, "type") == Some(Str("message")) then Announces(f, item, "content", Arr(NoItems))
    else if Get(f, "type") == Some(Str("function_call")) then Announces(f, item, "arguments", Str(""))
    else Announces(f, item, "input", Str(""))
  }

  /** All events of the item: it is announced, told in detail and closed. */
  ghost predicate ItemTold(events: seq<Event>, index: nat, v: Json, p: nat)
    requires ItemOk(v)
  {
    && |events| >= 2
    && events[0].ItemAdded? && events[0].index == index && IsAnnounced(v.fields, events[0].item)
    && DetailsTold(events[1..|events| - 1], index, v.fields, p)
    && events[|events| - 1] == ItemDone(index, v.fields)
  }

  /** How many events an item takes. */
  function Span(v: Json): nat
    requires ItemOk(v)
  {
    if Get(v.fields, "type") == Some(Str("message")) then 2 + 3 * Count(Get(v.fields, "content").value.items) else 3
  }

  /** How many events the first `k` items take. */
  function Before(items: Items, k: nat): nat
    requires ItemsOk(items) && k <= Count(items)
  {
    if k == 0 then 0 else Span(items.head) + Before(items.tail, k - 1)
  }

  lemma {:induction false} Within<T>(before: seq<T>, s: seq<T>, after: seq<T>, a: nat, b: nat)
    requires a <= b <= |s|
    ensures (before + s + after)[|before| + a..|before| + b] == s[a..b]
  {
  }

  lemma {:induction false} PartsTold(parts: Items, index: nat, id: Json, place: nat, p: nat)
    requires PartsOk(parts)
    ensures |PartEvents(parts, index, id, place)| == 3 * Count(parts)
    ensures p < Count(parts) ==>
              PartTold(PartEvents(parts, index, id, place)[3 * p..3 * p + 3], index, id, place + p, At(parts, p))
  {
    if parts.Item? {
      var part := parts.head.fields;
      var three, more := PartInThree(index, id, place, part), PartEvents(parts.tail, index, id, place + 1);
      PartsTold(parts.tail, index, id, place + 1, if p == 0 then 0 else p - 1);
      if p == 0 {
        PutChanges(part, "text", Str(""));
        assert (three + more)[0..3] == three;
      } else if p < Count(parts) {
        var q := 3 * (p - 1);
        Within(three, more, [], q, q + 3);
        assert three + more + [] == three + more && |three| + q == 3 * p;
      }
    }
  }

  lemma {:induction false} DetailsAreTold(f: Fields, index: nat, p: nat)
    requires ItemOk(Obj(f))
    ensures |Details(f, index)| + 2 == Span(Obj(f)) && DetailsTold(Details(f, index), index, f, p)
  {
    if IsKind(f, "message") {
      PartsTold(Get(f, "content").value.items, index, Get(f, "id").value, 0, p);
    }
  }

  lemma {:induction false} ItemIsTold(f: Fields, index: nat, p: nat)
    requires ItemOk(Obj(f))
    ensures |ItemEvents(f, index)| == Span(Obj(f)) && ItemTold(ItemEvents(f, index), index, Obj(f), p)
  {
    var events := ItemEvents(f, index);
    assert events[1..|events| - 1] == Details(f, index);
    DetailsAreTold(f, index, p);
    assert Body(f)[0] != "status"[0];
    PutAnnounces(f, Body(f), if IsKind(f, "message") then Arr(NoItems) else Str(""));
  }

  /** The events of the item begin at `b`. */
  ghost predicate ToldAt(events: seq<Event>, b: nat, index: nat, v: Json, p: nat)
    requires ItemOk(v)
  {
    b + Span(v) <= |events| && ItemTold(events[b..b + Span(v)], index, v, p)
  }

  lemma {:induction false} ToldWithin(before: seq<Event>, events: seq<Event>, after: seq<Event>, b: nat,
                                      index: nat, v: Json, p: nat, n: nat)
    requires ItemOk(v) && ToldAt(events, b, index, v, p) && n == |before| + b
    ensures ToldAt(before + events + after, n, index, v, p)
  {
    Within(before, events, after, b, b + Span(v));
  }

  lemma {:induction false} ItemAt(items: Items, k: nat)
    requires ItemsOk(items) && k < Count(items)
    ensures ItemOk(At(items, k))
  {
    if k > 0 {
      ItemAt(items.tail, k - 1);
    }
  }

  lemma {:induction false} FirstIsTold(f: Fields, index: nat, more: seq<Event>, p: nat)
    requires ItemOk(Obj(f))
    ensures ToldAt(ItemEvents(f, index) + more, 0, index, Obj(f), p)
  {
    ItemIsTold(f, index, p);
    assert (ItemEvents(f, index) + more)[0..Span(Obj(f))] == ItemEvents(f, index);
  }

  lemma {:induction false} LaterIsTold(f: Fields, index: nat, more: seq<Event>, b: nat, n: nat, i: nat, v: Json, p: nat)
    requires ItemOk(Obj(f)) && ItemOk(v) && ToldAt(more, b, i, v, p) && n == Span(Obj(f)) + b
    ensures ToldAt(ItemEvents(f, index) + more, n, i, v, p)
  {
    var first := ItemEvents(f, index);
    ItemIsTold(f, index, p);
    ToldWithin(first, more, [], b, i, v, p, n);
    assert first + more + [] == first + more;
  }

  lemma {:induction false} ItemsAreTold(items: Items, index: nat, k: nat, v: Json, p: nat)
    requires ItemsOk(items) && k < Count(items) && v == At(items, k) && ItemOk(v)
    ensures ToldAt(AllEvents(items, index), Before(items, k), index + k, v, p)
  {
    var more := AllEvents(items.tail, index + 1);
    if k == 0 {
      FirstIsTold(items.head.fields, index, more, p);
    } else {
      ItemsAreTold(items.tail, index + 1, k - 1, v, p);
      LaterIsTold(items.head.fields, index, more, Before(items.tail, k - 1), Before(items, k), index + k, v, p);
    }
  }

  lemma {:induction false} EventCount(items: Items, index: nat)
    requires ItemsOk(items)
    ensures |AllEvents(items, index)| == Before(items, Count(items))
  {
    if items.Item? {
      ItemIsTold(items.head.fields, index, 0);
      EventCount(items.tail, index + 1);
    }
  }

  /** The stream begins by announcing the response twice, in progress and without output, and
      ends with the whole response; in between are the events of the items and nothing else. */
  lemma {:induction false} StreamOpens(response: Fields)
    requires ResponseOk(response)
    ensures var s := Stream(response);
            && |s| == Before(Output(response), Count(Output(response))) + 3
            && s[0].Created? && s[1] == InProgress(s[0].response)
            && Announces(response, s[0].response, "output", Arr(NoItems))
            && s[|s| - 1] == Completed(response)
  {
    assert "output"[0] != "status"[0];
    PutAnnounces(response, "output", Arr(NoItems));
    EventCount(Output(response), 0);
  }

  /** Item by item and part by part, in order, the stream tells the whole output. */
  lemma {:induction false} StreamTells(response: Fields, k: nat, p: nat)
    requires ResponseOk(response) && k < Count(Output(response))
    ensures ItemOk(At(Output(response), k))
    ensures ToldAt(Stream(response), 2 + Before(Output(response), k), k, At(Output(response), k), p)
  {
    var items := Output(response);
    var opening, more := [Created(Begun(response)), InProgress(Begun(response))], AllEvents(items, 0);
    ItemAt(items, k);
    ItemsAreTold(items, 0, k, At(items, k), p);
    ToldWithin(opening, more, [Completed(response)], Before(items, k), k, At(items, k), p, 2 + Before(items, k));
  }
}

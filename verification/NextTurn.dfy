/** One turn's calls and the next turn's history: `output`, then a new `ToolBridge`, both of
    prism-adapter/tool_bridge.py.

    The client sends back the earlier items, the released calls in any JSON spelling, and
    their results, each somewhere after its call. The next request must then be read as the
    earlier history plus exactly those calls. */
module NextTurn {
  import opened Prelude
  import opened Json
  import opened Canonical
  import opened Tools
  import opened History
  import O = Output
  import B = Bridge

  // ---------------------------------------------------------------- what a client may send

  predicate EchoItem(v: Json, r: CallRecord, w: Json) {
    v.Obj? && AtOr(v.fields, "type", Str("message")) == Str(CallType(r.kind)) && Echo(v.fields, r, w)
  }

  predicate ResultItem(v: Json, r: CallRecord) {
    && v.Obj? && AtOr(v.fields, "type", Str("message")) == Str(OutputType(r.kind))
    && At(v.fields, "call_id") == Str(r.id)
    && match At(v.fields, "output")
       case Str(_) => true
       case Arr(parts) => TextParts(parts, {"input_text", "text"})
       case _ => false
  }

  /** A call issued by an answer to a request with this catalogue, with the value `w`. */
  predicate IssuedUnder(c: Catalogue, r: CallRecord, w: Json) {
    && IsCallId(r.id)
    && var key := Qualified(r.namespace, r.name);
       && key in c.tools && ValueOk(c.tools[key].kind, w) && r == RecordOf(c.tools[key], r.id, w)
  }

  datatype Arrival = NextCall | NextResult

  /** What follows the earlier items: calls in the order they were released, their results in
      any order, and how the two lists interleave. */
  datatype Sent = Sent(echoes: seq<Json>, results: seq<Json>, order: seq<Arrival>)

  /** The list sent, from the point where `i` calls and `j` results have gone before. */
  function ItemsFrom(m: Sent, i: nat, j: nat): Items
    requires i + j <= |m.order|
    decreases |m.order| - i - j
  {
    if i + j == |m.order| then NoItems
    else if m.order[i + j].NextCall? then
      Item(if i < |m.echoes| then m.echoes[i] else Null, ItemsFrom(m, i + 1, j))
    else Item(if j < |m.results| then m.results[j] else Null, ItemsFrom(m, i, j + 1))
  }

  /** The call a result belongs to. */
  function AnsweredId(v: Json): string {
    if v.Obj? && At(v.fields, "call_id").Str? then At(v.fields, "call_id").s else ""
  }

  /** Every result comes after its call, and nothing is missing at the end. */
  predicate Timely(m: Sent, records: seq<CallRecord>, i: nat, j: nat)
    requires i + j <= |m.order|
    decreases |m.order| - i - j
  {
    if i + j == |m.order| then i == |records| == |m.echoes| && j == |m.results|
    else if m.order[i + j].NextCall? then i < |records| && i < |m.echoes| && Timely(m, records, i + 1, j)
    else
      && j < |m.results| && i <= |records| && AnsweredId(m.results[j]) in CallIds(records[..i])
      && Timely(m, records, i, j + 1)
  }

  predicate RepeatsAt(c: Catalogue, m: Sent, records: seq<CallRecord>, values: seq<Json>, i: nat) {
    && i < |m.echoes| && i < |records| && i < |values|
    && IssuedUnder(c, records[i], values[i]) && EchoItem(m.echoes[i], records[i], values[i])
  }

  predicate AnswersAt(m: Sent, records: seq<CallRecord>, j: nat) {
    && j < |m.results|
    && Find(records, AnsweredId(m.results[j])).Some?
    && ResultItem(m.results[j], Find(records, AnsweredId(m.results[j])).value)
  }

  function AnsweredUpTo(m: Sent, j: nat): set<string>
    requires j <= |m.results|
  {
    set k | 0 <= k < j :: AnsweredId(m.results[k])
  }

  /** The released calls, with the values they were issued with, each repeated once. */
  predicate Echoes(c: Catalogue, m: Sent, records: seq<CallRecord>, values: seq<Json>) {
    && |m.echoes| == |records| == |values|
    && forall i {:trigger RepeatsAt(c, m, records, values, i)} :: 0 <= i < |records| ==>
        RepeatsAt(c, m, records, values, i)
  }

  /** Each of them answered exactly once. */
  predicate Results(m: Sent, records: seq<CallRecord>) {
    && (forall j {:trigger AnswersAt(m, records, j)} :: 0 <= j < |m.results| ==> AnswersAt(m, records, j))
    && (forall j, k :: 0 <= j < k < |m.results| ==> AnsweredId(m.results[j]) != AnsweredId(m.results[k]))
    && AnsweredUpTo(m, |m.results|) == CallIds(records)
  }

  // ---------------------------------------------------------------- single items

  lemma {:induction false} CallIsDispatched(c: Catalogue, h: Turn, v: Json, kind: ToolKind)
    requires v.Obj? && AtOr(v.fields, "type", Str("message")) == Str(CallType(kind))
    ensures ItemStep(c, h, v) == CallStep(c, h, v.fields, kind)
  {
    assert "additional_tools"[0] != "custom_tool_call"[0];
  }

  lemma {:induction false} ResultIsDispatched(c: Catalogue, h: Turn, v: Json, kind: ToolKind)
    requires v.Obj? && AtOr(v.fields, "type", Str("message")) == Str(OutputType(kind))
    ensures ItemStep(c, h, v) == ResultStep(h, v.fields, kind)
  {
  }

  lemma {:induction false} StepsInTurn(c: Catalogue, h: Turn, a: Items, b: Items)
    ensures ItemSteps(c, h, Concat(a, b))
         == match ItemSteps(c, h, a) case Err(e) => Err(e) case Ok(h') => ItemSteps(c, h', b)
    decreases a
  {
    if a.Item? && ItemStep(c, h, a.head).Ok? {
      StepsInTurn(c, ItemStep(c, h, a.head).value, a.tail, b);
    }
  }

  lemma {:induction false} EchoStep(c: Catalogue, h: Turn, v: Json, r: CallRecord, w: Json) returns (next: Turn)
    requires CatalogueOk(c) && IssuedUnder(c, r, w) && EchoItem(v, r, w) && r.id !in CallIds(h.calls)
    ensures ItemStep(c, h, v) == Ok(next)
    ensures next.calls == h.calls + [r] && next.results == h.results && next.last == ToolItem
  {
    var t := c.tools[Qualified(r.namespace, r.name)];
    CallIsDispatched(c, h, v, r.kind);
    FindIsMember(h.calls, r.id);
    EchoIsTheCall(c, h, v.fields, t, r.id, w);
    next := ItemStep(c, h, v).value;
  }

  lemma {:induction false} ResultStepOk(c: Catalogue, h: Turn, v: Json, r: CallRecord) returns (next: Turn)
    requires ResultItem(v, r) && Find(h.calls, r.id) == Some(r) && r.id !in h.results
    ensures ItemStep(c, h, v) == Ok(next)
    ensures next.calls == h.calls && next.last == ToolItem
    ensures next.results.Keys == h.results.Keys + {r.id} && forall id :: id in h.results ==>
        next.results[id] == h.results[id]
  {
    ResultIsDispatched(c, h, v, r.kind);
    next := ItemStep(c, h, v).value;
  }

  // ---------------------------------------------------------------- identities

  lemma {:induction false} PrefixIsNew(all: seq<CallRecord>, n: nat)
    requires DistinctCalls(all) && n < |all|
    ensures all[n].id !in CallIds(all[..n])
  {
  }

  lemma {:induction false} FindUnique(calls: seq<CallRecord>, r: CallRecord)
    requires DistinctCalls(calls) && r in calls
    ensures Find(calls, r.id) == Some(r)
  {
    var k :| 0 <= k < |calls| && calls[k] == r;
    assert calls[k].id in CallIds(calls);
    FindIsMember(calls, r.id);
    var found := Find(calls, r.id).value;
    var n :| 0 <= n < |calls| && calls[n] == found;
    if n < k {
      assert calls[n].id != calls[k].id;
    } else if k < n {
      assert calls[k].id != calls[n].id;
    }
  }

  /** The record a result names, once its call is among those read. */
  lemma {:induction false} FindReleased(base: seq<CallRecord>, records: seq<CallRecord>, i: nat, id: string)
    requires i <= |records| && DistinctCalls(base + records) && id in CallIds(records[..i]) && Find(records, id).Some?
    ensures Find(base + records[..i], id) == Find(records, id) && Find(records, id).value.id == id
    ensures id !in CallIds(base)
  {
    var all, read := base + records, base + records[..i];
    var k :| 0 <= k < i && records[..i][k].id == id;
    var r := records[k];
    assert all[|base| + k] == r && read[|base| + k] == r;
    assert forall n :: 0 <= n < |read| ==> read[n] == all[n];
    assert forall n :: 0 <= n < |records| ==> records[n] == all[|base| + n];
    FindUnique(read, r);
    FindUnique(records, r);
    assert forall n :: 0 <= n < |base| ==> base[n] == all[n];
  }

  lemma {:induction false} NewIds(calls: seq<CallRecord>, records: seq<CallRecord>)
    requires DistinctCalls(calls + records)
    ensures CallIds(calls) !! CallIds(records) && CallIds(calls + records) == CallIds(calls) + CallIds(records)
  {
    var all := calls + records;
    forall id | id in CallIds(records)
      ensures id !in CallIds(calls) && id in CallIds(all)
    {
      var j :| 0 <= j < |records| && records[j].id == id;
      assert all[|calls| + j] == records[j];
      assert forall i :: 0 <= i < |calls| ==> all[i] == calls[i];
    }
    forall id | id in CallIds(calls)
      ensures id in CallIds(all)
    {
      var i :| 0 <= i < |calls| && calls[i].id == id;
      assert all[i] == calls[i];
    }
  }

  // ---------------------------------------------------------------- reading what was sent

  /** `h` has read `i` calls and `j` results after an accepted history. */
  predicate Midway(start: Turn, m: Sent, records: seq<CallRecord>, i: nat, j: nat, h: Turn) {
    && i <= |records| && j <= |m.results|
    && h.calls == start.calls + records[..i]
    && h.results.Keys == start.results.Keys + AnsweredUpTo(m, j)
    && (forall id :: id in start.results ==> id in h.results && h.results[id] == start.results[id])
    && (i + j > 0 ==> h.last == ToolItem)
  }

  lemma {:induction false} NextCallIsNew(base: seq<CallRecord>, records: seq<CallRecord>, i: nat)
    requires i < |records| && DistinctCalls(base + records)
    ensures records[i].id !in CallIds(base + records[..i])
    ensures (base + records[..i]) + [records[i]] == base + records[..i + 1]
  {
    var all, n := base + records, |base| + i;
    assert all[n] == records[i] && all[..n] == base + records[..i];
    PrefixIsNew(all, n);
  }

  lemma {:induction false} CallArrives(c: Catalogue, start: Turn, m: Sent, records: seq<CallRecord>, values: seq<Json>,
                                       i: nat, j: nat, h: Turn) returns (next: Turn)
    requires CatalogueOk(c) && Echoes(c, m, records, values) && DistinctCalls(start.calls + records)
    requires i < |records| && Midway(start, m, records, i, j, h)
    ensures ItemStep(c, h, m.echoes[i]) == Ok(next) && Midway(start, m, records, i + 1, j, next)
  {
    NextCallIsNew(start.calls, records, i);
    assert RepeatsAt(c, m, records, values, i);
    next := EchoStep(c, h, m.echoes[i], records[i], values[i]);
  }

  /** Which list the next item comes from. */
  lemma {:induction false} NextItem(m: Sent, records: seq<CallRecord>, i: nat, j: nat)
    requires i + j < |m.order| && Timely(m, records, i, j)
    ensures m.order[i + j].NextCall? ==>
              i < |records| && i < |m.echoes| && Timely(m, records, i + 1, j)
              && ItemsFrom(m, i, j) == Item(m.echoes[i], ItemsFrom(m, i + 1, j))
    ensures m.order[i + j].NextResult? ==>
              i <= |records| && j < |m.results| && AnsweredId(m.results[j]) in CallIds(records[..i])
              && Timely(m, records, i, j + 1) && ItemsFrom(m, i, j) == Item(m.results[j], ItemsFrom(m, i, j + 1))
  {
  }

  lemma {:induction false} ResultArrives(c: Catalogue, start: Turn, m: Sent, records: seq<CallRecord>,
                                         i: nat, j: nat, h: Turn) returns (next: Turn)
    requires Results(m, records) && DistinctCalls(start.calls + records) && start.results.Keys == CallIds(start.calls)
    requires Midway(start, m, records, i, j, h) && j < |m.results| && AnsweredId(m.results[j]) in CallIds(records[..i])
    ensures ItemStep(c, h, m.results[j]) == Ok(next) && Midway(start, m, records, i, j + 1, next)
  {
    var id := AnsweredId(m.results[j]);
    assert AnswersAt(m, records, j);
    FindReleased(start.calls, records, i, id);
    assert id !in AnsweredUpTo(m, j);
    next := ResultStepOk(c, h, m.results[j], Find(records, id).value);
    assert AnsweredUpTo(m, j + 1) == AnsweredUpTo(m, j) + {id};
  }

  /** Reading one item is going on after it. */
  lemma {:induction false} StepThenRest(c: Catalogue, h: Turn, v: Json, rest: Items, next: Turn, end: Turn)
    requires ItemStep(c, h, v) == Ok(next) && ItemSteps(c, next, rest) == Ok(end)
    ensures ItemSteps(c, h, Item(v, rest)) == Ok(end)
  {
  }

  /** What stays the same while the list is read. */
  ghost predicate Setting(c: Catalogue, start: Turn, m: Sent, records: seq<CallRecord>, values: seq<Json>) {
    && CatalogueOk(c) && Echoes(c, m, records, values) && Results(m, records)
    && DistinctCalls(start.calls + records) && start.results.Keys == CallIds(start.calls)
  }

  lemma {:induction false} ReadCall(c: Catalogue, start: Turn, m: Sent, records: seq<CallRecord>, values: seq<Json>,
                                    i: nat, j: nat, h: Turn) returns (next: Turn)
    requires Setting(c, start, m, records, values) && Midway(start, m, records, i, j, h) && i < |records|
    ensures ItemStep(c, h, m.echoes[i]) == Ok(next) && Midway(start, m, records, i + 1, j, next)
  {
    next := CallArrives(c, start, m, records, values, i, j, h);
  }

  lemma {:induction false} ReadResult(c: Catalogue, start: Turn, m: Sent, records: seq<CallRecord>, values: seq<Json>,
                                      i: nat, j: nat, h: Turn) returns (next: Turn)
    requires Setting(c, start, m, records, values) && Midway(start, m, records, i, j, h)
    requires i <= |records| && j < |m.results| && AnsweredId(m.results[j]) in CallIds(records[..i])
    ensures ItemStep(c, h, m.results[j]) == Ok(next) && Midway(start, m, records, i, j + 1, next)
  {
    next := ResultArrives(c, start, m, records, i, j, h);
  }

  /** Where the reading is after the next item. */
  predicate Advanced(m: Sent, records: seq<CallRecord>, i: nat, j: nat, items: Items, i': nat, j': nat) {
    && i' + j' == i + j + 1 <= |m.order| && Timely(m, records, i', j')
    && items.Item? && items.tail == ItemsFrom(m, i', j')
  }

  lemma {:induction false} ReadOne(c: Catalogue, start: Turn, m: Sent, records: seq<CallRecord>, values: seq<Json>,
                                   i: nat, j: nat, h: Turn, items: Items) returns (next: Turn, i': nat, j': nat)
    requires Setting(c, start, m, records, values) && Midway(start, m, records, i, j, h)
    requires i + j < |m.order| && Timely(m, records, i, j) && items == ItemsFrom(m, i, j)
    ensures Advanced(m, records, i, j, items, i', j')
    ensures Midway(start, m, records, i', j', next) && ItemStep(c, h, items.head) == Ok(next)
  {
    NextItem(m, records, i, j);
    if m.order[i + j].NextCall? {
      i', j' := i + 1, j;
      assert Advanced(m, records, i, j, items, i', j');
      next := ReadCall(c, start, m, records, values, i, j, h);
    } else {
      i', j' := i, j + 1;
      assert Advanced(m, records, i, j, items, i', j');
      next := ReadResult(c, start, m, records, values, i, j, h);
    }
  }

  lemma {:induction false} ReadOn(c: Catalogue, start: Turn, m: Sent, records: seq<CallRecord>, values: seq<Json>,
                                  i: nat, j: nat, h: Turn, items: Items) returns (end: Turn)
    requires Setting(c, start, m, records, values) && Midway(start, m, records, i, j, h)
    requires i + j <= |m.order| && Timely(m, records, i, j) && items == ItemsFrom(m, i, j)
    ensures ItemSteps(c, h, items) == Ok(end) && Midway(start, m, records, |records|, |m.results|, end)
    decreases |m.order| - i - j
  {
    if i + j == |m.order| {
      end := h;
    } else {
      var next, i', j' := ReadOne(c, start, m, records, values, i, j, h, items);
      end := ReadOn(c, start, m, records, values, i', j', next, items.tail);
      StepThenRest(c, h, items.head, items.tail, next, end);
    }
  }

  /** A history read on: same catalogue, more items. */
  lemma {:induction false} StepsThenMore(c: Catalogue, input: Json, items: Items, more: Items, h: Turn, end: Turn)
    requires InputItems(input) == Some(items) && HistoryOf(c, input) == Ok(h)
    requires ItemSteps(c, h, more) == Ok(end) && Paired(end)
    ensures HistoryOf(c, Arr(Concat(items, more))) == Ok(end)
  {
    StepsInTurn(c, Turn([], map[], Unknown, c.commands), items, more);
  }

  /** How a later turn continues an earlier one. */
  predicate Continues(h: Turn, records: seq<CallRecord>, next: Turn) {
    && next.calls == h.calls + records && NeedsFresh(next) && next.results.Keys == CallIds(next.calls)
    && forall id :: id in h.results ==> id in next.results && next.results[id] == h.results[id]
  }

  lemma {:induction false} AllRead(start: Turn, m: Sent, records: seq<CallRecord>, end: Turn)
    requires records != [] && Midway(start, m, records, |records|, |m.results|, end) && Results(m, records)
    requires start.results.Keys == CallIds(start.calls) && DistinctCalls(start.calls + records)
    ensures Continues(start, records, end)
  {
    NewIds(start.calls, records);
    assert records[..|records|] == records;
    assert records[0].id in CallIds(records);
    assert records[0].id in end.results;
  }

  /** The next request of a client that sends everything back is accepted, and is read as
      the earlier history plus exactly the released calls, each with its result. */
  lemma {:induction false} NextHistory(c: Catalogue, input: Json, items: Items, h: Turn, m: Sent,
                                       records: seq<CallRecord>,
                                       values: seq<Json>) returns (next: Turn)
    requires CatalogueOk(c) && InputItems(input) == Some(items) && HistoryOf(c, input) == Ok(h)
    requires Echoes(c, m, records, values) && Results(m, records) && Timely(m, records, 0, 0) && records != []
    requires |h.calls| + |records| <= MAX_HISTORY_CALLS && DistinctCalls(h.calls + records)
    ensures HistoryOf(c, Arr(Concat(items, ItemsFrom(m, 0, 0)))) == Ok(next) && Continues(h, records, next)
  {
    HistoryIsPaired(c, input);
    assert h.calls + records[..0] == h.calls && AnsweredUpTo(m, 0) == {};
    next := ReadOn(c, h, m, records, values, 0, 0, h, ItemsFrom(m, 0, 0));
    AllRead(h, m, records, next);
    StepsThenMore(c, input, items, ItemsFrom(m, 0, 0), h, next);
  }

  // ---------------------------------------------------------------- from the answer to what comes back

  /** The model's answer, the random ids drawn for it, and the validator's verdicts. */
  datatype Answer = Answer(marker: string, text: string, hex: nat -> string, valid: seq<Command> -> bool)

  /** The answer released these calls. */
  predicate Releases(q: O.Request, a: Answer, records: seq<CallRecord>) {
    O.Released(q, a.marker, a.text, a.hex, a.valid) == Some(O.Calls(records))
  }

  function ElementsOf(a: Answer): seq<Json> {
    O.Elements(a.marker, a.text)
  }

  lemma {:induction false} IdIsCallId(hex: string)
    requires IsUuid(hex)
    ensures IsCallId(IdOf(hex))
  {
    assert IdOf(hex)[..11] == "call_prism_" && IdOf(hex)[11..] == hex;
  }

  /** The random ids of one answer have the form the history demands, and differ from each
      other and from earlier ones. */
  predicate NewNames(hex: nat -> string, earlier: seq<CallRecord>) {
    && (forall i :: 0 <= i < MAX_CALLS ==> IsUuid(hex(i)) && IdOf(hex(i)) !in CallIds(earlier))
    && (forall i, j :: 0 <= i < j < MAX_CALLS ==> hex(i) != hex(j))
  }

  lemma {:induction false} ReleasedIsIssued(q: O.Request, a: Answer, records: seq<CallRecord>, i: nat)
    requires CatalogueOk(q.catalogue) && NewNames(a.hex, q.turn.calls) && Releases(q, a, records) && i < |records|
    ensures |ElementsOf(a)| == |records| && O.Accepted(q, ElementsOf(a)[i])
    ensures records[i].id == IdOf(a.hex(i)) && IssuedUnder(q.catalogue, records[i], O.ValueIn(q, ElementsOf(a)[i]))
  {
    O.ReleasedElements(q, a.marker, a.text, a.hex, a.valid, records);
    O.ReleasedIsDeclared(q, a.marker, a.text, a.hex, a.valid, records, i);
    IdIsCallId(a.hex(i));
    var v := ElementsOf(a)[i];
    var key := At(v.fields, "name").s;
    assert EntryOk(key, q.catalogue.tools[key]);
  }

  lemma {:induction false} ReleasedIsNew(q: O.Request, hex: nat -> string, records: seq<CallRecord>)
    requires DistinctCalls(q.turn.calls) && NewNames(hex, q.turn.calls)
    requires |records| <= MAX_CALLS && forall i :: 0 <= i < |records| ==> records[i].id == IdOf(hex(i))
    ensures DistinctCalls(q.turn.calls + records)
  {
    var calls, all := q.turn.calls, q.turn.calls + records;
    forall i, j | 0 <= i < j < |all|
      ensures all[i].id != all[j].id
    {
      if j >= |calls| {
        var y := j - |calls|;
        assert all[j].id == IdOf(hex(y)) && IdOf(hex(y))[11..] == hex(y);
        if i >= |calls| {
          var x := i - |calls|;
          assert all[i].id == IdOf(hex(x)) && IdOf(hex(x))[11..] == hex(x);
        } else {
          assert all[i].id in CallIds(calls);
        }
      }
    }
  }

  predicate EchoedAt(q: O.Request, a: Answer, m: Sent, records: seq<CallRecord>, i: nat) {
    && i < |m.echoes| && i < |records| && i < |ElementsOf(a)| && O.Accepted(q, ElementsOf(a)[i])
    && EchoItem(m.echoes[i], records[i], O.ValueIn(q, ElementsOf(a)[i]))
  }

  /** The client sends back each released call, in any spelling of its value and with any
      further keys, and one result for each, somewhere after its call. */
  predicate SendsBack(q: O.Request, a: Answer, m: Sent, records: seq<CallRecord>) {
    && |m.echoes| == |records| == |ElementsOf(a)|
    && (forall i {:trigger EchoedAt(q, a, m, records, i)} :: 0 <= i < |records| ==> EchoedAt(q, a, m, records, i))
    && Results(m, records) && Timely(m, records, 0, 0)
  }

  /** The values the released calls were issued with. */
  function ValuesOf(q: O.Request, items: seq<Json>): seq<Json> {
    seq(|items|, i requires 0 <= i < |items| => if O.Accepted(q, items[i]) then O.ValueIn(q, items[i]) else Null)
  }

  lemma {:induction false} SentIsRepeated(q: O.Request, a: Answer, m: Sent, records: seq<CallRecord>)
    requires CatalogueOk(q.catalogue) && NewNames(a.hex, q.turn.calls) && Releases(q, a, records)
    requires SendsBack(q, a, m, records)
    ensures Echoes(q.catalogue, m, records, ValuesOf(q, ElementsOf(a)))
  {
    var values := ValuesOf(q, ElementsOf(a));
    forall i {:trigger RepeatsAt(q.catalogue, m, records, values, i)} | 0 <= i < |records|
      ensures RepeatsAt(q.catalogue, m, records, values, i)
    {
      assert EchoedAt(q, a, m, records, i);
      ReleasedIsIssued(q, a, records, i);
    }
  }

  /** What an answer releases fits after the history it was given for. */
  lemma {:induction false} ReleasedFits(q: O.Request, a: Answer, records: seq<CallRecord>)
    requires CatalogueOk(q.catalogue) && NewNames(a.hex, q.turn.calls) && Releases(q, a, records)
    requires DistinctCalls(q.turn.calls)
    ensures records != [] && |q.turn.calls| + |records| <= MAX_HISTORY_CALLS && DistinctCalls(q.turn.calls + records)
  {
    O.ReleasedElements(q, a.marker, a.text, a.hex, a.valid, records);
    forall i | 0 <= i < |records|
      ensures records[i].id == IdOf(a.hex(i))
    {
      ReleasedIsIssued(q, a, records, i);
    }
    ReleasedIsNew(q, a.hex, records);
  }

  /** Closed loop, tool bridge: whatever calls an answer releases, a client that sends them
      back is understood as having made exactly those calls, and the limits that admitted
      the answer admit the next request. The earlier input may have been plain text. */
  lemma {:induction false} ReleasedComesBack(q: O.Request, input: Json, items: Items, a: Answer,
                                             records: seq<CallRecord>, m: Sent) returns (next: Turn)
    requires CatalogueOk(q.catalogue) && InputItems(input) == Some(items) && HistoryOf(q.catalogue, input) == Ok(q.turn)
    requires NewNames(a.hex, q.turn.calls) && Releases(q, a, records) && SendsBack(q, a, m, records)
    ensures HistoryOf(q.catalogue, Arr(Concat(items, ItemsFrom(m, 0, 0)))) == Ok(next)
    ensures Continues(q.turn, records, next)
  {
    HistoryIsPaired(q.catalogue, input);
    SentIsRepeated(q, a, m, records);
    ReleasedFits(q, a, records);
    next := NextHistory(q.catalogue, input, items, q.turn, m, records, ValuesOf(q, ElementsOf(a)));
  }
}

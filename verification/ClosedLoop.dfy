/** The closed loop: `output`, `complete`, then the client's next request, its `ToolBridge`
    (all prism-adapter/tool_bridge.py) and `reserve` (prism-adapter/tool_state.py).

    What one turn issued and stored is exactly what the next turn presents. */
module ClosedLoop {
  import opened Prelude
  import opened Json
  import opened Canonical
  import opened Tools
  import opened History
  import opened NextTurn
  import O = Output
  import B = Bridge
  import L = Leases

  // ---------------------------------------------------------------- the whole next request

  predicate NoneDeclares(items: Items) {
    items.Item? ==> !B.DeclaresMore(items.head) && NoneDeclares(items.tail)
  }

  lemma {:induction false} NothingMoreDeclared(c: Catalogue, items: Items, more: Items)
    requires NoneDeclares(more)
    ensures B.CollectInput(c, Concat(items, more)) == B.CollectInput(c, items)
    decreases items, more
  {
    if items.Item? {
      if !B.DeclaresMore(items.head) {
        NothingMoreDeclared(c, items.tail, more);
      } else if Collect(c, At(items.head.fields, "tools"), "", 0).Ok? {
        NothingMoreDeclared(Collect(c, At(items.head.fields, "tools"), "", 0).value, items.tail, more);
      }
    } else if more.Item? {
      NothingMoreDeclared(c, items, more.tail);
    }
  }

  /** The fields other than the input that decide how a request is prepared. */
  predicate SameOptions(f: Fields, g: Fields) {
    && Get(f, "model") == Get(g, "model") && Get(f, "parallel_tool_calls") == Get(g, "parallel_tool_calls")
    && Get(f, "tools") == Get(g, "tools") && Get(f, "additional_tools") == Get(g, "additional_tools")
    && Get(f, "tool_choice") == Get(g, "tool_choice")
  }

  /** The same request with more items after its input, which may have been plain text. */
  predicate Extends(f: Fields, g: Fields, items: Items, more: Items) {
    && SameOptions(f, g) && InputItems(At(f, "input")) == Some(items) && At(g, "input") == Arr(Concat(items, more))
    && NoneDeclares(more)
  }

  lemma {:induction false} SameInput(c: Catalogue, input: Json, items: Items, more: Items)
    requires InputItems(input) == Some(items) && NoneDeclares(more)
    ensures B.CollectInput(c, Concat(items, more)) == if input.Arr? then B.CollectInput(c, input.items) else Ok(c)
  {
    NothingMoreDeclared(c, items, more);
    if input.Str? {
      assert "type"[0] != "role"[0];
      assert Get(items.head.fields, "type") == Get(items.head.fields.rest, "type") == None;
      assert B.CollectInput(c, items) == B.CollectInput(c, items.tail);
    }
  }

  lemma {:induction false} SameCatalogue(f: Fields, g: Fields, items: Items, more: Items)
    requires Extends(f, g, items, more)
    ensures B.CollectAll(g) == B.CollectAll(f)
  {
    var c1 := Collect(Nothing, At(f, "tools"), "", 0);
    if c1.Ok? {
      var c2 := Collect(c1.value, At(f, "additional_tools"), "", 0);
      if c2.Ok? {
        SameInput(c2.value, At(f, "input"), items, more);
      }
    }
  }

  /** Ready unless the validator objects. */
  function Validated(q: O.Request, next: Turn, valid: seq<Command> -> bool): Result<O.Request, Refusal> {
    if next.commands == [] || valid(next.commands) then Ok(q.(turn := next)) else Err(InvalidToolPayload)
  }

  /** A request repeated with more items after its input is prepared with the same catalogue
      and choice, and with the history of the longer input, unless the validator objects. */
  lemma {:induction false} LongerRequest(f: Fields, g: Fields, q: O.Request, items: Items, more: Items,
                                         valid: seq<Command> -> bool, next: Turn)
    requires Extends(f, g, items, more) && B.Prepare(f, valid) == Ok(q)
    requires HistoryOf(q.catalogue, Arr(Concat(items, more))) == Ok(next)
    ensures B.Prepare(g, valid) == Validated(q, next, valid)
  {
    SameCatalogue(f, g, items, more);
  }

  lemma {:induction false} CallDeclaresNothing(v: Json, kind: ToolKind)
    requires v.Obj?
    requires var given := AtOr(v.fields, "type", Str("message"));
             given == Str(CallType(kind)) || given == Str(OutputType(kind))
    ensures !B.DeclaresMore(v)
  {
    assert "additional_tools"[0] != "custom_tool_call"[0];
  }

  lemma {:induction false} EchoDeclaresNothing(q: O.Request, a: Answer, m: Sent, records: seq<CallRecord>, i: nat)
    requires EchoedAt(q, a, m, records, i)
    ensures !B.DeclaresMore(m.echoes[i])
  {
    CallDeclaresNothing(m.echoes[i], records[i].kind);
  }

  lemma {:induction false} ResultDeclaresNothing(m: Sent, records: seq<CallRecord>, j: nat)
    requires AnswersAt(m, records, j)
    ensures !B.DeclaresMore(m.results[j])
  {
    CallDeclaresNothing(m.results[j], Find(records, AnsweredId(m.results[j])).value.kind);
  }

  lemma {:induction false} ListDeclaresNothing(m: Sent, i: nat, j: nat)
    requires i + j <= |m.order|
    requires forall k :: 0 <= k < |m.echoes| ==> !B.DeclaresMore(m.echoes[k])
    requires forall k :: 0 <= k < |m.results| ==> !B.DeclaresMore(m.results[k])
    ensures NoneDeclares(ItemsFrom(m, i, j))
    decreases |m.order| - i - j
  {
    if i + j < |m.order| {
      if m.order[i + j].NextCall? {
        ListDeclaresNothing(m, i + 1, j);
      } else {
        ListDeclaresNothing(m, i, j + 1);
      }
    }
  }

  lemma {:induction false} SentDeclaresNothing(q: O.Request, a: Answer, m: Sent, records: seq<CallRecord>)
    requires SendsBack(q, a, m, records)
    ensures NoneDeclares(ItemsFrom(m, 0, 0))
  {
    forall k | 0 <= k < |m.echoes|
      ensures !B.DeclaresMore(m.echoes[k])
    {
      assert EchoedAt(q, a, m, records, k);
      EchoDeclaresNothing(q, a, m, records, k);
    }
    forall k | 0 <= k < |m.results|
      ensures !B.DeclaresMore(m.results[k])
    {
      assert AnswersAt(m, records, k);
      ResultDeclaresNothing(m, records, k);
    }
    ListDeclaresNothing(m, 0, 0);
  }

  /** `g` is the request `f` again, with what the client sends back after its input. */
  predicate IsNext(f: Fields, g: Fields, items: Items, m: Sent) {
    && SameOptions(f, g) && InputItems(At(f, "input")) == Some(items)
    && At(g, "input") == Arr(Concat(items, ItemsFrom(m, 0, 0)))
  }

  /** Closed loop, whole request: a client that repeats its request and appends the released
      calls and their results gets a request with the same catalogue whose calls are the
      earlier ones and exactly the released ones; only the validator can still object. */
  lemma {:induction false} RequestComesBack(f: Fields, g: Fields, q: O.Request, items: Items, a: Answer,
                                            records: seq<CallRecord>, m: Sent) returns (next: Turn)
    requires Strict(Obj(f)) && B.Prepare(f, a.valid) == Ok(q) && IsNext(f, g, items, m)
    requires NewNames(a.hex, q.turn.calls) && Releases(q, a, records) && SendsBack(q, a, m, records)
    ensures B.Prepare(g, a.valid) == Validated(q, next, a.valid) && Continues(q.turn, records, next)
  {
    B.PreparedIsOk(f, a.valid);
    next := ReleasedComesBack(q, At(f, "input"), items, a, records, m);
    SentDeclaresNothing(q, a, m, records);
    LongerRequest(f, g, q, items, ItemsFrom(m, 0, 0), a.valid, next);
  }

  // ---------------------------------------------------------------- the lease table

  function Mark(r: CallRecord): L.Call {
    (r.id, Digest(IdentityJson(r)))
  }

  function Present(r: CallRecord): L.Call {
    (r.id, Digest(HistoryJson(r)))
  }

  /** What `complete` is given for an answer. */
  function Marks(records: seq<CallRecord>): seq<L.Call> {
    seq(|records|, i requires 0 <= i < |records| => Mark(records[i]))
  }

  /** What `reserve` is given for a request. */
  function Presented(calls: seq<CallRecord>): seq<L.Call> {
    seq(|calls|, i requires 0 <= i < |calls| => Present(calls[i]))
  }

  /** A call presented under the id of one that was issued is known exactly if it is that
      call; an altered name, namespace, kind or value is refused. */
  lemma {:induction false} OnlyTheCallIsKnown(t: L.Table, scope: string, group: string, records: seq<CallRecord>,
                                              results: map<string, string>, i: nat, a: CallRecord)
    requires L.Insertable(t, Marks(records)) && i < |records| && a.id == records[i].id
    ensures var after := L.Inserted(t, scope, group, Marks(records));
            L.Objection(after, scope, Present(a), results) == Some(L.UnknownCall) <==> a != records[i]
  {
    L.InsertedMark(t, scope, group, Marks(records), i);
    FingerprintNamesCall(a, records[i]);
  }

  /** A call of the request being answered, with its result: consumed before, or held by this request. */
  predicate Settled(t: L.Table, scope: string, call: L.Call, hash: string, lease: string) {
    && call.0 in t
    && var row := t[call.0];
       && row.scope == scope && row.fingerprint == call.1 && row.resultHash == Some(hash)
       && (row.phase == L.Consumed || (row.phase == L.Reserved && row.lease == Some(lease)))
  }

  /** Nothing stands against the call, and it is fresh input or not. */
  predicate Welcome(t: L.Table, scope: string, call: L.Call, results: map<string, string>, isNew: bool) {
    L.Objection(t, scope, call, results).None? && call.0 in t && (t[call.0].phase == L.Issued <==> isNew)
  }

  lemma {:induction false} ReserveSettles(t: L.Table, scope: string, calls: seq<L.Call>, results: map<string, string>,
                                          lease: string, i: nat)
    requires L.TableOk(t) && L.FirstObjection(t, scope, calls, results).None? && i < |calls|
    ensures calls[i].0 in results
    ensures Settled(L.Mark(t, L.Unseen(t, calls), results, lease), scope, calls[i], results[calls[i].0], lease)
  {
    L.NoObjection(t, scope, calls, results);
    assert L.Objection(t, scope, calls[i], results).None?;
    assert L.RowOk(t[calls[i].0]);
    L.UnseenIds(t, calls, calls[i].0);
    assert calls[i].0 in L.Ids(calls);
  }

  /** Completing leaves a settled call consumed, so it may be presented again with the same result. */
  lemma {:induction false} SettledIsConsumed(t: L.Table, scope: string, lease: string, group: string,
                                             marks: seq<L.Call>, call: L.Call, results: map<string, string>)
    requires L.Insertable(t, marks) && call.0 in results && Settled(t, scope, call, results[call.0], lease)
    ensures var t' := L.Consume(L.Inserted(t, scope, group, marks), scope, lease);
            Welcome(t', scope, call, results, false)
  {
    L.InsertedRow(t, scope, group, marks, call.0);
  }

  /** The rows of a fresh group are the ones just inserted. */
  lemma {:induction false} FreshGroup(t: L.Table, scope: string, lease: string, group: string, marks: seq<L.Call>)
    requires L.Insertable(t, marks) && L.GroupOf(t, scope, group) == {}
    ensures L.GroupOf(L.Consume(L.Inserted(t, scope, group, marks), scope, lease), scope, group) <= L.Ids(marks)
  {
    var t' := L.Consume(L.Inserted(t, scope, group, marks), scope, lease);
    forall id | id in L.GroupOf(t', scope, group)
      ensures id in L.Ids(marks)
    {
      L.InsertedKeys(t, scope, group, marks);
      L.InsertedRow(t, scope, group, marks, id);
      assert id in t ==> id in L.GroupOf(t, scope, group);
    }
  }

  lemma {:induction false} IssuedIsWelcome(t: L.Table, scope: string, lease: string, group: string,
                                           marks: seq<L.Call>, results: map<string, string>, i: nat)
    requires L.Insertable(t, marks) && L.GroupOf(t, scope, group) == {} && i < |marks| && L.Ids(marks) <= results.Keys
    ensures var t' := L.Consume(L.Inserted(t, scope, group, marks), scope, lease);
            Welcome(t', scope, marks[i], results, true)
  {
    L.InsertedMark(t, scope, group, marks, i);
    FreshGroup(t, scope, lease, group, marks);
    assert marks[i].0 in L.Ids(marks);
  }

  predicate IsFresh(t: L.Table, id: string) {
    id in t && t[id].phase == L.Issued
  }

  lemma {:induction false} UnseenInTurn(t: L.Table, a: seq<L.Call>, b: seq<L.Call>)
    ensures L.Unseen(t, a + b) == L.Unseen(t, a) + L.Unseen(t, b)
    decreases |b|
  {
    if b == [] {
      assert a + b == a;
    } else {
      var front, last := b[..|b| - 1], b[|b| - 1];
      assert (a + b)[..|a + b| - 1] == a + front && (a + b)[|a + b| - 1] == last;
      UnseenInTurn(t, a, front);
    }
  }

  lemma {:induction false} NoneUnseen(t: L.Table, calls: seq<L.Call>)
    requires forall i :: 0 <= i < |calls| ==> !IsFresh(t, calls[i].0)
    ensures L.Unseen(t, calls) == []
    decreases |calls|
  {
    if calls != [] {
      NoneUnseen(t, calls[..|calls| - 1]);
      assert !IsFresh(t, calls[|calls| - 1].0);
    }
  }

  function IdsOf(calls: seq<L.Call>): seq<string> {
    if calls == [] then [] else IdsOf(calls[..|calls| - 1]) + [calls[|calls| - 1].0]
  }

  lemma {:induction false} AllUnseen(t: L.Table, calls: seq<L.Call>)
    requires forall i :: 0 <= i < |calls| ==> IsFresh(t, calls[i].0)
    ensures L.Unseen(t, calls) == IdsOf(calls)
    decreases |calls|
  {
    if calls != [] {
      AllUnseen(t, calls[..|calls| - 1]);
      assert IsFresh(t, calls[|calls| - 1].0);
    }
  }

  lemma {:induction false} AllWelcome(t: L.Table, scope: string, earlier: seq<L.Call>, marks: seq<L.Call>,
                                      results: map<string, string>, lease: string)
    requires marks != []
    requires forall i :: 0 <= i < |earlier| ==> Welcome(t, scope, earlier[i], results, false)
    requires forall i :: 0 <= i < |marks| ==> Welcome(t, scope, marks[i], results, true)
    ensures var r := L.ReserveOutcome(t, scope, earlier + marks, results, lease, true);
            r.Ok? && r.value.1 == IdsOf(marks)
  {
    forall i | 0 <= i < |earlier + marks|
      ensures L.Objection(t, scope, (earlier + marks)[i], results).None?
    {
      if i < |earlier| {
        assert Welcome(t, scope, earlier[i], results, false);
      } else {
        assert Welcome(t, scope, marks[i - |earlier|], results, true);
      }
    }
    L.NoObjection(t, scope, earlier + marks, results);
    UnseenInTurn(t, earlier, marks);
    NoneUnseen(t, earlier);
    AllUnseen(t, marks);
  }

  /** Closed loop, lease table: once a request was reserved and its answer completed, the next
      request, which presents the earlier calls with their earlier results and the new calls
      with results for all of them, is admitted, and exactly the new calls are its fresh input. */
  lemma {:induction false} NextReserve(t: L.Table, scope: string, earlier: seq<L.Call>, results: map<string, string>,
                                       lease: string, t1: L.Table,
                                       group: string, marks: seq<L.Call>, t2: L.Table, next: map<string, string>,
                                       lease': string)
    requires L.TableOk(t) && L.FirstObjection(t, scope, earlier, results).None?
    requires t1 == L.Mark(t, L.Unseen(t, earlier), results, lease)
    requires L.CompleteOutcome(t1, scope, lease, group, marks) == Ok(t2) && L.GroupOf(t1, scope, group) == {}
    requires marks != [] && L.Ids(marks) <= next.Keys
    requires forall id :: id in L.Ids(earlier) && id in results ==> id in next && next[id] == results[id]
    ensures var r := L.ReserveOutcome(t2, scope, earlier + marks, next, lease', true);
            r.Ok? && r.value.1 == IdsOf(marks)
  {
    forall i | 0 <= i < |earlier|
      ensures Welcome(t2, scope, earlier[i], next, false)
    {
      ReserveSettles(t, scope, earlier, results, lease, i);
      assert earlier[i].0 in L.Ids(earlier);
      SettledIsConsumed(t1, scope, lease, group, marks, earlier[i], next);
    }
    forall i | 0 <= i < |marks|
      ensures Welcome(t2, scope, marks[i], next, true)
    {
      IssuedIsWelcome(t1, scope, lease, group, marks, next, i);
    }
    AllWelcome(t2, scope, earlier, marks, next, lease');
  }

  /** What was marked when the calls were issued is what is presented when they come back. */
  lemma {:induction false} MarkedIsPresented(calls: seq<CallRecord>, records: seq<CallRecord>)
    ensures Presented(calls + records) == Presented(calls) + Marks(records)
  {
    forall i | 0 <= i < |records|
      ensures Present(records[i]) == Mark(records[i])
    {
      FingerprintNamesCall(records[i], records[i]);
    }
  }

  // ---------------------------------------------------------------- end to end

  /** The digests of the results a request brings. */
  function Hashes(results: map<string, Json>): map<string, string> {
    map id | id in results :: Digest(results[id])
  }

  lemma {:induction false} MarkIds(records: seq<CallRecord>)
    ensures L.Ids(Marks(records)) == CallIds(records) && L.Ids(Presented(records)) == CallIds(records)
  {
    forall id | id in CallIds(records)
      ensures id in L.Ids(Marks(records)) && id in L.Ids(Presented(records))
    {
      var i :| 0 <= i < |records| && records[i].id == id;
      assert Marks(records)[i].0 == id && Presented(records)[i].0 == id;
    }
    forall id | id in L.Ids(Marks(records))
      ensures id in CallIds(records)
    {
      var i :| 0 <= i < |Marks(records)| && Marks(records)[i].0 == id;
      assert records[i].id == id;
    }
    forall id | id in L.Ids(Presented(records))
      ensures id in CallIds(records)
    {
      var i :| 0 <= i < |Presented(records)| && Presented(records)[i].0 == id;
      assert records[i].id == id;
    }
  }

  /** The request that continues another brings its results again and one for each new call. */
  lemma {:induction false} ContinuedIsAnswered(h: Turn, records: seq<CallRecord>, next: Turn)
    requires Continues(h, records, next)
    ensures Presented(next.calls) == Presented(h.calls + records)
    ensures L.Ids(Marks(records)) <= Hashes(next.results).Keys
    ensures forall id :: id in L.Ids(Presented(h.calls)) && id in Hashes(h.results) ==>
              id in Hashes(next.results) && Hashes(next.results)[id] == Hashes(h.results)[id]
  {
    MarkIds(records);
    forall id | id in L.Ids(Marks(records))
      ensures id in Hashes(next.results)
    {
      var i :| 0 <= i < |records| && records[i].id == id;
      assert next.calls[|h.calls| + i] == records[i];
    }
  }

  /** The table's part of the loop, for a turn that continues another. */
  lemma {:induction false} ContinuedIsAdmitted(t: L.Table, scope: string, h: Turn, lease: string, t1: L.Table,
                                               unseen: seq<string>, needsFresh: bool,
                                               group: string, records: seq<CallRecord>, t2: L.Table, next: Turn,
                                               lease': string)
    requires L.TableOk(t)
    requires L.ReserveOutcome(t, scope, Presented(h.calls), Hashes(h.results), lease, needsFresh) == Ok((t1, unseen))
    requires L.CompleteOutcome(t1, scope, lease, group, Marks(records)) == Ok(t2) && L.GroupOf(t1, scope, group) == {}
    requires records != [] && Continues(h, records, next)
    ensures var r := L.ReserveOutcome(t2, scope, Presented(next.calls), Hashes(next.results), lease', true);
            r.Ok? && r.value.1 == IdsOf(Marks(records))
  {
    MarkedIsPresented(h.calls, records);
    ContinuedIsAnswered(h, records, next);
    NextReserve(t, scope, Presented(h.calls), Hashes(h.results), lease, t1, group, Marks(records), t2,
                Hashes(next.results), lease');
  }

  /** A result sent again for a settled call conflicts exactly if its output changed. */
  lemma {:induction false} OnlyTheResultAgrees(t: L.Table, scope: string, lease: string, r: CallRecord,
                                               a: Json, b: Json, results: map<string, Json>)
    requires Strict(a) && Strict(b)
    requires Settled(t, scope, Present(r), Digest(ResultJson(r.kind, r.id, a)), lease)
    requires r.id in results && results[r.id] == ResultJson(r.kind, r.id, b)
    ensures L.Objection(t, scope, Present(r), Hashes(results)) == Some(L.ResultConflict) <==> !Same(a, b)
  {
    ResultDigest(r.kind, r.id, a, b);
    L.ObjectionMeans(t, scope, Present(r), Hashes(results));
  }

  lemma {:induction false} SettledStays(t: L.Table, scope: string, lease: string, group: string, marks: seq<L.Call>,
                                        t2: L.Table, call: L.Call, hash: string)
    requires L.CompleteOutcome(t, scope, lease, group, marks) == Ok(t2) && Settled(t, scope, call, hash, lease)
    ensures Settled(t2, scope, call, hash, lease)
  {
    L.InsertedRow(t, scope, group, marks, call.0);
  }

  lemma {:induction false} OneObjectionRefuses(t: L.Table, scope: string, calls: seq<L.Call>,
                                               results: map<string, string>, lease: string, needsFresh: bool, j: nat)
    requires j < |calls|
    ensures L.Objection(t, scope, calls[j], results).Some?
        ==> L.ReserveOutcome(t, scope, calls, results, lease, needsFresh).Err?
  {
    L.NoObjection(t, scope, calls, results);
  }

  /** A request answered after `reserve` took its results fixes them: a later request that
      brings another output for one of its calls is refused. */
  lemma {:induction false} ChangedResultIsRefused(t: L.Table, scope: string, h: Turn, lease: string, t1: L.Table,
                                                  unseen: seq<string>, needsFresh: bool, group: string,
                                                  marks: seq<L.Call>, t2: L.Table, i: nat, a: Json,
                                                  next: Turn, j: nat, b: Json, lease': string, fresh': bool)
    requires L.TableOk(t)
    requires L.ReserveOutcome(t, scope, Presented(h.calls), Hashes(h.results), lease, needsFresh) == Ok((t1, unseen))
    requires L.CompleteOutcome(t1, scope, lease, group, marks) == Ok(t2)
    requires i < |h.calls| && j < |next.calls| && next.calls[j] == h.calls[i]
    requires var r := h.calls[i];
             && r.id in h.results && h.results[r.id] == ResultJson(r.kind, r.id, a) && Strict(a)
             && r.id in next.results && next.results[r.id] == ResultJson(r.kind, r.id, b) && Strict(b)
    ensures var presented, hashes := Presented(next.calls), Hashes(next.results);
            && (L.Objection(t2, scope, presented[j], hashes) == Some(L.ResultConflict) <==> !Same(a, b))
            && (!Same(a, b) ==> L.ReserveOutcome(t2, scope, presented, hashes, lease', fresh').Err?)
  {
    var r := h.calls[i];
    ReserveSettles(t, scope, Presented(h.calls), Hashes(h.results), lease, i);
    SettledStays(t1, scope, lease, group, marks, t2, Present(r), Digest(ResultJson(r.kind, r.id, a)));
    OnlyTheResultAgrees(t2, scope, lease, r, a, b, next.results);
    OneObjectionRefuses(t2, scope, Presented(next.calls), Hashes(next.results), lease', fresh', j);
  }

  /** Closed loop, end to end. A request was prepared and its results reserved; the answer
      released calls and was completed under a group name not in use. Then the client's next
      request is prepared with exactly those calls added (only the validator can object), and
      `reserve` admits what it presents, with exactly the released ids as fresh input. */
  lemma {:induction false} TurnComesBack(f: Fields, g: Fields, q: O.Request, items: Items, a: Answer,
                                         records: seq<CallRecord>, m: Sent,
                                         t: L.Table, scope: string, lease: string, t1: L.Table, unseen: seq<string>,
                                         group: string, t2: L.Table, lease': string) returns (next: Turn)
    requires Strict(Obj(f)) && B.Prepare(f, a.valid) == Ok(q) && IsNext(f, g, items, m)
    requires NewNames(a.hex, q.turn.calls) && Releases(q, a, records) && SendsBack(q, a, m, records)
    requires L.TableOk(t)
    requires L.ReserveOutcome(t, scope, Presented(q.turn.calls), Hashes(q.turn.results), lease, NeedsFresh(q.turn))
        == Ok((t1, unseen))
    requires L.CompleteOutcome(t1, scope, lease, group, Marks(records)) == Ok(t2) && L.GroupOf(t1, scope, group) == {}
    ensures B.Prepare(g, a.valid) == Validated(q, next, a.valid) && next.calls == q.turn.calls + records
    ensures var r := L.ReserveOutcome(t2, scope, Presented(next.calls), Hashes(next.results), lease', NeedsFresh(next));
            r.Ok? && r.value.1 == IdsOf(Marks(records))
  {
    B.PreparedIsOk(f, a.valid);
    ReleasedFits(q, a, records);
    next := RequestComesBack(f, g, q, items, a, records, m);
    ContinuedIsAdmitted(t, scope, q.turn, lease, t1, unseen, NeedsFresh(q.turn), group, records, t2, next, lease');
  }
}

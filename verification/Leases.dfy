/** The durable table of tool calls: `ToolState` of prism-adapter/tool_state.py.

    A row is one call the adapter handed to a client. It is `Issued` until a
    request presents its result, `Reserved` under that request's lease while the
    request runs, and `Consumed` once the upstream answer is known. */
module Leases {
  import opened Prelude

  datatype Phase = Issued | Reserved | Consumed

  datatype Row = Row(
    scope: string, fingerprint: string, group: string,
    phase: Phase, resultHash: Option<string>, lease: Option<string>)

  /** `call_id` is the primary key. */
  type Table = map<string, Row>

  /** Why a transaction is rolled back. The last two are uncaught exceptions of
      the source: a call without a result, a call id inserted twice. */
  datatype Refusal =
    | UnknownCall | ResultConflict | PendingResult | MissingResult | Replayed
    | StateFull | KeyError | IntegrityError

  /** An entry of the dictionary of calls: its id and the digest of its record.
      Digests of calls and results are taken by the caller, with `Canonical.Digest`. */
  type Call = (string, string)

  const MAX_ROWS := 50000

  predicate DistinctIds(calls: seq<Call>) {
    forall i, j :: 0 <= i < j < |calls| ==> calls[i].0 != calls[j].0
  }

  ghost function Ids(calls: seq<Call>): set<string> {
    set i | 0 <= i < |calls| :: calls[i].0
  }

  // ---------------------------------------------------------------- reserve

  function GroupOf(t: Table, scope: string, group: string): set<string> {
    set id | id in t && t[id].scope == scope && t[id].group == group
  }

  /** What stands against presenting one call, in the order the source asks. */
  function Objection(t: Table, scope: string, call: Call, results: map<string, string>): Option<Refusal> {
    var (id, mark) := call;
    if id !in t || t[id].scope != scope || t[id].fingerprint != mark then Some(UnknownCall)
    else if id !in results then Some(KeyError)
    else if t[id].resultHash.Some? && t[id].resultHash != Some(results[id]) then Some(ResultConflict)
    else if t[id].phase.Reserved? then Some(PendingResult)
    else if t[id].phase.Issued? && !(GroupOf(t, scope, t[id].group) <= results.Keys) then Some(MissingResult)
    else None
  }

  function FirstObjection(t: Table, scope: string, calls: seq<Call>, results: map<string, string>): Option<Refusal> {
    if calls == [] then None
    else if FirstObjection(t, scope, calls[..|calls| - 1], results).Some?
    then FirstObjection(t, scope, calls[..|calls| - 1], results)
    else Objection(t, scope, calls[|calls| - 1], results)
  }

  /** The calls whose results no request has presented yet, in order. */
  function Unseen(t: Table, calls: seq<Call>): seq<string> {
    if calls == [] then []
    else
      var id := calls[|calls| - 1].0;
      Unseen(t, calls[..|calls| - 1]) + if id in t && t[id].phase.Issued? then [id] else []
  }

  function Mark(t: Table, ids: seq<string>, results: map<string, string>, lease: string): Table {
    map id | id in t ::
      if id in ids && id in results
      then t[id].(phase := Reserved, resultHash := Some(results[id]), lease := Some(lease))
      else t[id]
  }

  /** `reserve` with every check made on the table as it was when the transaction began. */
  function ReserveOutcome(t: Table, scope: string, calls: seq<Call>, results: map<string, string>,
                          lease: string, needsFresh: bool): Result<(Table, seq<string>), Refusal> {
    var objection := FirstObjection(t, scope, calls, results);
    if objection.Some? then Err(objection.value)
    else if needsFresh && Unseen(t, calls) == [] then Err(Replayed)
    else Ok((Mark(t, Unseen(t, calls), results, lease), Unseen(t, calls)))
  }

  lemma {:induction false} UnseenIds(t: Table, calls: seq<Call>, id: string)
    ensures id in Unseen(t, calls) <==> id in Ids(calls) && id in t && t[id].phase.Issued?
  {
    if calls != [] {
      var front := calls[..|calls| - 1];
      UnseenIds(t, front, id);
      assert calls == front + [calls[|calls| - 1]];
      assert Ids(calls) == Ids(front) + {calls[|calls| - 1].0};
    }
  }

  lemma {:induction false} NoObjection(t: Table, scope: string, calls: seq<Call>, results: map<string, string>)
    ensures FirstObjection(t, scope, calls, results).None?
       <==> forall i :: 0 <= i < |calls| ==> Objection(t, scope, calls[i], results).None?
  {
    if calls != [] {
      NoObjection(t, scope, calls[..|calls| - 1], results);
    }
  }

  /** Marking other calls does not change what stands against this one. */
  lemma {:induction false} ObjectionStable(t: Table, scope: string, call: Call, results: map<string, string>,
                                           ids: seq<string>, lease: string)
    requires call.0 !in ids
    ensures Objection(Mark(t, ids, results, lease), scope, call, results) == Objection(t, scope, call, results)
  {
    var marked := Mark(t, ids, results, lease);
    if call.0 in t {
      assert GroupOf(marked, scope, t[call.0].group) == GroupOf(t, scope, t[call.0].group);
    }
  }

  lemma {:induction false} MarkNext(t: Table, ids: seq<string>, results: map<string, string>, lease: string, id: string)
    requires id in t && id in results && id !in ids
    ensures Mark(t, ids + [id], results, lease)
         == Mark(t, ids, results, lease)
            [id := t[id].(phase := Reserved, resultHash := Some(results[id]), lease := Some(lease))]
  {
  }

  // ---------------------------------------------------------------- what a request may present

  /** The call was issued to this scope, as it is presented. */
  predicate Known(t: Table, scope: string, call: Call) {
    call.0 in t && t[call.0].scope == scope && t[call.0].fingerprint == call.1
  }

  /** It comes with a result, and not with another than before. */
  predicate Agrees(t: Table, call: Call, results: map<string, string>)
    requires call.0 in t
  {
    call.0 in results && (t[call.0].resultHash == None || t[call.0].resultHash == Some(results[call.0]))
  }

  /** No request holds it, and a fresh one brings its whole group. */
  predicate Presentable(t: Table, scope: string, call: Call, results: map<string, string>) {
    && Known(t, scope, call) && Agrees(t, call, results) && t[call.0].phase != Reserved
    && (t[call.0].phase == Issued ==>
          forall id :: id in t && t[id].scope == scope && t[id].group == t[call.0].group ==> id in results)
  }

  predicate IsIssued(t: Table, id: string) {
    id in t && t[id].phase == Issued
  }

  predicate IsReservedBy(t: Table, id: string, lease: string) {
    id in t && t[id].phase == Reserved && t[id].lease == Some(lease)
  }

  /** Consumed with this very result. */
  predicate SeenBefore(t: Table, scope: string, call: Call, results: map<string, string>) {
    && Known(t, scope, call) && t[call.0].phase == Consumed
    && call.0 in results && t[call.0].resultHash == Some(results[call.0])
  }

  /** What each refusal says about the row. */
  lemma {:induction false} ObjectionMeans(t: Table, scope: string, call: Call, results: map<string, string>)
    ensures var o := Objection(t, scope, call, results);
            && (o == None <==> Presentable(t, scope, call, results))
            && (o == Some(UnknownCall) <==> !Known(t, scope, call))
            && (o == Some(KeyError) <==> Known(t, scope, call) && call.0 !in results)
            && (o == Some(ResultConflict) <==>
                  Known(t, scope, call) && call.0 in results && !Agrees(t, call, results))
            && (o == Some(PendingResult) <==>
                  Known(t, scope, call) && Agrees(t, call, results) && t[call.0].phase == Reserved)
            && (o == Some(MissingResult) <==>
                  && Known(t, scope, call) && Agrees(t, call, results) && t[call.0].phase == Issued
                  && exists id :: id in t && t[id].scope == scope && t[id].group == t[call.0].group && id !in results)
  {
    if call.0 in t {
      var group := GroupOf(t, scope, t[call.0].group);
      if !(group <= results.Keys) {
        var id :| id in group && id !in results.Keys;
        assert id in t && t[id].scope == scope;
      }
    }
  }

  /** The first call something stands against decides the refusal. */
  lemma {:induction false} FirstRefusal(t: Table, scope: string, calls: seq<Call>, results: map<string, string>,
                                        lease: string, needsFresh: bool, k: nat)
    requires k < |calls| && !Presentable(t, scope, calls[k], results)
    requires forall i :: 0 <= i < k ==> Presentable(t, scope, calls[i], results)
    ensures Objection(t, scope, calls[k], results).Some?
    ensures ReserveOutcome(t, scope, calls, results, lease, needsFresh)
         == Err(Objection(t, scope, calls[k], results).value)
  {
    ObjectionMeans(t, scope, calls[k], results);
    forall i | 0 <= i < k
      ensures Objection(t, scope, calls[..k][i], results).None?
    {
      ObjectionMeans(t, scope, calls[i], results);
    }
    NoObjection(t, scope, calls[..k], results);
    assert calls[..k + 1][..k] == calls[..k];
    ObjectionEndures(t, scope, calls, results, k + 1);
  }

  /** A request is admitted exactly if each of its calls may be presented and, where fresh
      input is needed, one of them was presented by no request before. */
  lemma {:induction false} ReserveAdmits(t: Table, scope: string, calls: seq<Call>, results: map<string, string>,
                                         lease: string, needsFresh: bool)
    ensures ReserveOutcome(t, scope, calls, results, lease, needsFresh).Ok?
       <==> && (forall i :: 0 <= i < |calls| ==> Presentable(t, scope, calls[i], results))
            && (needsFresh ==> exists i :: 0 <= i < |calls| && IsIssued(t, calls[i].0))
  {
    NoObjection(t, scope, calls, results);
    forall i | 0 <= i < |calls|
      ensures Objection(t, scope, calls[i], results).None? <==> Presentable(t, scope, calls[i], results)
    {
      ObjectionMeans(t, scope, calls[i], results);
    }
    var unseen := Unseen(t, calls);
    if unseen != [] {
      UnseenIds(t, calls, unseen[0]);
      var i :| 0 <= i < |calls| && calls[i].0 == unseen[0];
      assert IsIssued(t, calls[i].0);
    } else {
      forall i | 0 <= i < |calls|
        ensures !IsIssued(t, calls[i].0)
      {
        UnseenIds(t, calls, calls[i].0);
        assert calls[i].0 in Ids(calls);
      }
    }
  }

  /** Admitting reserves exactly the presented calls that were issued, with their results,
      under the lease, and changes no other row. */
  lemma {:induction false} ReserveMarks(t: Table, scope: string, calls: seq<Call>, results: map<string, string>,
                                        lease: string, needsFresh: bool)
    requires ReserveOutcome(t, scope, calls, results, lease, needsFresh).Ok?
    ensures var (after, unseen) := ReserveOutcome(t, scope, calls, results, lease, needsFresh).value;
            && after.Keys == t.Keys
            && (forall id :: id in unseen <==> id in Ids(calls) && IsIssued(t, id))
            && (forall id :: id in t && id !in unseen ==> after[id] == t[id])
            && (forall id :: id in unseen ==>
                  && id in t && id in results
                  && after[id] == Row(scope, t[id].fingerprint, t[id].group, Reserved, Some(results[id]), Some(lease)))
  {
    NoObjection(t, scope, calls, results);
    forall id
      ensures id in Unseen(t, calls) <==> id in Ids(calls) && IsIssued(t, id)
      ensures id in Unseen(t, calls) ==> id in t && id in results && t[id].scope == scope
    {
      UnseenIds(t, calls, id);
      if id in Unseen(t, calls) {
        var i :| 0 <= i < |calls| && calls[i].0 == id;
        assert Objection(t, scope, calls[i], results).None?;
      }
    }
  }

  /** A request that needs fresh input is refused as a replay exactly if every call it presents
      was consumed before with the very result it brings. */
  lemma {:induction false} ReplayIsRefused(t: Table, scope: string, calls: seq<Call>, results: map<string, string>,
                                           lease: string, needsFresh: bool)
    requires TableOk(t)
    ensures ReserveOutcome(t, scope, calls, results, lease, needsFresh) == Err(Replayed)
       <==> needsFresh && forall i :: 0 <= i < |calls| ==> SeenBefore(t, scope, calls[i], results)
  {
    ReserveAdmits(t, scope, calls, results, lease, needsFresh);
    NoObjection(t, scope, calls, results);
    NotAnObjection(t, scope, calls, results);
    forall i | 0 <= i < |calls|
      ensures SeenBefore(t, scope, calls[i], results)
         <==> Presentable(t, scope, calls[i], results) && !IsIssued(t, calls[i].0)
    {
      assert calls[i].0 in t ==> RowOk(t[calls[i].0]);
    }
    forall i | 0 <= i < |calls|
      ensures Objection(t, scope, calls[i], results).None? <==> Presentable(t, scope, calls[i], results)
    {
      ObjectionMeans(t, scope, calls[i], results);
    }
  }

  lemma {:induction false} NotAnObjection(t: Table, scope: string, calls: seq<Call>, results: map<string, string>)
    ensures FirstObjection(t, scope, calls, results) != Some(Replayed)
  {
    if calls != [] {
      NotAnObjection(t, scope, calls[..|calls| - 1], results);
    }
  }

  // ---------------------------------------------------------------- complete and not_sent

  function Inserted(t: Table, scope: string, group: string, calls: seq<Call>): Table {
    if calls == [] then t
    else
      var (id, mark) := calls[|calls| - 1];
      Inserted(t, scope, group, calls[..|calls| - 1])[id := Row(scope, mark, group, Issued, None, None)]
  }

  predicate Holds(row: Row, scope: string, lease: string) {
    row.scope == scope && row.lease == Some(lease)
  }

  function Consume(t: Table, scope: string, lease: string): Table {
    map id | id in t :: if Holds(t[id], scope, lease) then t[id].(phase := Consumed, lease := None) else t[id]
  }

  function Release(t: Table, scope: string, lease: string): Table {
    map id | id in t ::
      if Holds(t[id], scope, lease) then t[id].(phase := Issued, resultHash := None, lease := None) else t[id]
  }

  predicate Insertable(t: Table, calls: seq<Call>) {
    DistinctIds(calls) && forall i :: 0 <= i < |calls| ==> calls[i].0 !in t
  }

  function CompleteOutcome(t: Table, scope: string, lease: string, group: string,
                           calls: seq<Call>): Result<Table, Refusal> {
    if |t| + |calls| > MAX_ROWS then Err(StateFull)
    else if !Insertable(t, calls) then Err(IntegrityError)
    else Ok(Consume(Inserted(t, scope, group, calls), scope, lease))
  }

  lemma {:induction false} IdsStep(calls: seq<Call>)
    requires calls != []
    ensures Ids(calls) == Ids(calls[..|calls| - 1]) + {calls[|calls| - 1].0}
  {
    assert calls == calls[..|calls| - 1] + [calls[|calls| - 1]];
  }

  lemma {:induction false} InsertedKeys(t: Table, scope: string, group: string, calls: seq<Call>)
    ensures Inserted(t, scope, group, calls).Keys == t.Keys + Ids(calls)
  {
    if calls != [] {
      InsertedKeys(t, scope, group, calls[..|calls| - 1]);
      IdsStep(calls);
    }
  }

  lemma {:induction false} InsertedSize(t: Table, scope: string, group: string, calls: seq<Call>)
    requires Insertable(t, calls)
    ensures |Inserted(t, scope, group, calls)| == |t| + |calls|
  {
    if calls != [] {
      var front := calls[..|calls| - 1];
      InsertedSize(t, scope, group, front);
      InsertedKeys(t, scope, group, front);
      var u := Inserted(t, scope, group, front);
      assert calls[|calls| - 1].0 !in u.Keys;
    }
  }

  lemma {:induction false} InsertedRow(t: Table, scope: string, group: string, calls: seq<Call>, id: string)
    requires Insertable(t, calls)
    requires id in t || id in Ids(calls)
    ensures id in Inserted(t, scope, group, calls)
    ensures var u := Inserted(t, scope, group, calls);
            if id in t then u[id] == t[id]
            else u[id].scope == scope && u[id].group == group && u[id].phase == Issued
                 && u[id].resultHash == None && u[id].lease == None
  {
    if calls != [] {
      IdsStep(calls);
      if id != calls[|calls| - 1].0 {
        InsertedRow(t, scope, group, calls[..|calls| - 1], id);
      }
    }
  }

  /** A call that was inserted carries the digest of its record. */
  lemma {:induction false} InsertedMark(t: Table, scope: string, group: string, calls: seq<Call>, i: nat)
    requires Insertable(t, calls) && i < |calls|
    ensures calls[i].0 in Inserted(t, scope, group, calls)
    ensures Inserted(t, scope, group, calls)[calls[i].0] == Row(scope, calls[i].1, group, Issued, None, None)
  {
    if i < |calls| - 1 {
      InsertedMark(t, scope, group, calls[..|calls| - 1], i);
    }
  }

  /** `complete` succeeds exactly if the table has room and every id is new; then the answer's
      calls are issued, what the lease held is consumed, and no other row changes. */
  lemma {:induction false} CompleteMeans(t: Table, scope: string, lease: string, group: string, calls: seq<Call>)
    ensures var r := CompleteOutcome(t, scope, lease, group, calls);
            && (r.Ok? <==> |t| + |calls| <= 50000 && Insertable(t, calls))
            && (r.Ok? ==>
                  && r.value.Keys == t.Keys + Ids(calls)
                  && (forall i :: 0 <= i < |calls| ==>
                        && calls[i].0 in r.value
                        && r.value[calls[i].0] == Row(scope, calls[i].1, group, Issued, None, None))
                  && (forall id :: id in t && t[id].scope == scope && t[id].lease == Some(lease) ==>
                        id in r.value && r.value[id] == t[id].(phase := Consumed, lease := None))
                  && (forall id :: id in t && (t[id].scope != scope || t[id].lease != Some(lease)) ==>
                        id in r.value && r.value[id] == t[id]))
  {
    if |t| + |calls| <= 50000 && Insertable(t, calls) {
      InsertedKeys(t, scope, group, calls);
      forall i | 0 <= i < |calls|
        ensures calls[i].0 in Inserted(t, scope, group, calls)
        ensures Inserted(t, scope, group, calls)[calls[i].0] == Row(scope, calls[i].1, group, Issued, None, None)
      {
        InsertedMark(t, scope, group, calls, i);
      }
      forall id | id in t
        ensures Inserted(t, scope, group, calls)[id] == t[id]
      {
        InsertedRow(t, scope, group, calls, id);
      }
    }
  }

  lemma {:induction false} InsertionStops(t: Table, scope: string, group: string, calls: seq<Call>, i: nat)
    requires i < |calls| && Insertable(t, calls[..i])
    ensures calls[i].0 in Inserted(t, scope, group, calls[..i]) <==> !Insertable(t, calls[..i + 1])
  {
    InsertedKeys(t, scope, group, calls[..i]);
    if calls[i].0 in Ids(calls[..i]) {
      var j :| 0 <= j < i && calls[..i][j].0 == calls[i].0;
      assert calls[..i + 1][j].0 == calls[..i + 1][i].0;
    } else {
      assert forall j :: 0 <= j < i ==> calls[..i + 1][j] == calls[..i][j];
      assert forall j :: 0 <= j < i ==> calls[..i][j].0 in Ids(calls[..i]);
    }
  }

  lemma {:induction false} PrefixInsertable(t: Table, calls: seq<Call>, i: nat)
    requires i <= |calls| && Insertable(t, calls)
    ensures Insertable(t, calls[..i])
  {
  }

  // ---------------------------------------------------------------- the class

  class ToolState {
    var rows: Table

    constructor ()
      ensures rows == map[]
    {
      rows := map[];
    }

    /** `reserve`: admitted exactly if every call may be presented and, where fresh input is
        needed, one is fresh; a repeated request is refused and changes nothing. */
    method Reserve(scope: string, calls: seq<Call>, results: map<string, string>, lease: string, needsFresh: bool)
        returns (r: Result<seq<string>, Refusal>)
      requires DistinctIds(calls)
      modifies this
      ensures match ReserveOutcome(old(rows), scope, calls, results, lease, needsFresh)
              case Ok((t, unseen)) => r == Ok(unseen) && rows == t
              case Err(e) => r == Err(e) && rows == old(rows)
      ensures r.Ok? <==>
                && (forall i :: 0 <= i < |calls| ==> Presentable(old(rows), scope, calls[i], results))
                && (needsFresh ==> exists i :: 0 <= i < |calls| && IsIssued(old(rows), calls[i].0))
      ensures r.Ok? && needsFresh ==>
                exists i :: 0 <= i < |calls| && IsIssued(old(rows), calls[i].0) && IsReservedBy(rows, calls[i].0, lease)
      ensures TableOk(old(rows)) ==>
                (r == Err(Replayed) <==>
                   needsFresh && forall i :: 0 <= i < |calls| ==> SeenBefore(old(rows), scope, calls[i], results))
    {
      r := Transaction(scope, calls, results, lease, needsFresh);
      ReserveAdmits(old(rows), scope, calls, results, lease, needsFresh);
      if TableOk(old(rows)) {
        ReplayIsRefused(old(rows), scope, calls, results, lease, needsFresh);
      }
      if r.Ok? {
        ReserveMarks(old(rows), scope, calls, results, lease, needsFresh);
      }
    }

    /** The loop reads rows it has already marked; the outcome is nevertheless the one
        `ReserveOutcome` reads off the table at its start. */
    method Transaction(scope: string, calls: seq<Call>, results: map<string, string>, lease: string, needsFresh: bool)
        returns (r: Result<seq<string>, Refusal>)
      requires DistinctIds(calls)
      modifies this
      ensures match ReserveOutcome(old(rows), scope, calls, results, lease, needsFresh)
              case Ok((t, unseen)) => r == Ok(unseen) && rows == t
              case Err(e) => r == Err(e) && rows == old(rows)
    {
      var db, unseen := rows, [];
      assert db == Mark(rows, [], results, lease);
      var i := 0;
      while i < |calls|
        invariant 0 <= i <= |calls|
        invariant rows == old(rows)
        invariant unseen == Unseen(rows, calls[..i])
        invariant db == Mark(rows, unseen, results, lease)
        invariant FirstObjection(rows, scope, calls[..i], results).None?
      {
        var id := calls[i].0;
        assert calls[..i + 1][..i] == calls[..i];
        UnseenIds(rows, calls[..i], id);
        ObjectionStable(rows, scope, calls[i], results, unseen, lease);
        var objection := Objection(db, scope, calls[i], results);
        if objection.Some? {
          ObjectionEndures(rows, scope, calls, results, i + 1);
          return Err(objection.value);
        }
        if db[id].phase.Issued? {
          MarkNext(rows, unseen, results, lease, id);
          unseen := unseen + [id];
          db := db[id := db[id].(phase := Reserved, resultHash := Some(results[id]), lease := Some(lease))];
        }
        i := i + 1;
      }
      assert calls[..i] == calls;
      if needsFresh && unseen == [] {
        return Err(Replayed);
      }
      rows := db;
      return Ok(unseen);
    }

    method Complete(scope: string, lease: string, group: string, calls: seq<Call>) returns (r: Result<(), Refusal>)
      modifies this
      ensures match CompleteOutcome(old(rows), scope, lease, group, calls)
              case Ok(t) => r == Ok(()) && rows == t
              case Err(e) => r == Err(e) && rows == old(rows)
    {
      if |rows| + |calls| > MAX_ROWS {
        return Err(StateFull);
      }
      var db := rows;
      var i := 0;
      while i < |calls|
        invariant 0 <= i <= |calls|
        invariant rows == old(rows)
        invariant Insertable(rows, calls[..i])
        invariant db == Inserted(rows, scope, group, calls[..i])
      {
        var (id, mark) := calls[i];
        InsertionStops(rows, scope, group, calls, i);
        if id in db {
          if Insertable(rows, calls) {
            PrefixInsertable(rows, calls, i + 1);
          }
          return Err(IntegrityError);
        }
        assert calls[..i + 1][..i] == calls[..i];
        db := db[id := Row(scope, mark, group, Issued, None, None)];
        i := i + 1;
      }
      assert calls[..i] == calls;
      rows := Consume(db, scope, lease);
      return Ok(());
    }

    /** The rows this lease holds become what `complete` first inserted; no other row changes. */
    method NotSent(scope: string, lease: string)
      modifies this
      ensures rows.Keys == old(rows).Keys
      ensures forall id :: id in rows && Holds(old(rows)[id], scope, lease) ==>
                rows[id] == Row(scope, old(rows)[id].fingerprint, old(rows)[id].group, Issued, None, None)
      ensures forall id :: id in rows && !Holds(old(rows)[id], scope, lease) ==> rows[id] == old(rows)[id]
    {
      rows := Release(rows, scope, lease);
    }
  }

  lemma {:induction false} ObjectionEndures(t: Table, scope: string, calls: seq<Call>, results: map<string, string>,
                                            i: nat)
    requires i <= |calls|
    requires FirstObjection(t, scope, calls[..i], results).Some?
    ensures FirstObjection(t, scope, calls, results) == FirstObjection(t, scope, calls[..i], results)
    decreases |calls| - i
  {
    if i < |calls| {
      assert calls[..i + 1][..i] == calls[..i];
      ObjectionEndures(t, scope, calls, results, i + 1);
    } else {
      assert calls[..i] == calls;
    }
  }

  // ---------------------------------------------------------------- runs

  /** One transaction of any request, in any scope. */
  datatype Op =
    | DoReserve(scope: string, calls: seq<Call>, results: map<string, string>, lease: string, needsFresh: bool)
    | DoComplete(scope: string, lease: string, group: string, calls: seq<Call>)
    | DoNotSent(scope: string, lease: string)

  function Step(t: Table, op: Op): Table {
    match op
    case DoReserve(scope, calls, results, lease, needsFresh) =>
      (match ReserveOutcome(t, scope, calls, results, lease, needsFresh) case Ok((u, _)) => u case Err(_) => t)
    case DoComplete(scope, lease, group, calls) =>
      (match CompleteOutcome(t, scope, lease, group, calls) case Ok(u) => u case Err(_) => t)
    case DoNotSent(scope, lease) => Release(t, scope, lease)
  }

  function Run(t: Table, ops: seq<Op>): Table {
    if ops == [] then t else Step(Run(t, ops[..|ops| - 1]), ops[|ops| - 1])
  }

  predicate RowOk(row: Row) {
    match row.phase
    case Issued => row.resultHash.None? && row.lease.None?
    case Reserved => row.resultHash.Some? && row.lease.Some?
    case Consumed => row.resultHash.Some? && row.lease.None?
  }

  predicate TableOk(t: Table) {
    |t| <= 50000 && forall id :: id in t ==> RowOk(t[id])
  }

  lemma {:induction false} SameKeysSameSize(t: Table, u: Table)
    requires t.Keys == u.Keys
    ensures |t| == |u|
  {
    assert |t| == |t.Keys| && |u| == |u.Keys|;
  }

  lemma {:induction false} CompleteKeepsTableOk(t: Table, scope: string, lease: string, group: string, calls: seq<Call>)
    requires TableOk(t) && CompleteOutcome(t, scope, lease, group, calls).Ok?
    ensures TableOk(CompleteOutcome(t, scope, lease, group, calls).value)
  {
    var u := Inserted(t, scope, group, calls);
    InsertedKeys(t, scope, group, calls);
    InsertedSize(t, scope, group, calls);
    forall id | id in u
      ensures RowOk(u[id])
    {
      InsertedRow(t, scope, group, calls, id);
    }
    SameKeysSameSize(u, Consume(u, scope, lease));
  }

  lemma {:induction false} StepKeepsTableOk(t: Table, op: Op)
    requires TableOk(t)
    ensures TableOk(Step(t, op))
  {
    match op
    case DoReserve(_, _, _, _, _) =>
      SameKeysSameSize(t, Step(t, op));
    case DoComplete(scope, lease, group, calls) =>
      if CompleteOutcome(t, scope, lease, group, calls).Ok? {
        CompleteKeepsTableOk(t, scope, lease, group, calls);
      }
    case DoNotSent(_, _) =>
      SameKeysSameSize(t, Step(t, op));
  }

  /** In every reachable table each row carries exactly what its phase says, and
      the table is never over its limit. */
  lemma {:induction false} EveryTableOk(ops: seq<Op>)
    ensures TableOk(Run(map[], ops))
  {
    if ops != [] {
      EveryTableOk(ops[..|ops| - 1]);
      StepKeepsTableOk(Run(map[], ops[..|ops| - 1]), ops[|ops| - 1]);
    }
  }

  /** No transaction removes a row, rewrites its identity, touches another scope,
      or changes a consumed row. */
  lemma {:induction false} StepFrame(t: Table, op: Op, id: string)
    requires TableOk(t) && id in t
    ensures id in Step(t, op)
    ensures Step(t, op)[id].scope == t[id].scope
    ensures Step(t, op)[id].fingerprint == t[id].fingerprint && Step(t, op)[id].group == t[id].group
    ensures t[id].scope != op.scope || t[id].phase.Consumed? ==> Step(t, op)[id] == t[id]
  {
    match op
    case DoReserve(scope, calls, results, lease, needsFresh) =>
      UnseenIds(t, calls, id);
      NoObjection(t, scope, calls, results);
      if id in Unseen(t, calls) {
        var i :| 0 <= i < |calls| && calls[i].0 == id;
        assert FirstObjection(t, scope, calls, results).None? ==> Objection(t, scope, calls[i], results).None?;
      }
    case DoComplete(scope, lease, group, calls) =>
      if CompleteOutcome(t, scope, lease, group, calls).Ok? {
        InsertedRow(t, scope, group, calls, id);
      }
    case DoNotSent(_, _) =>
  }

  lemma {:induction false} RunFrame(t: Table, ops: seq<Op>, id: string)
    requires TableOk(t) && id in t
    ensures TableOk(Run(t, ops)) && id in Run(t, ops)
    ensures Run(t, ops)[id].scope == t[id].scope && Run(t, ops)[id].fingerprint == t[id].fingerprint
    ensures Run(t, ops)[id].group == t[id].group
    ensures t[id].phase.Consumed? || (forall op :: op in ops ==> op.scope != t[id].scope) ==> Run(t, ops)[id] == t[id]
  {
    if ops != [] {
      var front, last := ops[..|ops| - 1], ops[|ops| - 1];
      RunFrame(t, front, id);
      StepKeepsTableOk(Run(t, front), last);
      StepFrame(Run(t, front), last, id);
      assert last in ops && forall op :: op in front ==> op in ops;
    }
  }

  /** `not_sent` takes back exactly what `reserve` did under a new lease. */
  lemma {:induction false} NotSentUndoesReserve(t: Table, scope: string, calls: seq<Call>, results: map<string, string>,
                                                lease: string, needsFresh: bool, after: Table, unseen: seq<string>)
    requires TableOk(t) && forall id :: id in t ==> t[id].lease != Some(lease)
    requires ReserveOutcome(t, scope, calls, results, lease, needsFresh) == Ok((after, unseen))
    ensures Release(after, scope, lease) == t
  {
    NoObjection(t, scope, calls, results);
    forall id | id in t
      ensures Release(after, scope, lease)[id] == t[id]
    {
      UnseenIds(t, calls, id);
      assert RowOk(t[id]);
      if id in Unseen(t, calls) {
        var i :| 0 <= i < |calls| && calls[i].0 == id;
        assert Objection(t, scope, calls[i], results).None?;
      }
    }
  }

  /** While a call is reserved, no request that presents it is let in, whatever it says. */
  lemma {:induction false} ReservedBlocks(t: Table, scope: string, calls: seq<Call>, results: map<string, string>,
                       lease: string, needsFresh: bool, id: string)
    requires TableOk(t) && id in t && t[id].phase.Reserved? && id in Ids(calls)
    ensures ReserveOutcome(t, scope, calls, results, lease, needsFresh).Err?
  {
    var i :| 0 <= i < |calls| && calls[i].0 == id;
    assert Objection(t, scope, calls[i], results).Some?;
    NoObjection(t, scope, calls, results);
  }

  // ---------------------------------------------------------------- groups

  /** The calls of one response share phase and lease. */
  predicate GroupsAgree(t: Table) {
    forall a, b :: a in t && b in t && t[a].scope == t[b].scope && t[a].group == t[b].group
      ==> t[a].phase == t[b].phase && t[a].lease == t[b].lease
  }

  lemma {:induction false} UnseenRow(t: Table, scope: string, calls: seq<Call>, results: map<string, string>, a: string)
    requires FirstObjection(t, scope, calls, results).None? && a in Unseen(t, calls)
    ensures a in t && a in results && t[a].scope == scope && t[a].phase.Issued?
    ensures GroupOf(t, scope, t[a].group) <= results.Keys
  {
    UnseenIds(t, calls, a);
    NoObjection(t, scope, calls, results);
    var i :| 0 <= i < |calls| && calls[i].0 == a;
    assert Objection(t, scope, calls[i], results).None?;
  }

  /** A request that presents one call of a response presents all of them. */
  lemma {:induction false} MateIsUnseen(t: Table, scope: string, calls: seq<Call>, results: map<string, string>,
                                        a: string, b: string)
    requires GroupsAgree(t) && results.Keys <= Ids(calls)
    requires FirstObjection(t, scope, calls, results).None? && a in Unseen(t, calls)
    requires a in t && b in t && t[a].scope == t[b].scope && t[a].group == t[b].group
    ensures b in Unseen(t, calls)
  {
    UnseenRow(t, scope, calls, results, a);
    assert b in GroupOf(t, scope, t[a].group);
    UnseenIds(t, calls, b);
  }

  lemma {:induction false} ReserveKeepsGroups(t: Table, scope: string, calls: seq<Call>, results: map<string, string>,
                                              lease: string)
    requires GroupsAgree(t) && results.Keys <= Ids(calls)
    requires FirstObjection(t, scope, calls, results).None?
    ensures GroupsAgree(Mark(t, Unseen(t, calls), results, lease))
  {
    var unseen := Unseen(t, calls);
    var u := Mark(t, unseen, results, lease);
    forall a, b | a in u && b in u && u[a].scope == u[b].scope && u[a].group == u[b].group
      ensures u[a].phase == u[b].phase && u[a].lease == u[b].lease
    {
      if a in unseen {
        UnseenRow(t, scope, calls, results, a);
        MateIsUnseen(t, scope, calls, results, a, b);
        UnseenRow(t, scope, calls, results, b);
      } else if b in unseen {
        UnseenRow(t, scope, calls, results, b);
        MateIsUnseen(t, scope, calls, results, b, a);
      }
    }
  }

  /** The groups of a table in which `group` may be used for new calls: whatever
      already carries that name in that scope is still, or again, issued. */
  predicate GroupUsable(t: Table, scope: string, lease: string, group: string) {
    forall id :: id in GroupOf(t, scope, group) ==> t[id].phase.Issued? && !Holds(t[id], scope, lease)
  }

  /** `complete` keeps the calls of a response together exactly when its group name
      is not already worn by calls that have moved on. */
  lemma {:induction false} CompleteKeepsGroups(t: Table, scope: string, lease: string, group: string, calls: seq<Call>)
    requires TableOk(t) && GroupsAgree(t)
    requires CompleteOutcome(t, scope, lease, group, calls).Ok?
    ensures GroupsAgree(CompleteOutcome(t, scope, lease, group, calls).value)
       <==> calls == [] || GroupUsable(t, scope, lease, group)
  {
    var u := Inserted(t, scope, group, calls);
    var w := Consume(u, scope, lease);
    if calls == [] {
      ConsumeKeepsGroups(t, scope, lease);
    } else if GroupUsable(t, scope, lease, group) {
      UsableGroupAgrees(t, scope, group, calls, lease);
      ConsumeKeepsGroups(u, scope, lease);
    } else {
      var id :| id in GroupOf(t, scope, group) && !(t[id].phase.Issued? && !Holds(t[id], scope, lease));
      var newest := calls[0].0;
      InsertedRow(t, scope, group, calls, id);
      InsertedMark(t, scope, group, calls, 0);
      assert w[id].phase != Issued && w[newest].phase == Issued;
    }
  }

  /** `response_payload`: the group of a response is its id, and the id keeps only
      the first hundred characters of the upstream request id, made safe. */
  function ResponseId(requestId: string): string {
    "resp_prism_" + SafeText(if |requestId| > 100 then requestId[..100] else requestId)
  }

  function SafeText(s: string): string {
    if s == "" then ""
    else
      var c := s[0];
      var kept := 'a' <= c <= 'z' || 'A' <= c <= 'Z' || '0' <= c <= '9' || c == '_' || c == '-';
      [if kept then c else '_'] + SafeText(s[1..])
  }

  /** A call issued, presented, and followed by another one under the same group name. */
  const SharedNameRun: seq<Op> := [
    DoComplete("s", "first", ResponseId("r.1"), [("a", "f")]),
    DoReserve("s", [("a", "f")], map["a" := "h"], "second", true),
    DoComplete("s", "second", ResponseId("r/1"), [("b", "f")])]

  /** Two upstream requests can therefore share a group name, and then a run of three ordinary
      requests leads to a table in which a group does not stay together: the first response's
      call is consumed while the second's is issued. */
  lemma {:induction false} SharedNameSplitsGroup()
    ensures ResponseId("r.1") == ResponseId("r/1")
    ensures !GroupsAgree(Run(map[], SharedNameRun))
  {
    assert "r.1"[1..] == ".1" && ".1"[1..] == "1" && "r/1"[1..] == "/1" && "/1"[1..] == "1";
    assert SafeText(".1") == SafeText("/1");
    var group, ops := ResponseId("r.1"), SharedNameRun;
    assert ops[..3] == ops && ops[..2][..1] == ops[..1] && ops[..1][..0] == [];
    var t1: Table := map["a" := Row("s", "f", group, Issued, None, None)];
    FirstIssue(group, t1);
    assert Run(map[], ops[..1]) == t1;
    var t2: Table := map["a" := Row("s", "f", group, Reserved, Some("h"), Some("second"))];
    FirstReserve(group, t1, t2);
    assert Run(map[], ops[..2]) == t2;
    SecondIssue(group, t2);
    assert Run(map[], ops) == Step(t2, ops[2]);
  }

  lemma {:induction false} FirstIssue(group: string, t: Table)
    requires t == map["a" := Row("s", "f", group, Issued, None, None)]
    ensures Step(map[], DoComplete("s", "first", group, [("a", "f")])) == t
  {
    var calls: seq<Call> := [("a", "f")];
    assert calls[..0] == [];
    assert Inserted(map[], "s", group, calls) == t;
    assert !Holds(t["a"], "s", "first");
    assert Consume(t, "s", "first") == t;
  }

  lemma {:induction false} FirstReserve(group: string, t: Table, t': Table)
    requires t == map["a" := Row("s", "f", group, Issued, None, None)]
    requires t' == map["a" := Row("s", "f", group, Reserved, Some("h"), Some("second"))]
    ensures Step(t, DoReserve("s", [("a", "f")], map["a" := "h"], "second", true)) == t'
  {
    var calls: seq<Call> := [("a", "f")];
    assert calls[..0] == [];
    var results: map<string, string> := map["a" := "h"];
    assert GroupOf(t, "s", group) == {"a"} && results.Keys == {"a"};
    assert Objection(t, "s", calls[0], results) == None;
    NoObjection(t, "s", calls, results);
    assert Unseen(t, calls) == ["a"];
    assert Mark(t, ["a"], map["a" := "h"], "second") == t';
  }

  lemma {:induction false} SecondIssue(group: string, t: Table)
    requires t == map["a" := Row("s", "f", group, Reserved, Some("h"), Some("second"))]
    ensures !GroupsAgree(Step(t, DoComplete("s", "second", group, [("b", "f")])))
  {
    var calls: seq<Call> := [("b", "f")];
    assert "a" != "b" && calls[..0] == [];
    var u := Step(t, DoComplete("s", "second", group, calls));
    assert Inserted(t, "s", group, calls) == t["b" := Row("s", "f", group, Issued, None, None)];
    assert u["a"].phase == Consumed && u["b"].phase == Issued;
  }

  lemma {:induction false} ConsumeKeepsGroups(t: Table, scope: string, lease: string)
    requires GroupsAgree(t)
    ensures GroupsAgree(Consume(t, scope, lease))
  {
  }

  lemma {:induction false} UsableRow(t: Table, scope: string, group: string, calls: seq<Call>, lease: string, a: string)
    requires TableOk(t) && Insertable(t, calls) && GroupUsable(t, scope, lease, group)
    requires a in Inserted(t, scope, group, calls)
    ensures var row := Inserted(t, scope, group, calls)[a];
            if row.scope == scope && row.group == group then row.phase == Issued && row.lease == None
            else a in t && row == t[a]
  {
    InsertedKeys(t, scope, group, calls);
    InsertedRow(t, scope, group, calls, a);
    if a in t && t[a].scope == scope && t[a].group == group {
      assert a in GroupOf(t, scope, group) && RowOk(t[a]);
    }
  }

  lemma {:induction false} UsableGroupAgrees(t: Table, scope: string, group: string, calls: seq<Call>, lease: string)
    requires TableOk(t) && GroupsAgree(t) && Insertable(t, calls)
    requires GroupUsable(t, scope, lease, group)
    ensures GroupsAgree(Inserted(t, scope, group, calls))
  {
    var u := Inserted(t, scope, group, calls);
    forall a, b | a in u && b in u && u[a].scope == u[b].scope && u[a].group == u[b].group
      ensures u[a].phase == u[b].phase && u[a].lease == u[b].lease
    {
      UsableRow(t, scope, group, calls, lease, a);
      UsableRow(t, scope, group, calls, lease, b);
    }
  }

  lemma {:induction false} ReleaseKeepsGroups(t: Table, scope: string, lease: string)
    requires GroupsAgree(t)
    ensures GroupsAgree(Release(t, scope, lease))
  {
  }

  /** What the requests of a run guarantee: `history` pairs every call with a
      result, and a completed response does not reuse a spent group name. */
  ghost predicate Guarded(t: Table, op: Op) {
    match op
    case DoReserve(_, calls, results, _, _) => results.Keys <= Ids(calls)
    case DoComplete(scope, lease, group, calls) => calls == [] || GroupUsable(t, scope, lease, group)
    case DoNotSent(_, _) => true
  }

  ghost predicate GuardedRun(ops: seq<Op>) {
    forall i :: 0 <= i < |ops| ==> Guarded(Run(map[], ops[..i]), ops[i])
  }

  /** In every such run the calls of one response are issued, reserved by one
      request, or consumed, all together. */
  lemma {:induction false} EveryGroupAgrees(ops: seq<Op>)
    requires GuardedRun(ops)
    ensures GroupsAgree(Run(map[], ops))
  {
    if ops != [] {
      var front, op := ops[..|ops| - 1], ops[|ops| - 1];
      assert forall i :: 0 <= i < |front| ==> front[..i] == ops[..i] && front[i] == ops[i];
      EveryGroupAgrees(front);
      EveryTableOk(front);
      var t := Run(map[], front);
      assert Guarded(t, op);
      match op
      case DoReserve(scope, calls, results, lease, needsFresh) =>
        if ReserveOutcome(t, scope, calls, results, lease, needsFresh).Ok? {
          ReserveKeepsGroups(t, scope, calls, results, lease);
        }
      case DoComplete(scope, lease, group, calls) =>
        if CompleteOutcome(t, scope, lease, group, calls).Ok? {
          CompleteKeepsGroups(t, scope, lease, group, calls);
        }
      case DoNotSent(scope, lease) =>
        ReleaseKeepsGroups(t, scope, lease);
    }
  }
}

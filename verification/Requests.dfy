/** What a whole request declares and asks for: the constructor of `ToolBridge` in
    prism-adapter/tool_bridge.py, said of the fields of the request alone.

    Declarations come in three places: `tools`, `additional_tools` and the
    `additional_tools` items of the input. */
module Requests {
  import opened Prelude
  import opened Json
  import opened Canonical
  import opened Tools
  import opened History
  import O = Output
  import B = Bridge

  // ---------------------------------------------------------------- what a request writes

  predicate ListWrites(v: Json, t: Tool) {
    v.Arr? && WrittenIn(v.items, "", 0, t)
  }

  predicate FieldWrites(v: Option<Json>, t: Tool) {
    v.Some? && ListWrites(v.value, t)
  }

  predicate ItemWrites(v: Json, t: Tool) {
    v.Obj? && Get(v.fields, "type") == Some(Str("additional_tools")) && FieldWrites(Get(v.fields, "tools"), t)
  }

  predicate InputWrites(items: Items, t: Tool) {
    items.Item? && (ItemWrites(items.head, t) || InputWrites(items.tail, t))
  }

  /** The tool is written in one of the three places. */
  predicate Writes(payload: Fields, t: Tool) {
    || FieldWrites(Get(payload, "tools"), t)
    || FieldWrites(Get(payload, "additional_tools"), t)
    || (Get(payload, "input").Some? && Get(payload, "input").value.Arr?
        && InputWrites(Get(payload, "input").value.items, t))
  }

  /** No list, or at most 96 declarations that are well-formed at every depth. */
  ghost predicate ListOk(v: Json) {
    v == Null || (v.Arr? && Count(v.items) <= 96 && WellFormedIn(v.items, "", 0))
  }

  ghost predicate FieldOk(v: Option<Json>) {
    v.Some? ==> ListOk(v.value)
  }

  ghost predicate ItemOk(v: Json) {
    v.Obj? && Get(v.fields, "type") == Some(Str("additional_tools")) ==> FieldOk(Get(v.fields, "tools"))
  }

  ghost predicate InputOk(items: Items) {
    items.Item? ==> ItemOk(items.head) && InputOk(items.tail)
  }

  ghost predicate PlacesOk(payload: Fields) {
    && FieldOk(Get(payload, "tools")) && FieldOk(Get(payload, "additional_tools"))
    && (Get(payload, "input").Some? && Get(payload, "input").value.Arr? ==> InputOk(Get(payload, "input").value.items))
  }

  // ---------------------------------------------------------------- the places, in order

  function InputLists(items: Items): seq<Json> {
    if items.NoItems? then []
    else (if B.DeclaresMore(items.head) then [At(items.head.fields, "tools")] else []) + InputLists(items.tail)
  }

  function Lists(payload: Fields): seq<Json> {
    [At(payload, "tools"), At(payload, "additional_tools")]
    + if At(payload, "input").Arr? then InputLists(At(payload, "input").items) else []
  }

  function CollectLists(c: Catalogue, lists: seq<Json>): Result<Catalogue, Refusal>
    decreases |lists|
  {
    if lists == [] then Ok(c)
    else
      var c' :- Collect(c, lists[0], "", 0);
      CollectLists(c', lists[1..])
  }

  function DeclaredInLists(lists: seq<Json>): Option<seq<Tool>>
    decreases |lists|
  {
    if lists == [] then Some([])
    else
      var first :- Declared(lists[0], "", 0);
      var more :- DeclaredInLists(lists[1..]);
      Some(first + more)
  }

  lemma {:induction false} InputIsLists(c: Catalogue, items: Items)
    ensures B.CollectInput(c, items) == CollectLists(c, InputLists(items))
    decreases items
  {
    if items.Item? {
      if B.DeclaresMore(items.head) {
        var value := At(items.head.fields, "tools");
        assert InputLists(items)[0] == value && InputLists(items)[1..] == InputLists(items.tail);
        if Collect(c, value, "", 0).Ok? {
          InputIsLists(Collect(c, value, "", 0).value, items.tail);
        }
      } else {
        assert InputLists(items) == InputLists(items.tail);
        InputIsLists(c, items.tail);
      }
    }
  }

  /** The constructor reads the places one after the other, and wants at least one tool. */
  lemma {:induction false} CollectAllIsLists(payload: Fields)
    ensures B.CollectAll(payload)
         == match CollectLists(Nothing, Lists(payload))
            case Err(e) => Err(e)
            case Ok(c) => if c.tools == map[] then Err(InvalidTools) else Ok(c)
  {
    var lists := Lists(payload);
    var more := if At(payload, "input").Arr? then InputLists(At(payload, "input").items) else [];
    assert lists[0] == At(payload, "tools") && lists[1..][0] == At(payload, "additional_tools");
    assert lists[1..][1..] == more;
    var c1 := Collect(Nothing, lists[0], "", 0);
    if c1.Ok? {
      var c2 := Collect(c1.value, lists[1..][0], "", 0);
      assert CollectLists(c1.value, lists[1..])
          == if c2.Err? then Err(c2.error) else CollectLists(c2.value, more);
      if c2.Ok? && At(payload, "input").Arr? {
        InputIsLists(c2.value, At(payload, "input").items);
      }
    }
  }

  lemma {:induction false} ListsAreRegistered(c: Catalogue, lists: seq<Json>)
    ensures match DeclaredInLists(lists)
            case None => CollectLists(c, lists).Err?
            case Some(tools) => Agree(CollectLists(c, lists), RegisterAll(c, tools))
    decreases |lists|
  {
    if lists != [] {
      CollectIsRegister(c, lists[0], "", 0);
      var next := Collect(c, lists[0], "", 0);
      if next.Ok? {
        ListsAreRegistered(next.value, lists[1..]);
      }
      if DeclaredInLists(lists).Some? {
        RegisterInTurn(c, Declared(lists[0], "", 0).value, DeclaredInLists(lists[1..]).value);
      }
    }
  }

  predicate AllStrict(lists: seq<Json>) {
    forall i :: 0 <= i < |lists| ==> Strict(lists[i])
  }

  lemma {:induction false} DeclaredInListsOk(lists: seq<Json>)
    requires AllStrict(lists)
    ensures DeclaredInLists(lists).Some? ==> AllOk(DeclaredInLists(lists).value)
    decreases |lists|
  {
    if lists != [] {
      DeclaredOk(lists[0], "", 0);
      DeclaredInListsOk(lists[1..]);
    }
  }

  lemma {:induction false} InputListsAreStrict(items: Items)
    requires StrictItems(items)
    ensures AllStrict(InputLists(items))
  {
    if items.Item? {
      InputListsAreStrict(items.tail);
      if items.head.Obj? {
        AtIsStrict(items.head.fields, "tools", Null);
      }
    }
  }

  lemma {:induction false} ListsAreStrict(payload: Fields)
    requires Strict(Obj(payload))
    ensures AllStrict(Lists(payload))
  {
    AtIsStrict(payload, "tools", Null);
    AtIsStrict(payload, "additional_tools", Null);
    AtIsStrict(payload, "input", Null);
    if At(payload, "input").Arr? {
      InputListsAreStrict(At(payload, "input").items);
    }
  }

  // ---------------------------------------------------------------- places and lists agree

  predicate SomeWrites(lists: seq<Json>, t: Tool) {
    lists != [] && (ListWrites(lists[0], t) || SomeWrites(lists[1..], t))
  }

  ghost predicate AllListsOk(lists: seq<Json>) {
    lists != [] ==> ListOk(lists[0]) && AllListsOk(lists[1..])
  }

  lemma {:induction false} InputAgrees(items: Items, t: Tool)
    ensures SomeWrites(InputLists(items), t) <==> InputWrites(items, t)
    ensures AllListsOk(InputLists(items)) <==> InputOk(items)
  {
    if items.Item? {
      InputAgrees(items.tail, t);
      if B.DeclaresMore(items.head) {
        assert InputLists(items)[0] == At(items.head.fields, "tools");
        assert InputLists(items)[1..] == InputLists(items.tail);
      } else {
        assert InputLists(items) == InputLists(items.tail);
      }
    }
  }

  lemma {:induction false} PlacesAgree(payload: Fields, t: Tool)
    ensures SomeWrites(Lists(payload), t) <==> Writes(payload, t)
    ensures AllListsOk(Lists(payload)) <==> PlacesOk(payload)
  {
    var lists := Lists(payload);
    var more := if At(payload, "input").Arr? then InputLists(At(payload, "input").items) else [];
    assert lists[0] == At(payload, "tools") && lists[1..][0] == At(payload, "additional_tools");
    assert lists[1..][1..] == more;
    assert SomeWrites(lists[1..], t) <==> ListWrites(lists[1..][0], t) || SomeWrites(more, t);
    assert AllListsOk(lists[1..]) <==> ListOk(lists[1..][0]) && AllListsOk(more);
    if At(payload, "input").Arr? {
      InputAgrees(At(payload, "input").items, t);
    }
  }

  lemma {:induction false} DeclaredIsWritten(lists: seq<Json>, t: Tool)
    ensures DeclaredInLists(lists).Some? <==> AllListsOk(lists)
    ensures DeclaredInLists(lists).Some? ==> (t in DeclaredInLists(lists).value <==> SomeWrites(lists, t))
    decreases |lists|
  {
    if lists != [] {
      DeclaredIsWritten(lists[1..], t);
      if lists[0].Arr? {
        DeclaredInIsWellFormed(lists[0].items, "", 0);
        if DeclaredIn(lists[0].items, "", 0).Some? {
          DeclaredInIsWritten(lists[0].items, "", 0, t);
        }
      }
    }
  }

  // ---------------------------------------------------------------- the catalogue of a request

  /** The same key is never claimed with different contents. */
  predicate Consistent(tools: seq<Tool>) {
    forall i, j :: 0 <= i < j < |tools| && KeyOf(tools[i]) == KeyOf(tools[j]) ==> Normal(tools[i]) == Normal(tools[j])
  }

  lemma {:induction false} ListsAreCollected(lists: seq<Json>)
    requires AllStrict(lists)
    ensures var declared, r := DeclaredInLists(lists), CollectLists(Nothing, lists);
            && (r.Ok? <==> declared.Some? && Consistent(declared.value) && |KeysOf(declared.value)| <= 96)
            && (r.Ok? ==>
                  && CatalogueOk(r.value) && AllChecked(r.value) && AllOk(declared.value)
                  && Extends(map[], declared.value, KeysOf(declared.value), r.value.tools))
  {
    ListsAreRegistered(Nothing, lists);
    DeclaredInListsOk(lists);
    if DeclaredInLists(lists).Some? {
      var tools := DeclaredInLists(lists).value;
      RegisterAllAccepts(Nothing, tools);
      assert Nothing.tools.Keys + KeysOf(tools) == KeysOf(tools);
      if RegisterAll(Nothing, tools).Ok? {
        RegisterAllExtends(Nothing, tools);
        RegisterAllChecks(Nothing, tools);
      }
    }
  }

  /** The tools are exactly those written in the request. */
  ghost predicate AreWritten(payload: Fields, tools: seq<Tool>) {
    forall t: Tool :: t in tools <==> Writes(payload, t)
  }

  /** The declarations of a request are accepted exactly if every list is well-formed, no two
      declarations conflict and there are between 1 and 96 tools. Then the catalogue has
      exactly the keys written, each with a definition written in the request, and every
      schema and format is put to the validator. */
  lemma {:induction false} RequestIsCollected(payload: Fields) returns (tools: seq<Tool>)
    requires Strict(Obj(payload))
    ensures PlacesOk(payload) ==> AreWritten(payload, tools)
    ensures B.CollectAll(payload).Ok? <==> PlacesOk(payload) && Consistent(tools) && 1 <= |KeysOf(tools)| <= 96
    ensures B.CollectAll(payload).Ok? ==>
              var c := B.CollectAll(payload).value;
              && CatalogueOk(c) && AllChecked(c) && c.tools.Keys == KeysOf(tools) && AllOk(tools)
              && Extends(map[], tools, KeysOf(tools), c.tools)
              && forall key :: key in c.tools ==> Writes(payload, c.tools[key])
  {
    var lists := Lists(payload);
    tools := if DeclaredInLists(lists).Some? then DeclaredInLists(lists).value else [];
    forall t: Tool
      ensures PlacesOk(payload) <==> DeclaredInLists(lists).Some?
      ensures PlacesOk(payload) ==> (t in tools <==> Writes(payload, t))
    {
      PlacesAgree(payload, t);
      DeclaredIsWritten(lists, t);
    }
    ListsAreStrict(payload);
    CollectAllIsLists(payload);
    ListsAreCollected(lists);
  }

  /** Each tool written in an accepted request is found under its own names, with equal contents. */
  lemma {:induction false} WrittenIsInCatalogue(payload: Fields, t: Tool)
    requires Strict(Obj(payload)) && B.CollectAll(payload).Ok? && Writes(payload, t)
    ensures var found := Lookup(B.CollectAll(payload).value, Str(t.namespace), Str(t.name));
            found.Ok? && SameTool(found.value, t)
  {
    var c := B.CollectAll(payload).value;
    var tools := RequestIsCollected(payload);
    var i :| 0 <= i < |tools| && tools[i] == t;
    FirstStands(Nothing, tools, c.tools, i, KeyOf(t));
    FoundByName(c, t, KeyOf(t));
  }

  // ---------------------------------------------------------------- the choice

  /** The choice names the tool: by its qualified name, or by its name and namespace. */
  predicate Names(f: Fields, t: Tool) {
    var namespace := if Get(f, "namespace") == None then Str("") else Get(f, "namespace").value;
    && Get(f, "type") == Some(Str(if t.kind == Function then "function" else "custom"))
    && (Get(f, "name") == Some(Str(if namespace == Str("") then KeyOf(t) else t.name)))
    && (namespace == Str("") || namespace == Str(t.namespace))
  }

  /** What each choice is, and that there is no other. */
  lemma {:induction false} ChoiceMeans(c: Catalogue, choice: Json, t: Tool)
    requires CatalogueOk(c)
    ensures B.ChoiceOf(c, choice) == Ok(O.Auto) <==> choice == Str("auto")
    ensures B.ChoiceOf(c, choice) == Ok(O.NoTools) <==> choice == Str("none")
    ensures B.ChoiceOf(c, choice) == Ok(O.Required) <==> choice == Str("required")
    ensures B.ChoiceOf(c, choice) == Ok(O.Forced(t)) <==> choice.Obj? && t in c.tools.Values && Names(choice.fields, t)
  {
    assert "auto" != "none" && "auto" != "required" && "none" != "required";
    if choice.Obj? {
      NamedIsForced(c, choice.fields, t);
    }
  }

  lemma {:induction false} NamedIsForced(c: Catalogue, f: Fields, t: Tool)
    requires CatalogueOk(c)
    ensures B.ChoiceOf(c, Obj(f)) == Ok(O.Forced(t)) <==> t in c.tools.Values && Names(f, t)
  {
    var name, namespace := At(f, "name"), AtOr(f, "namespace", Str(""));
    if name.Str? && namespace.Str? {
      LookupIsExact(c, namespace.s, name.s, t);
      if name.s in c.tools {
        assert EntryOk(name.s, c.tools[name.s]);
      }
    }
    if t in c.tools.Values {
      var key :| key in c.tools && c.tools[key] == t;
      assert EntryOk(key, t);
    }
  }

  // ---------------------------------------------------------------- the whole request

  /** What the request says of parallel calls; saying nothing allows them. */
  predicate SaysParallel(payload: Fields, parallel: bool) {
    || (Get(payload, "parallel_tool_calls") == None && parallel)
    || Get(payload, "parallel_tool_calls") == Some(Bool(parallel))
  }

  /** The choice a request makes; making none leaves it to the model. */
  function ChoiceIn(payload: Fields): Json {
    if Get(payload, "tool_choice") == None then Str("auto") else Get(payload, "tool_choice").value
  }

  predicate Chooses(c: Catalogue, choice: Json, made: O.Choice) {
    match made
    case Auto => choice == Str("auto")
    case NoTools => choice == Str("none")
    case Required => choice == Str("required")
    case Forced(t) => choice.Obj? && t in c.tools.Values && Names(choice.fields, t)
  }

  /** A request is let through exactly if it is for the one model, its declarations, choice and
      history are accepted, and so are all values and schemas by the validator. */
  lemma {:induction false} RequestIsPrepared(payload: Fields, valid: seq<Command> -> bool, q: O.Request)
    requires Strict(Obj(payload))
    ensures B.Prepare(payload, valid) == Ok(q)
       <==> && Get(payload, "model") == Some(Str("gpt-6.1-sol")) && SaysParallel(payload, q.parallel)
            && B.CollectAll(payload) == Ok(q.catalogue) && Chooses(q.catalogue, ChoiceIn(payload), q.choice)
            && HistoryOf(q.catalogue, At(payload, "input")) == Ok(q.turn) && valid(q.turn.commands)
  {
    ParallelIsRead(payload, q.parallel);
    if B.CollectAll(payload) == Ok(q.catalogue) {
      B.CollectAllOk(payload);
      assert q.catalogue.tools != map[];
      ChosenIsRead(q.catalogue, ChoiceIn(payload), q.choice);
      SomethingIsAsked(payload, q.catalogue);
    }
  }

  /** Each schema and format declared, and each value of an earlier call with the schema or format
      of its tool, was put to the validator, which accepted them. */
  lemma {:induction false} PreparedIsChecked(payload: Fields, valid: seq<Command> -> bool, q: O.Request)
    requires Strict(Obj(payload)) && B.Prepare(payload, valid) == Ok(q)
    ensures AllChecked(q.catalogue) && CallsChecked(q.catalogue, q.turn) && valid(q.turn.commands)
  {
    RequestIsPrepared(payload, valid, q);
    var tools := RequestIsCollected(payload);
    AtIsStrict(payload, "input", Null);
    HistoryIsChecked(q.catalogue, At(payload, "input"), InputItems(At(payload, "input")).value);
  }

  lemma {:induction false} ParallelIsRead(payload: Fields, parallel: bool)
    ensures AtOr(payload, "parallel_tool_calls", Bool(true)) == Bool(parallel) <==> SaysParallel(payload, parallel)
    ensures AtOr(payload, "tool_choice", Str("auto")) == ChoiceIn(payload)
  {
  }

  /** There is always something to ask the validator. */
  lemma {:induction false} SomethingIsAsked(payload: Fields, c: Catalogue)
    requires CatalogueOk(c) && c.tools != map[]
    ensures HistoryOf(c, At(payload, "input")).Ok? ==> HistoryOf(c, At(payload, "input")).value.commands != []
  {
    if HistoryOf(c, At(payload, "input")).Ok? {
      HistoryIsPaired(c, At(payload, "input"));
      assert |c.tools| > 0;
    }
  }

  lemma {:induction false} ChosenIsRead(c: Catalogue, choice: Json, made: O.Choice)
    requires CatalogueOk(c)
    ensures B.ChoiceOf(c, choice) == Ok(made) <==> Chooses(c, choice, made)
  {
    var any := Tool("", "", Function, "", Null, false);
    ChoiceMeans(c, choice, if made.Forced? then made.target else any);
  }

  /** The record is a call of this tool. */
  predicate CallsTool(r: CallRecord, t: Tool) {
    r.kind == t.kind && r.name == t.name && r.namespace == t.namespace
  }

  /** What a choice made allows, in terms of what was said. */
  lemma {:induction false} AnswerObeysChoice(q: O.Request, choice: Json, marker: string, text: string,
                                             hex: nat -> string, valid: seq<Command> -> bool, a: O.Answer)
    requires Chooses(q.catalogue, choice, q.choice) && O.Released(q, marker, text, hex, valid) == Some(a)
    ensures choice == Str("none") ==> a.Final?
    ensures choice == Str("required") || choice.Obj? ==> a.Calls?
    ensures a.Calls? && choice.Obj? ==>
              && |a.records| == 1 && q.choice.Forced? && q.choice.target in q.catalogue.tools.Values
              && Names(choice.fields, q.choice.target)
    ensures a.Calls? ==>
              && 1 <= |a.records| <= 8 && |q.turn.calls| + |a.records| <= 64
              && (!q.parallel ==> |a.records| == 1)
  {
    assert "none" != "auto" && "none" != "required" && "required" != "auto";
    O.ReleasedObeysChoice(q, marker, text, hex, valid);
  }

  lemma {:induction false} TargetIsWritten(payload: Fields, q: O.Request) returns (t: Tool)
    requires Strict(Obj(payload)) && B.CollectAll(payload) == Ok(q.catalogue)
    requires q.choice.Forced? && q.choice.target in q.catalogue.tools.Values
    ensures t == q.choice.target && Writes(payload, t)
  {
    var tools := RequestIsCollected(payload);
    t := q.choice.target;
    var key :| key in q.catalogue.tools && q.catalogue.tools[key] == t;
  }

  lemma {:induction false} ForcedIsCalled(q: O.Request, marker: string, text: string, hex: nat -> string,
                                          valid: seq<Command> -> bool, records: seq<CallRecord>)
    requires CatalogueOk(q.catalogue) && O.Released(q, marker, text, hex, valid) == Some(O.Calls(records))
    requires q.choice.Forced?
    ensures |records| == 1 && CallsTool(records[0], q.choice.target)
  {
    O.ReleasedObeysChoice(q, marker, text, hex, valid);
    O.ReleasedIsDeclared(q, marker, text, hex, valid, records, 0);
    var v := O.Elements(marker, text)[0];
    O.AcceptedMeans(q, v, O.ToolIn(q, v), O.ValueIn(q, v));
  }

  /** What is released keeps to what the request said: no calls if it chose none; at least one
      if it required them; one, of the very tool it named, if it named one; one at most if it
      ruled out parallel calls, and eight at most in any case. */
  lemma {:induction false} AnswerObeysRequest(payload: Fields, valid: seq<Command> -> bool, q: O.Request,
                                              marker: string, text: string, hex: nat -> string, a: O.Answer)
    requires Strict(Obj(payload)) && B.Prepare(payload, valid) == Ok(q)
    requires O.Released(q, marker, text, hex, valid) == Some(a)
    ensures ChoiceIn(payload) == Str("none") ==> a.Final?
    ensures ChoiceIn(payload) == Str("required") || ChoiceIn(payload).Obj? ==> a.Calls?
    ensures a.Calls? ==>
              && 1 <= |a.records| <= 8 && |q.turn.calls| + |a.records| <= 64
              && (Get(payload, "parallel_tool_calls") == Some(Bool(false)) ==> |a.records| == 1)
              && (ChoiceIn(payload).Obj? ==>
                    && |a.records| == 1
                    && exists t: Tool ::
                         Writes(payload, t) && Names(ChoiceIn(payload).fields, t) && CallsTool(a.records[0], t))
  {
    RequestIsPrepared(payload, valid, q);
    AnswerObeysChoice(q, ChoiceIn(payload), marker, text, hex, valid, a);
    if a.Calls? && ChoiceIn(payload).Obj? {
      var target := TargetIsWritten(payload, q);
      B.CollectAllOk(payload);
      ForcedIsCalled(q, marker, text, hex, valid, a.records);
      assert CallsTool(a.records[0], target);
    }
  }

  /** Every released call is of a tool written in the request and carries the value
      its item of the answer holds. */
  lemma {:induction false} AnswerCallsWritten(payload: Fields, valid: seq<Command> -> bool, q: O.Request,
                                              marker: string, text: string, hex: nat -> string,
                                              records: seq<CallRecord>, i: nat) returns (t: Tool, v: Json)
    requires Strict(Obj(payload)) && B.Prepare(payload, valid) == Ok(q)
    requires O.Released(q, marker, text, hex, valid) == Some(O.Calls(records)) && i < |records|
    ensures Writes(payload, t) && CallsTool(records[i], t) && records[i].id == "call_prism_" + hex(i)
    ensures |O.Elements(marker, text)| == |records| && O.CallsOne(q, O.Elements(marker, text)[i], t, v)
    ensures if t.kind == Function then Loads(records[i].text).Some? && Same(Loads(records[i].text).value, v)
            else v == Str(records[i].text)
  {
    RequestIsPrepared(payload, valid, q);
    var tools := RequestIsCollected(payload);
    O.ReleasedIsDeclared(q, marker, text, hex, valid, records, i);
    var item := O.Elements(marker, text)[i];
    t, v := O.ToolIn(q, item), O.ValueIn(q, item);
    O.AcceptedMeans(q, item, t, v);
    RecordMeans(t, IdOf(hex(i)), v);
  }
}

/** Tool calls as JSON: `value` and `history` of prism-adapter/tool_bridge.py, and the
    identities its `output` issues.

    A call is written down twice, by `output` when it is issued and by `history` when the
    client sends it back, with the keys in different orders. `FingerprintNamesCall` says
    when the two digests agree. */
module History {
  import opened Prelude
  import opened Json
  import opened Canonical
  import opened Tools

  const MAX_CALLS := 8
  const MAX_HISTORY_CALLS := 64

  // ---------------------------------------------------------------- records

  /** A call: `text` is the canonical text of the arguments, or the raw input. */
  datatype CallRecord = CallRecord(kind: ToolKind, id: string, name: string, namespace: string, text: string)

  function CallType(kind: ToolKind): string {
    if kind == Function then "function_call" else "custom_tool_call"
  }

  function OutputType(kind: ToolKind): string {
    if kind == Function then "function_call_output" else "custom_tool_call_output"
  }

  function ValueField(kind: ToolKind): string {
    if kind == Function then "arguments" else "input"
  }

  function WithNamespace(namespace: string, rest: Fields): Fields {
    if namespace == "" then rest else Field("namespace", Str(namespace), rest)
  }

  function Head(c: CallRecord, rest: Fields): Fields {
    Field("type", Str(CallType(c.kind)), Field("call_id", Str(c.id), Field("name", Str(c.name), rest)))
  }

  /** As `history` writes it: the namespace before the value. */
  function HistoryJson(c: CallRecord): Json {
    Obj(Head(c, WithNamespace(c.namespace, Field(ValueField(c.kind), Str(c.text), NoFields))))
  }

  /** As `output` writes it: the namespace last. */
  function IdentityJson(c: CallRecord): Json {
    Obj(Head(c, Field(ValueField(c.kind), Str(c.text), WithNamespace(c.namespace, NoFields))))
  }

  lemma {:induction false} NamesDiffer()
    ensures "name" != "type" && "arguments" != "namespace"
    ensures "function_call" != "custom_tool_call"
  {
    assert "name"[0] != "type"[0] && "arguments"[0] != "namespace"[0];
  }

  /** What either form answers to `get`. */
  function Answer(c: CallRecord, key: string): Option<Json> {
    if key == "type" then Some(Str(CallType(c.kind)))
    else if key == "call_id" then Some(Str(c.id))
    else if key == "name" then Some(Str(c.name))
    else if key == ValueField(c.kind) then Some(Str(c.text))
    else if key == "namespace" && c.namespace != "" then Some(Str(c.namespace))
    else None
  }

  lemma {:induction false} HeadGet(c: CallRecord, rest: Fields, key: string)
    ensures Get(Head(c, rest), key) ==
            if key == "type" then Some(Str(CallType(c.kind)))
            else if key == "call_id" then Some(Str(c.id))
            else if key == "name" then Some(Str(c.name))
            else Get(rest, key)
  {
    NamesDiffer();
    var last := Field("name", Str(c.name), rest);
    var middle := Field("call_id", Str(c.id), last);
    assert Get(last, key) == if key == "name" then Some(Str(c.name)) else Get(rest, key);
    assert Get(middle, key) == if key == "call_id" then Some(Str(c.id)) else Get(last, key);
  }

  lemma {:induction false} FormsAnswer(c: CallRecord, key: string)
    ensures Get(HistoryJson(c).fields, key) == Answer(c, key) == Get(IdentityJson(c).fields, key)
  {
    NamesDiffer();
    var last, space := Field(ValueField(c.kind), Str(c.text), NoFields), WithNamespace(c.namespace, NoFields);
    assert Get(last, key) == if key == ValueField(c.kind) then Some(Str(c.text)) else None;
    assert Get(space, key) == if key == "namespace" && c.namespace != "" then Some(Str(c.namespace)) else None;
    HeadGet(c, WithNamespace(c.namespace, last), key);
    HeadGet(c, Field(ValueField(c.kind), Str(c.text), space), key);
  }

  lemma {:induction false} HeadIsStrict(c: CallRecord, rest: Fields)
    requires StrictFields(rest) && Distinct(rest)
    requires "type" !in Keys(rest) && "call_id" !in Keys(rest) && "name" !in Keys(rest)
    ensures Strict(Obj(Head(c, rest)))
  {
    NamesDiffer();
    var last := Field("name", Str(c.name), rest);
    var middle := Field("call_id", Str(c.id), last);
    assert Keys(last) == {"name"} + Keys(rest) && Keys(middle) == {"call_id"} + Keys(last);
    assert StrictFields(last) && StrictFields(middle) && Distinct(last) && Distinct(middle);
  }

  lemma {:induction false} FormsAreStrict(c: CallRecord)
    ensures Strict(HistoryJson(c)) && Strict(IdentityJson(c))
  {
    NamesDiffer();
    var value, space := Field(ValueField(c.kind), Str(c.text), NoFields), WithNamespace(c.namespace, NoFields);
    var late, early := Field(ValueField(c.kind), Str(c.text), space), WithNamespace(c.namespace, value);
    assert Keys(value) == {ValueField(c.kind)} && Keys(space) <= {"namespace"};
    assert Keys(late) <= {ValueField(c.kind), "namespace"} && Keys(early) <= {ValueField(c.kind), "namespace"};
    HeadIsStrict(c, late);
    HeadIsStrict(c, early);
  }

  /** Objects that answer `get` alike have one canonical form. */
  lemma {:induction false} SameAnswers(f: Fields, g: Fields)
    requires Distinct(f) && Distinct(g) && forall k :: Get(f, k) == Get(g, k)
    ensures Canon(Obj(f)) == Canon(Obj(g))
  {
    CanonFieldsSorted(f);
    CanonFieldsSorted(g);
    forall k
      ensures Get(CanonFields(f), k) == Get(CanonFields(g), k)
    {
      CanonFieldsGet(f, k);
      CanonFieldsGet(g, k);
    }
    SortedExtensional(CanonFields(f), CanonFields(g));
  }

  lemma {:induction false} SameDigestSameText(f: Fields, g: Fields, key: string)
    requires Strict(Obj(f)) && Strict(Obj(g)) && Digest(Obj(f)) == Digest(Obj(g))
    ensures Get(f, key).Some? <==> Get(g, key).Some?
    ensures Get(f, key).Some? && Get(f, key).value.Str? && Get(g, key).value.Str? ==> Get(f, key) == Get(g, key)
  {
    CanonIsStrict(Obj(f));
    CanonIsStrict(Obj(g));
    PrintInjective(Canon(Obj(f)), Canon(Obj(g)), Compact);
    CanonFieldsGet(f, key);
    CanonFieldsGet(g, key);
  }

  lemma {:induction false} AnswersName(a: CallRecord, b: CallRecord)
    requires Answer(a, "type") == Answer(b, "type") && Answer(a, "call_id") == Answer(b, "call_id")
    requires Answer(a, "name") == Answer(b, "name") && Answer(a, "namespace") == Answer(b, "namespace")
    requires Answer(a, ValueField(a.kind)) == Answer(b, ValueField(a.kind))
    ensures a == b
  {
    NamesDiffer();
    assert a.kind == b.kind;
    assert a.namespace == b.namespace;
  }

  /** The fingerprint kept when a call was issued equals the one computed when it is sent
      back exactly when it is the same call: kind, id, name, namespace and value. */
  lemma {:induction false} FingerprintNamesCall(a: CallRecord, b: CallRecord)
    ensures Digest(HistoryJson(a)) == Digest(IdentityJson(b)) <==> a == b
  {
    FormsAreStrict(a);
    FormsAreStrict(b);
    var f, g := HistoryJson(a).fields, IdentityJson(b).fields;
    if a == b {
      forall k
        ensures Get(f, k) == Get(g, k)
      {
        FormsAnswer(a, k);
      }
      SameAnswers(f, g);
    }
    if Digest(Obj(f)) == Digest(Obj(g)) {
      forall k
        ensures Answer(a, k) == Answer(b, k)
      {
        FormsAnswer(a, k);
        FormsAnswer(b, k);
        SameDigestSameText(f, g, k);
      }
      AnswersName(a, b);
    }
  }

  // ---------------------------------------------------------------- values

  /** What a call of the tool may carry: an object, or raw text, within the size limit. */
  predicate ValueOk(kind: ToolKind, v: Json) {
    Strict(v) && (if kind == Function then v.Obj? else v.Str?) && |Print(v, Spaced)| <= MAX_CHARS
  }

  /** `value`: in history, arguments are JSON text; in the model's answer, an object. */
  function ValueOf(f: Fields, kind: ToolKind, history: bool): Result<Json, Refusal> {
    var given := At(f, ValueField(kind));
    var v := if kind == Function && history && given.Str? then Loads(given.s) else Some(given);
    if kind == Function && history && !given.Str? then Err(InvalidToolCall)
    else if v.None? || !(if kind == Function then v.value.Obj? else v.value.Str?) then Err(InvalidToolCall)
    else if |Print(v.value, Spaced)| > MAX_CHARS then Err(ToolCallTooLarge)
    else Ok(v.value)
  }

  function TextOf(v: Json): string {
    if v.Str? then v.s else Digest(v)
  }

  function RecordOf(t: Tool, id: string, v: Json): CallRecord {
    CallRecord(t.kind, id, t.name, t.namespace, TextOf(v))
  }

  // ---------------------------------------------------------------- history

  predicate IsHex(c: char) {
    IsDigit(c) || 'a' <= c <= 'f'
  }

  function IdOf(hex: string): string {
    "call_prism_" + hex
  }

  predicate IsUuid(hex: string) {
    |hex| == 32 && forall i :: 0 <= i < |hex| ==> IsHex(hex[i])
  }

  predicate IsCallId(id: string) {
    |id| == 43 && id[..11] == "call_prism_" && IsUuid(id[11..])
  }

  datatype Last = Unknown | User | Assistant | ToolItem

  /** `calls` and `results` of the bridge, the kind of the last item that counts, and the
      commands for the validator. */
  datatype Turn = Turn(calls: seq<CallRecord>, results: map<string, Json>, last: Last, commands: seq<Command>)

  function Find(calls: seq<CallRecord>, id: string): Option<CallRecord> {
    if calls == [] then None
    else if calls[|calls| - 1].id == id then Some(calls[|calls| - 1])
    else Find(calls[..|calls| - 1], id)
  }

  function CallStep(c: Catalogue, h: Turn, f: Fields, kind: ToolKind): Result<Turn, Refusal> {
    var t :- Lookup(c, AtOr(f, "namespace", Str("")), At(f, "name"));
    var id := At(f, "call_id");
    if kind != t.kind || !id.Str? || !IsCallId(id.s) || Find(h.calls, id.s).Some? then Err(InvalidToolCall)
    else
      var v :- ValueOf(f, t.kind, true);
      Ok(h.(calls := h.calls + [RecordOf(t, id.s, v)],
            commands := h.commands + [Command(t.kind, t.spec, Some(v))],
            last := ToolItem))
  }

  predicate TextParts(items: Items, kinds: set<string>) {
    match items
    case NoItems => true
    case Item(Obj(f), tail) =>
      At(f, "type").Str? && At(f, "type").s in kinds && At(f, "text").Str? && TextParts(tail, kinds)
    case _ => false
  }

  function ResultJson(kind: ToolKind, id: string, output: Json): Json {
    Obj(Field("type", Str(OutputType(kind)), Field("call_id", Str(id), Field("output", output, NoFields))))
  }

  function ResultStep(h: Turn, f: Fields, kind: ToolKind): Result<Turn, Refusal> {
    var id, output := At(f, "call_id"), At(f, "output");
    if !id.Str? || Find(h.calls, id.s).None? || id.s in h.results || kind != Find(h.calls, id.s).value.kind then
      Err(InvalidToolResult)
    else if output.Arr? && !TextParts(output.items, {"input_text", "text"}) then Err(UnsupportedToolResult)
    else if !output.Arr? && !output.Str? then Err(InvalidToolResult)
    else Ok(h.(results := h.results[id.s := ResultJson(kind, id.s, output)], last := ToolItem))
  }

  function ReasoningStep(h: Turn, f: Fields): Result<Turn, Refusal> {
    var summary := AtOr(f, "summary", Arr(NoItems));
    if Truthy(At(f, "encrypted_content")) || !summary.Arr? || !TextParts(summary.items, {"summary_text"})
    then Err(UnsupportedReasoning) else Ok(h)
  }

  function MessageStep(h: Turn, f: Fields): Turn {
    var role := AtOr(f, "role", Str("user"));
    h.(last := if role == Str("user") || role == Str("developer") || role == Str("system") then User else Assistant)
  }

  function ItemStep(c: Catalogue, h: Turn, v: Json): Result<Turn, Refusal> {
    if !v.Obj? then Err(InvalidInput)
    else
      var f := v.fields;
      var kind := AtOr(f, "type", Str("message"));
      if kind == Str("additional_tools") then Ok(h)
      else if kind == Str("reasoning") then ReasoningStep(h, f)
      else if kind == Str("message") then Ok(MessageStep(h, f))
      else if kind == Str("function_call") then CallStep(c, h, f, Function)
      else if kind == Str("custom_tool_call") then CallStep(c, h, f, Custom)
      else if kind == Str("function_call_output") then ResultStep(h, f, Function)
      else if kind == Str("custom_tool_call_output") then ResultStep(h, f, Custom)
      else Err(UnsupportedInput)
  }

  function ItemSteps(c: Catalogue, h: Turn, items: Items): Result<Turn, Refusal>
    decreases items
  {
    if items.NoItems? then Ok(h)
    else
      var h' :- ItemStep(c, h, items.head);
      ItemSteps(c, h', items.tail)
  }

  function CallIds(calls: seq<CallRecord>): set<string> {
    set i | 0 <= i < |calls| :: calls[i].id
  }

  predicate Paired(h: Turn) {
    CallIds(h.calls) == h.results.Keys && |h.calls| <= MAX_HISTORY_CALLS
  }

  function InputItems(input: Json): Option<Items> {
    match input
    case Str(text) => Some(AsMessage(input))
    case Arr(items) => if items.Item? then Some(items) else None
    case _ => None
  }

  /** `history(items)`, after the declarations were collected. */
  function HistoryOf(c: Catalogue, input: Json): Result<Turn, Refusal> {
    match InputItems(input)
    case None => Err(InvalidInput)
    case Some(items) =>
      var h :- ItemSteps(c, Turn([], map[], Unknown, c.commands), items);
      if Paired(h) then Ok(h) else Err(MissingToolResult)
  }

  predicate NeedsFresh(h: Turn) {
    h.results != map[] && h.last != User
  }

  // ---------------------------------------------------------------- what history keeps

  predicate DistinctCalls(calls: seq<CallRecord>) {
    forall i, j :: 0 <= i < j < |calls| ==> calls[i].id != calls[j].id
  }

  predicate TurnOk(h: Turn, declared: nat) {
    && DistinctCalls(h.calls)
    && h.results.Keys <= CallIds(h.calls)
    && |h.commands| == declared + |h.calls|
  }

  lemma {:induction false} FindIsMember(calls: seq<CallRecord>, id: string)
    ensures Find(calls, id).Some? <==> id in CallIds(calls)
    ensures Find(calls, id).Some? ==> Find(calls, id).value in calls && Find(calls, id).value.id == id
  {
    if calls != [] {
      var front, last := calls[..|calls| - 1], calls[|calls| - 1];
      FindIsMember(front, id);
      assert calls == front + [last];
      CallIdsAppend(front, last);
    }
  }

  lemma {:induction false} CallIdsAppend(calls: seq<CallRecord>, r: CallRecord)
    ensures CallIds(calls + [r]) == CallIds(calls) + {r.id}
  {
    var all := calls + [r];
    assert all[|calls|] == r;
    forall id | id in CallIds(calls)
      ensures id in CallIds(all)
    {
      var i :| 0 <= i < |calls| && calls[i].id == id;
      assert all[i].id == id;
    }
  }

  lemma {:induction false} CallStepKeeps(c: Catalogue, h: Turn, f: Fields, kind: ToolKind, declared: nat)
    requires TurnOk(h, declared) && CallStep(c, h, f, kind).Ok?
    ensures TurnOk(CallStep(c, h, f, kind).value, declared)
  {
    var h' := CallStep(c, h, f, kind).value;
    var r := h'.calls[|h.calls|];
    assert h'.calls == h.calls + [r];
    FindIsMember(h.calls, r.id);
    CallIdsAppend(h.calls, r);
  }

  lemma {:induction false} ItemStepKeeps(c: Catalogue, h: Turn, v: Json, declared: nat)
    requires TurnOk(h, declared) && ItemStep(c, h, v).Ok?
    ensures TurnOk(ItemStep(c, h, v).value, declared)
  {
    var kind := AtOr(v.fields, "type", Str("message"));
    if kind == Str("function_call") {
      CallStepKeeps(c, h, v.fields, Function, declared);
    } else if kind == Str("custom_tool_call") {
      CallStepKeeps(c, h, v.fields, Custom, declared);
    } else if At(v.fields, "call_id").Str? {
      FindIsMember(h.calls, At(v.fields, "call_id").s);
    }
  }

  lemma {:induction false} ItemStepsKeep(c: Catalogue, h: Turn, items: Items, declared: nat)
    requires TurnOk(h, declared) && ItemSteps(c, h, items).Ok?
    ensures TurnOk(ItemSteps(c, h, items).value, declared)
    decreases items
  {
    if items.Item? {
      ItemStepKeeps(c, h, items.head, declared);
      ItemStepsKeep(c, ItemStep(c, h, items.head).value, items.tail, declared);
    }
  }

  /** An accepted history has distinct calls, exactly one result for each, at most 64 of
      them, and a batch for the validator of at most 96 + 64 commands. */
  lemma {:induction false} HistoryIsPaired(c: Catalogue, input: Json)
    requires CatalogueOk(c) && HistoryOf(c, input).Ok?
    ensures var h := HistoryOf(c, input).value;
            && DistinctCalls(h.calls) && h.results.Keys == CallIds(h.calls) && |h.calls| <= 64
            && |h.commands| == |c.tools| + |h.calls| <= 160
  {
    ItemStepsKeep(c, Turn([], map[], Unknown, c.commands), InputItems(input).value, |c.tools|);
  }

  // ---------------------------------------------------------------- the closed loop, one call

  /** An item of history that repeats a call issued with the value `v`, in whatever spelling
      and with whatever further keys. */
  predicate Echo(f: Fields, r: CallRecord, v: Json) {
    && At(f, "call_id") == Str(r.id) && At(f, "name") == Str(r.name)
    && AtOr(f, "namespace", Str("")) == Str(r.namespace)
    && match At(f, ValueField(r.kind))
       case Str(text) => if r.kind == Function then Loads(text).Some? && Same(Loads(text).value, v) else v == Str(text)
       case _ => false
  }

  lemma {:induction false} TextNamesValue(kind: ToolKind, v: Json, w: Json)
    requires ValueOk(kind, v) && Strict(w) && if kind == Function then w.Obj? else w.Str?
    ensures TextOf(v) == TextOf(w) <==> Same(w, v)
    ensures TextOf(v) == TextOf(w) ==> ValueOk(kind, w)
  {
    if kind == Function {
      DigestNamesValue(w, v);
      if Same(w, v) {
        SameLength(w, v, Spaced);
      }
    }
  }

  /** Reading the value of an echo gives the value that was issued, up to key order. */
  lemma {:induction false} EchoValue(f: Fields, r: CallRecord, v: Json)
    requires ValueOk(r.kind, v) && r.text == TextOf(v)
    requires At(f, "call_id") == Str(r.id) && At(f, "name") == Str(r.name)
    requires AtOr(f, "namespace", Str("")) == Str(r.namespace)
    ensures var w := ValueOf(f, r.kind, true);
            (w.Ok? && TextOf(w.value) == r.text) <==> Echo(f, r, v)
  {
    var given := At(f, ValueField(r.kind));
    if given.Str? {
      if r.kind == Function {
        LoadsIsStrict(given.s);
        if Loads(given.s).Some? && Loads(given.s).value.Obj? {
          TextNamesValue(r.kind, v, Loads(given.s).value);
        }
      } else {
        TextNamesValue(r.kind, v, given);
      }
    }
  }

  /** A call sent back under the catalogue it was issued under is read as that very call
      exactly when it echoes it: same identity, arguments equal up to key order at any depth. */
  lemma {:induction false} EchoIsTheCall(c: Catalogue, h: Turn, f: Fields, t: Tool, id: string, v: Json)
    requires CatalogueOk(c) && t in c.tools.Values && ValueOk(t.kind, v)
    requires IsCallId(id) && Find(h.calls, id).None?
    ensures var r, next := RecordOf(t, id, v), CallStep(c, h, f, t.kind);
            (next.Ok? && next.value.calls == h.calls + [r]) <==> Echo(f, r, v)
  {
    var r, next := RecordOf(t, id, v), CallStep(c, h, f, t.kind);
    LookupIsExact(c, t.namespace, t.name, t);
    if next.Ok? {
      var added := next.value.calls[|h.calls|];
      assert next.value.calls == h.calls + [added];
      if added == r {
        ReadBack(c, h, f, t, id, v);
        EchoValue(f, r, v);
      }
    }
    if Echo(f, r, v) {
      EchoValue(f, r, v);
    }
  }

  /** The item a record was read from names that record's tool. */
  lemma {:induction false} ReadBack(c: Catalogue, h: Turn, f: Fields, t: Tool, id: string, v: Json)
    requires CallStep(c, h, f, t.kind).Ok? && CallStep(c, h, f, t.kind).value.calls == h.calls + [RecordOf(t, id, v)]
    ensures At(f, "call_id") == Str(id) && At(f, "name") == Str(t.name)
    ensures AtOr(f, "namespace", Str("")) == Str(t.namespace)
    ensures ValueOf(f, t.kind, true).Ok? && TextOf(ValueOf(f, t.kind, true).value) == TextOf(v)
  {
    var next := CallStep(c, h, f, t.kind).value;
    assert next.calls[|h.calls|] == RecordOf(t, id, v);
  }

  /** A record names its tool, and its text denotes the value it was made from. */
  lemma {:induction false} RecordMeans(t: Tool, id: string, v: Json)
    requires Strict(v)
    ensures var r := RecordOf(t, id, v);
            && r.kind == t.kind && r.name == t.name && r.namespace == t.namespace && r.id == id
            && (v.Str? ==> r.text == v.s)
            && (!v.Str? ==> Loads(r.text).Some? && Same(Loads(r.text).value, v))
  {
    DigestOfPrinted(v);
    CanonIsStrict(v);
    DigestNamesValue(Canon(v), v);
  }

  // ---------------------------------------------------------------- what an item says

  /** A call of this tool under this id with this value, as a client writes it: the arguments as
      JSON text of an object, the input as raw text, 32000 characters at most. */
  predicate SaysCall(f: Fields, t: Tool, id: string, v: Json) {
    && (Get(f, "namespace") == Some(Str(t.namespace)) || (Get(f, "namespace") == None && t.namespace == ""))
    && Get(f, "name") == Some(Str(t.name)) && Get(f, "call_id") == Some(Str(id))
    && (if t.kind == Function then
          v.Obj? && Get(f, "arguments").Some? && Get(f, "arguments").value.Str?
          && Loads(Get(f, "arguments").value.s) == Some(v)
        else v.Str? && Get(f, "input") == Some(v))
    && |Print(v, Spaced)| <= 32000
  }

  function WithCall(h: Turn, t: Tool, id: string, v: Json): Turn {
    Turn(h.calls + [RecordOf(t, id, v)], h.results, ToolItem, h.commands + [Command(t.kind, t.spec, Some(v))])
  }

  /** A call item is read as this call exactly if it says so, the tool is declared, its kind is
      the item's, and the id has the adapter's form and is not taken. */
  lemma {:induction false} CallIsRead(c: Catalogue, h: Turn, f: Fields, kind: ToolKind, t: Tool, id: string, v: Json)
    requires CatalogueOk(c) && t in c.tools.Values && SaysCall(f, t, id, v)
    ensures CallStep(c, h, f, kind).Ok? <==> t.kind == kind && IsCallId(id) && id !in CallIds(h.calls)
    ensures CallStep(c, h, f, kind).Ok? ==> CallStep(c, h, f, kind) == Ok(WithCall(h, t, id, v))
  {
    LookupIsExact(c, t.namespace, t.name, t);
    FindIsMember(h.calls, id);
  }

  /** And it is read as nothing else. */
  lemma {:induction false} OnlyCallsAreRead(c: Catalogue, h: Turn, f: Fields, kind: ToolKind)
      returns (t: Tool, id: string, v: Json)
    requires CallStep(c, h, f, kind).Ok?
    ensures t in c.tools.Values && SaysCall(f, t, id, v) && CallStep(c, h, f, kind) == Ok(WithCall(h, t, id, v))
  {
    t := Lookup(c, AtOr(f, "namespace", Str("")), At(f, "name")).value;
    id := At(f, "call_id").s;
    v := ValueOf(f, t.kind, true).value;
  }

  /** A result for this call: text, or parts that are all text. */
  predicate SaysResult(f: Fields, id: string, output: Json) {
    && Get(f, "call_id") == Some(Str(id)) && Get(f, "output") == Some(output)
    && (output.Str? || (output.Arr? && TextParts(output.items, {"input_text", "text"})))
  }

  /** A result item is accepted exactly if it is a result for a call that was read before, of that
      call's kind, and the first for it; it is then kept as it is. */
  lemma {:induction false} ResultIsRead(h: Turn, f: Fields, kind: ToolKind)
    ensures var id := At(f, "call_id");
            ResultStep(h, f, kind).Ok?
            <==> && id.Str? && SaysResult(f, id.s, At(f, "output")) && Find(h.calls, id.s).Some?
                 && Find(h.calls, id.s).value.kind == kind && id.s !in h.results
    ensures ResultStep(h, f, kind).Ok? ==>
              var id := At(f, "call_id").s;
              ResultStep(h, f, kind)
              == Ok(Turn(h.calls, h.results[id := ResultJson(kind, id, At(f, "output"))], ToolItem, h.commands))
  {
  }

  /** Reasoning is passed over exactly if it is readable: nothing encrypted, only summary text. */
  lemma {:induction false} ReasoningIsRead(c: Catalogue, h: Turn, f: Fields)
    requires Get(f, "type") == Some(Str("reasoning"))
    ensures ItemStep(c, h, Obj(f)) == Ok(h)
       <==> && (Get(f, "encrypted_content").Some? ==> !Truthy(Get(f, "encrypted_content").value))
            && (Get(f, "summary") == None
                || (Get(f, "summary").value.Arr? && TextParts(Get(f, "summary").value.items, {"summary_text"})))
  {
  }

  /** Messages and further declarations are passed over; nothing but an object of a known type is read. */
  lemma {:induction false} OtherIsRead(c: Catalogue, h: Turn, v: Json)
    ensures ItemStep(c, h, v).Ok? ==> v.Obj?
    ensures v.Obj? ==>
              var kind := Get(v.fields, "type");
              && (kind == Some(Str("additional_tools")) ==> ItemStep(c, h, v) == Ok(h))
              && (kind == None || kind == Some(Str("message")) ==>
                    && ItemStep(c, h, v).Ok?
                    && ItemStep(c, h, v).value == h.(last := if IsUserMessage(v) then User else Assistant))
              && (ItemStep(c, h, v) == Err(UnsupportedInput) ==> kind.Some? && !IsKnown(kind.value))
              && (kind.Some? && !IsKnown(kind.value) ==> ItemStep(c, h, v) == Err(UnsupportedInput))
  {
    assert "additional_tools"[0] != "message"[0];
    assert "reasoning"[0] != "message"[0];
  }

  predicate IsKnown(kind: Json) {
    kind in {Str("additional_tools"), Str("reasoning"), Str("message"), Str("function_call"), Str("custom_tool_call"),
             Str("function_call_output"), Str("custom_tool_call_output")}
  }

  /** A history is accepted exactly if there is one, each item can be read after those before
      it, every call has its result, and there are at most 64. */
  lemma {:induction false} HistoryIsAccepted(c: Catalogue, input: Json, h: Turn)
    ensures HistoryOf(c, input) == Ok(h)
       <==> && (input.Str? || (input.Arr? && input.items.Item?))
            && ItemSteps(c, Turn([], map[], Unknown, c.commands), ItemsSent(input)) == Ok(h)
            && CallIds(h.calls) == h.results.Keys && |h.calls| <= 64
  {
  }

  /** The items given, or the one message that plain text stands for. */
  function ItemsSent(input: Json): Items {
    if input.Arr? then input.items else AsMessage(input)
  }

  /** Plain text is one message of the user. */
  function AsMessage(input: Json): Items {
    Item(Obj(Field("role", Str("user"), Field("content", input, NoFields))), NoItems)
  }

  // ---------------------------------------------------------------- results as they are kept

  /** Two results of one call have one digest exactly if their outputs are equal up to key order. */
  lemma {:induction false} ResultDigest(kind: ToolKind, id: string, a: Json, b: Json)
    requires Strict(a) && Strict(b)
    ensures Digest(ResultJson(kind, id, a)) == Digest(ResultJson(kind, id, b)) <==> Same(a, b)
  {
    ResultIsStrict(kind, id, a);
    ResultIsStrict(kind, id, b);
    DigestNamesValue(ResultJson(kind, id, a), ResultJson(kind, id, b));
    ResultGet(kind, id, a);
    ResultGet(kind, id, b);
    var f, g := ResultJson(kind, id, a).fields, ResultJson(kind, id, b).fields;
    var f1, f2 := f.rest, f.rest.rest;
    assert Keys(f2) == {"output"} && Keys(f1) == {"call_id"} + Keys(f2) && Keys(f) == {"type"} + Keys(f1);
    assert SameFields(f2, g) <==> Same(a, b);
    assert SameFields(f1, g) <==> SameFields(f2, g);
    assert SameFields(f, g) <==> SameFields(f1, g);
  }

  lemma {:induction false} ResultGet(kind: ToolKind, id: string, output: Json)
    ensures var f := ResultJson(kind, id, output).fields;
            && Get(f, "type") == Some(Str(OutputType(kind))) && Get(f, "call_id") == Some(Str(id))
            && Get(f, "output") == Some(output) && Keys(f) == {"type", "call_id", "output"}
  {
    var f := ResultJson(kind, id, output).fields;
    assert Get(f, "output") == Get(f.rest, "output") == Get(f.rest.rest, "output");
    assert Get(f, "call_id") == Get(f.rest, "call_id");
    assert Keys(f.rest.rest) == {"output"} && Keys(f.rest) == {"call_id"} + Keys(f.rest.rest);
  }

  lemma {:induction false} ResultIsStrict(kind: ToolKind, id: string, output: Json)
    requires Strict(output)
    ensures Strict(ResultJson(kind, id, output))
  {
    var f := ResultJson(kind, id, output).fields;
    assert Keys(f.rest.rest) == {"output"} && Keys(f.rest) == {"call_id"} + Keys(f.rest.rest);
    assert StrictFields(f.rest.rest) && StrictFields(f.rest) && Distinct(f.rest.rest) && Distinct(f.rest);
  }

  // ---------------------------------------------------------------- who spoke last

  /** Left out of the account of who spoke last. */
  predicate IsSilent(v: Json) {
    v.Obj? && Get(v.fields, "type") in {Some(Str("additional_tools")), Some(Str("reasoning"))}
  }

  /** A message from the user's side; without a role it is the user's. */
  predicate IsUserMessage(v: Json) {
    && v.Obj? && (Get(v.fields, "type") == None || Get(v.fields, "type") == Some(Str("message")))
    && (Get(v.fields, "role") == None || Get(v.fields, "role") == Some(Str("user"))
        || Get(v.fields, "role") == Some(Str("developer")) || Get(v.fields, "role") == Some(Str("system")))
  }

  predicate AllSilent(items: Items) {
    items.Item? ==> IsSilent(items.head) && AllSilent(items.tail)
  }

  /** The last item that is not silent is a message from the user's side. */
  predicate UserSpokeLast(items: Items) {
    items.Item? && ((IsUserMessage(items.head) && AllSilent(items.tail)) || UserSpokeLast(items.tail))
  }

  lemma {:induction false} StepSpeaker(c: Catalogue, h: Turn, v: Json)
    requires ItemStep(c, h, v).Ok?
    ensures ItemStep(c, h, v).value.last == User <==> IsUserMessage(v) || (IsSilent(v) && h.last == User)
  {
    assert "additional_tools"[0] != "custom_tool_call"[0];
  }

  lemma {:induction false} SilentAndSpoken(v: Json)
    ensures !(IsSilent(v) && IsUserMessage(v))
  {
  }

  lemma {:induction false} StepsSpeaker(c: Catalogue, h: Turn, items: Items)
    requires ItemSteps(c, h, items).Ok?
    ensures ItemSteps(c, h, items).value.last == User <==> UserSpokeLast(items) || (AllSilent(items) && h.last == User)
    decreases items
  {
    if items.Item? {
      var next := ItemStep(c, h, items.head).value;
      StepSpeaker(c, h, items.head);
      SilentAndSpoken(items.head);
      StepsSpeaker(c, next, items.tail);
    }
  }

  /** Fresh results are required exactly if there are results and the user did not speak last. */
  lemma {:induction false} FreshIsNeeded(c: Catalogue, input: Json, items: Items)
    requires InputItems(input) == Some(items) && HistoryOf(c, input).Ok?
    ensures var h := HistoryOf(c, input).value;
            NeedsFresh(h) <==> h.results != map[] && !UserSpokeLast(items)
  {
    StepsSpeaker(c, Turn([], map[], Unknown, c.commands), items);
  }

  // ---------------------------------------------------------------- what the validator is asked

  /** The call is of a declared tool, with a value of its shape and size that the validator was
      asked about for that tool's schema or format. */
  ghost predicate CallChecked(c: Catalogue, calls: seq<CallRecord>, commands: seq<Command>, i: nat) {
    i < |calls| ==>
      && IsCallId(calls[i].id)
      && exists t: Tool, v: Json ::
           && t in c.tools.Values && ValueOk(t.kind, v) && calls[i] == RecordOf(t, calls[i].id, v)
           && Command(t.kind, t.spec, Some(v)) in commands
  }

  ghost predicate CallsChecked(c: Catalogue, h: Turn) {
    && c.commands <= h.commands
    && forall i: nat {:trigger CallChecked(c, h.calls, h.commands, i)} :: CallChecked(c, h.calls, h.commands, i)
  }

  lemma {:induction false} MoreChecked(c: Catalogue, h: Turn, r: CallRecord, t: Tool, v: Json)
    requires CallsChecked(c, h)
    requires IsCallId(r.id) && t in c.tools.Values && ValueOk(t.kind, v) && r == RecordOf(t, r.id, v)
    ensures CallsChecked(c, WithCall(h, t, r.id, v))
  {
    var next := WithCall(h, t, r.id, v);
    var command := Command(t.kind, t.spec, Some(v));
    assert next.commands == h.commands + [command];
    forall i: nat {:trigger CallChecked(c, next.calls, next.commands, i)}
      ensures CallChecked(c, next.calls, next.commands, i)
    {
      assert CallChecked(c, h.calls, h.commands, i);
      if i < |h.calls| {
        var t1: Tool, v1: Json :| t1 in c.tools.Values && ValueOk(t1.kind, v1)
                                  && h.calls[i] == RecordOf(t1, h.calls[i].id, v1)
                                  && Command(t1.kind, t1.spec, Some(v1)) in h.commands;
        assert Command(t1.kind, t1.spec, Some(v1)) in next.commands;
      } else if i == |h.calls| {
        assert command in next.commands;
      }
    }
  }

  lemma {:induction false} CallStepChecks(c: Catalogue, h: Turn, f: Fields, kind: ToolKind)
    requires CallsChecked(c, h) && StrictFields(f) && CallStep(c, h, f, kind).Ok?
    ensures CallsChecked(c, CallStep(c, h, f, kind).value)
  {
    var t := Lookup(c, AtOr(f, "namespace", Str("")), At(f, "name")).value;
    var id, v := At(f, "call_id").s, ValueOf(f, t.kind, true).value;
    if t.kind == Function {
      LoadsIsStrict(At(f, "arguments").s);
    }
    MoreChecked(c, h, RecordOf(t, id, v), t, v);
  }

  lemma {:induction false} StepChecks(c: Catalogue, h: Turn, v: Json)
    requires CallsChecked(c, h) && Strict(v) && ItemStep(c, h, v).Ok?
    ensures CallsChecked(c, ItemStep(c, h, v).value)
  {
    var next := ItemStep(c, h, v).value;
    var kind := AtOr(v.fields, "type", Str("message"));
    if kind == Str("function_call") {
      CallStepChecks(c, h, v.fields, Function);
    } else if kind == Str("custom_tool_call") {
      CallStepChecks(c, h, v.fields, Custom);
    } else {
      assert next.calls == h.calls && next.commands == h.commands;
      forall i: nat {:trigger CallChecked(c, next.calls, next.commands, i)}
        ensures CallChecked(c, next.calls, next.commands, i)
      {
        assert CallChecked(c, h.calls, h.commands, i);
      }
    }
  }

  lemma {:induction false} StepsCheck(c: Catalogue, h: Turn, items: Items)
    requires CallsChecked(c, h) && StrictItems(items) && ItemSteps(c, h, items).Ok?
    ensures CallsChecked(c, ItemSteps(c, h, items).value)
    decreases items
  {
    if items.Item? {
      StepChecks(c, h, items.head);
      StepsCheck(c, ItemStep(c, h, items.head).value, items.tail);
    }
  }

  lemma {:induction false} TextIsStrict(input: Json)
    requires input.Str?
    ensures InputItems(input).Some? && StrictItems(InputItems(input).value)
  {
    var tail := Field("content", input, NoFields);
    var whole := Field("role", Str("user"), tail);
    assert Keys(tail) == {"content"} && Distinct(tail);
    assert Strict(input) && StrictFields(tail.rest);
    assert StrictFields(tail);
    assert Distinct(whole) && StrictFields(whole);
    assert Strict(Obj(whole));
    assert StrictItems(Item(Obj(whole), NoItems));
  }

  /** Every call of an accepted history is of a declared tool and was put to the validator with
      that tool's schema or format, as was every declaration. */
  lemma {:induction false} HistoryIsChecked(c: Catalogue, input: Json, items: Items)
    requires InputItems(input) == Some(items) && Strict(input) && HistoryOf(c, input).Ok?
    ensures CallsChecked(c, HistoryOf(c, input).value)
  {
    var start := Turn([], map[], Unknown, c.commands);
    if input.Str? {
      TextIsStrict(input);
    }
    StepsCheck(c, start, items);
  }
}

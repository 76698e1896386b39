/** The object of prism-adapter/tool_bridge.py: `ToolBridge`, with the fields its methods
    update, proved against the functions of `Tools`, `History` and `Output`. */
module Bridge {
  import opened Prelude
  import opened Json
  import opened Tools
  import opened History
  import O = Output

  // ---------------------------------------------------------------- the constructor, as a function

  function HostedIn(items: Items): set<string> {
    if items.NoItems? then {} else HostedBy(items.head) + HostedIn(items.tail)
  }

  function HostedBy(v: Json): set<string> {
    if v.Obj? && IsHosted(At(v.fields, "type")) then {At(v.fields, "type").s} else {}
  }

  predicate DeclaresMore(v: Json) {
    v.Obj? && At(v.fields, "type") == Str("additional_tools")
  }

  /** Declarations that travel inside the input. */
  function CollectInput(c: Catalogue, items: Items): Result<Catalogue, Refusal>
    decreases items
  {
    if items.NoItems? then Ok(c)
    else if DeclaresMore(items.head) then
      var c' :- Collect(c, At(items.head.fields, "tools"), "", 0);
      CollectInput(c', items.tail)
    else CollectInput(c, items.tail)
  }

  function CollectAll(payload: Fields): Result<Catalogue, Refusal> {
    var c1 :- Collect(Nothing, At(payload, "tools"), "", 0);
    var c2 :- Collect(c1, At(payload, "additional_tools"), "", 0);
    var c3 :- if At(payload, "input").Arr? then CollectInput(c2, At(payload, "input").items) else Ok(c2);
    if c3.tools == map[] then Err(InvalidTools) else Ok(c3)
  }

  function KindName(kind: ToolKind): string {
    if kind == Function then "function" else "custom"
  }

  /** A named choice may give the qualified name, or the name and its namespace. */
  function ChoiceOf(c: Catalogue, choice: Json): Result<O.Choice, Refusal> {
    match choice
    case Obj(f) =>
      var name, namespace := At(f, "name"), AtOr(f, "namespace", Str(""));
      var isKey := namespace == Str("") && name.Str? && name.s in c.tools;
      var target :- if isKey then Ok(c.tools[name.s]) else Lookup(c, namespace, name);
      if At(f, "type") == Str(KindName(target.kind)) then Ok(O.Forced(target)) else Err(InvalidToolChoice)
    case Str(s) =>
      if s == "auto" then Ok(O.Auto) else if s == "none" then Ok(O.NoTools) else if s == "required" then Ok(O.Required)
      else Err(InvalidToolChoice)
    case _ => Err(InvalidToolChoice)
  }

  /** `ToolBridge(payload)`, up to the text of the prompt; `valid` is the validator's verdict. */
  function Prepare(payload: Fields, valid: seq<Command> -> bool): Result<O.Request, Refusal> {
    var parallel := AtOr(payload, "parallel_tool_calls", Bool(true));
    if At(payload, "model") != Str("gpt-6.1-sol") then Err(UnsupportedToolModel)
    else if !parallel.Bool? then Err(InvalidTools)
    else
      var c :- CollectAll(payload);
      var choice :- ChoiceOf(c, AtOr(payload, "tool_choice", Str("auto")));
      var h :- HistoryOf(c, At(payload, "input"));
      if h.commands != [] && !valid(h.commands) then Err(InvalidToolPayload)
      else Ok(O.Request(c, h, parallel.b, choice))
  }

  // ---------------------------------------------------------------- what a prepared request satisfies

  lemma {:induction false} CollectInputOk(c: Catalogue, items: Items)
    requires CatalogueOk(c) && StrictItems(items) && CollectInput(c, items).Ok?
    ensures CatalogueOk(CollectInput(c, items).value)
    decreases items
  {
    if items.Item? {
      if DeclaresMore(items.head) {
        var value := At(items.head.fields, "tools");
        AtIsStrict(items.head.fields, "tools", Null);
        CollectedIsDeclared(c, value, "", 0);
        CollectInputOk(Collect(c, value, "", 0).value, items.tail);
      } else {
        CollectInputOk(c, items.tail);
      }
    }
  }

  lemma {:induction false} CollectAllOk(payload: Fields)
    requires Strict(Obj(payload)) && CollectAll(payload).Ok?
    ensures CatalogueOk(CollectAll(payload).value)
  {
    AtIsStrict(payload, "tools", Null);
    AtIsStrict(payload, "additional_tools", Null);
    AtIsStrict(payload, "input", Null);
    CollectedIsDeclared(Nothing, At(payload, "tools"), "", 0);
    var c1 := Collect(Nothing, At(payload, "tools"), "", 0).value;
    CollectedIsDeclared(c1, At(payload, "additional_tools"), "", 0);
    var c2 := Collect(c1, At(payload, "additional_tools"), "", 0).value;
    if At(payload, "input").Arr? {
      CollectInputOk(c2, At(payload, "input").items);
    }
  }

  /** A request that is let through has a catalogue filed under its own names, a fully paired
      history, and asked the validator at most 160 questions. */
  lemma {:induction false} PreparedIsOk(payload: Fields, valid: seq<Command> -> bool)
    requires Strict(Obj(payload)) && Prepare(payload, valid).Ok?
    ensures var q := Prepare(payload, valid).value;
            && CatalogueOk(q.catalogue) && q.catalogue.tools != map[]
            && HistoryOf(q.catalogue, At(payload, "input")) == Ok(q.turn)
            && DistinctCalls(q.turn.calls) && q.turn.results.Keys == CallIds(q.turn.calls)
            && |q.turn.commands| == |q.catalogue.tools| + |q.turn.calls| <= 160
            && valid(q.turn.commands)
  {
    CollectAllOk(payload);
    var q := Prepare(payload, valid).value;
    HistoryIsPaired(q.catalogue, At(payload, "input"));
    assert |q.catalogue.tools| > 0;
  }

  /** A forced choice is one of the declared tools. */
  lemma {:induction false} ForcedIsDeclared(c: Catalogue, choice: Json)
    requires CatalogueOk(c) && ChoiceOf(c, choice).Ok? && ChoiceOf(c, choice).value.Forced?
    ensures ChoiceOf(c, choice).value.target in c.tools.Values
  {
  }

  // ---------------------------------------------------------------- the object

  class ToolBridge {
    var tools: map<string, Tool>
    var unavailable: set<string>
    var commands: seq<Command>
    var calls: seq<CallRecord>
    var results: map<string, Json>
    var last: Last

    function Declared(): Catalogue
      reads this
    {
      Tools.Catalogue(tools, commands)
    }

    function Now(): Turn
      reads this
    {
      Turn(calls, results, last, commands)
    }

    constructor ()
      ensures Declared() == Nothing && unavailable == {} && calls == [] && results == map[] && last == Unknown
    {
      tools, unavailable, commands, calls, results, last := map[], {}, [], [], map[], Unknown;
    }

    method Declare(t: Tool) returns (error: Option<Refusal>)
      modifies this`tools, this`commands
      ensures match Register(old(Declared()), t)
              case Ok(c) => error == None && Declared() == c
              case Err(e) => error == Some(e)
    {
      if KeyOf(t) in tools {
        return if SameTool(tools[KeyOf(t)], t) then None else Some(ConflictingTools);
      }
      ghost var before := tools;
      tools := tools[KeyOf(t) := t];
      commands := commands + [Command(t.kind, t.spec, None)];
      assert tools.Keys == before.Keys + {KeyOf(t)};
      assert |tools| == |tools.Keys| && |before| == |before.Keys|;
      return if |tools| > MAX_TOOLS then Some(TooManyTools) else None;
    }

    method CollectOne(v: Json, namespace: string, depth: nat) returns (error: Option<Refusal>)
      requires depth <= MAX_DEPTH
      modifies this`tools, this`commands, this`unavailable
      ensures match Tools.CollectOne(old(Declared()), v, namespace, depth)
              case Ok(c) => error == None && Declared() == c
              case Err(e) => error == Some(e)
      ensures error == None ==> unavailable == old(unavailable) + HostedBy(v)
      decreases MAX_DEPTH + 1 - depth, 0
    {
      var d := ReadDeclaration(v, namespace);
      if d.Err? {
        return Some(d.error);
      }
      HostedOnce(v, namespace, d.value);
      match d.value {
        case Elsewhere(kind) =>
          unavailable := unavailable + {kind};
          error := None;
        case Group(qualified, members) => error := Collect(members, qualified, depth + 1);
        case Client(tool) => error := Declare(tool);
      }
    }

    method Collect(value: Json, namespace: string, depth: nat) returns (error: Option<Refusal>)
      requires depth <= MAX_DEPTH + 1
      modifies this`tools, this`commands, this`unavailable
      ensures match Tools.Collect(old(Declared()), value, namespace, depth)
              case Ok(c) => error == None && Declared() == c
              case Err(e) => error == Some(e)
      ensures error == None ==> unavailable == old(unavailable) + if value.Arr? then HostedIn(value.items) else {}
      ensures error == None && namespace != "" ==> unavailable == old(unavailable)
      decreases MAX_DEPTH + 1 - depth, 1
    {
      if value == Null {
        return None;
      }
      if !ShapeOk(value, depth) {
        return Some(InvalidTools);
      }
      var rest := value.items;
      while rest.Item?
        invariant CollectItems(Declared(), rest, namespace, depth)
            == CollectItems(old(Declared()), value.items, namespace, depth)
        invariant unavailable + HostedIn(rest) == old(unavailable) + HostedIn(value.items)
        invariant namespace != "" ==> unavailable == old(unavailable)
        decreases rest
      {
        ghost var c := Declared();
        error := CollectOne(rest.head, namespace, depth);
        if error.Some? {
          return;
        }
        HostedAtTop(c, rest.head, namespace, depth);
        rest := rest.tail;
      }
      return None;
    }

    method AddCall(c: Catalogue, f: Fields, kind: ToolKind) returns (error: Option<Refusal>)
      modifies this`calls, this`commands, this`last
      ensures match CallStep(c, old(Now()), f, kind)
              case Ok(h) => error == None && Now() == h
              case Err(e) => error == Some(e)
    {
      var t := Lookup(c, AtOr(f, "namespace", Str("")), At(f, "name"));
      if t.Err? {
        return Some(t.error);
      }
      var id := At(f, "call_id");
      if kind != t.value.kind || !id.Str? || !IsCallId(id.s) || Find(calls, id.s).Some? {
        return Some(InvalidToolCall);
      }
      var v := ValueOf(f, kind, true);
      if v.Err? {
        return Some(v.error);
      }
      commands := commands + [Command(kind, t.value.spec, Some(v.value))];
      calls := calls + [RecordOf(t.value, id.s, v.value)];
      last := ToolItem;
      return None;
    }

    method AddResult(f: Fields, kind: ToolKind) returns (error: Option<Refusal>)
      modifies this`results, this`last
      ensures match ResultStep(old(Now()), f, kind)
              case Ok(h) => error == None && Now() == h
              case Err(e) => error == Some(e)
    {
      var id, output := At(f, "call_id"), At(f, "output");
      if !id.Str? || Find(calls, id.s).None? || id.s in results || kind != Find(calls, id.s).value.kind {
        return Some(InvalidToolResult);
      }
      if output.Arr? {
        if !TextParts(output.items, {"input_text", "text"}) {
          return Some(UnsupportedToolResult);
        }
      } else if !output.Str? {
        return Some(InvalidToolResult);
      }
      results := results[id.s := ResultJson(kind, id.s, output)];
      last := ToolItem;
      return None;
    }

    method AddItem(c: Catalogue, v: Json) returns (error: Option<Refusal>)
      modifies this`calls, this`commands, this`results, this`last
      ensures match ItemStep(c, old(Now()), v)
              case Ok(h) => error == None && Now() == h
              case Err(e) => error == Some(e)
    {
      if !v.Obj? {
        return Some(InvalidInput);
      }
      var kind := AtOr(v.fields, "type", Str("message"));
      error := None;
      if kind == Str("additional_tools") {
      } else if kind == Str("reasoning") {
        var r := ReasoningStep(Now(), v.fields);
        error := if r.Err? then Some(r.error) else None;
      } else if kind == Str("message") {
        last := MessageStep(Now(), v.fields).last;
      } else if kind == Str("function_call") {
        error := AddCall(c, v.fields, Function);
      } else if kind == Str("custom_tool_call") {
        error := AddCall(c, v.fields, Custom);
      } else if kind == Str("function_call_output") {
        error := AddResult(v.fields, Function);
      } else if kind == Str("custom_tool_call_output") {
        error := AddResult(v.fields, Custom);
      } else {
        error := Some(UnsupportedInput);
      }
    }

    method History(input: Json) returns (error: Option<Refusal>)
      requires calls == [] && results == map[] && last == Unknown
      modifies this`calls, this`commands, this`results, this`last
      ensures match HistoryOf(old(Declared()), input)
              case Ok(h) => error == None && Now() == h
              case Err(e) => error == Some(e)
    {
      var c, items := Declared(), InputItems(input);
      if items.None? {
        return Some(InvalidInput);
      }
      var rest := items.value;
      while rest.Item?
        invariant ItemSteps(c, Now(), rest) == ItemSteps(c, old(Now()), items.value)
        decreases rest
      {
        error := AddItem(c, rest.head);
        if error.Some? {
          return;
        }
        rest := rest.tail;
      }
      return if Paired(Now()) then None else Some(MissingToolResult);
    }

    /** The loop of `output`: the calls of an answer, checked and given ids one by one. */
    method Issue(q: O.Request, items: Items, hex: nat -> string) returns (records: Option<seq<CallRecord>>)
      modifies this`commands
      ensures match O.IssueAll(q, O.Progress([], {}, []), items, hex)
              case Some(p) => records == Some(p.records) && commands == p.commands
              case None => records == None
    {
      commands := [];
      var done: seq<CallRecord>, seen: set<string> := [], {};
      var rest := items;
      while rest.Item?
        invariant O.IssueAll(q, O.Progress(done, seen, commands), rest, hex)
            == O.IssueAll(q, O.Progress([], {}, []), items, hex)
        decreases rest
      {
        var p := O.IssueStep(q, O.Progress(done, seen, commands), rest.head, IdOf(hex(|done|)));
        if p.None? {
          return None;
        }
        done, seen, commands := p.value.records, p.value.seen, p.value.commands;
        rest := rest.tail;
      }
      return Some(done);
    }

    /** `output`. */
    method Output(q: O.Request, marker: string, answer: string, hex: nat -> string,
                  valid: seq<Command> -> bool) returns (r: Option<O.Answer>)
      modifies this`commands
      ensures r == O.Released(q, marker, answer, hex, valid)
      ensures r.Some? && r.value.Calls? ==> |commands| == |r.value.records| <= MAX_CALLS && valid(commands)
    {
      var framed := O.Framed(marker, answer);
      if framed.None? {
        return None;
      }
      var f := framed.value;
      if At(f, "kind") == Str("final") {
        return O.FinalOf(q, f);
      }
      if Keys(f) != {"kind", "calls"} || At(f, "kind") != Str("calls") || !At(f, "calls").Arr? {
        return None;
      }
      var items := At(f, "calls").items;
      if !O.CountOk(q, Count(items)) {
        return None;
      }
      ghost var start := O.Progress([], {}, []);
      var records := Issue(q, items, hex);
      if records.None? || !valid(commands) {
        return None;
      }
      O.IssueAllIsDone(q, [], start, items, hex, O.ToSeq(items), O.IssueAll(q, start, items, hex).value);
      O.ToSeqCount(items);
      return Some(O.Calls(records.value));
    }
  }

  /** Only a hosted declaration adds to what is unavailable, and it is refused inside a namespace. */
  lemma {:induction false} HostedOnce(v: Json, namespace: string, d: Declaration)
    requires ReadDeclaration(v, namespace) == Ok(d)
    ensures HostedBy(v) == if d.Elsewhere? then {d.kind} else {}
    ensures d.Elsewhere? ==> namespace == ""
    ensures d.Group? ==> d.qualified != "" && d.members.Arr?
  {
  }

  lemma {:induction false} HostedAtTop(c: Catalogue, v: Json, namespace: string, depth: nat)
    requires depth <= MAX_DEPTH && Tools.CollectOne(c, v, namespace, depth).Ok?
    ensures namespace != "" ==> HostedBy(v) == {}
  {
    HostedOnce(v, namespace, ReadDeclaration(v, namespace).value);
  }
}

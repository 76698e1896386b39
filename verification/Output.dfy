/** The model's answer turned into calls for the client: `output` of prism-adapter/tool_bridge.py. */
module Output {
  import opened Prelude
  import opened Json
  import opened Canonical
  import opened Tools
  import opened History

  datatype Choice = Auto | NoTools | Required | Forced(target: Tool)

  /** What the bridge knows when the answer arrives. */
  datatype Request = Request(catalogue: Catalogue, turn: Turn, parallel: bool, choice: Choice)

  /** What may be handed to the client. */
  datatype Answer = Final(text: string) | Calls(records: seq<CallRecord>)

  /** Characters `str.strip` removes. */
  predicate IsSpace(c: char) {
    || '\t' <= c <= '\r' || '\U{001C}' <= c <= ' ' || c == '\U{0085}' || c == '\U{00A0}' || c == '\U{1680}'
    || '\U{2000}' <= c <= '\U{200A}' || c == '\U{2028}' || c == '\U{2029}' || c == '\U{202F}' || c == '\U{205F}'
    || c == '\U{3000}'
  }

  function Strip(s: string): string
    decreases |s|
  {
    if s != "" && IsSpace(s[0]) then Strip(s[1..])
    else if s != "" && IsSpace(s[|s| - 1]) then Strip(s[..|s| - 1])
    else s
  }

  /** The JSON object after the marker line. */
  function Framed(marker: string, answer: string): Option<Fields> {
    Unframed(marker + "\n", Strip(answer))
  }

  function Unframed(prefix: string, text: string): Option<Fields> {
    if !(prefix <= text) then None
    else
      match Loads(text[|prefix|..])
      case Some(Obj(f)) => Some(f)
      case _ => None
  }

  function FinalOf(q: Request, f: Fields): Option<Answer> {
    if Keys(f) != {"kind", "text"} || !At(f, "text").Str? || Strip(At(f, "text").s) == "" then None
    else if q.choice.Required? || q.choice.Forced? then None
    else Some(Final(At(f, "text").s))
  }

  /** How many calls one answer may make. */
  predicate CountOk(q: Request, n: nat) {
    && 1 <= n <= (if q.parallel then MAX_CALLS else 1) && !q.choice.NoTools?
    && |q.turn.calls| + n <= MAX_HISTORY_CALLS
    && (q.choice.Forced? ==> n == 1)
  }

  /** Calls accepted so far, the digests of their items, and what the validator will be asked. */
  datatype Progress = Progress(records: seq<CallRecord>, seen: set<string>, commands: seq<Command>)

  function IssueStep(q: Request, p: Progress, v: Json, id: string): Option<Progress> {
    if !v.Obj? || !At(v.fields, "name").Str? then None
    else
      var key := At(v.fields, "name").s;
      if key !in q.catalogue.tools then None
      else
        var t := q.catalogue.tools[key];
        if q.choice.Forced? && !SameTool(t, q.choice.target) then None
        else
          match ValueOf(v.fields, t.kind, false)
          case Err(_) => None
          case Ok(value) =>
            if Keys(v.fields) != {"name", ValueField(t.kind)} || Digest(v) in p.seen then None
            else
              var command := Command(t.kind, t.spec, Some(value));
              Some(Progress(p.records + [RecordOf(t, id, value)], p.seen + {Digest(v)}, p.commands + [command]))
  }

  /** `hex` supplies `uuid4().hex`, one for each call. */
  function IssueAll(q: Request, p: Progress, items: Items, hex: nat -> string): Option<Progress>
    decreases items
  {
    if items.NoItems? then Some(p)
    else
      var p' :- IssueStep(q, p, items.head, IdOf(hex(|p.records|)));
      IssueAll(q, p', items.tail, hex)
  }

  /** `output(answer)`; `valid` is the verdict of the validator process. */
  function Released(q: Request, marker: string, answer: string, hex: nat -> string,
                    valid: seq<Command> -> bool): Option<Answer> {
    var f :- Framed(marker, answer);
    if At(f, "kind") == Str("final") then FinalOf(q, f)
    else if Keys(f) != {"kind", "calls"} || At(f, "kind") != Str("calls") || !At(f, "calls").Arr? then None
    else if !CountOk(q, Count(At(f, "calls").items)) then None
    else
      var p :- IssueAll(q, Progress([], {}, []), At(f, "calls").items, hex);
      if valid(p.commands) then Some(Calls(p.records)) else None
  }

  // ---------------------------------------------------------------- items and records

  /** An element of `calls` that names a declared tool and carries a value for it. */
  predicate Accepted(q: Request, v: Json) {
    && v.Obj? && At(v.fields, "name").Str? && At(v.fields, "name").s in q.catalogue.tools
    && var t := q.catalogue.tools[At(v.fields, "name").s];
       && ValueOf(v.fields, t.kind, false).Ok?
       && Keys(v.fields) == {"name", ValueField(t.kind)}
       && (q.choice.Forced? ==> SameTool(t, q.choice.target))
  }

  function ToolIn(q: Request, v: Json): Tool
    requires Accepted(q, v)
  {
    q.catalogue.tools[At(v.fields, "name").s]
  }

  function ValueIn(q: Request, v: Json): Json
    requires Accepted(q, v)
  {
    ValueOf(v.fields, ToolIn(q, v).kind, false).value
  }

  function ToSeq(items: Items): seq<Json> {
    if items.NoItems? then [] else [items.head] + ToSeq(items.tail)
  }

  predicate RecordFor(q: Request, v: Json, id: string, r: CallRecord) {
    Accepted(q, v) && r == RecordOf(ToolIn(q, v), id, ValueIn(q, v))
  }

  /** The records are those of the items, in order, and no two items have one digest. */
  ghost predicate Done(q: Request, items: seq<Json>, p: Progress, hex: nat -> string) {
    && |items| == |p.records| == |p.commands|
    && (forall i :: 0 <= i < |items| ==> RecordFor(q, items[i], IdOf(hex(i)), p.records[i]))
    && (forall i :: 0 <= i < |items| ==> Digest(items[i]) in p.seen)
    && (forall i, j :: 0 <= i < j < |items| ==> Digest(items[i]) != Digest(items[j]))
  }

  lemma {:induction false} IssueKeepsDone(q: Request, items: seq<Json>, p: Progress, v: Json, hex: nat -> string,
                                          p': Progress, all: seq<Json>)
    requires Done(q, items, p, hex) && IssueStep(q, p, v, IdOf(hex(|p.records|))) == Some(p') && all == items + [v]
    ensures Done(q, all, p', hex)
  {
    assert RecordFor(q, v, IdOf(hex(|items|)), p'.records[|items|]);
    forall i | 0 <= i < |all|
      ensures RecordFor(q, all[i], IdOf(hex(i)), p'.records[i]) && Digest(all[i]) in p'.seen
    {
      if i < |items| {
        assert all[i] == items[i] && p'.records[i] == p.records[i];
      }
    }
  }

  lemma {:induction false} IssueNext(q: Request, p: Progress, more: Items, hex: nat -> string,
                                     end: Progress) returns (next: Progress)
    requires more.Item? && IssueAll(q, p, more, hex) == Some(end)
    ensures IssueStep(q, p, more.head, IdOf(hex(|p.records|))) == Some(next)
    ensures IssueAll(q, next, more.tail, hex) == Some(end)
  {
    next := IssueStep(q, p, more.head, IdOf(hex(|p.records|))).value;
  }

  lemma {:induction false} IssueAllIsDone(q: Request, items: seq<Json>, p: Progress, more: Items, hex: nat -> string,
                                          all: seq<Json>, end: Progress)
    requires Done(q, items, p, hex) && IssueAll(q, p, more, hex) == Some(end) && all == items + ToSeq(more)
    ensures Done(q, all, end, hex)
    decreases more
  {
    if more.NoItems? {
      assert all == items;
    } else {
      var next := IssueNext(q, p, more, hex, end);
      var longer := items + [more.head];
      assert all == longer + ToSeq(more.tail);
      IssueKeepsDone(q, items, p, more.head, hex, next, longer);
      IssueAllIsDone(q, longer, next, more.tail, hex, all, end);
    }
  }

  lemma {:induction false} ToSeqCount(items: Items)
    ensures |ToSeq(items)| == Count(items)
  {
    if items.Item? {
      ToSeqCount(items.tail);
    }
  }

  lemma {:induction false} ToSeqStrict(items: Items)
    requires StrictItems(items)
    ensures forall i :: 0 <= i < |ToSeq(items)| ==> Strict(ToSeq(items)[i])
  {
    if items.Item? {
      ToSeqStrict(items.tail);
    }
  }

  // ---------------------------------------------------------------- what is released

  /** The elements the records of a released answer were made from. */
  function Elements(marker: string, answer: string): seq<Json> {
    match Framed(marker, answer)
    case None => []
    case Some(f) => if At(f, "calls").Arr? then ToSeq(At(f, "calls").items) else []
  }

  /** What one call asks for: the tool, by its full name, and the value. */
  function Content(r: CallRecord): (string, string, string) {
    (r.namespace, r.name, r.text)
  }

  lemma {:induction false} FramedIsStrict(marker: string, answer: string)
    ensures Framed(marker, answer).Some? ==> Strict(Obj(Framed(marker, answer).value))
  {
    UnframedIsStrict(marker + "\n", Strip(answer));
  }

  lemma {:induction false} UnframedIsStrict(prefix: string, text: string)
    ensures Unframed(prefix, text).Some? ==> Strict(Obj(Unframed(prefix, text).value))
  {
    if prefix <= text {
      LoadsIsStrict(text[|prefix|..]);
    }
  }

  /** What releasing calls comes down to. */
  lemma {:induction false} ReleasedRun(q: Request, marker: string, answer: string, hex: nat -> string,
                                       valid: seq<Command> -> bool, records: seq<CallRecord>)
    returns (items: Items, p: Progress)
    requires Released(q, marker, answer, hex, valid) == Some(Calls(records))
    ensures Elements(marker, answer) == ToSeq(items) && StrictItems(items) && CountOk(q, Count(items))
    ensures IssueAll(q, Progress([], {}, []), items, hex) == Some(p) && p.records == records
  {
    FramedIsStrict(marker, answer);
    var f := Framed(marker, answer).value;
    AtIsStrict(f, "calls", Null);
    items := At(f, "calls").items;
    p := IssueAll(q, Progress([], {}, []), items, hex).value;
  }

  lemma {:induction false} RunElements(q: Request, items: Items, hex: nat -> string, p: Progress)
    requires StrictItems(items) && IssueAll(q, Progress([], {}, []), items, hex) == Some(p)
    ensures var s := ToSeq(items);
            && |s| == |p.records| == Count(items)
            && (forall i :: 0 <= i < |s| ==> Strict(s[i]) && RecordFor(q, s[i], IdOf(hex(i)), p.records[i]))
            && (forall i, j :: 0 <= i < j < |s| ==> Digest(s[i]) != Digest(s[j]))
  {
    ToSeqStrict(items);
    ToSeqCount(items);
    IssueAllIsDone(q, [], Progress([], {}, []), items, hex, ToSeq(items), p);
  }

  lemma {:induction false} ReleasedElements(q: Request, marker: string, answer: string, hex: nat -> string,
                                            valid: seq<Command> -> bool, records: seq<CallRecord>)
    requires Released(q, marker, answer, hex, valid) == Some(Calls(records))
    ensures CountOk(q, |records|)
    ensures var items := Elements(marker, answer);
            && |items| == |records|
            && (forall i :: 0 <= i < |items| ==> Strict(items[i]) && RecordFor(q, items[i], IdOf(hex(i)), records[i]))
            && (forall i, j :: 0 <= i < j < |items| ==> Digest(items[i]) != Digest(items[j]))
  {
    var items, p := ReleasedRun(q, marker, answer, hex, valid, records);
    RunElements(q, items, hex, p);
  }

  /** `none` never yields calls, `required` and a named choice always do, a named choice
      exactly one; never more than 8 calls, or 1 when they may not run in parallel; and
      the history the client will send back stays within 64 calls. */
  lemma {:induction false} ReleasedObeysChoice(q: Request, marker: string, answer: string, hex: nat -> string,
                                               valid: seq<Command> -> bool)
    requires Released(q, marker, answer, hex, valid).Some?
    ensures match Released(q, marker, answer, hex, valid).value
            case Final(text) => !q.choice.Required? && !q.choice.Forced? && Strip(text) != ""
            case Calls(records) =>
              && 1 <= |records| <= 8 && (!q.parallel ==> |records| == 1) && !q.choice.NoTools?
              && |q.turn.calls| + |records| <= 64
              && (q.choice.Forced? ==>
                    && |records| == 1 && Content(records[0]).0 == q.choice.target.namespace
                    && Content(records[0]).1 == q.choice.target.name)
  {
    if Released(q, marker, answer, hex, valid).value.Calls? {
      ReleasedElements(q, marker, answer, hex, valid, Released(q, marker, answer, hex, valid).value.records);
    }
  }

  /** Every released call is of a declared tool, with a value of the right shape and size. */
  lemma {:induction false} ReleasedIsDeclared(q: Request, marker: string, answer: string, hex: nat -> string,
                                              valid: seq<Command> -> bool, records: seq<CallRecord>, i: nat)
    requires CatalogueOk(q.catalogue) && Released(q, marker, answer, hex, valid) == Some(Calls(records))
    requires i < |records|
    ensures |Elements(marker, answer)| == |records| && Accepted(q, Elements(marker, answer)[i])
    ensures var v := Elements(marker, answer)[i];
            && ToolIn(q, v) in q.catalogue.tools.Values && ValueOk(ToolIn(q, v).kind, ValueIn(q, v))
            && records[i] == RecordOf(ToolIn(q, v), IdOf(hex(i)), ValueIn(q, v))
  {
    ReleasedElements(q, marker, answer, hex, valid, records);
    var v := Elements(marker, answer)[i];
    assert RecordFor(q, v, IdOf(hex(i)), records[i]);
    AtIsStrict(v.fields, ValueField(ToolIn(q, v).kind), Null);
  }

  /** Items that ask the same tool for the same value have one digest. */
  lemma {:induction false} ItemDigest(f: Fields, g: Fields, field: string)
    requires Strict(Obj(f)) && Strict(Obj(g)) && field != "name"
    requires Keys(f) == {"name", field} == Keys(g)
    requires At(f, "name") == At(g, "name") && Canon(At(f, field)) == Canon(At(g, field))
    ensures Digest(Obj(f)) == Digest(Obj(g))
  {
    CanonFieldsSorted(f);
    CanonFieldsSorted(g);
    forall k
      ensures Get(CanonFields(f), k) == Get(CanonFields(g), k)
    {
      CanonFieldsGet(f, k);
      CanonFieldsGet(g, k);
      GetKeys(f, k);
      GetKeys(g, k);
    }
    SortedExtensional(CanonFields(f), CanonFields(g));
  }

  lemma {:induction false} SameContentSameDigest(q: Request, v: Json, w: Json, a: string, b: string)
    requires CatalogueOk(q.catalogue) && Accepted(q, v) && Accepted(q, w) && Strict(v) && Strict(w)
    requires Content(RecordOf(ToolIn(q, v), a, ValueIn(q, v))) == Content(RecordOf(ToolIn(q, w), b, ValueIn(q, w)))
    ensures Digest(v) == Digest(w)
  {
    OneKeyPerTool(q.catalogue, At(v.fields, "name").s, At(w.fields, "name").s);
    var kind := ToolIn(q, v).kind;
    var x, y := ValueIn(q, v), ValueIn(q, w);
    AtIsStrict(v.fields, ValueField(kind), Null);
    AtIsStrict(w.fields, ValueField(kind), Null);
    TextNamesValue(kind, x, y);
    SameIsCanon(y, x);
    ItemDigest(v.fields, w.fields, ValueField(kind));
  }

  /** No two calls of one answer ask for the same thing, however their keys are ordered. */
  lemma {:induction false} ReleasedAreDifferent(q: Request, marker: string, answer: string, hex: nat -> string,
                                                valid: seq<Command> -> bool, records: seq<CallRecord>, i: nat, j: nat)
    requires CatalogueOk(q.catalogue) && Released(q, marker, answer, hex, valid) == Some(Calls(records))
    requires i < j < |records|
    ensures Content(records[i]) != Content(records[j])
  {
    ReleasedElements(q, marker, answer, hex, valid, records);
    var items := Elements(marker, answer);
    assert RecordFor(q, items[i], IdOf(hex(i)), records[i]) && RecordFor(q, items[j], IdOf(hex(j)), records[j]);
    if Content(records[i]) == Content(records[j]) {
      SameContentSameDigest(q, items[i], items[j], IdOf(hex(i)), IdOf(hex(j)));
    }
  }

  // ---------------------------------------------------------------- exactly what is released

  /** A tool, and a value of its shape within 32000 characters, and nothing else. */
  predicate CallsOne(q: Request, v: Json, t: Tool, value: Json) {
    && v.Obj? && Get(v.fields, "name").Some? && Get(v.fields, "name").value.Str?
    && Get(v.fields, "name").value.s in q.catalogue.tools && q.catalogue.tools[Get(v.fields, "name").value.s] == t
    && Get(v.fields, if t.kind == Function then "arguments" else "input") == Some(value)
    && (if t.kind == Function then value.Obj? else value.Str?) && |Print(value, Spaced)| <= 32000
    && Keys(v.fields) == {"name", if t.kind == Function then "arguments" else "input"}
    && (q.choice.Forced? ==> SameTool(t, q.choice.target))
  }

  lemma {:induction false} AcceptedMeans(q: Request, v: Json, t: Tool, value: Json)
    ensures Accepted(q, v) && ToolIn(q, v) == t && ValueIn(q, v) == value <==> CallsOne(q, v, t, value)
  {
    if v.Obj? {
      GetKeys(v.fields, "arguments");
      GetKeys(v.fields, "input");
    }
  }

  predicate AllAccepted(q: Request, items: Items) {
    items.Item? ==> Accepted(q, items.head) && AllAccepted(q, items.tail)
  }

  predicate NoTwins(items: Items, seen: set<string>) {
    items.Item? ==> Digest(items.head) !in seen && NoTwins(items.tail, seen + {Digest(items.head)})
  }

  function RecordAt(q: Request, v: Json, id: string): CallRecord
    requires Accepted(q, v)
  {
    RecordOf(ToolIn(q, v), id, ValueIn(q, v))
  }

  /** The schema or format of the tool, and the value for it. */
  function CommandAt(q: Request, v: Json): Command
    requires Accepted(q, v)
  {
    Command(ToolIn(q, v).kind, ToolIn(q, v).spec, Some(ValueIn(q, v)))
  }

  function RecordsOf(q: Request, items: Items, hex: nat -> string, n: nat): seq<CallRecord>
    requires AllAccepted(q, items)
  {
    if items.NoItems? then [] else [RecordAt(q, items.head, IdOf(hex(n)))] + RecordsOf(q, items.tail, hex, n + 1)
  }

  /** For each call the schema or format of its tool and the value it carries. */
  function CommandsOf(q: Request, items: Items): seq<Command>
    requires AllAccepted(q, items)
  {
    if items.NoItems? then [] else [CommandAt(q, items.head)] + CommandsOf(q, items.tail)
  }

  lemma {:induction false} IssueStepIs(q: Request, p: Progress, v: Json, id: string)
    ensures IssueStep(q, p, v, id).Some? <==> Accepted(q, v) && Digest(v) !in p.seen
    ensures IssueStep(q, p, v, id).Some? ==>
              IssueStep(q, p, v, id).value
              == Progress(p.records + [RecordAt(q, v, id)], p.seen + {Digest(v)}, p.commands + [CommandAt(q, v)])
  {
  }

  lemma {:induction false} IssueAllAccepts(q: Request, p: Progress, items: Items, hex: nat -> string)
    ensures IssueAll(q, p, items, hex).Some? <==> AllAccepted(q, items) && NoTwins(items, p.seen)
    decreases items
  {
    if items.Item? {
      var id := IdOf(hex(|p.records|));
      IssueStepIs(q, p, items.head, id);
      if IssueStep(q, p, items.head, id).Some? {
        IssueAllAccepts(q, IssueStep(q, p, items.head, id).value, items.tail, hex);
      }
    }
  }

  /** The first call is issued, and then the others. */
  lemma {:induction false} IssueFirst(q: Request, p: Progress, items: Items, hex: nat -> string, end: Progress)
      returns (next: Progress)
    requires items.Item? && AllAccepted(q, items) && IssueAll(q, p, items, hex) == Some(end)
    ensures next.records == p.records + [RecordAt(q, items.head, IdOf(hex(|p.records|)))]
    ensures next.commands == p.commands + [CommandAt(q, items.head)]
    ensures AllAccepted(q, items.tail) && IssueAll(q, next, items.tail, hex) == Some(end)
  {
    next := IssueNext(q, p, items, hex, end);
    IssueStepIs(q, p, items.head, IdOf(hex(|p.records|)));
  }

  lemma {:induction false} IssueAllIs(q: Request, p: Progress, items: Items, hex: nat -> string, end: Progress)
    requires AllAccepted(q, items) && IssueAll(q, p, items, hex) == Some(end)
    ensures end.records == p.records + RecordsOf(q, items, hex, |p.records|)
    ensures end.commands == p.commands + CommandsOf(q, items)
    decreases items
  {
    if items.Item? {
      var next := IssueFirst(q, p, items, hex, end);
      IssueAllIs(q, next, items.tail, hex, end);
      Regrouped(p.records, RecordAt(q, items.head, IdOf(hex(|p.records|))),
                RecordsOf(q, items.tail, hex, |next.records|));
      Regrouped(p.commands, CommandAt(q, items.head), CommandsOf(q, items.tail));
    }
  }

  lemma {:induction false} Regrouped<T>(a: seq<T>, x: T, b: seq<T>)
    ensures (a + [x]) + b == a + ([x] + b)
  {
  }

  /** An object of exactly these two entries, the kind and a list of calls. */
  predicate IsCalls(f: Fields, items: Items) {
    Keys(f) == {"kind", "calls"} && Get(f, "kind") == Some(Str("calls")) && Get(f, "calls") == Some(Arr(items))
  }

  /** Calls are released exactly if the frame holds a list of them and nothing else, their number
      is allowed, each names a declared tool (the named one, if one is) with a value for it, no two
      are alike, and the validator accepts each value for its tool's schema or format. */
  lemma {:induction false} CallsAreReleased(q: Request, marker: string, answer: string, hex: nat -> string,
                                            valid: seq<Command> -> bool, f: Fields, items: Items)
    requires Framed(marker, answer) == Some(f) && IsCalls(f, items)
    ensures var n := Count(items);
            Released(q, marker, answer, hex, valid).Some?
            <==> && 1 <= n <= (if q.parallel then 8 else 1) && q.choice != NoTools
                 && |q.turn.calls| + n <= 64 && (q.choice.Forced? ==> n == 1)
                 && AllAccepted(q, items) && NoTwins(items, {}) && valid(CommandsOf(q, items))
    ensures Released(q, marker, answer, hex, valid).Some? ==>
              Released(q, marker, answer, hex, valid) == Some(Calls(RecordsOf(q, items, hex, 0)))
  {
    var start := Progress([], {}, []);
    assert "calls" != "final";
    IssueAllAccepts(q, start, items, hex);
    if IssueAll(q, start, items, hex).Some? {
      IssueAllIs(q, start, items, hex, IssueAll(q, start, items, hex).value);
      assert [] + RecordsOf(q, items, hex, 0) == RecordsOf(q, items, hex, 0);
      assert [] + CommandsOf(q, items) == CommandsOf(q, items);
    }
  }

  /** A final answer is released exactly if the frame holds it and nothing else, it is not blank,
      and no call was demanded; its text is released as it is. */
  lemma {:induction false} FinalIsReleased(q: Request, marker: string, answer: string, hex: nat -> string,
                                           valid: seq<Command> -> bool, text: string)
    ensures Released(q, marker, answer, hex, valid) == Some(Final(text))
       <==> && Framed(marker, answer).Some?
            && var f := Framed(marker, answer).value;
               && Keys(f) == {"kind", "text"}
               && Get(f, "kind") == Some(Str("final")) && Get(f, "text") == Some(Str(text))
               && Strip(text) != "" && q.choice != Required && !q.choice.Forced?
  {
  }

  /** Nothing else is ever released. */
  lemma {:induction false} OnlyFramesAreReleased(q: Request, marker: string, answer: string, hex: nat -> string,
                                                 valid: seq<Command> -> bool)
    requires Released(q, marker, answer, hex, valid).Some? && Released(q, marker, answer, hex, valid).value.Calls?
    ensures Framed(marker, answer).Some?
    ensures var f := Framed(marker, answer).value;
            Get(f, "calls").Some? && Get(f, "calls").value.Arr? && IsCalls(f, Get(f, "calls").value.items)
  {
    var f := Framed(marker, answer).value;
    GetKeys(f, "kind");
    GetKeys(f, "calls");
  }

  // ---------------------------------------------------------------- the frame

  /** Blanks around it aside, an answer must be the marker, a line break and JSON text; it then
      stands for the object that text denotes, and for nothing if it denotes no object. */
  lemma {:induction false} FramedMeans(marker: string, answer: string, text: string, f: Fields)
    requires Strip(answer) == marker + "\n" + text
    ensures Framed(marker, answer) == Some(f) <==> Loads(text) == Some(Obj(f))
  {
    UnframedMeans(marker + "\n", text, f);
  }

  lemma {:induction false} UnframedMeans(prefix: string, text: string, f: Fields)
    ensures Unframed(prefix, prefix + text) == Some(f) <==> Loads(text) == Some(Obj(f))
  {
    assert (prefix + text)[|prefix|..] == text;
  }

  lemma {:induction false} FrameIsNeeded(marker: string, answer: string) returns (text: string)
    requires Framed(marker, answer).Some?
    ensures Strip(answer) == marker + "\n" + text
  {
    var prefix, stripped := marker + "\n", Strip(answer);
    text := stripped[|prefix|..];
    assert stripped == prefix + text;
  }

  predicate AllSpace(s: string) {
    forall i :: 0 <= i < |s| ==> IsSpace(s[i])
  }

  lemma {:induction false} Prefixed(x: char, a: string, b: string, c: string)
    ensures [x] + (a + b + c) == ([x] + a) + b + c
    ensures AllSpace(a) && IsSpace(x) ==> AllSpace([x] + a)
  {
  }

  lemma {:induction false} Suffixed(a: string, b: string, c: string, x: char)
    ensures (a + b + c) + [x] == a + b + (c + [x])
    ensures AllSpace(c) && IsSpace(x) ==> AllSpace(c + [x])
  {
  }

  /** What `strip` takes away is blank. */
  lemma {:induction false} StripMeans(s: string) returns (before: string, after: string)
    ensures s == before + Strip(s) + after && AllSpace(before) && AllSpace(after)
    decreases |s|
  {
    if s != "" && IsSpace(s[0]) {
      var more;
      more, after := StripMeans(s[1..]);
      before := [s[0]] + more;
      Prefixed(s[0], more, Strip(s), after);
      assert s == [s[0]] + s[1..];
    } else if s != "" && IsSpace(s[|s| - 1]) {
      var more;
      before, more := StripMeans(s[..|s| - 1]);
      after := more + [s[|s| - 1]];
      Suffixed(before, Strip(s), more, s[|s| - 1]);
      assert s == s[..|s| - 1] + [s[|s| - 1]];
    } else {
      before, after := "", "";
    }
  }

  /** What it leaves neither starts nor ends with a blank. */
  lemma {:induction false} StripTrims(s: string)
    ensures Strip(s) != "" ==> !IsSpace(Strip(s)[0]) && !IsSpace(Strip(s)[|Strip(s)| - 1])
    decreases |s|
  {
    if s != "" && IsSpace(s[0]) {
      StripTrims(s[1..]);
    } else if s != "" && IsSpace(s[|s| - 1]) {
      StripTrims(s[..|s| - 1]);
    }
  }
}

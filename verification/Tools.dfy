/** Declared client tools: `collect` and `lookup` of prism-adapter/tool_bridge.py.

    Declarations nest, and a name may itself contain dots, so two declarations can claim
    one qualified key. The catalogue is proved to be exactly what was declared: flattening
    the declarations and registering them one by one is the same as collecting them. */
module Tools {
  import opened Prelude
  import opened Json
  import opened Canonical

  const MAX_TOOLS := 96
  const MAX_NAME := 256
  const MAX_CHARS := 32000
  const MAX_DEPTH := 8

  /** The codes of the errors raised. */
  datatype Refusal =
    | InvalidTools | UnsupportedTool | ConflictingTools | TooManyTools | UnknownTool
    | InvalidToolCall | ToolCallTooLarge | InvalidInput | UnsupportedReasoning
    | InvalidToolResult | UnsupportedToolResult | UnsupportedInput | MissingToolResult
    | InvalidToolChoice | UnsupportedToolModel | InvalidToolPayload

  datatype ToolKind = Function | Custom

  /** A catalogue entry; `spec` is the parameter schema or the input format. */
  datatype Tool = Tool(
    namespace: string, name: string, kind: ToolKind, description: string, spec: Json, strict: bool)

  /** What the validator process is asked about: a declaration, or a value for one. */
  datatype Command = Command(kind: ToolKind, spec: Json, value: Option<Json>)

  datatype Catalogue = Catalogue(tools: map<string, Tool>, commands: seq<Command>)

  const Nothing := Catalogue(map[], [])

  /** `dict.get(key)` with its default, None. */
  function At(f: Fields, key: string): Json {
    if Get(f, key).Some? then Get(f, key).value else Null
  }

  function AtOr(f: Fields, key: string, default: Json): Json {
    if Get(f, key).Some? then Get(f, key).value else default
  }

  /** Python's truth of a decoded value. */
  predicate Truthy(v: Json) {
    match v
    case Null => false
    case Bool(b) => b
    case Int(n) => n != 0
    case Float(l) => l != "0.0" && l != "-0.0"
    case Str(s) => s != ""
    case Arr(items) => items.Item?
    case Obj(f) => f.Field?
  }

  // ---------------------------------------------------------------- names

  predicate IsLetter(c: char) {
    'a' <= c <= 'z' || 'A' <= c <= 'Z' || c == '_'
  }

  predicate IsNameChar(c: char) {
    IsLetter(c) || IsDigit(c) || c == '.' || c == '-'
  }

  predicate IsName(s: string) {
    1 <= |s| <= 128 && IsLetter(s[0]) && forall i :: 0 <= i < |s| ==> IsNameChar(s[i])
  }

  function Qualified(namespace: string, name: string): string {
    if namespace == "" then name else namespace + "." + name
  }

  function KeyOf(t: Tool): string {
    Qualified(t.namespace, t.name)
  }

  /** Kinds that run on the provider's side; they are noted, never callable. */
  function Hosted(): set<string> {
    {"web_search", "web_search_preview", "file_search", "code_interpreter", "mcp", "image_generation",
     "computer", "computer_use_preview", "tool_search", "shell", "apply_patch"}
  }

  predicate IsHosted(kind: Json) {
    kind.Str? && kind.s in Hosted()
  }

  /** Python's `==` on two catalogue entries. */
  predicate SameTool(a: Tool, b: Tool) {
    a.(spec := Null) == b.(spec := Null) && Same(a.spec, b.spec)
  }

  // ---------------------------------------------------------------- one declaration

  predicate DirectOnly(f: Fields) {
    && !Truthy(At(f, "defer_loading"))
    && (At(f, "allowed_callers") == Null || At(f, "allowed_callers") == Arr(Item(Str("direct"), NoItems)))
  }

  /** The tool a definition declares, once its name and kind are accepted. */
  function ReadTool(f: Fields, namespace: string, name: string, kind: ToolKind): Result<Tool, Refusal> {
    var description := AtOr(f, "description", Str(""));
    if !description.Str? || |description.s| > MAX_CHARS then Err(InvalidTools)
    else if !DirectOnly(f) then Err(UnsupportedTool)
    else if kind == Function then
      var anything := Obj(Field("type", Str("object"), Field("properties", Obj(NoFields), NoFields)));
      var parameters := AtOr(f, "parameters", anything);
      var strict := AtOr(f, "strict", Bool(false));
      if !parameters.Obj? || !strict.Bool? then Err(InvalidTools)
      else Ok(Tool(namespace, name, kind, description.s, parameters, strict.b))
    else
      var format := AtOr(f, "format", Obj(Field("type", Str("text"), NoFields)));
      if !format.Obj? then Err(InvalidTools) else Ok(Tool(namespace, name, kind, description.s, format, false))
  }

  /** One element of a list of declarations: something hosted, a group, or a tool. */
  datatype Declaration = Elsewhere(kind: string) | Group(qualified: string, members: Json) | Client(tool: Tool)

  function ReadGroup(f: Fields, qualified: string): Result<Declaration, Refusal> {
    if !At(f, "tools").Arr? then Err(InvalidTools) else Ok(Group(qualified, At(f, "tools")))
  }

  function ReadClient(f: Fields, namespace: string, name: string, kind: ToolKind): Result<Declaration, Refusal> {
    var tool :- ReadTool(f, namespace, name, kind);
    Ok(Client(tool))
  }

  function ReadDeclaration(v: Json, namespace: string): Result<Declaration, Refusal> {
    if !v.Obj? then Err(InvalidTools)
    else
      var f := v.fields;
      var kind, name := At(f, "type"), At(f, "name");
      if IsHosted(kind) then
        if namespace != "" then Err(UnsupportedTool) else Ok(Elsewhere(kind.s))
      else if !name.Str? || !IsName(name.s) then Err(InvalidTools)
      else if |Qualified(namespace, name.s)| > MAX_NAME then Err(InvalidTools)
      else if kind == Str("namespace") then ReadGroup(f, Qualified(namespace, name.s))
      else if kind != Str("function") && kind != Str("custom") then Err(UnsupportedTool)
      else ReadClient(f, namespace, name.s, if kind == Str("function") then Function else Custom)
  }

  // ---------------------------------------------------------------- collecting

  function Register(c: Catalogue, t: Tool): Result<Catalogue, Refusal> {
    if KeyOf(t) in c.tools then
      if SameTool(c.tools[KeyOf(t)], t) then Ok(c) else Err(ConflictingTools)
    else if |c.tools| + 1 > MAX_TOOLS then Err(TooManyTools)
    else Ok(c.(tools := c.tools[KeyOf(t) := t], commands := c.commands + [Command(t.kind, t.spec, None)]))
  }

  predicate ShapeOk(value: Json, depth: nat) {
    value.Arr? && Count(value.items) <= MAX_TOOLS && depth <= MAX_DEPTH
  }

  /** `collect(value, namespace, depth)`. */
  function Collect(c: Catalogue, value: Json, namespace: string, depth: nat): Result<Catalogue, Refusal>
    requires depth <= MAX_DEPTH + 1
    decreases MAX_DEPTH + 1 - depth, 2
  {
    if value == Null then Ok(c)
    else if !ShapeOk(value, depth) then Err(InvalidTools)
    else CollectItems(c, value.items, namespace, depth)
  }

  function CollectOne(c: Catalogue, v: Json, namespace: string, depth: nat): Result<Catalogue, Refusal>
    requires depth <= MAX_DEPTH
    decreases MAX_DEPTH + 1 - depth, 0
  {
    var d :- ReadDeclaration(v, namespace);
    match d
    case Elsewhere(_) => Ok(c)
    case Group(qualified, members) => Collect(c, members, qualified, depth + 1)
    case Client(tool) => Register(c, tool)
  }

  function CollectItems(c: Catalogue, items: Items, namespace: string, depth: nat): Result<Catalogue, Refusal>
    requires depth <= MAX_DEPTH
    decreases MAX_DEPTH + 1 - depth, 1, items
  {
    if items.NoItems? then Ok(c)
    else
      var c' :- CollectOne(c, items.head, namespace, depth);
      CollectItems(c', items.tail, namespace, depth)
  }

  function Lookup(c: Catalogue, namespace: Json, name: Json): Result<Tool, Refusal> {
    if !namespace.Str? || !name.Str? then Err(UnknownTool)
    else
      var key := Qualified(namespace.s, name.s);
      if key !in c.tools || c.tools[key].namespace != namespace.s || c.tools[key].name != name.s then Err(UnknownTool)
      else Ok(c.tools[key])
  }

  // ---------------------------------------------------------------- what is declared

  /** The tools written down anywhere below, in order, or nothing if some declaration is ill-formed. */
  function Declared(value: Json, namespace: string, depth: nat): Option<seq<Tool>>
    requires depth <= MAX_DEPTH + 1
    decreases MAX_DEPTH + 1 - depth, 2
  {
    if value == Null then Some([])
    else if !ShapeOk(value, depth) then None
    else DeclaredIn(value.items, namespace, depth)
  }

  function DeclaredBy(v: Json, namespace: string, depth: nat): Option<seq<Tool>>
    requires depth <= MAX_DEPTH
    decreases MAX_DEPTH + 1 - depth, 0
  {
    match ReadDeclaration(v, namespace)
    case Err(_) => None
    case Ok(Elsewhere(_)) => Some([])
    case Ok(Group(qualified, members)) => Declared(members, qualified, depth + 1)
    case Ok(Client(tool)) => Some([tool])
  }

  function DeclaredIn(items: Items, namespace: string, depth: nat): Option<seq<Tool>>
    requires depth <= MAX_DEPTH
    decreases MAX_DEPTH + 1 - depth, 1, items
  {
    if items.NoItems? then Some([])
    else
      var first :- DeclaredBy(items.head, namespace, depth);
      var more :- DeclaredIn(items.tail, namespace, depth);
      Some(first + more)
  }

  function RegisterAll(c: Catalogue, tools: seq<Tool>): Result<Catalogue, Refusal>
    decreases |tools|
  {
    if tools == [] then Ok(c)
    else
      var c' :- Register(c, tools[0]);
      RegisterAll(c', tools[1..])
  }

  // ---------------------------------------------------------------- collecting is registering

  lemma {:induction false} RegisterInTurn(c: Catalogue, a: seq<Tool>, b: seq<Tool>)
    ensures RegisterAll(c, a + b) == match RegisterAll(c, a) case Err(e) => Err(e) case Ok(c') => RegisterAll(c', b)
    decreases |a|
  {
    if a == [] {
      assert a + b == b;
    } else {
      assert (a + b)[0] == a[0] && (a + b)[1..] == a[1..] + b;
      if Register(c, a[0]).Ok? {
        RegisterInTurn(Register(c, a[0]).value, a[1..], b);
      }
    }
  }

  /** Reading nested declarations is flattening them and registering the tools one by one;
      one ill-formed declaration at any depth refuses them all. */
  lemma {:induction false} CollectIsRegister(c: Catalogue, value: Json, namespace: string, depth: nat)
    requires depth <= MAX_DEPTH + 1
    ensures match Declared(value, namespace, depth)
            case None => Collect(c, value, namespace, depth).Err?
            case Some(tools) => Agree(Collect(c, value, namespace, depth), RegisterAll(c, tools))
    decreases MAX_DEPTH + 1 - depth, 2
  {
    if value != Null && ShapeOk(value, depth) {
      ItemsAreRegistered(c, value.items, namespace, depth);
    }
  }

  /** Both succeed with one result, or both fail. */
  predicate Agree(a: Result<Catalogue, Refusal>, b: Result<Catalogue, Refusal>) {
    (a.Ok? <==> b.Ok?) && (a.Ok? ==> a == b)
  }

  lemma {:induction false} OneIsRegistered(c: Catalogue, v: Json, namespace: string, depth: nat)
    requires depth <= MAX_DEPTH
    ensures match DeclaredBy(v, namespace, depth)
            case None => CollectOne(c, v, namespace, depth).Err?
            case Some(tools) => Agree(CollectOne(c, v, namespace, depth), RegisterAll(c, tools))
    decreases MAX_DEPTH + 1 - depth, 0
  {
    match ReadDeclaration(v, namespace)
    case Ok(Group(qualified, members)) => CollectIsRegister(c, members, qualified, depth + 1);
    case Ok(Client(tool)) =>
      assert [tool][1..] == [];
    case _ =>
  }

  lemma {:induction false} ItemsAreRegistered(c: Catalogue, items: Items, namespace: string, depth: nat)
    requires depth <= MAX_DEPTH
    ensures match DeclaredIn(items, namespace, depth)
            case None => CollectItems(c, items, namespace, depth).Err?
            case Some(tools) => Agree(CollectItems(c, items, namespace, depth), RegisterAll(c, tools))
    decreases MAX_DEPTH + 1 - depth, 1, items
  {
    if items.Item? {
      OneIsRegistered(c, items.head, namespace, depth);
      var next := CollectOne(c, items.head, namespace, depth);
      if next.Ok? {
        ItemsAreRegistered(next.value, items.tail, namespace, depth);
      }
      if DeclaredIn(items, namespace, depth).Some? {
        var first := DeclaredBy(items.head, namespace, depth).value;
        var more := DeclaredIn(items.tail, namespace, depth).value;
        RegisterInTurn(c, first, more);
      }
    }
  }

  // ---------------------------------------------------------------- what registering gives

  /** A tool with its specification in canonical form: equal exactly for equal declarations. */
  function Normal(t: Tool): Tool {
    t.(spec := Canon(t.spec))
  }

  lemma {:induction false} SameToolIsNormal(a: Tool, b: Tool)
    requires Strict(a.spec) && Strict(b.spec)
    ensures SameTool(a, b) <==> Normal(a) == Normal(b)
  {
    if Same(a.spec, b.spec) {
      SameIsCanon(a.spec, b.spec);
    }
    if Canon(a.spec) == Canon(b.spec) {
      CanonIsSame(a.spec, b.spec);
    }
  }

  predicate ToolOk(t: Tool) {
    IsName(t.name) && Strict(t.spec) && |KeyOf(t)| <= MAX_NAME
  }

  predicate EntryOk(key: string, t: Tool) {
    ToolOk(t) && key == KeyOf(t)
  }

  /** Every entry is filed under its own qualified name, and each was sent to the validator. */
  predicate CatalogueOk(c: Catalogue) {
    && (forall key :: key in c.tools ==> EntryOk(key, c.tools[key]))
    && |c.tools| == |c.commands| <= MAX_TOOLS
  }

  predicate AllOk(tools: seq<Tool>) {
    forall i :: 0 <= i < |tools| ==> ToolOk(tools[i])
  }

  function KeysOf(tools: seq<Tool>): set<string> {
    set i | 0 <= i < |tools| :: KeyOf(tools[i])
  }

  /** No two declarations claim one key with different contents. */
  predicate NoConflict(c: Catalogue, tools: seq<Tool>) {
    && (forall i :: 0 <= i < |tools| && KeyOf(tools[i]) in c.tools ==>
        Normal(c.tools[KeyOf(tools[i])]) == Normal(tools[i]))
    && (forall i, j :: 0 <= i < j < |tools| && KeyOf(tools[i]) == KeyOf(tools[j]) ==>
        Normal(tools[i]) == Normal(tools[j]))
  }

  /** `after` holds what `before` held, and under every new key a declaration of `tools`. */
  predicate Extends(before: map<string, Tool>, tools: seq<Tool>, keys: set<string>, after: map<string, Tool>) {
    && after.Keys == before.Keys + keys
    && (forall key :: key in before ==> key in after && after[key] == before[key])
    && (forall key :: key in after && key !in before ==> after[key] in tools)
  }

  /** Registering adds at most the one entry. */
  lemma {:induction false} RegisterShape(c: Catalogue, t: Tool)
    requires Register(c, t).Ok?
    ensures var after := Register(c, t).value;
            && after.tools == (if KeyOf(t) in c.tools then c.tools else c.tools[KeyOf(t) := t])
            && |after.commands| == |c.commands| + if KeyOf(t) in c.tools then 0 else 1
  {
  }

  lemma {:induction false} RegisterAccepts(c: Catalogue, t: Tool, key: string)
    requires CatalogueOk(c) && ToolOk(t) && KeyOf(t) == key
    ensures Register(c, t).Ok?
       <==> (key in c.tools ==> Normal(c.tools[key]) == Normal(t)) && |c.tools.Keys + {key}| <= MAX_TOOLS
  {
    assert |c.tools.Keys| == |c.tools|;
    if key in c.tools {
      assert EntryOk(key, c.tools[key]);
      SameToolIsNormal(c.tools[key], t);
      assert c.tools.Keys + {key} == c.tools.Keys;
    } else {
      assert |c.tools.Keys + {key}| == |c.tools| + 1;
    }
  }

  lemma {:induction false} RegisterKeepsOk(c: Catalogue, t: Tool, key: string)
    requires CatalogueOk(c) && EntryOk(key, t) && Register(c, t).Ok?
    ensures CatalogueOk(Register(c, t).value)
  {
    RegisterShape(c, t);
    if key !in c.tools {
      var after := Register(c, t).value;
      assert after.tools.Keys == c.tools.Keys + {key};
      assert |after.tools| == |after.tools.Keys| && |c.tools| == |c.tools.Keys|;
    }
  }

  lemma {:induction false} KeysOfFirst(tools: seq<Tool>)
    requires tools != []
    ensures KeysOf(tools) == {KeyOf(tools[0])} + KeysOf(tools[1..])
  {
    var rest := tools[1..];
    forall key | key in KeysOf(tools)
      ensures key in {KeyOf(tools[0])} + KeysOf(rest)
    {
      var i :| 0 <= i < |tools| && KeyOf(tools[i]) == key;
      if i > 0 {
        assert rest[i - 1] == tools[i];
      }
    }
    forall key | key in KeysOf(rest)
      ensures key in KeysOf(tools)
    {
      var i :| 0 <= i < |rest| && KeyOf(rest[i]) == key;
      assert tools[i + 1] == rest[i];
    }
  }

  /** Whether the rest conflicts can be asked after the first is in. */
  lemma {:induction false} ConflictStep(c: Catalogue, tools: seq<Tool>, c1: Catalogue)
    requires tools != [] && Register(c, tools[0]) == Ok(c1)
    requires var key := KeyOf(tools[0]); key in c.tools ==> Normal(c.tools[key]) == Normal(tools[0])
    ensures NoConflict(c, tools) <==> NoConflict(c1, tools[1..])
  {
    var key, rest := KeyOf(tools[0]), tools[1..];
    assert Normal(c1.tools[key]) == Normal(tools[0]);
    assert forall k :: k in c1.tools && k != key ==> k in c.tools && c1.tools[k] == c.tools[k];
    assert forall i :: 0 <= i < |rest| ==> rest[i] == tools[i + 1];
    if NoConflict(c1, rest) {
      forall i | 0 <= i < |tools| && KeyOf(tools[i]) in c.tools
        ensures Normal(c.tools[KeyOf(tools[i])]) == Normal(tools[i])
      {
        if i > 0 {
          assert KeyOf(rest[i - 1]) in c1.tools;
        }
      }
      forall i, j | 0 <= i < j < |tools| && KeyOf(tools[i]) == KeyOf(tools[j])
        ensures Normal(tools[i]) == Normal(tools[j])
      {
        assert KeyOf(rest[j - 1]) == KeyOf(tools[j]);
        if i > 0 {
          assert rest[i - 1] == tools[i];
        }
      }
    }
    if NoConflict(c, tools) {
      forall i | 0 <= i < |rest| && KeyOf(rest[i]) in c1.tools
        ensures Normal(c1.tools[KeyOf(rest[i])]) == Normal(rest[i])
      {
        assert tools[i + 1] == rest[i];
        if KeyOf(rest[i]) == key {
          assert KeyOf(tools[0]) == KeyOf(tools[i + 1]);
        }
      }
      forall i, j | 0 <= i < j < |rest| && KeyOf(rest[i]) == KeyOf(rest[j])
        ensures Normal(rest[i]) == Normal(rest[j])
      {
        assert tools[i + 1] == rest[i] && tools[j + 1] == rest[j];
      }
    }
  }

  lemma {:induction false} ExtendStep(before: map<string, Tool>, key: string, tools: seq<Tool>, keys: set<string>,
                                      one: map<string, Tool>, after: map<string, Tool>)
    requires tools != [] && one == (if key in before then before else before[key := tools[0]])
    requires Extends(one, tools[1..], keys, after)
    ensures Extends(before, tools, {key} + keys, after)
  {
    forall k | k in after && k !in before
      ensures after[k] in tools
    {
      if k in one {
        assert after[k] == tools[0];
      } else {
        assert after[k] in tools[1..];
      }
    }
  }

  lemma {:induction false} RegisterAllExtends(c: Catalogue, tools: seq<Tool>)
    requires CatalogueOk(c) && AllOk(tools) && RegisterAll(c, tools).Ok?
    ensures CatalogueOk(RegisterAll(c, tools).value)
    ensures Extends(c.tools, tools, KeysOf(tools), RegisterAll(c, tools).value.tools)
    decreases |tools|
  {
    if tools != [] {
      var key, c1 := KeyOf(tools[0]), Register(c, tools[0]).value;
      KeysOfFirst(tools);
      RegisterShape(c, tools[0]);
      RegisterKeepsOk(c, tools[0], key);
      RegisterAllExtends(c1, tools[1..]);
      ExtendStep(c.tools, key, tools, KeysOf(tools[1..]), c1.tools, RegisterAll(c, tools).value.tools);
    }
  }

  /** No two of the tools, and none of them and an earlier one, disagree under one key,
      and at most 96 keys result. */
  predicate Acceptable(c: Catalogue, tools: seq<Tool>) {
    NoConflict(c, tools) && |c.tools.Keys + KeysOf(tools)| <= MAX_TOOLS
  }

  lemma {:induction false} KeysStep(c: Catalogue, tools: seq<Tool>, c1: Catalogue)
    requires tools != [] && Register(c, tools[0]) == Ok(c1)
    ensures c.tools.Keys + KeysOf(tools) == c1.tools.Keys + KeysOf(tools[1..])
  {
    RegisterShape(c, tools[0]);
    KeysOfFirst(tools);
  }

  lemma {:induction false} AcceptStep(c: Catalogue, tools: seq<Tool>, c1: Catalogue)
    requires CatalogueOk(c) && tools != [] && ToolOk(tools[0]) && Register(c, tools[0]) == Ok(c1)
    ensures Acceptable(c, tools) <==> Acceptable(c1, tools[1..])
  {
    RegisterAccepts(c, tools[0], KeyOf(tools[0]));
    ConflictStep(c, tools, c1);
    KeysStep(c, tools, c1);
  }

  lemma {:induction false} RefuseStep(c: Catalogue, tools: seq<Tool>, key: string)
    requires CatalogueOk(c) && tools != [] && ToolOk(tools[0]) && KeyOf(tools[0]) == key && Register(c, tools[0]).Err?
    ensures !Acceptable(c, tools)
  {
    RegisterAccepts(c, tools[0], key);
    KeysOfFirst(tools);
    SubsetSize(c.tools.Keys + {key}, c.tools.Keys + KeysOf(tools));
  }

  lemma {:induction false} RegisterAllAccepts(c: Catalogue, tools: seq<Tool>)
    requires CatalogueOk(c) && AllOk(tools)
    ensures RegisterAll(c, tools).Ok? <==> Acceptable(c, tools)
    decreases |tools|
  {
    if tools == [] {
      assert c.tools.Keys + KeysOf(tools) == c.tools.Keys;
      assert |c.tools.Keys| == |c.tools|;
    } else if Register(c, tools[0]).Err? {
      RefuseStep(c, tools, KeyOf(tools[0]));
    } else {
      var c1 := Register(c, tools[0]).value;
      RegisterKeepsOk(c, tools[0], KeyOf(tools[0]));
      RegisterAllAccepts(c1, tools[1..]);
      AcceptStep(c, tools, c1);
    }
  }

  // ---------------------------------------------------------------- every declared tool is well-formed

  lemma {:induction false} AtIsStrict(f: Fields, key: string, default: Json)
    requires StrictFields(f) && Strict(default)
    ensures Strict(AtOr(f, key, default)) && Strict(At(f, key))
  {
    if Get(f, key).Some? {
      StrictGet(f, key);
    }
  }

  lemma {:induction false} ReadToolOk(f: Fields, namespace: string, name: string, kind: ToolKind)
    requires StrictFields(f) && IsName(name) && |Qualified(namespace, name)| <= MAX_NAME
    ensures ReadTool(f, namespace, name, kind).Ok? ==> ToolOk(ReadTool(f, namespace, name, kind).value)
  {
    var plain := Field("properties", Obj(NoFields), NoFields);
    assert "type" != "properties" && Keys(plain) == {"properties"} && StrictFields(plain);
    AtIsStrict(f, "parameters", Obj(Field("type", Str("object"), plain)));
    AtIsStrict(f, "format", Obj(Field("type", Str("text"), NoFields)));
  }

  lemma {:induction false} DeclaredOk(value: Json, namespace: string, depth: nat)
    requires Strict(value) && depth <= MAX_DEPTH + 1
    ensures Declared(value, namespace, depth).Some? ==> AllOk(Declared(value, namespace, depth).value)
    decreases MAX_DEPTH + 1 - depth, 2
  {
    if value != Null && ShapeOk(value, depth) {
      DeclaredInOk(value.items, namespace, depth);
    }
  }

  predicate DeclarationOk(d: Result<Declaration, Refusal>) {
    match d
    case Ok(Group(_, members)) => Strict(members)
    case Ok(Client(tool)) => ToolOk(tool)
    case _ => true
  }

  lemma {:induction false} ReadGroupOk(f: Fields, qualified: string)
    requires StrictFields(f)
    ensures DeclarationOk(ReadGroup(f, qualified))
  {
    AtIsStrict(f, "tools", Null);
  }

  lemma {:induction false} ReadClientOk(f: Fields, namespace: string, name: string, kind: ToolKind)
    requires StrictFields(f) && IsName(name) && |Qualified(namespace, name)| <= MAX_NAME
    ensures DeclarationOk(ReadClient(f, namespace, name, kind))
  {
    ReadToolOk(f, namespace, name, kind);
  }

  lemma {:induction false} ReadDeclarationOk(v: Json, namespace: string)
    requires Strict(v)
    ensures DeclarationOk(ReadDeclaration(v, namespace))
  {
    if v.Obj? && At(v.fields, "name").Str? {
      var f, name := v.fields, At(v.fields, "name").s;
      ReadGroupOk(f, Qualified(namespace, name));
      if IsName(name) && |Qualified(namespace, name)| <= MAX_NAME {
        ReadClientOk(f, namespace, name, Function);
        ReadClientOk(f, namespace, name, Custom);
      }
    }
  }

  lemma {:induction false} DeclaredByOk(v: Json, namespace: string, depth: nat)
    requires Strict(v) && depth <= MAX_DEPTH
    ensures DeclaredBy(v, namespace, depth).Some? ==> AllOk(DeclaredBy(v, namespace, depth).value)
    decreases MAX_DEPTH + 1 - depth, 0
  {
    ReadDeclarationOk(v, namespace);
    match ReadDeclaration(v, namespace)
    case Ok(Group(qualified, members)) => DeclaredOk(members, qualified, depth + 1);
    case _ =>
  }

  lemma {:induction false} DeclaredInOk(items: Items, namespace: string, depth: nat)
    requires StrictItems(items) && depth <= MAX_DEPTH
    ensures DeclaredIn(items, namespace, depth).Some? ==> AllOk(DeclaredIn(items, namespace, depth).value)
    decreases MAX_DEPTH + 1 - depth, 1, items
  {
    if items.Item? {
      DeclaredByOk(items.head, namespace, depth);
      DeclaredInOk(items.tail, namespace, depth);
    }
  }

  // ---------------------------------------------------------------- what a definition says

  /** The description given, at most 32000 characters; none is an empty one. */
  predicate Describes(f: Fields, d: string) {
    (Get(f, "description") == None && d == "") || (Get(f, "description") == Some(Str(d)) && |d| <= 32000)
  }

  /** Neither deferred nor callable by anyone but the client. */
  predicate IsDirect(f: Fields) {
    && (Get(f, "defer_loading").Some? ==> !Truthy(Get(f, "defer_loading").value))
    && (Get(f, "allowed_callers").Some? ==>
          || Get(f, "allowed_callers").value == Null
          || Get(f, "allowed_callers").value == Arr(Item(Str("direct"), NoItems)))
  }

  /** The schema that admits any object. */
  const AnyObject := Obj(Field("type", Str("object"), Field("properties", Obj(NoFields), NoFields)))

  /** The format that admits any text. */
  const AnyText := Obj(Field("type", Str("text"), NoFields))

  /** The parameter schema given, or the one that admits any object. */
  predicate Parametrises(f: Fields, spec: Json) {
    (Get(f, "parameters") == None && spec == AnyObject) || (Get(f, "parameters") == Some(spec) && spec.Obj?)
  }

  predicate SaysStrict(f: Fields, strict: bool) {
    (Get(f, "strict") == None && !strict) || Get(f, "strict") == Some(Bool(strict))
  }

  predicate Formats(f: Fields, spec: Json) {
    (Get(f, "format") == None && spec == AnyText) || (Get(f, "format") == Some(spec) && spec.Obj?)
  }

  /** The definition declares exactly this tool. */
  predicate Declares(f: Fields, t: Tool) {
    && Get(f, "name") == Some(Str(t.name))
    && Get(f, "type") == Some(Str(if t.kind == Function then "function" else "custom"))
    && IsName(t.name) && |KeyOf(t)| <= 256
    && Describes(f, t.description) && IsDirect(f)
    && (t.kind == Function ==> Parametrises(f, t.spec) && SaysStrict(f, t.strict))
    && (t.kind == Custom ==> Formats(f, t.spec) && !t.strict)
  }

  lemma {:induction false} ToolIsRead(f: Fields, namespace: string, name: string, kind: ToolKind, t: Tool)
    ensures ReadTool(f, namespace, name, kind) == Ok(t)
       <==> && t.namespace == namespace && t.name == name && t.kind == kind
            && Describes(f, t.description) && IsDirect(f)
            && (kind == Function ==> Parametrises(f, t.spec) && SaysStrict(f, t.strict))
            && (kind == Custom ==> Formats(f, t.spec) && !t.strict)
  {
  }

  lemma {:induction false} KindsDiffer()
    ensures "function" !in Hosted() && "custom" !in Hosted() && "namespace" !in Hosted()
    ensures "function" != "namespace" && "custom" != "namespace" && "function" != "custom"
  {
    assert "custom"[0] != "mcp"[0];
    assert "function"[0] != "computer"[0];
    assert "namespace"[0] != "web_search"[0];
  }

  /** A definition is a client tool exactly if it declares one: its name, kind, description,
      schema or format and strict flag are the ones written, or their defaults, and it is
      neither deferred nor for other callers. */
  lemma {:induction false} ClientIsDeclared(v: Json, namespace: string, t: Tool)
    ensures ReadDeclaration(v, namespace) == Ok(Client(t))
       <==> v.Obj? && t.namespace == namespace && Declares(v.fields, t)
  {
    KindsDiffer();
    if v.Obj? && At(v.fields, "name").Str? {
      ToolIsRead(v.fields, namespace, At(v.fields, "name").s, Function, t);
      ToolIsRead(v.fields, namespace, At(v.fields, "name").s, Custom, t);
    }
  }

  /** It is a group exactly if it is a namespace with a valid name and a list of tools. */
  lemma {:induction false} GroupIsDeclared(v: Json, namespace: string, qualified: string, members: Json)
    ensures ReadDeclaration(v, namespace) == Ok(Group(qualified, members))
       <==> && v.Obj? && Get(v.fields, "type") == Some(Str("namespace")) && members.Arr?
            && Get(v.fields, "tools") == Some(members)
            && Get(v.fields, "name").Some? && Get(v.fields, "name").value.Str?
            && IsName(Get(v.fields, "name").value.s) && |qualified| <= 256
            && qualified == Qualified(namespace, Get(v.fields, "name").value.s)
  {
    KindsDiffer();
  }

  /** It is left to the provider exactly if its kind is a hosted one, outside any namespace. */
  lemma {:induction false} HostedIsDeclared(v: Json, namespace: string, kind: string)
    ensures ReadDeclaration(v, namespace) == Ok(Elsewhere(kind))
       <==> v.Obj? && namespace == "" && kind in Hosted() && Get(v.fields, "type") == Some(Str(kind))
  {
  }

  /** A namespace with a valid name and this list of tools. */
  predicate IsGroup(f: Fields, namespace: string, name: string, members: Items) {
    && Get(f, "type") == Some(Str("namespace")) && Get(f, "tools") == Some(Arr(members))
    && Get(f, "name") == Some(Str(name)) && IsName(name) && |Qualified(namespace, name)| <= 256
  }

  function NameIn(f: Fields): string {
    if Get(f, "name").Some? && Get(f, "name").value.Str? then Get(f, "name").value.s else ""
  }

  function MembersIn(f: Fields): Items {
    if Get(f, "tools").Some? && Get(f, "tools").value.Arr? then Get(f, "tools").value.items else NoItems
  }

  /** The tool is declared by the value itself, or by a member of the namespace it is. */
  predicate WrittenAt(v: Json, namespace: string, depth: nat, t: Tool)
    requires depth <= 8
    decreases 9 - depth, 0
  {
    && v.Obj?
    && ((t.namespace == namespace && Declares(v.fields, t))
        || (IsGroup(v.fields, namespace, NameIn(v.fields), MembersIn(v.fields)) && depth < 8
            && WrittenIn(MembersIn(v.fields), Qualified(namespace, NameIn(v.fields)), depth + 1, t)))
  }

  predicate WrittenIn(items: Items, namespace: string, depth: nat, t: Tool)
    requires depth <= 8
    decreases 9 - depth, 1, items
  {
    items.Item? && (WrittenAt(items.head, namespace, depth, t) || WrittenIn(items.tail, namespace, depth, t))
  }

  /** Something hosted, at the top; a namespace of at most 96 well-formed members, at most eight
      levels deep; or a definition that declares some tool. */
  ghost predicate WellFormedAt(v: Json, namespace: string, depth: nat)
    requires depth <= 8
    decreases 9 - depth, 0
  {
    && v.Obj?
    && ((namespace == "" && Get(v.fields, "type").Some? && Get(v.fields, "type").value.Str?
         && Get(v.fields, "type").value.s in Hosted())
        || (IsGroup(v.fields, namespace, NameIn(v.fields), MembersIn(v.fields)) && depth < 8
            && Count(MembersIn(v.fields)) <= 96
            && WellFormedIn(MembersIn(v.fields), Qualified(namespace, NameIn(v.fields)), depth + 1))
        || (exists t: Tool :: t.namespace == namespace && Declares(v.fields, t)))
  }

  ghost predicate WellFormedIn(items: Items, namespace: string, depth: nat)
    requires depth <= 8
    decreases 9 - depth, 1, items
  {
    items.Item? ==> WellFormedAt(items.head, namespace, depth) && WellFormedIn(items.tail, namespace, depth)
  }

  /** What is read from one declaration, in those terms. */
  lemma {:induction false} ReadIsWritten(v: Json, namespace: string)
    ensures match ReadDeclaration(v, namespace)
            case Ok(Client(tool)) => v.Obj? && tool.namespace == namespace && Declares(v.fields, tool)
            case Ok(Group(qualified, members)) =>
              && v.Obj? && members == Arr(MembersIn(v.fields)) && qualified == Qualified(namespace, NameIn(v.fields))
              && IsGroup(v.fields, namespace, NameIn(v.fields), MembersIn(v.fields))
            case Ok(Elsewhere(kind)) =>
              v.Obj? && namespace == "" && kind in Hosted() && Get(v.fields, "type") == Some(Str(kind))
            case Err(_) => true
  {
    var d := ReadDeclaration(v, namespace);
    if d.Ok? {
      match d.value
      case Client(tool) => ClientIsDeclared(v, namespace, tool);
      case Group(qualified, members) => GroupIsDeclared(v, namespace, qualified, members);
      case Elsewhere(kind) => HostedIsDeclared(v, namespace, kind);
    }
  }

  /** The three ways to be read exclude each other. */
  lemma {:induction false} OneWay(f: Fields, namespace: string, t: Tool)
    requires Declares(f, t)
    ensures !IsGroup(f, namespace, NameIn(f), MembersIn(f))
    ensures !(Get(f, "type").value.s in Hosted())
  {
    KindsDiffer();
  }

  lemma {:induction false} DeclaredByIsWritten(v: Json, namespace: string, depth: nat, t: Tool)
    requires depth <= 8 && DeclaredBy(v, namespace, depth).Some?
    ensures t in DeclaredBy(v, namespace, depth).value <==> WrittenAt(v, namespace, depth, t)
    decreases 9 - depth, 0
  {
    ReadIsWritten(v, namespace);
    ClientIsDeclared(v, namespace, t);
    match ReadDeclaration(v, namespace)
    case Ok(Group(qualified, members)) =>
      if depth < 8 {
        DeclaredInIsWritten(members.items, qualified, depth + 1, t);
      }
    case Ok(Client(tool)) => OneWay(v.fields, namespace, tool);
    case Ok(Elsewhere(kind)) =>
      KindsDiffer();
  }

  /** What collecting declares is what is written, at any depth. */
  lemma {:induction false} DeclaredInIsWritten(items: Items, namespace: string, depth: nat, t: Tool)
    requires depth <= 8 && DeclaredIn(items, namespace, depth).Some?
    ensures t in DeclaredIn(items, namespace, depth).value <==> WrittenIn(items, namespace, depth, t)
    decreases 9 - depth, 1, items
  {
    if items.Item? {
      DeclaredByIsWritten(items.head, namespace, depth, t);
      DeclaredInIsWritten(items.tail, namespace, depth, t);
    }
  }

  lemma {:induction false} DeclaredByIsWellFormed(v: Json, namespace: string, depth: nat)
    requires depth <= 8
    ensures DeclaredBy(v, namespace, depth).Some? <==> WellFormedAt(v, namespace, depth)
    decreases 9 - depth, 0
  {
    ReadIsWritten(v, namespace);
    if v.Obj? {
      var f := v.fields;
      GroupIsDeclared(v, namespace, Qualified(namespace, NameIn(f)), Arr(MembersIn(f)));
      var kind := Get(f, "type");
      HostedIsDeclared(v, namespace, if kind.Some? && kind.value.Str? then kind.value.s else "");
      if exists t: Tool :: t.namespace == namespace && Declares(f, t) {
        var t: Tool :| t.namespace == namespace && Declares(f, t);
        ClientIsDeclared(v, namespace, t);
      }
      if depth < 8 && IsGroup(f, namespace, NameIn(f), MembersIn(f)) {
        DeclaredInIsWellFormed(MembersIn(f), Qualified(namespace, NameIn(f)), depth + 1);
      }
    }
  }

  /** A list is accepted, conflicts and number apart, exactly if it is well-formed at every depth. */
  lemma {:induction false} DeclaredInIsWellFormed(items: Items, namespace: string, depth: nat)
    requires depth <= 8
    ensures DeclaredIn(items, namespace, depth).Some? <==> WellFormedIn(items, namespace, depth)
    decreases 9 - depth, 1, items
  {
    if items.Item? {
      DeclaredByIsWellFormed(items.head, namespace, depth);
      DeclaredInIsWellFormed(items.tail, namespace, depth);
    }
  }

  // ---------------------------------------------------------------- what the validator is asked

  /** The schema or format of every tool was put to the validator as it is. */
  predicate IsChecked(c: Catalogue, key: string) {
    key in c.tools ==> Command(c.tools[key].kind, c.tools[key].spec, None) in c.commands
  }

  ghost predicate AllChecked(c: Catalogue) {
    forall key {:trigger IsChecked(c, key)} :: IsChecked(c, key)
  }

  lemma {:induction false} RegisterChecks(c: Catalogue, t: Tool)
    requires AllChecked(c) && Register(c, t).Ok?
    ensures AllChecked(Register(c, t).value)
  {
    var after := Register(c, t).value;
    forall key {:trigger IsChecked(after, key)}
      ensures IsChecked(after, key)
    {
      assert IsChecked(c, key);
    }
  }

  lemma {:induction false} RegisterAllChecks(c: Catalogue, tools: seq<Tool>)
    requires AllChecked(c) && RegisterAll(c, tools).Ok?
    ensures AllChecked(RegisterAll(c, tools).value)
    decreases |tools|
  {
    if tools != [] {
      RegisterChecks(c, tools[0]);
      RegisterAllChecks(Register(c, tools[0]).value, tools[1..]);
    }
  }

  /** Collecting puts the schema or format of every new tool to the validator. */
  lemma {:induction false} CollectedIsChecked(c: Catalogue, value: Json, namespace: string, depth: nat)
    requires AllChecked(c) && depth <= MAX_DEPTH + 1 && Collect(c, value, namespace, depth).Ok?
    ensures AllChecked(Collect(c, value, namespace, depth).value)
  {
    CollectIsRegister(c, value, namespace, depth);
    RegisterAllChecks(c, Declared(value, namespace, depth).value);
  }

  // ---------------------------------------------------------------- main results

  /** Collection succeeds exactly when every declaration is well-formed, no two conflict
      and at most 96 tools result; and then the catalogue is what was declared. */
  lemma {:induction false} CollectedIsDeclared(c: Catalogue, value: Json, namespace: string, depth: nat)
    requires CatalogueOk(c) && Strict(value) && depth <= MAX_DEPTH + 1
    ensures var declared, r := Declared(value, namespace, depth), Collect(c, value, namespace, depth);
            && (r.Ok? <==> declared.Some? && Acceptable(c, declared.value))
            && (r.Ok? ==>
                  CatalogueOk(r.value) && Extends(c.tools, declared.value, KeysOf(declared.value), r.value.tools))
  {
    CollectIsRegister(c, value, namespace, depth);
    DeclaredOk(value, namespace, depth);
    if Declared(value, namespace, depth).Some? {
      RegisterAllAccepts(c, Declared(value, namespace, depth).value);
      if RegisterAll(c, Declared(value, namespace, depth).value).Ok? {
        RegisterAllExtends(c, Declared(value, namespace, depth).value);
      }
    }
  }

  /** Qualified keys and (namespace, name) pairs correspond one to one, dots in names notwithstanding. */
  lemma {:induction false} OneKeyPerTool(c: Catalogue, a: string, b: string)
    requires CatalogueOk(c) && a in c.tools && b in c.tools
    ensures a == b <==> c.tools[a].namespace == c.tools[b].namespace && c.tools[a].name == c.tools[b].name
  {
    assert EntryOk(a, c.tools[a]) && EntryOk(b, c.tools[b]);
  }

  /** `lookup` finds a tool exactly when it is in the catalogue under that namespace and name. */
  lemma {:induction false} LookupIsExact(c: Catalogue, namespace: string, name: string, t: Tool)
    requires CatalogueOk(c)
    ensures Lookup(c, Str(namespace), Str(name)) == Ok(t)
       <==> t in c.tools.Values && t.namespace == namespace && t.name == name
  {
    if t in c.tools.Values {
      var key :| key in c.tools && c.tools[key] == t;
      assert EntryOk(key, t);
    }
  }

  lemma {:induction false} FirstStands(c: Catalogue, tools: seq<Tool>, after: map<string, Tool>, i: nat, key: string)
    requires i < |tools| && NoConflict(c, tools) && Extends(c.tools, tools, KeysOf(tools), after)
    requires key == KeyOf(tools[i])
    requires forall k :: k in after ==> EntryOk(k, after[k])
    ensures key in after && Normal(after[key]) == Normal(tools[i])
  {
    assert key in KeysOf(tools);
    if key !in c.tools {
      var j :| 0 <= j < |tools| && tools[j] == after[key];
      assert EntryOk(key, after[key]);
      if j < i {
        assert KeyOf(tools[j]) == KeyOf(tools[i]);
      } else if i < j {
        assert KeyOf(tools[i]) == KeyOf(tools[j]);
      }
    }
  }

  /** Each declared tool is found under its own name, with equal contents. */
  lemma {:induction false} DeclaredIsFound(c: Catalogue, value: Json, namespace: string, depth: nat, i: nat)
    requires CatalogueOk(c) && Strict(value) && depth <= MAX_DEPTH + 1
    requires Collect(c, value, namespace, depth).Ok?
    requires Declared(value, namespace, depth).Some? && i < |Declared(value, namespace, depth).value|
    ensures var t := Declared(value, namespace, depth).value[i];
            var found := Lookup(Collect(c, value, namespace, depth).value, Str(t.namespace), Str(t.name));
            found.Ok? && SameTool(found.value, t)
  {
    var tools, after := Declared(value, namespace, depth).value, Collect(c, value, namespace, depth).value;
    CollectedIsDeclared(c, value, namespace, depth);
    DeclaredOk(value, namespace, depth);
    FirstStands(c, tools, after.tools, i, KeyOf(tools[i]));
    FoundByName(after, tools[i], KeyOf(tools[i]));
  }

  lemma {:induction false} FoundByName(c: Catalogue, t: Tool, key: string)
    requires CatalogueOk(c) && ToolOk(t) && key == KeyOf(t) && key in c.tools && Normal(c.tools[key]) == Normal(t)
    ensures Lookup(c, Str(t.namespace), Str(t.name)) == Ok(c.tools[key]) && SameTool(c.tools[key], t)
  {
    var found := c.tools[key];
    assert EntryOk(key, found);
    assert Normal(found).namespace == found.namespace && Normal(found).name == found.name;
    SameToolIsNormal(found, t);
  }

  /** A tool written anywhere in an accepted list is found under its own name with equal
      contents, and every new entry of the catalogue was written there. */
  lemma {:induction false} WrittenIsFound(c: Catalogue, items: Items, namespace: string, depth: nat, t: Tool,
                                          key: string)
    requires CatalogueOk(c) && StrictItems(items) && depth <= 8 && Collect(c, Arr(items), namespace, depth).Ok?
    ensures var after := Collect(c, Arr(items), namespace, depth).value;
            && (WrittenIn(items, namespace, depth, t) ==>
                  var found := Lookup(after, Str(t.namespace), Str(t.name));
                  found.Ok? && SameTool(found.value, t))
            && (key in after.tools && key !in c.tools ==> WrittenIn(items, namespace, depth, after.tools[key]))
  {
    var after := Collect(c, Arr(items), namespace, depth).value;
    CollectedIsDeclared(c, Arr(items), namespace, depth);
    var tools := Declared(Arr(items), namespace, depth).value;
    DeclaredInIsWritten(items, namespace, depth, t);
    if t in tools {
      var i :| 0 <= i < |tools| && tools[i] == t;
      DeclaredIsFound(c, Arr(items), namespace, depth, i);
    }
    if key in after.tools && key !in c.tools {
      DeclaredInIsWritten(items, namespace, depth, after.tools[key]);
    }
  }

  /** Declarations may be sent again with every request: nothing changes. */
  lemma {:induction false} CollectAgain(c: Catalogue, value: Json, namespace: string, depth: nat)
    requires CatalogueOk(c) && Strict(value) && depth <= MAX_DEPTH + 1
    requires Collect(c, value, namespace, depth).Ok?
    ensures var after := Collect(c, value, namespace, depth).value;
            Collect(after, value, namespace, depth) == Ok(after)
  {
    var tools, after := Declared(value, namespace, depth), Collect(c, value, namespace, depth).value;
    CollectedIsDeclared(c, value, namespace, depth);
    CollectIsRegister(after, value, namespace, depth);
    DeclaredOk(value, namespace, depth);
    forall i | 0 <= i < |tools.value|
      ensures KeyOf(tools.value[i]) in after.tools && SameTool(after.tools[KeyOf(tools.value[i])], tools.value[i])
    {
      DeclaredIsFound(c, value, namespace, depth, i);
    }
    RegisterKnown(after, tools.value);
  }

  lemma {:induction false} RegisterKnown(c: Catalogue, tools: seq<Tool>)
    requires forall i :: 0 <= i < |tools| ==> KeyOf(tools[i]) in c.tools && SameTool(c.tools[KeyOf(tools[i])], tools[i])
    ensures RegisterAll(c, tools) == Ok(c)
    decreases |tools|
  {
    if tools != [] {
      RegisterKnown(c, tools[1..]);
    }
  }
}

/** Status polls of many turns through one page: `AccountBrowser.route` and `poll`, the
    hand-over of the first poll body, and the poll loop of `MultiplexBrowser.run`, in
    prism-adapter/multiplex_browser.py.

    The page may send any status request at any time. One is let through only while a turn
    waits for exactly that body, and then only once. */
module Polling {
  import opened Prelude
  import opened Json
  import opened Canonical
  import opened Tools

  /** `fingerprint(body)`: the digest of the decoded body. */
  function Fingerprint(body: Fields): string {
    Digest(Obj(body))
  }

  /** A turn between polls, waiting for one, or over. */
  datatype Phase = Ready | Waiting(key: string) | Over

  /** `id` is the trusted request id; `body` the body last polled with; `answer` the
      `turn_state` of the last response; `latest` the last non-empty one. */
  datatype Turn = Turn(id: string, body: Fields, answer: Json, latest: Json, polls: nat, phase: Phase)

  datatype Grant = Grant(turn: nat, sent: bool)

  /** A status request that was let through, and whose it was. */
  datatype Passage = Passage(turn: nat, poll: nat, body: Fields, id: string, latest: Json)

  datatype World = World(expected: map<string, Grant>, turns: map<nat, Turn>, passed: seq<Passage>)

  datatype Step =
    | Handoff(turn: nat, id: string, body: Fields, answer: Json)
    | Poll(turn: nat)
    | Route(body: Fields)
    | Result(turn: nat, ok: bool, who: Json, answer: Json)

  /** A `turn_state` worth keeping: a non-empty string or dictionary. */
  predicate IsState(v: Json) {
    (v.Str? || v.Obj?) && Truthy(v)
  }

  function Newer(v: Json, latest: Json): Json {
    if IsState(v) then v else latest
  }

  /** Only a body that names the trusted id is handed over. */
  predicate Enabled(w: World, step: Step) {
    match step
    case Handoff(turn, id, body, answer) =>
      turn !in w.turns && id != "" && At(body, "request_id") == Str(id) && Strict(Obj(body)) && Strict(answer)
    case Poll(turn) => turn in w.turns && w.turns[turn].phase == Ready
    case Route(body) => Strict(Obj(body))
    case Result(turn, _, _, answer) => turn in w.turns && w.turns[turn].phase.Waiting? && Strict(answer)
  }

  function Polled(t: Turn): Turn {
    var body := if IsState(t.answer) then Put(t.body, "turn_state", t.answer) else t.body;
    t.(body := body, polls := t.polls + 1, phase := Waiting(Fingerprint(body)))
  }

  /** `poll` up to the request: a second grant for one fingerprint is refused. */
  function Asked(w: World, turn: nat): World
    requires turn in w.turns
  {
    var t := Polled(w.turns[turn]);
    if t.phase.key in w.expected then w.(turns := w.turns[turn := w.turns[turn].(phase := Over)])
    else w.(turns := w.turns[turn := t], expected := w.expected[t.phase.key := Grant(turn, false)])
  }

  predicate LetsThrough(expected: map<string, Grant>, body: Fields) {
    Fingerprint(body) in expected && !expected[Fingerprint(body)].sent
  }

  function Routed(w: World, body: Fields): World {
    if !LetsThrough(w.expected, body) then w
    else
      var key := Fingerprint(body);
      var g := w.expected[key];
      if g.turn !in w.turns then w
      else
        var t := w.turns[g.turn];
        w.(expected := w.expected[key := g.(sent := true)],
           passed := w.passed + [Passage(g.turn, t.polls, body, t.id, t.latest)])
  }

  function Told(t: Turn, good: bool, answer: Json): Turn {
    if good then t.(answer := answer, latest := Newer(answer, t.latest), phase := Ready) else t.(phase := Over)
  }

  /** The rest of `poll`: the grant is withdrawn whatever came back; a poll that was never
      sent, failed, or brought another turn's answer ends the turn. */
  function Answered(w: World, turn: nat, ok: bool, id: Json, answer: Json): World
    requires turn in w.turns && w.turns[turn].phase.Waiting?
  {
    var t := w.turns[turn];
    var sent := t.phase.key in w.expected && w.expected[t.phase.key].sent;
    var mine := id == Null || id == Str("") || id == Str(t.id);
    w.(expected := w.expected - {t.phase.key}, turns := w.turns[turn := Told(t, ok && sent && mine, answer)])
  }

  function Apply(w: World, step: Step): World
    requires Enabled(w, step)
  {
    match step
    case Handoff(turn, id, body, answer) =>
      w.(turns := w.turns[turn := Turn(id, body, answer, Newer(answer, Null), 0, Ready)])
    case Poll(turn) => Asked(w, turn)
    case Route(body) => Routed(w, body)
    case Result(turn, ok, id, answer) => Answered(w, turn, ok, id, answer)
  }

  const Fresh := World(map[], map[], [])

  // ---------------------------------------------------------------- invariant

  predicate BodyOk(t: Turn) {
    && Strict(Obj(t.body)) && Strict(t.answer) && Strict(t.latest) && At(t.body, "request_id") == Str(t.id)
    && (IsState(t.answer) ==> t.latest == t.answer)
    && (t.phase.Waiting? ==> t.phase.key == Fingerprint(t.body))
    && (t.phase.Waiting? && IsState(t.latest) ==> At(t.body, "turn_state") == t.latest)
    && (IsState(t.latest) && !IsState(t.answer) ==> At(t.body, "turn_state") == t.latest)
  }

  predicate TurnOkAt(turns: map<nat, Turn>, i: nat) {
    i in turns ==> BodyOk(turns[i])
  }

  ghost predicate TurnsOk(turns: map<nat, Turn>) {
    forall i {:trigger TurnOkAt(turns, i)} :: TurnOkAt(turns, i)
  }

  /** Grants and waiting turns correspond one to one. */
  predicate GrantOk(turns: map<nat, Turn>, key: string, g: Grant) {
    g.turn in turns && turns[g.turn].phase == Waiting(key)
  }

  predicate GrantsOk(expected: map<string, Grant>, turns: map<nat, Turn>) {
    && (forall key :: key in expected ==> GrantOk(turns, key, expected[key]))
    && (forall i :: i in turns && turns[i].phase.Waiting? ==>
        turns[i].phase.key in expected && expected[turns[i].phase.key].turn == i)
  }

  /** The request carried its own turn's id and latest state. */
  predicate Own(p: Passage) {
    At(p.body, "request_id") == Str(p.id) && (IsState(p.latest) ==> Same(p.latest, At(p.body, "turn_state")))
  }

  predicate AllOwn(passed: seq<Passage>) {
    forall i :: 0 <= i < |passed| ==> Own(passed[i])
  }

  /** It belongs to a poll that was made, and if that poll is still open its grant is spent. */
  predicate PassageOk(turns: map<nat, Turn>, expected: map<string, Grant>, p: Passage) {
    && p.turn in turns && p.id == turns[p.turn].id && p.poll <= turns[p.turn].polls
    && (turns[p.turn].phase.Waiting? && p.poll == turns[p.turn].polls ==>
          turns[p.turn].phase.key in expected && expected[turns[p.turn].phase.key].sent)
  }

  predicate PassedOk(passed: seq<Passage>, turns: map<nat, Turn>, expected: map<string, Grant>) {
    forall i :: 0 <= i < |passed| ==> PassageOk(turns, expected, passed[i])
  }

  predicate OncePerPoll(passed: seq<Passage>) {
    forall i, j :: 0 <= i < j < |passed| ==> passed[i].turn != passed[j].turn || passed[i].poll != passed[j].poll
  }

  ghost predicate Inv(w: World) {
    && TurnsOk(w.turns) && GrantsOk(w.expected, w.turns)
    && AllOwn(w.passed) && PassedOk(w.passed, w.turns, w.expected) && OncePerPoll(w.passed)
  }

  // ---------------------------------------------------------------- steps

  /** Equal fingerprints mean equal contents, key by key. */
  lemma {:induction false} SameAt(f: Fields, g: Fields, key: string)
    requires Strict(Obj(f)) && Strict(Obj(g)) && Fingerprint(f) == Fingerprint(g)
    ensures Same(At(f, key), At(g, key))
  {
    DigestNamesValue(Obj(f), Obj(g));
    GetKeys(f, key);
    GetKeys(g, key);
    if Get(f, key).Some? {
      SameFieldsAt(f, g, key);
    }
  }

  lemma {:induction false} SameFieldsAt(f: Fields, g: Fields, key: string)
    requires SameFields(f, g) && Get(f, key).Some?
    ensures Get(g, key).Some? && Same(Get(f, key).value, Get(g, key).value)
  {
    if f.key != key {
      SameFieldsAt(f.rest, g, key);
    }
  }

  lemma {:induction false} TurnChanged(turns: map<nat, Turn>, turn: nat, t: Turn)
    requires TurnsOk(turns) && BodyOk(t)
    ensures TurnsOk(turns[turn := t])
  {
    forall i {:trigger TurnOkAt(turns[turn := t], i)}
      ensures TurnOkAt(turns[turn := t], i)
    {
      assert TurnOkAt(turns, i);
    }
  }

  /** A turn that waits neither before nor after. */
  lemma {:induction false} GrantsStay(expected: map<string, Grant>, turns: map<nat, Turn>, turn: nat, t: Turn)
    requires GrantsOk(expected, turns) && (turn in turns ==> !turns[turn].phase.Waiting?) && !t.phase.Waiting?
    ensures GrantsOk(expected, turns[turn := t])
  {
    forall key | key in expected
      ensures GrantOk(turns[turn := t], key, expected[key])
    {
      assert GrantOk(turns, key, expected[key]);
    }
  }

  lemma {:induction false} GrantAdded(expected: map<string, Grant>, turns: map<nat, Turn>, turn: nat, t: Turn,
                                      key: string)
    requires GrantsOk(expected, turns) && turn in turns && !turns[turn].phase.Waiting?
    requires t.phase == Waiting(key) && key !in expected
    ensures GrantsOk(expected[key := Grant(turn, false)], turns[turn := t])
  {
    var expected', turns' := expected[key := Grant(turn, false)], turns[turn := t];
    forall k | k in expected'
      ensures GrantOk(turns', k, expected'[k])
    {
      assert k != key ==> GrantOk(turns, k, expected[k]);
    }
  }

  lemma {:induction false} GrantGone(expected: map<string, Grant>, turns: map<nat, Turn>, turn: nat, t: Turn,
                                     key: string)
    requires GrantsOk(expected, turns) && turn in turns && turns[turn].phase == Waiting(key) && !t.phase.Waiting?
    ensures GrantsOk(expected - {key}, turns[turn := t])
  {
    var expected', turns' := expected - {key}, turns[turn := t];
    forall k | k in expected'
      ensures GrantOk(turns', k, expected'[k])
    {
      assert GrantOk(turns, k, expected[k]);
    }
    forall i | i in turns' && turns'[i].phase.Waiting?
      ensures turns'[i].phase.key in expected' && expected'[turns'[i].phase.key].turn == i
    {
      assert turns[i].phase.key in expected && expected[key].turn == turn;
    }
  }

  predicate Alike(expected: map<string, Grant>, expected': map<string, Grant>, key: string) {
    key in expected ==> key in expected' && expected'[key] == expected[key]
  }

  /** Grants only ever become spent, or disappear with their turn's wait. */
  lemma {:induction false} PassedStay(passed: seq<Passage>, turns: map<nat, Turn>, expected: map<string, Grant>,
                                      turn: nat, t: Turn, expected': map<string, Grant>)
    requires PassedOk(passed, turns, expected)
    requires turn in turns ==> t.id == turns[turn].id && t.polls >= turns[turn].polls && (t.phase.Waiting? ==>
        t.polls > turns[turn].polls)
    requires forall i :: i in turns && i != turn && turns[i].phase.Waiting? ==>
        Alike(expected, expected', turns[i].phase.key)
    ensures PassedOk(passed, turns[turn := t], expected')
  {
    forall i | 0 <= i < |passed|
      ensures PassageOk(turns[turn := t], expected', passed[i])
    {
      assert PassageOk(turns, expected, passed[i]);
    }
  }

  lemma {:induction false} HandoffKeepsInv(w: World, turn: nat, id: string, body: Fields, answer: Json)
    requires Inv(w) && Enabled(w, Handoff(turn, id, body, answer))
    ensures Inv(Apply(w, Handoff(turn, id, body, answer)))
  {
    var t := Turn(id, body, answer, Newer(answer, Null), 0, Ready);
    TurnChanged(w.turns, turn, t);
    GrantsStay(w.expected, w.turns, turn, t);
    PassedStay(w.passed, w.turns, w.expected, turn, t, w.expected);
  }

  lemma {:induction false} PolledOk(t: Turn)
    requires BodyOk(t) && t.phase == Ready
    ensures BodyOk(Polled(t))
  {
    if IsState(t.answer) {
      PutIsStrict(t.body, "turn_state", t.answer);
      PutThenGet(t.body, "turn_state", t.answer, "turn_state");
      assert "turn_state"[0] != "request_id"[0];
      PutThenGet(t.body, "turn_state", t.answer, "request_id");
    }
  }

  lemma {:induction false} AskedKeepsInv(w: World, turn: nat)
    requires Inv(w) && Enabled(w, Poll(turn))
    ensures Inv(Asked(w, turn))
  {
    var t := Polled(w.turns[turn]);
    assert TurnOkAt(w.turns, turn);
    PolledOk(w.turns[turn]);
    if t.phase.key in w.expected {
      var over := w.turns[turn].(phase := Over);
      TurnChanged(w.turns, turn, over);
      GrantsStay(w.expected, w.turns, turn, over);
      PassedStay(w.passed, w.turns, w.expected, turn, over, w.expected);
    } else {
      TurnChanged(w.turns, turn, t);
      GrantAdded(w.expected, w.turns, turn, t, t.phase.key);
      PassedStay(w.passed, w.turns, w.expected, turn, t, w.expected[t.phase.key := Grant(turn, false)]);
    }
  }

  /** The request that is let through carries what its turn granted. */
  lemma {:induction false} PassageIsOwn(t: Turn, turn: nat, body: Fields)
    requires BodyOk(t) && t.phase == Waiting(Fingerprint(body)) && Strict(Obj(body))
    ensures Own(Passage(turn, t.polls, body, t.id, t.latest))
  {
    SameAt(t.body, body, "request_id");
    SameAt(t.body, body, "turn_state");
  }

  lemma {:induction false} GrantSpent(expected: map<string, Grant>, turns: map<nat, Turn>, key: string)
    requires GrantsOk(expected, turns) && key in expected
    ensures GrantsOk(expected[key := expected[key].(sent := true)], turns)
  {
    var expected' := expected[key := expected[key].(sent := true)];
    forall k | k in expected'
      ensures GrantOk(turns, k, expected'[k])
    {
      assert GrantOk(turns, k, expected[k]);
    }
  }

  lemma {:induction false} PassageAdded(passed: seq<Passage>, turns: map<nat, Turn>, expected: map<string, Grant>,
                                        key: string, p: Passage)
    requires PassedOk(passed, turns, expected) && OncePerPoll(passed)
    requires p.turn in turns && turns[p.turn].phase == Waiting(key) && p.id == turns[p.turn].id
    requires p.poll == turns[p.turn].polls
    requires key in expected && !expected[key].sent
    ensures PassedOk(passed + [p], turns, expected[key := expected[key].(sent := true)]) && OncePerPoll(passed + [p])
  {
    var expected' := expected[key := expected[key].(sent := true)];
    forall i | 0 <= i < |passed|
      ensures PassageOk(turns, expected', passed[i]) && (passed[i].turn != p.turn || passed[i].poll != p.poll)
    {
      assert PassageOk(turns, expected, passed[i]);
    }
  }

  lemma {:induction false} RoutedKeepsInv(w: World, body: Fields)
    requires Inv(w) && Strict(Obj(body)) && LetsThrough(w.expected, body)
    ensures Inv(Routed(w, body))
  {
    var key := Fingerprint(body);
    var g := w.expected[key];
    assert GrantOk(w.turns, key, g);
    var t := w.turns[g.turn];
    assert TurnOkAt(w.turns, g.turn);
    PassageIsOwn(t, g.turn, body);
    GrantSpent(w.expected, w.turns, key);
    PassageAdded(w.passed, w.turns, w.expected, key, Passage(g.turn, t.polls, body, t.id, t.latest));
  }

  lemma {:induction false} AnsweredOk(t: Turn, good: bool, answer: Json)
    requires BodyOk(t) && t.phase.Waiting? && Strict(answer)
    ensures BodyOk(Told(t, good, answer))
  {
  }

  lemma {:induction false} AnsweredKeepsInv(w: World, turn: nat, ok: bool, who: Json, answer: Json)
    requires Inv(w) && Enabled(w, Result(turn, ok, who, answer))
    ensures Inv(Answered(w, turn, ok, who, answer))
  {
    var w' := Answered(w, turn, ok, who, answer);
    var t, t', key := w.turns[turn], w'.turns[turn], w.turns[turn].phase.key;
    assert TurnOkAt(w.turns, turn);
    AnsweredOk(t, t'.phase == Ready, answer);
    TurnChanged(w.turns, turn, t');
    GrantGone(w.expected, w.turns, turn, t', key);
    assert w.expected[key].turn == turn;
    PassedStay(w.passed, w.turns, w.expected, turn, t', w.expected - {key});
  }

  lemma {:induction false} StepKeepsInv(w: World, step: Step)
    requires Inv(w) && Enabled(w, step)
    ensures Inv(Apply(w, step))
  {
    match step
    case Handoff(turn, id, body, answer) => HandoffKeepsInv(w, turn, id, body, answer);
    case Poll(turn) => AskedKeepsInv(w, turn);
    case Route(body) =>
      if LetsThrough(w.expected, body) {
        RoutedKeepsInv(w, body);
      }
    case Result(turn, ok, who, answer) => AnsweredKeepsInv(w, turn, ok, who, answer);
  }

  // ---------------------------------------------------------------- runs

  predicate IsRun(w: World, steps: seq<Step>)
    decreases |steps|
  {
    steps != [] ==> Enabled(w, steps[0]) && IsRun(Apply(w, steps[0]), steps[1..])
  }

  function After(w: World, steps: seq<Step>): World
    requires IsRun(w, steps)
    decreases |steps|
  {
    if steps == [] then w else After(Apply(w, steps[0]), steps[1..])
  }

  lemma {:induction false} RunKeepsInv(w: World, steps: seq<Step>, end: World)
    requires Inv(w) && IsRun(w, steps) && After(w, steps) == end
    ensures Inv(end)
    decreases |steps|
  {
    if steps != [] {
      StepKeepsInv(w, steps[0]);
      RunKeepsInv(Apply(w, steps[0]), steps[1..], end);
    }
  }

  /** However many turns poll through the page and whatever the page sends: each request that
      was let through carried the trusted id of its own turn and that turn's latest
      non-empty state, and no poll of a turn let more than one through. */
  lemma {:induction false} PollsNeverCross(steps: seq<Step>, i: nat)
    requires IsRun(Fresh, steps) && i < |After(Fresh, steps).passed|
    ensures var w := After(Fresh, steps);
            var p := w.passed[i];
            && p.turn in w.turns && At(p.body, "request_id") == Str(w.turns[p.turn].id)
            && (IsState(p.latest) ==> Same(p.latest, At(p.body, "turn_state")))
            && p.poll <= w.turns[p.turn].polls
            && forall j :: 0 <= j < |w.passed| && j != i ==> w.passed[j].turn != p.turn || w.passed[j].poll != p.poll
  {
    var w := After(Fresh, steps);
    RunKeepsInv(Fresh, steps, w);
    assert PassageOk(w.turns, w.expected, w.passed[i]) && Own(w.passed[i]);
  }

  /** In every run: what is let through is what some turn waits for, with that turn's own id
      and its latest state. */
  lemma {:induction false} OnlyWaitingPass(steps: seq<Step>, body: Fields)
    requires IsRun(Fresh, steps) && Strict(Obj(body))
    ensures var w := After(Fresh, steps);
            LetsThrough(w.expected, body)
            ==> exists turn ::
                  && turn in w.turns && w.turns[turn].phase == Waiting(Fingerprint(body))
                  && At(body, "request_id") == Str(w.turns[turn].id)
                  && (IsState(w.turns[turn].latest) ==> Same(w.turns[turn].latest, At(body, "turn_state")))
  {
    var w := After(Fresh, steps);
    RunKeepsInv(Fresh, steps, w);
    if LetsThrough(w.expected, body) {
      var turn := w.expected[Fingerprint(body)].turn;
      assert GrantOk(w.turns, Fingerprint(body), w.expected[Fingerprint(body)]);
      assert TurnOkAt(w.turns, turn);
      PassageIsOwn(w.turns[turn], turn, body);
    }
  }

  // ---------------------------------------------------------------- where a turn's state comes from

  predicate WasPassed(passed: seq<Passage>, turn: nat, poll: nat) {
    exists n :: 0 <= n < |passed| && passed[n].turn == turn && passed[n].poll == poll
  }

  predicate SpentAt(w: World, key: string) {
    key in w.expected && w.expected[key].sent && w.expected[key].turn in w.turns ==>
      WasPassed(w.passed, w.expected[key].turn, w.turns[w.expected[key].turn].polls)
  }

  /** A spent grant was spent on a request that went out for this very poll. */
  ghost predicate SpentOk(w: World) {
    forall key {:trigger SpentAt(w, key)} :: SpentAt(w, key)
  }

  lemma {:induction false} PassedMore(passed: seq<Passage>, p: Passage, turn: nat, poll: nat)
    requires WasPassed(passed, turn, poll)
    ensures WasPassed(passed + [p], turn, poll)
  {
    var n :| 0 <= n < |passed| && passed[n].turn == turn && passed[n].poll == poll;
    assert (passed + [p])[n] == passed[n];
  }

  lemma {:induction false} StepKeepsSpent(w: World, step: Step)
    requires Inv(w) && SpentOk(w) && Enabled(w, step)
    ensures SpentOk(Apply(w, step))
  {
    var w' := Apply(w, step);
    forall key {:trigger SpentAt(w', key)}
      ensures SpentAt(w', key)
    {
      assert SpentAt(w, key);
      assert key in w.expected ==> GrantOk(w.turns, key, w.expected[key]);
      if step.Route? && LetsThrough(w.expected, step.body) {
        RouteKeepsSpent(w, step.body, key);
      }
    }
  }

  lemma {:induction false} RouteKeepsSpent(w: World, body: Fields, key: string)
    requires GrantsOk(w.expected, w.turns) && LetsThrough(w.expected, body) && SpentAt(w, key)
    ensures SpentAt(Routed(w, body), key)
  {
    var w' := Routed(w, body);
    assert GrantOk(w.turns, Fingerprint(body), w.expected[Fingerprint(body)]);
    var p := w'.passed[|w.passed|];
    assert w'.passed == w.passed + [p];
    if key == Fingerprint(body) {
      assert w'.passed[|w.passed|].turn == w.expected[key].turn;
    } else if key in w.expected && w.expected[key].sent && w.expected[key].turn in w.turns {
      PassedMore(w.passed, p, w.expected[key].turn, w.turns[w.expected[key].turn].polls);
    }
  }

  lemma {:induction false} RunKeepsSpent(w: World, steps: seq<Step>)
    requires Inv(w) && SpentOk(w) && IsRun(w, steps)
    ensures Inv(After(w, steps)) && SpentOk(After(w, steps))
    decreases |steps|
  {
    if steps != [] {
      StepKeepsSpent(w, steps[0]);
      StepKeepsInv(w, steps[0]);
      RunKeepsSpent(Apply(w, steps[0]), steps[1..]);
    }
  }

  /** In every run, what a turn waits for is let through exactly if it was not yet, for this poll. */
  lemma {:induction false} WaitingPassesOnce(steps: seq<Step>, turn: nat, body: Fields)
    requires IsRun(Fresh, steps) && turn in After(Fresh, steps).turns
    requires After(Fresh, steps).turns[turn].phase == Waiting(Fingerprint(body))
    ensures var w := After(Fresh, steps);
            LetsThrough(w.expected, body) <==> !WasPassed(w.passed, turn, w.turns[turn].polls)
  {
    RunKeepsSpent(Fresh, steps);
    var w, key := After(Fresh, steps), Fingerprint(body);
    assert SpentAt(w, key) && w.expected[key].turn == turn;
    if WasPassed(w.passed, turn, w.turns[turn].polls) {
      var n :| 0 <= n < |w.passed| && w.passed[n].turn == turn && w.passed[n].poll == w.turns[turn].polls;
      assert PassageOk(w.turns, w.expected, w.passed[n]);
    }
  }

  /** An answer the turn may go on with: its request was sent, it succeeded, and it names the
      turn's own id or none. */
  predicate GoodAnswer(w: World, turn: nat, ok: bool, who: Json) {
    && turn in w.turns && ok && (who == Null || who == Str("") || who == Str(w.turns[turn].id))
    && WasPassed(w.passed, turn, w.turns[turn].polls)
  }

  /** Any other answer ends the turn. */
  lemma {:induction false} AnswerDecides(steps: seq<Step>, turn: nat, ok: bool, who: Json, answer: Json)
    requires IsRun(Fresh, steps) && Enabled(After(Fresh, steps), Result(turn, ok, who, answer))
    ensures var w := After(Fresh, steps);
            var t := Answered(w, turn, ok, who, answer).turns[turn];
            && (t.phase == Ready <==> GoodAnswer(w, turn, ok, who))
            && (t.phase == Ready ==> t.latest == if IsState(answer) then answer else w.turns[turn].latest)
            && (t.phase != Ready ==> t.phase == Over && t.latest == w.turns[turn].latest)
            && t.id == w.turns[turn].id
  {
    RunKeepsSpent(Fresh, steps);
    var w := After(Fresh, steps);
    var key := w.turns[turn].phase.key;
    assert SpentAt(w, key) && key in w.expected && w.expected[key].turn == turn;
    if WasPassed(w.passed, turn, w.turns[turn].polls) {
      var n :| 0 <= n < |w.passed| && w.passed[n].turn == turn && w.passed[n].poll == w.turns[turn].polls;
      assert PassageOk(w.turns, w.expected, w.passed[n]);
    }
  }

  /** Step `k` of the run brought the turn this state: its hand-over, or a good answer. */
  ghost predicate Brought(w: World, steps: seq<Step>, k: nat, turn: nat, v: Json) {
    && k < |steps| && IsRun(w, steps[..k])
    && match steps[k]
       case Handoff(t, _, _, answer) => t == turn && answer == v
       case Result(t, ok, who, answer) => t == turn && answer == v && GoodAnswer(After(w, steps[..k]), turn, ok, who)
       case _ => false
  }

  predicate Keeps(w: World, turn: nat, v: Json) {
    turn in w.turns && w.turns[turn].latest == v
  }

  lemma {:induction false} NewState(w: World, step: Step, turn: nat, v: Json)
    requires Inv(w) && SpentOk(w) && Enabled(w, step) && IsState(v)
    requires !Keeps(w, turn, v) && Keeps(Apply(w, step), turn, v)
    ensures match step
            case Handoff(t, _, _, answer) => t == turn && answer == v
            case Result(t, ok, who, answer) => t == turn && answer == v && GoodAnswer(w, turn, ok, who)
            case _ => false
  {
    if step.Result? {
      var key := w.turns[step.turn].phase.key;
      assert SpentAt(w, key) && key in w.expected && w.expected[key].turn == step.turn;
    }
  }

  lemma {:induction false} StateWasBrought(w: World, steps: seq<Step>, turn: nat, v: Json) returns (k: nat)
    requires Inv(w) && SpentOk(w) && IsRun(w, steps) && IsState(v)
    requires !Keeps(w, turn, v) && Keeps(After(w, steps), turn, v)
    ensures Brought(w, steps, k, turn, v)
    decreases |steps|
  {
    var next := Apply(w, steps[0]);
    if Keeps(next, turn, v) {
      NewState(w, steps[0], turn, v);
      assert steps[..0] == [];
      k := 0;
    } else {
      StepKeepsSpent(w, steps[0]);
      StepKeepsInv(w, steps[0]);
      var j := StateWasBrought(next, steps[1..], turn, v);
      k := j + 1;
      assert steps[..k][1..] == steps[1..][..j];
    }
  }

  /** In every run, the state a turn keeps was handed over with it, or came in an answer that
      succeeded, named the turn's own id or none, and answered a request let through for that
      very poll. */
  lemma {:induction false} StateIsOwn(steps: seq<Step>, turn: nat) returns (k: nat)
    requires IsRun(Fresh, steps) && turn in After(Fresh, steps).turns
    requires IsState(After(Fresh, steps).turns[turn].latest)
    ensures Brought(Fresh, steps, k, turn, After(Fresh, steps).turns[turn].latest)
  {
    k := StateWasBrought(Fresh, steps, turn, After(Fresh, steps).turns[turn].latest);
  }

  /** A turn that is over. */
  predicate IsOver(w: World, turn: nat) {
    turn in w.turns && w.turns[turn].phase == Over
  }

  lemma {:induction false} OverStep(w: World, step: Step, turn: nat)
    requires Inv(w) && Enabled(w, step) && IsOver(w, turn)
    ensures IsOver(Apply(w, step), turn)
    ensures Apply(w, step).passed == w.passed
         || (|Apply(w, step).passed| == |w.passed| + 1 && Apply(w, step).passed[..|w.passed|] == w.passed
             && Apply(w, step).passed[|w.passed|].turn != turn)
  {
    if step.Route? && LetsThrough(w.expected, step.body) {
      assert GrantOk(w.turns, Fingerprint(step.body), w.expected[Fingerprint(step.body)]);
    }
  }

  /** A turn that is over stays over, and nothing is let through for it any more. */
  lemma {:induction false} OverForGood(w: World, steps: seq<Step>, turn: nat)
    requires Inv(w) && IsRun(w, steps) && IsOver(w, turn)
    ensures IsOver(After(w, steps), turn) && |w.passed| <= |After(w, steps).passed|
    ensures forall n :: |w.passed| <= n < |After(w, steps).passed| ==> After(w, steps).passed[n].turn != turn
    ensures After(w, steps).passed[..|w.passed|] == w.passed
    decreases |steps|
  {
    if steps != [] {
      var next := Apply(w, steps[0]);
      OverStep(w, steps[0], turn);
      StepKeepsInv(w, steps[0]);
      OverForGood(next, steps[1..], turn);
      var end := After(next, steps[1..]);
      if |next.passed| > |w.passed| {
        assert end.passed[|w.passed|] == end.passed[..|next.passed|][|w.passed|];
      }
      assert end.passed[..|w.passed|] == end.passed[..|next.passed|][..|w.passed|];
    }
  }

  /** In every run, a turn that got another turn's answer, or none, is over for good. */
  lemma {:induction false} ForeignAnswerEnds(steps: seq<Step>, turn: nat, ok: bool, who: Json, answer: Json,
                                             more: seq<Step>)
    requires IsRun(Fresh, steps) && Enabled(After(Fresh, steps), Result(turn, ok, who, answer))
    requires !GoodAnswer(After(Fresh, steps), turn, ok, who)
    requires IsRun(Answered(After(Fresh, steps), turn, ok, who, answer), more)
    ensures var w := Answered(After(Fresh, steps), turn, ok, who, answer);
            var end := After(w, more);
            IsOver(end, turn) && forall n :: |w.passed| <= n < |end.passed| ==> end.passed[n].turn != turn
  {
    var w := After(Fresh, steps);
    RunKeepsInv(Fresh, steps, w);
    AnswerDecides(steps, turn, ok, who, answer);
    StepKeepsInv(w, Result(turn, ok, who, answer));
    OverForGood(Answered(w, turn, ok, who, answer), more, turn);
  }

  // ---------------------------------------------------------------- the object

  /** `AccountBrowser`, with the turns that poll through it and what it let through so far. */
  class AccountBrowser {
    var expected: map<string, Grant>
    ghost var turns: map<nat, Turn>
    ghost var passed: seq<Passage>

    ghost function View(): World
      reads this
    {
      World(expected, turns, passed)
    }

    constructor ()
      ensures View() == Fresh && Inv(View())
    {
      expected := map[];
      turns, passed := map[], [];
    }

    /** A turn takes its first body over from the page. */
    ghost method TakeOver(turn: nat, id: string, body: Fields, answer: Json)
      requires Inv(View()) && Enabled(View(), Handoff(turn, id, body, answer))
      modifies this`turns
      ensures View() == Apply(old(View()), Handoff(turn, id, body, answer)) && Inv(View())
    {
      StepKeepsInv(View(), Handoff(turn, id, body, answer));
      turns := turns[turn := Turn(id, body, answer, Newer(answer, Null), 0, Ready)];
    }

    /** The start of `poll`; false stands for `duplicate_poll`, which ends the turn. */
    method Expect(turn: nat, body: Fields) returns (ok: bool)
      requires Inv(View()) && Enabled(View(), Poll(turn)) && body == Polled(turns[turn]).body
      modifies this
      ensures View() == Apply(old(View()), Poll(turn)) && Inv(View())
      ensures ok <==> Fingerprint(body) !in old(expected)
      ensures turns[turn].phase == if ok then Waiting(Fingerprint(body)) else Over
    {
      StepKeepsInv(View(), Poll(turn));
      var key := Fingerprint(body);
      ok := key !in expected;
      if ok {
        expected := expected[key := Grant(turn, false)];
        turns := turns[turn := Polled(turns[turn])];
      } else {
        turns := turns[turn := turns[turn].(phase := Over)];
      }
    }

    /** `route` for a status request: continued or aborted. What is continued carries its own
        turn's trusted id and latest state. */
    method RouteStatus(body: Fields) returns (go: bool)
      requires Inv(View()) && Strict(Obj(body))
      modifies this
      ensures View() == Apply(old(View()), Route(body)) && Inv(View())
      ensures go <==> Fingerprint(body) in old(expected) && !old(expected)[Fingerprint(body)].sent
      ensures if go then |passed| == |old(passed)| + 1 && Own(passed[|old(passed)|]) else passed == old(passed)
    {
      StepKeepsInv(View(), Route(body));
      var key := Fingerprint(body);
      go := key in expected && !expected[key].sent;
      if go {
        var g := expected[key];
        assert GrantOk(turns, key, g);
        expected := expected[key := g.(sent := true)];
        passed := passed + [Passage(g.turn, turns[g.turn].polls, body, turns[g.turn].id, turns[g.turn].latest)];
      }
    }

    /** The rest of `poll`: whether the turn may go on with this answer. */
    method Withdraw(turn: nat, id: string, body: Fields, ok: bool, who: Json, answer: Json) returns (good: bool)
      requires Inv(View()) && Enabled(View(), Result(turn, ok, who, answer))
      requires id == turns[turn].id && body == turns[turn].body
      modifies this
      ensures View() == Apply(old(View()), Result(turn, ok, who, answer)) && Inv(View())
      ensures good <==>
                && ok && Fingerprint(body) in old(expected) && old(expected)[Fingerprint(body)].sent
                && (who == Null || who == Str("") || who == Str(id))
      ensures turns[turn].phase == if good then Ready else Over
      ensures good && IsState(answer) ==> turns[turn].latest == answer
    {
      StepKeepsInv(View(), Result(turn, ok, who, answer));
      assert TurnOkAt(turns, turn);
      var key := Fingerprint(body);
      var sent := key in expected && expected[key].sent;
      expected := expected - {key};
      good := ok && sent && (who == Null || who == Str("") || who == Str(id));
      turns := turns[turn := Told(turns[turn], good, answer)];
    }
  }
}

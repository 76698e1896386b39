/** The gate in front of the model start: `BrowserStart` of prism-adapter/multiplex_browser.py.

    The page may try to start a turn at any moment; the gate lets a start through
    only when the turn is armed, nothing is outstanding, and the page asks for what
    this turn is for. The response callback suspends while it decodes JSON, so it is
    two events, `Hear` and `Decode`, and every other event may fall between them. */
module StartGate {
  import opened Prelude

  datatype Metadata = Metadata(model: Name, effort: Name, project: Name)

  /** A start request's body. `intent` is its input, previous response and
      conversation; `rest` is everything else, which the page may refresh. The
      fingerprint of a body is taken to be the body. */
  datatype Body = Body(metadata: Option<Metadata>, intent: Name, rest: Name)

  /** What upstream answers: nothing usable, an explicit refusal because the sandbox
      is reconnecting, or anything else with a request id. */
  datatype Reply = Unusable | Reconnecting(id: Name) | Answered(id: Name)

  /** A start that went out: whether its response reached the page, and the decoded reply. */
  datatype Start = Start(body: Body, heard: bool, reply: Option<Reply>)

  /** The `start_response` future; it may be resolved with None. */
  datatype Future = Waiting | Resolved(usable: bool)

  const MAX_STARTS := 3

  /** The fields of the object, then what the network has seen (`log`) and which
      response callbacks are suspended (`decoding`). */
  datatype Gate = Gate(
    model: Name, effort: Name, project: Option<Name>,
    armed: bool, sent: bool, closed: bool, violation: bool,
    fingerprint: Option<Body>, intent: Option<Name>,
    attempts: nat, reconnects: nat, requestId: Option<Name>, response: Future,
    log: seq<Start>, decoding: set<nat>)

  function NewGate(model: Name, effort: Name): Gate {
    Gate(model, effort, None, false, false, false, false, None, None, 0, 0, None, Waiting, [], {})
  }

  datatype Event =
    | Arm(project: Name)
    | Route(body: Body, post: bool)
    | Hear(index: nat)
    | Decode(index: nat, reply: Reply, stored: bool)
    | Close

  /** What the surroundings can do: `run` arms once and is over when the gate is
      closed; a start that went out is answered at most once. */
  predicate Enabled(g: Gate, e: Event) {
    match e
    case Arm(_) => !g.armed && !g.closed
    case Hear(i) => i < |g.log| && !g.log[i].heard
    case Decode(i, _, _) => i in g.decoding && i < |g.log|
    case _ => true
  }

  predicate Wanted(g: Gate, body: Body, post: bool) {
    && !g.closed && g.armed && !g.sent && post
    && body.metadata.Some?
    && body.metadata.value.model == g.model
    && body.metadata.value.effort == g.effort
    && Some(body.metadata.value.project) == g.project
  }

  predicate Admits(g: Gate, body: Body, post: bool) {
    Wanted(g, body, post) && (g.intent.None? || g.intent == Some(body.intent))
  }

  function Routed(g: Gate, body: Body, post: bool): Gate {
    if Admits(g, body, post) then
      g.(intent := Some(body.intent), attempts := g.attempts + 1, sent := true,
         fingerprint := Some(body), log := g.log + [Start(body, false, None)])
    else g.(violation := true)
  }

  function Heard(g: Gate, i: nat): Gate
    requires i < |g.log|
  {
    var decode := g.fingerprint == Some(g.log[i].body) && g.response.Waiting?;
    g.(log := g.log[i := g.log[i].(heard := true)], decoding := if decode then g.decoding + {i} else g.decoding)
  }

  function Resolve(f: Future, usable: bool): Future {
    if f.Waiting? then Resolved(usable) else f
  }

  predicate Rearms(g: Gate, reply: Reply) {
    reply.Reconnecting? && g.attempts < MAX_STARTS
  }

  /** `stored` says whether the journal could be rewritten before re-arming. */
  function Decoded(g: Gate, i: nat, reply: Reply, stored: bool): Gate
    requires i < |g.log|
  {
    var counts := Rearms(g, reply);
    var opens := counts && stored;
    g.(sent := g.sent && !opens,
       fingerprint := if opens then None else g.fingerprint,
       reconnects := if counts then g.reconnects + 1 else g.reconnects,
       requestId := if counts || reply.Unusable? then g.requestId else Some(reply.id),
       response := if opens then g.response else Resolve(g.response, !counts && !reply.Unusable?),
       log := g.log[i := g.log[i].(reply := Some(reply))],
       decoding := g.decoding - {i})
  }

  function Apply(g: Gate, e: Event): Gate
    requires Enabled(g, e)
  {
    match e
    case Arm(project) => g.(project := Some(project), armed := true)
    case Route(body, post) => Routed(g, body, post)
    case Hear(i) => Heard(g, i)
    case Decode(i, reply, stored) => Decoded(g, i, reply, stored)
    case Close => g.(closed := true)
  }

  /** `run` goes on to the terminal only behind a closed gate whose one start was answered. */
  predicate HasAnswer(g: Gate) {
    g.closed && g.sent && g.response == Resolved(true) && !g.violation
  }

  // ---------------------------------------------------------------- invariant

  /** Starts whose outcome could be an executed turn: all that were not answered
      with an explicit reconnect. */
  predicate Refused(s: Start) {
    s.reply.Some? && s.reply.value.Reconnecting?
  }

  function Outstanding(g: Gate): nat {
    if g.sent then 1 else 0
  }

  /** A reconnect was counted but the journal could not be rewritten, so the gate stayed shut. */
  predicate Spoiled(g: Gate) {
    g.sent && g.log != [] && Refused(g.log[|g.log| - 1]) && g.response == Resolved(false)
  }

  predicate ForThisTurn(g: Gate, s: Start) {
    g.project.Some? && s.body.metadata == Some(Metadata(g.model, g.effort, g.project.value))
    && g.intent == Some(s.body.intent)
  }

  ghost predicate GateOk(g: Gate) {
    && |g.log| == g.attempts <= MAX_STARTS
    && (g.project.Some? <==> g.armed)
    && (!g.armed ==> g.log == [])
    && (g.log == [] ==> !g.sent && g.intent.None?)
    && (!g.sent ==> g.attempts < MAX_STARTS && g.decoding == {} && g.response.Waiting?)
    && (forall i :: 0 <= i < |g.log| ==> ForThisTurn(g, g.log[i]))
    && (forall i :: 0 <= i < |g.log| - Outstanding(g) ==> g.log[i].heard && Refused(g.log[i]))
    && (g.sent ==> LastOk(g))
    && (!g.sent ==> g.fingerprint.None?)
    && g.reconnects == g.attempts - Outstanding(g) + if Spoiled(g) then 1 else 0
  }

  ghost predicate LastOk(g: Gate)
    requires g.log != []
  {
    var last := g.log[|g.log| - 1];
    && g.fingerprint == Some(last.body)
    && g.decoding <= {|g.log| - 1}
    && (!last.heard ==> g.decoding == {})
    && (g.response.Waiting? ==> last.reply.None? && (last.heard ==> g.decoding == {|g.log| - 1}))
    && (g.response.Resolved? ==> last.heard && g.decoding == {})
  }

  lemma {:induction false} NewGateOk(model: Name, effort: Name)
    ensures GateOk(NewGate(model, effort))
  {
  }

  lemma {:induction false} RouteKeepsGateOk(g: Gate, body: Body, post: bool)
    requires GateOk(g)
    ensures GateOk(Routed(g, body, post))
  {
    var g' := Routed(g, body, post);
    if Admits(g, body, post) {
      assert forall i :: 0 <= i < |g.log| ==> g'.log[i] == g.log[i] && ForThisTurn(g, g.log[i]);
      assert g.log != [] ==> g.intent.Some? by {
        if g.log != [] {
          assert ForThisTurn(g, g.log[0]);
        }
      }
    }
  }

  lemma {:induction false} HearKeepsGateOk(g: Gate, i: nat)
    requires GateOk(g) && i < |g.log| && !g.log[i].heard
    ensures GateOk(Heard(g, i))
  {
    var g' := Heard(g, i);
    assert i == |g.log| - 1 && g.sent;
    assert forall j :: 0 <= j < |g.log| ==> g'.log[j].body == g.log[j].body && ForThisTurn(g, g.log[j]);
    assert forall j :: 0 <= j < |g.log| - 1 ==> g'.log[j] == g.log[j];
  }

  lemma {:induction false} RearmKeepsGateOk(g: Gate, i: nat, reply: Reply)
    requires GateOk(g) && i in g.decoding && Rearms(g, reply)
    ensures i < |g.log| && GateOk(Decoded(g, i, reply, true))
  {
    var g' := Decoded(g, i, reply, true);
    assert i == |g.log| - 1 && g.sent && g.response.Waiting?;
    assert g.log[i].heard;
    assert forall j :: 0 <= j < |g.log| ==> g'.log[j].body == g.log[j].body && ForThisTurn(g, g.log[j]);
    assert forall j :: 0 <= j < |g.log| - 1 ==> g'.log[j] == g.log[j];
  }

  lemma {:induction false} ResolveKeepsGateOk(g: Gate, i: nat, reply: Reply, stored: bool)
    requires GateOk(g) && i in g.decoding && !(Rearms(g, reply) && stored)
    ensures i < |g.log| && GateOk(Decoded(g, i, reply, stored))
  {
    var g' := Decoded(g, i, reply, stored);
    assert i == |g.log| - 1 && g.sent && g.response.Waiting?;
    assert g.log[i].heard && g'.decoding == {};
    assert forall j :: 0 <= j < |g.log| ==> g'.log[j].body == g.log[j].body && ForThisTurn(g, g.log[j]);
    assert forall j :: 0 <= j < |g.log| - 1 ==> g'.log[j] == g.log[j];
  }

  lemma {:induction false} EventKeepsGateOk(g: Gate, e: Event)
    requires GateOk(g) && Enabled(g, e)
    ensures GateOk(Apply(g, e))
  {
    match e
    case Arm(_) =>
    case Route(body, post) => RouteKeepsGateOk(g, body, post);
    case Hear(i) => HearKeepsGateOk(g, i);
    case Decode(i, reply, stored) =>
      if Rearms(g, reply) && stored {
        RearmKeepsGateOk(g, i, reply);
      } else {
        ResolveKeepsGateOk(g, i, reply, stored);
      }
    case Close =>
      assert forall j :: 0 <= j < |g.log| ==> ForThisTurn(g, g.log[j]);
  }

  // ---------------------------------------------------------------- runs

  /** Everything the page, the network and the turn can do, in some order. */
  predicate IsRun(g: Gate, events: seq<Event>)
    decreases |events|
  {
    events != [] ==> Enabled(g, events[0]) && IsRun(Apply(g, events[0]), events[1..])
  }

  function After(g: Gate, events: seq<Event>): Gate
    requires IsRun(g, events)
    decreases |events|
  {
    if events == [] then g else After(Apply(g, events[0]), events[1..])
  }

  lemma {:induction false} EventFirst(g: Gate, e: Event, rest: seq<Event>, end: Gate)
    requires Enabled(g, e) && IsRun(Apply(g, e), rest) && After(Apply(g, e), rest) == end
    ensures IsRun(g, [e] + rest) && After(g, [e] + rest) == end
  {
    assert ([e] + rest)[1..] == rest;
  }

  lemma {:induction false} RunKeepsGateOk(g: Gate, events: seq<Event>)
    requires GateOk(g) && IsRun(g, events)
    ensures GateOk(After(g, events))
    decreases |events|
  {
    if events != [] {
      EventKeepsGateOk(g, events[0]);
      RunKeepsGateOk(Apply(g, events[0]), events[1..]);
    }
  }

  /** A reconnect with attempts left whose note in the journal fails: known before the call. */
  predicate Unstored(g: Gate, e: Event) {
    e.Decode? && Rearms(g, e.reply) && !e.stored
  }

  predicate StorageFailed(g: Gate, events: seq<Event>)
    requires IsRun(g, events)
    decreases |events|
  {
    events != [] && (Unstored(g, events[0]) || StorageFailed(Apply(g, events[0]), events[1..]))
  }

  predicate CountersAgree(g: Gate) {
    g.attempts == g.reconnects + Outstanding(g)
  }

  /** The gate is spoiled by such a failure, and by nothing else; and it stays spoiled. */
  lemma {:induction false} EventSpoils(g: Gate, e: Event)
    requires GateOk(g) && Enabled(g, e)
    ensures Spoiled(Apply(g, e)) <==> Spoiled(g) || Unstored(g, e)
  {
  }

  lemma {:induction false} RunSpoils(g: Gate, events: seq<Event>)
    requires GateOk(g) && IsRun(g, events)
    ensures Spoiled(After(g, events)) <==> Spoiled(g) || StorageFailed(g, events)
    decreases |events|
  {
    if events != [] {
      EventSpoils(g, events[0]);
      EventKeepsGateOk(g, events[0]);
      RunSpoils(Apply(g, events[0]), events[1..]);
    }
  }

  /** The counters agree after exactly the runs in which no note of a reconnect failed. */
  lemma {:induction false} CountersAgreeUnlessUnstored(model: Name, effort: Name, events: seq<Event>)
    requires IsRun(NewGate(model, effort), events)
    ensures CountersAgree(After(NewGate(model, effort), events)) <==> !StorageFailed(NewGate(model, effort), events)
  {
    NewGateOk(model, effort);
    RunKeepsGateOk(NewGate(model, effort), events);
    RunSpoils(NewGate(model, effort), events);
  }

  /** The shortest such run: the reconnect is counted, the journal fails, the gate stays shut. */
  lemma {:induction false} UnstoredReconnect(model: Name, effort: Name, project: Name, intent: Name, rest: Name,
                                             id: Name)
    ensures var body := Body(Some(Metadata(model, effort, project)), intent, rest);
            var events := [Arm(project), Route(body, true), Hear(0), Decode(0, Reconnecting(id), false)];
            && IsRun(NewGate(model, effort), events)
            && var g := After(NewGate(model, effort), events);
               g.attempts == 1 && g.reconnects == 1 && g.sent && !CountersAgree(g)
  {
    var body := Body(Some(Metadata(model, effort, project)), intent, rest);
    var a, b, c, d := Arm(project), Route(body, true), Hear(0), Decode(0, Reconnecting(id), false);
    var g1 := Apply(NewGate(model, effort), a);
    var g2 := Apply(g1, b);
    var g3 := Apply(g2, c);
    var g4 := Apply(g3, d);
    assert g2.log == [Start(body, false, None)] && 0 in g3.decoding;
    assert [a, b, c, d][1..] == [b, c, d] && [b, c, d][1..] == [c, d] && [c, d][1..] == [d] && [d][1..] == [];
    assert IsRun(g3, [d]) && After(g3, [d]) == g4;
    assert IsRun(g2, [c, d]) && After(g2, [c, d]) == g4;
    assert IsRun(g1, [b, c, d]) && After(g1, [b, c, d]) == g4;
  }

  /** Whatever happens, a turn lets at most three starts out, all for the same
      intent, model, effort and project; all but at most one of them were answered
      with an explicit reconnect; and the counters say so exactly if no note of a
      reconnect failed. */
  lemma {:induction false} StartsOfATurn(model: Name, effort: Name, events: seq<Event>)
    requires IsRun(NewGate(model, effort), events)
    ensures var g := After(NewGate(model, effort), events);
            && |g.log| == g.attempts <= 3
            && (forall i, j :: 0 <= i < j < |g.log| ==>
                  g.log[i].body.intent == g.log[j].body.intent && g.log[i].body.metadata == g.log[j].body.metadata)
            && (forall i :: 0 <= i < |g.log| ==>
                  g.log[i].body.metadata.Some? && g.log[i].body.metadata.value.model == model
                  && g.log[i].body.metadata.value.effort == effort)
            && (forall i, j :: 0 <= i < |g.log| && 0 <= j < |g.log| && !Refused(g.log[i]) && !Refused(g.log[j]) ==>
                i == j)
            && (CountersAgree(g) <==> !StorageFailed(NewGate(model, effort), events))
            && (!CountersAgree(g) ==> g.attempts == g.reconnects && g.sent)
  {
    NewGateOk(model, effort);
    CountersAgreeUnlessUnstored(model, effort, events);
    RunKeepsGateOk(NewGate(model, effort), events);
    RunKeepsIdentity(NewGate(model, effort), events);
    var g := After(NewGate(model, effort), events);
    forall i | 0 <= i < |g.log|
      ensures ForThisTurn(g, g.log[i])
      ensures !Refused(g.log[i]) ==> i == |g.log| - 1
    {
    }
  }

  /** The last start was refused with a reconnect that did not rearm the gate: no attempts
      were left, or its note was not stored. */
  predicate FinallyRefused(g: Gate) {
    g.log != [] && Refused(g.log[|g.log| - 1]) && g.response.Resolved?
  }

  /** A start counts as outstanding exactly if some start was not refused, or was refused for good. */
  lemma {:induction false} SentMeansUnrefused(g: Gate)
    requires GateOk(g)
    ensures g.sent <==> (exists i :: 0 <= i < |g.log| && !Refused(g.log[i])) || FinallyRefused(g)
  {
    if g.sent && !FinallyRefused(g) {
      assert !Refused(g.log[|g.log| - 1]);
    }
  }

  // ---------------------------------------------------------------- when a turn has an answer

  /** A reply `run` can go on with, for the `n`-th start: any with a request id, except a
      reconnect that lets the page try again. */
  predicate IsFinal(reply: Reply, n: nat) {
    reply.Answered? || (reply.Reconnecting? && n == 3)
  }

  /** The future says about the last start what the log says. */
  predicate AnswerOk(g: Gate) {
    && (g.response.Resolved? ==> g.log != [] && g.log[|g.log| - 1].reply.Some?)
    && (g.response.Resolved? ==>
          var reply := g.log[|g.log| - 1].reply.value;
          && (g.response.usable <==> IsFinal(reply, |g.log|))
          && (g.response.usable ==> g.requestId == Some(reply.id)))
    && (g.response.Waiting? && g.log != [] && g.log[|g.log| - 1].reply.Some? ==>
          g.log[|g.log| - 1].reply.value.Reconnecting? && |g.log| < 3)
  }

  lemma {:induction false} NewAnswerOk(model: Name, effort: Name)
    ensures AnswerOk(NewGate(model, effort))
  {
  }

  lemma {:induction false} DecodeKeepsAnswerOk(g: Gate, i: nat, reply: Reply, stored: bool)
    requires GateOk(g) && AnswerOk(g) && Enabled(g, Decode(i, reply, stored))
    ensures AnswerOk(Decoded(g, i, reply, stored))
  {
    assert i == |g.log| - 1 && g.response.Waiting?;
  }

  lemma {:induction false} EventKeepsAnswerOk(g: Gate, e: Event)
    requires GateOk(g) && AnswerOk(g) && Enabled(g, e)
    ensures AnswerOk(Apply(g, e))
  {
    match e
    case Decode(i, reply, stored) => DecodeKeepsAnswerOk(g, i, reply, stored);
    case _ =>
  }

  lemma {:induction false} RunKeepsAnswerOk(g: Gate, events: seq<Event>)
    requires GateOk(g) && AnswerOk(g) && IsRun(g, events)
    ensures AnswerOk(After(g, events))
    decreases |events|
  {
    if events != [] {
      EventKeepsAnswerOk(g, events[0]);
      EventKeepsGateOk(g, events[0]);
      RunKeepsAnswerOk(Apply(g, events[0]), events[1..]);
    }
  }

  /** In every run, `run` goes on to the terminal exactly if the gate is closed without
      violation and the last start came back with a request id that does not invite another
      try; and then it goes on with that very id. An answer without one never counts. */
  lemma {:induction false} HasAnswerMeans(model: Name, effort: Name, events: seq<Event>)
    requires IsRun(NewGate(model, effort), events)
    ensures var g := After(NewGate(model, effort), events);
            && (HasAnswer(g) <==>
                  && g.closed && !g.violation && g.log != [] && g.log[|g.log| - 1].reply.Some?
                  && IsFinal(g.log[|g.log| - 1].reply.value, |g.log|))
            && (HasAnswer(g) ==> g.requestId == Some(g.log[|g.log| - 1].reply.value.id))
  {
    NewGateOk(model, effort);
    RunKeepsGateOk(NewGate(model, effort), events);
    RunKeepsAnswerOk(NewGate(model, effort), events);
  }

  // ---------------------------------------------------------------- when a start goes out

  /** Every start so far was refused in a way that lets the page try again. */
  predicate MayStart(g: Gate) {
    !FinallyRefused(g) && forall i :: 0 <= i < |g.log| ==> Refused(g.log[i])
  }

  /** In every run, a request is let out exactly if it is a POST, the turn is armed and not
      closed, the body asks for the turn's model, effort and project, every earlier start was
      refused for now, and the intent is that of the first; it is then logged as it is. Anything
      else is a violation. */
  lemma {:induction false} RouteMeans(model: Name, effort: Name, events: seq<Event>, body: Body, post: bool)
    requires IsRun(NewGate(model, effort), events)
    ensures var g := After(NewGate(model, effort), events);
            var out := && post && !g.closed && g.project.Some? && MayStart(g)
                       && body.metadata == Some(Metadata(model, effort, g.project.value))
                       && (g.log != [] ==> g.log[0].body.intent == body.intent);
            && Routed(g, body, post).log == (if out then g.log + [Start(body, false, None)] else g.log)
            && (Routed(g, body, post).violation <==> g.violation || !out)
  {
    NewGateOk(model, effort);
    RunKeepsGateOk(NewGate(model, effort), events);
    RunKeepsAnswerOk(NewGate(model, effort), events);
    RunKeepsIdentity(NewGate(model, effort), events);
    var g := After(NewGate(model, effort), events);
    SentMeansUnrefused(g);
    if g.log != [] {
      assert ForThisTurn(g, g.log[0]);
    }
  }

  /** A callback decodes exactly if it belongs to the last start and nothing was made of that yet. */
  lemma {:induction false} HearMeans(model: Name, effort: Name, events: seq<Event>, i: nat)
    requires IsRun(NewGate(model, effort), events) && Enabled(After(NewGate(model, effort), events), Hear(i))
    ensures var g := After(NewGate(model, effort), events);
            i == |g.log| - 1 && i in Heard(g, i).decoding && i !in g.decoding
  {
    NewGateOk(model, effort);
    RunKeepsGateOk(NewGate(model, effort), events);
    RunKeepsAnswerOk(NewGate(model, effort), events);
  }

  /** In every run, decoding logs the reply as it came; the gate is open again exactly after a
      reconnect with attempts left that could be noted, and each such reconnect is counted. */
  lemma {:induction false} DecodeMeans(model: Name, effort: Name, events: seq<Event>, i: nat, reply: Reply,
                                       stored: bool)
    requires IsRun(NewGate(model, effort), events)
    requires Enabled(After(NewGate(model, effort), events), Decode(i, reply, stored))
    ensures var g := After(NewGate(model, effort), events);
            var g' := Decoded(g, i, reply, stored);
            var again := reply.Reconnecting? && |g.log| < 3;
            && g'.log == g.log[i := g.log[i].(reply := Some(reply))]
            && (g'.sent <==> !(again && stored))
            && g'.requestId == (if again || reply.Unusable? then g.requestId else Some(reply.id))
            && g'.reconnects == g.reconnects + (if again then 1 else 0)
            && g'.attempts == g.attempts && g'.closed == g.closed && g'.violation == g.violation
  {
    NewGateOk(model, effort);
    RunKeepsGateOk(NewGate(model, effort), events);
  }

  lemma {:induction false} EventKeepsIdentity(g: Gate, e: Event)
    requires Enabled(g, e)
    ensures Apply(g, e).model == g.model && Apply(g, e).effort == g.effort
  {
  }

  lemma {:induction false} RunKeepsIdentity(g: Gate, events: seq<Event>)
    requires IsRun(g, events)
    ensures After(g, events).model == g.model && After(g, events).effort == g.effort
    decreases |events|
  {
    if events != [] {
      EventKeepsIdentity(g, events[0]);
      RunKeepsIdentity(Apply(g, events[0]), events[1..]);
    }
  }

  lemma {:induction false} ClosedStep(g: Gate, e: Event)
    requires GateOk(g) && g.closed && Enabled(g, e)
    ensures Apply(g, e).closed && |Apply(g, e).log| == |g.log|
    ensures !g.sent ==> !Apply(g, e).sent && Apply(g, e).log == g.log
    ensures forall i :: 0 <= i < |g.log| ==> Refused(g.log[i]) ==> Refused(Apply(g, e).log[i])
  {
    assert forall i :: 0 <= i < |g.log| && !g.log[i].heard ==> i == |g.log| - 1 && g.sent;
    assert e.Decode? ==> !Refused(g.log[e.index]);
  }

  /** After `close` no start goes out, and a gate closed with nothing outstanding
      stays that way: the verdict "not submitted" cannot be overtaken. */
  lemma {:induction false} ClosedForGood(g: Gate, events: seq<Event>)
    requires GateOk(g) && g.closed && IsRun(g, events)
    ensures After(g, events).closed && |After(g, events).log| == |g.log|
    ensures !g.sent ==> !After(g, events).sent && After(g, events).log == g.log
    ensures forall i :: 0 <= i < |g.log| ==> Refused(g.log[i]) ==> Refused(After(g, events).log[i])
    decreases |events|
  {
    if events != [] {
      ClosedStep(g, events[0]);
      EventKeepsGateOk(g, events[0]);
      ClosedForGood(Apply(g, events[0]), events[1..]);
    }
  }

  // ---------------------------------------------------------------- the object

  class BrowserStart {
    const model: Name
    const effort: Name
    var project: Option<Name>
    var armed: bool
    var sent: bool
    var closed: bool
    var violation: bool
    var fingerprint: Option<Body>
    var intent: Option<Name>
    var attempts: nat
    var reconnects: nat
    var requestId: Option<Name>
    var response: Future
    ghost var log: seq<Start>
    ghost var decoding: set<nat>

    ghost function View(): Gate
      reads this
    {
      Gate(model, effort, project, armed, sent, closed, violation, fingerprint, intent,
           attempts, reconnects, requestId, response, log, decoding)
    }

    constructor (model: Name, effort: Name)
      ensures View() == NewGate(model, effort)
    {
      this.model, this.effort, project := model, effort, None;
      armed, sent, closed, violation := false, false, false, false;
      fingerprint, intent, attempts, reconnects := None, None, 0, 0;
      requestId, response, log, decoding := None, Waiting, [], {};
    }

    /** The end of the preparation in `run`: the project is known and the page may start. */
    method ArmFor(project: Name)
      requires Enabled(View(), Arm(project))
      modifies this
      ensures View() == Apply(old(View()), Arm(project))
    {
      this.project := Some(project);
      armed := true;
    }

    /** True exactly when the page's start is sent on. */
    method RouteStart(body: Body, post: bool) returns (through: bool)
      modifies this
      ensures View() == Apply(old(View()), Route(body, post))
      ensures through == (|log| == |old(log)| + 1)
      ensures through ==> !old(closed) && !old(sent) && sent
    {
      if !closed && armed && !sent && post && body.metadata.Some?
         && body.metadata.value.model == model && body.metadata.value.effort == effort
         && Some(body.metadata.value.project) == project
      {
        if intent.Some? && intent != Some(body.intent) {
          violation := true;
          return false;
        }
        intent := Some(body.intent);
        attempts := attempts + 1;
        sent := true;
        fingerprint := Some(body);
        log := log + [Start(body, false, None)];
        return true;
      }
      violation := true;
      return false;
    }

    /** The response callback up to its first suspension. */
    method HearResponse(body: Body, ghost index: nat) returns (decode: bool)
      requires Enabled(View(), Hear(index)) && log[index].body == body
      modifies this`log, this`decoding
      ensures View() == Apply(old(View()), Hear(index))
      ensures decode <==> old(fingerprint) == Some(body) && response.Waiting?
      ensures decode ==> index in decoding
    {
      log := log[index := log[index].(heard := true)];
      decode := fingerprint == Some(body) && response.Waiting?;
      if decode {
        decoding := decoding + {index};
      }
    }

    /** The rest of the response callback. */
    method DecodeResponse(reply: Reply, stored: bool, ghost index: nat)
      requires Enabled(View(), Decode(index, reply, stored))
      modifies this
      ensures View() == Apply(old(View()), Decode(index, reply, stored))
    {
      log := log[index := log[index].(reply := Some(reply))];
      decoding := decoding - {index};
      if reply.Reconnecting? && attempts < MAX_STARTS {
        reconnects := reconnects + 1;
        if stored {
          sent := false;
          fingerprint := None;
          return;
        }
      } else if !reply.Unusable? {
        requestId := Some(reply.id);
        response := Resolve(response, true);
        return;
      }
      response := Resolve(response, false);
    }

    method Shut()
      modifies this`closed
      ensures View() == Apply(old(View()), Close)
    {
      closed := true;
    }
  }
}

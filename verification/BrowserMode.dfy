/** Browser mode, where the page polls for itself: `StartGate` and `BrowserRequest` of
    prism-adapter/server.py.

    Requests of the page and answers of the provider arrive in any order. Decoding an answer
    lets the page run on, so a poll may come before the id it must carry is known; one such
    poll is held back until then. */
module BrowserMode {
  import opened Prelude

  /** A value read from JSON, as far as the source tells them apart. */
  datatype Value = Missing | Empty | Odd | Text(name: Name)

  datatype Start = Start(model: Value, effort: Value, project: Value)

  /** A request of the page. Its body may not decode; `start` is its `metadata`, if that is
      an object; `id` its `request_id`, if the body is an object. */
  datatype Request =
    | ToStart(serial: nat, decodes: bool, start: Option<Start>)
    | ToStatus(serial: nat, decodes: bool, id: Option<Value>)

  /** An answer: whether it decodes as JSON and is an object, its `request_id`, whether it ends
      the turn, and how updating the pending record with what it says fares. */
  datatype Answer = Answer(decodes: bool, isObject: bool, id: Value, terminal: bool, update: Update)

  /** The record is updated; it is no JSON, which the handler swallows; or the disk fails. */
  datatype Update = Stored | Unreadable | Broken

  /** Model, effort and project of the turn. */
  datatype Terms = Terms(model: Name, effort: Name, project: Name)

  /** What was let through to the provider. */
  datatype Passage = StartPassed(start: Start) | PollPassed(id: Value)

  /** `accepted` are the requests let through, `first` the start among them, `answered`
      those already answered. */
  datatype State = State(
    armed: bool, sent: bool, failed: bool, id: Option<Name>, held: Option<Request>, terminal: bool,
    accepted: set<Request>, first: Option<Request>, answered: set<Request>, passed: seq<Passage>)

  const Fresh := State(false, false, false, None, None, false, {}, None, {}, [])

  /** A request gets at most one answer. */
  datatype Event = Arm | Route(request: Request) | Respond(request: Request, answer: Answer)

  // ---------------------------------------------------------------- the handlers as functions

  /** `StartGate.accept`, and the project check that follows it. */
  predicate StartAllowed(terms: Terms, s: State, r: Request) {
    && r.ToStart? && r.decodes && s.armed && !s.sent
    && r.start == Some(Start(Text(terms.model), Text(terms.effort), Text(terms.project)))
  }

  predicate PollAllowed(s: State, r: Request) {
    r.ToStatus? && r.decodes && !s.terminal && s.sent && s.id.Some? && r.id == Some(Text(s.id.value))
  }

  predicate PollHeld(s: State, r: Request) {
    r.ToStatus? && r.decodes && s.sent && s.id.None? && s.held.None? && r.id.Some?
  }

  function Routed(terms: Terms, s: State, r: Request): State {
    if StartAllowed(terms, s, r) then
      s.(sent := true, first := Some(r), accepted := s.accepted + {r},
         passed := s.passed + [StartPassed(r.start.value)])
    else if PollHeld(s, r) then s.(held := Some(r))
    else if PollAllowed(s, r) then s.(accepted := s.accepted + {r}, passed := s.passed + [PollPassed(r.id.value)])
    else s.(failed := s.failed || r.ToStart? || !r.decodes)
  }

  /** The poll that was held back is judged like any other, once. */
  function Unheld(terms: Terms, s: State): State {
    if s.id.Some? && s.held.Some? then Routed(terms, s.(held := None), s.held.value) else s
  }

  predicate IsForeign(id: Option<Name>, v: Value) {
    id.Some? && v != Missing && v != Empty && v != Text(id.value)
  }

  /** Only the start's answer names the id. */
  function IdAfter(s: State, r: Request, v: Value): Option<Name> {
    if !r.ToStart? || v == Missing || v == Odd then s.id else if v.Text? then Some(v.name) else None
  }

  function Responded(terms: Terms, s: State, r: Request, a: Answer): State {
    if r !in s.accepted then s
    else
      var s1 := s.(answered := s.answered + {r});
      if !a.decodes then Unheld(terms, s1)
      else if !a.isObject then s1
      else if IsForeign(s.id, a.id) then s1.(failed := true)
      else
        var id := IdAfter(s, r, a.id);
        if id.Some? && a.update.Broken? then s1.(id := id)
        else if id.Some? && a.update.Unreadable? then Unheld(terms, s1.(id := id))
        else Unheld(terms, s1.(id := id, terminal := s.terminal || a.terminal))
  }

  predicate Enabled(s: State, e: Event) {
    match e
    case Arm => true
    case Route(r) => r !in s.accepted && s.held != Some(r)
    case Respond(r, _) => r !in s.answered
  }

  function Apply(terms: Terms, s: State, e: Event): State {
    match e
    case Arm => s.(armed := true)
    case Route(r) => Routed(terms, s, r)
    case Respond(r, a) => Responded(terms, s, r, a)
  }

  // ---------------------------------------------------------------- invariant

  predicate IsStart(terms: Terms, p: Passage) {
    p == StartPassed(Start(Text(terms.model), Text(terms.effort), Text(terms.project)))
  }

  predicate IsPoll(p: Passage, id: Option<Name>) {
    id.Some? && p == PollPassed(Text(id.value))
  }

  predicate PollsOnly(passed: seq<Passage>, id: Option<Name>) {
    forall i :: 1 <= i < |passed| ==> IsPoll(passed[i], id)
  }

  /** Nothing was let through, or one start and then only polls with the one known id. */
  predicate PassedOk(terms: Terms, s: State) {
    && (s.passed != [] <==> s.sent)
    && (s.sent ==> IsStart(terms, s.passed[0]))
    && PollsOnly(s.passed, s.id)
  }

  predicate HeldOk(s: State) {
    s.held.Some? ==> s.sent && s.held.value.ToStatus? && s.held.value !in s.accepted
  }

  /** There is one start among the accepted requests, and no id before it is answered. */
  predicate AnswersOk(s: State) {
    && s.answered <= s.accepted
    && (s.sent <==> s.first.Some?)
    && (s.sent ==> s.first.value in s.accepted && s.first.value.ToStart?)
    && (forall q :: q in s.accepted && q.ToStart? ==> s.first == Some(q))
    && (s.id.Some? ==> s.sent && s.first.value in s.answered)
    && (!s.sent ==> s.accepted == {} && !s.terminal)
  }

  predicate Inv(terms: Terms, s: State) {
    PassedOk(terms, s) && HeldOk(s) && AnswersOk(s)
  }

  lemma {:induction false} RoutedKeepsInv(terms: Terms, s: State, r: Request)
    requires Inv(terms, s) && r !in s.accepted && s.held != Some(r)
    ensures Inv(terms, Routed(terms, s, r))
  {
  }

  lemma {:induction false} UnheldKeepsInv(terms: Terms, s: State)
    requires Inv(terms, s)
    ensures Inv(terms, Unheld(terms, s))
  {
    if s.id.Some? && s.held.Some? {
      var s0 := s.(held := None);
      RoutedKeepsInv(terms, s0, s.held.value);
    }
  }

  /** An answer can set the id only while no poll has been let through. */
  lemma {:induction false} LearnedKeepsInv(terms: Terms, s: State, r: Request, v: Value, terminal: bool)
    requires Inv(terms, s) && r in s.accepted && r !in s.answered && !IsForeign(s.id, v)
    ensures Inv(terms, s.(answered := s.answered + {r}, id := IdAfter(s, r, v), terminal := terminal))
  {
  }

  lemma {:induction false} RespondedKeepsInv(terms: Terms, s: State, r: Request, a: Answer)
    requires Inv(terms, s) && r !in s.answered
    ensures Inv(terms, Responded(terms, s, r, a))
  {
    if r in s.accepted {
      LearnedKeepsInv(terms, s, r, Missing, s.terminal);
      if !a.decodes {
        UnheldKeepsInv(terms, s.(answered := s.answered + {r}));
      } else if a.isObject && !IsForeign(s.id, a.id) {
        var id := IdAfter(s, r, a.id);
        LearnedKeepsInv(terms, s, r, a.id, s.terminal);
        UnheldKeepsInv(terms, s.(answered := s.answered + {r}, id := id));
        LearnedKeepsInv(terms, s, r, a.id, s.terminal || a.terminal);
        UnheldKeepsInv(terms, s.(answered := s.answered + {r}, id := id, terminal := s.terminal || a.terminal));
      }
    }
  }

  lemma {:induction false} StepKeepsInv(terms: Terms, s: State, e: Event)
    requires Inv(terms, s) && Enabled(s, e)
    ensures Inv(terms, Apply(terms, s, e))
  {
    match e
    case Arm =>
    case Route(r) => RoutedKeepsInv(terms, s, r);
    case Respond(r, a) => RespondedKeepsInv(terms, s, r, a);
  }

  // ---------------------------------------------------------------- runs

  predicate IsRun(terms: Terms, s: State, events: seq<Event>)
    decreases |events|
  {
    events != [] ==> Enabled(s, events[0]) && IsRun(terms, Apply(terms, s, events[0]), events[1..])
  }

  function After(terms: Terms, s: State, events: seq<Event>): State
    requires IsRun(terms, s, events)
    decreases |events|
  {
    if events == [] then s else After(terms, Apply(terms, s, events[0]), events[1..])
  }

  lemma {:induction false} RunKeepsInv(terms: Terms, s: State, events: seq<Event>)
    requires Inv(terms, s) && IsRun(terms, s, events)
    ensures Inv(terms, After(terms, s, events))
    decreases |events|
  {
    if events != [] {
      StepKeepsInv(terms, s, events[0]);
      RunKeepsInv(terms, Apply(terms, s, events[0]), events[1..]);
    }
  }

  /** Under any sequence of requests and answers at most one start is let through, it comes
      first and has the turn's model, effort and project; every poll let through, held back
      before or not, carries the id that the start's answer gave. */
  lemma {:induction false} OneStartThenItsPolls(terms: Terms, events: seq<Event>, i: nat)
    requires IsRun(terms, Fresh, events) && i < |After(terms, Fresh, events).passed|
    ensures var s := After(terms, Fresh, events);
            if i == 0 then IsStart(terms, s.passed[i]) else IsPoll(s.passed[i], s.id)
  {
    RunKeepsInv(terms, Fresh, events);
  }

  /** Nothing passes once a start is out and a terminal is known. */
  predicate Frozen(s: State, s': State) {
    s'.passed == s.passed && s'.terminal && s'.sent
  }

  lemma {:induction false} RoutedFrozen(terms: Terms, s: State, r: Request)
    requires s.sent && s.terminal
    ensures Frozen(s, Routed(terms, s, r))
  {
  }

  lemma {:induction false} UnheldFrozen(terms: Terms, s: State)
    requires s.sent && s.terminal
    ensures Frozen(s, Unheld(terms, s))
  {
    if s.id.Some? && s.held.Some? {
      RoutedFrozen(terms, s.(held := None), s.held.value);
    }
  }

  lemma {:induction false} RespondedFrozen(terms: Terms, s: State, r: Request, a: Answer)
    requires s.sent && s.terminal
    ensures Frozen(s, Responded(terms, s, r, a))
  {
    var s1 := s.(answered := s.answered + {r});
    UnheldFrozen(terms, s1);
    UnheldFrozen(terms, s1.(id := IdAfter(s, r, a.id)));
    UnheldFrozen(terms, s1.(id := IdAfter(s, r, a.id), terminal := s.terminal || a.terminal));
  }

  lemma {:induction false} TerminalStep(terms: Terms, s: State, e: Event)
    requires s.sent && s.terminal
    ensures Frozen(s, Apply(terms, s, e))
  {
    match e
    case Arm =>
    case Route(r) => RoutedFrozen(terms, s, r);
    case Respond(r, a) => RespondedFrozen(terms, s, r, a);
  }

  lemma {:induction false} TerminalFreezes(terms: Terms, s: State, events: seq<Event>)
    requires s.sent && s.terminal && IsRun(terms, s, events)
    ensures Frozen(s, After(terms, s, events))
    decreases |events|
  {
    if events != [] {
      TerminalStep(terms, s, events[0]);
      TerminalFreezes(terms, Apply(terms, s, events[0]), events[1..]);
    }
  }

  /** In every run, after a terminal answer nothing more is let through, whatever follows. */
  lemma {:induction false} TerminalIsFinal(terms: Terms, events: seq<Event>, s: State, more: seq<Event>)
    requires IsRun(terms, Fresh, events) && After(terms, Fresh, events) == s && s.terminal
    requires IsRun(terms, s, more)
    ensures After(terms, s, more).passed == s.passed && After(terms, s, more).terminal
  {
    RunKeepsInv(terms, Fresh, events);
    TerminalFreezes(terms, s, more);
  }

  // ---------------------------------------------------------------- what a run has seen

  /** The request is the turn's start: armed for, not sent before, with its model, effort and project. */
  predicate IsTheStart(terms: Terms, s: State, r: Request) {
    && r.ToStart? && r.decodes && s.armed && !s.sent && r.start.Some?
    && r.start.value.model == Text(terms.model) && r.start.value.effort == Text(terms.effort)
    && r.start.value.project == Text(terms.project)
  }

  /** What is let through, held back and refused, request by request. */
  lemma {:induction false} RouteMeans(terms: Terms, s: State, r: Request)
    ensures var s' := Routed(terms, s, r);
            && (s'.passed != s.passed
                <==> IsTheStart(terms, s, r)
                     || (r.ToStatus? && r.decodes && s.sent && !s.terminal
                         && s.id.Some? && r.id == Some(Text(s.id.value))))
            && (IsTheStart(terms, s, r) ==> s'.sent && s'.first == Some(r))
            && (s'.held != s.held ==> s'.held == Some(r))
            && (r.ToStatus? && r.decodes && s.sent && s.id.None? && s.held.None? && r.id.Some? ==> s'.held == Some(r))
            && (s'.accepted == if s'.passed == s.passed then s.accepted else s.accepted + {r})
            && (s'.failed <==> s.failed || !r.decodes || (r.ToStart? && !IsTheStart(terms, s, r)))
  {
  }

  /** The event is one that makes the turn fail: a start that is not the turn's, a body that
      does not decode, or an answer under another id than the one known. */
  predicate Fails(terms: Terms, s: State, e: Event) {
    match e
    case Arm => false
    case Route(r) => !r.decodes || (r.ToStart? && !IsTheStart(terms, s, r))
    case Respond(r, a) =>
      && r in s.accepted && a.decodes && a.isObject && s.id.Some?
      && a.id != Missing && a.id != Empty && a.id != Text(s.id.value)
  }

  /** The event is a terminal answer to a request let through, under no other id than the one
      known, and the record was updated if an id is known by then. */
  predicate Ends(s: State, e: Event) {
    && e.Respond? && e.request in s.accepted && e.answer.decodes && e.answer.isObject && e.answer.terminal
    && (s.id.Some? ==> e.answer.id in {Missing, Empty, Text(s.id.value)})
    && (e.answer.update == Stored
        || (s.id.None? && !(e.request.ToStart? && e.answer.id.Text?))
        || (e.request.ToStart? && e.answer.id == Empty))
  }

  /** The event is the start's answer, and names the id. */
  predicate Learns(s: State, e: Event, id: Name) {
    && e.Respond? && e.request in s.accepted && e.request.ToStart? && e.answer.decodes && e.answer.isObject
    && e.answer.id == Text(id)
  }

  predicate SomeFails(terms: Terms, s: State, events: seq<Event>)
    decreases |events|
  {
    events != [] && (Fails(terms, s, events[0]) || SomeFails(terms, Apply(terms, s, events[0]), events[1..]))
  }

  predicate SomeEnds(terms: Terms, s: State, events: seq<Event>)
    decreases |events|
  {
    events != [] && (Ends(s, events[0]) || SomeEnds(terms, Apply(terms, s, events[0]), events[1..]))
  }

  predicate SomeLearns(terms: Terms, s: State, events: seq<Event>, id: Name)
    decreases |events|
  {
    events != [] && (Learns(s, events[0], id) || SomeLearns(terms, Apply(terms, s, events[0]), events[1..], id))
  }

  /** Releasing the held poll makes nothing known. */
  lemma {:induction false} UnheldTeachesNothing(terms: Terms, s: State)
    requires HeldDecodes(s)
    ensures var s' := Unheld(terms, s);
            s'.failed == s.failed && s'.terminal == s.terminal && s'.id == s.id && HeldDecodes(s')
  {
  }

  /** What is held back is a poll whose body decodes. */
  predicate HeldDecodes(s: State) {
    s.held.Some? ==> s.held.value.ToStatus? && s.held.value.decodes
  }

  lemma {:induction false} RespondFails(terms: Terms, s: State, r: Request, a: Answer)
    requires HeldDecodes(s)
    ensures Responded(terms, s, r, a).failed <==> s.failed || Fails(terms, s, Respond(r, a))
    ensures HeldDecodes(Responded(terms, s, r, a))
  {
    RespondUnheld(terms, s, r, a);
  }

  lemma {:induction false} RespondEnds(terms: Terms, s: State, r: Request, a: Answer)
    requires HeldDecodes(s)
    ensures Responded(terms, s, r, a).terminal <==> s.terminal || Ends(s, Respond(r, a))
  {
    RespondUnheld(terms, s, r, a);
  }

  lemma {:induction false} RespondLearns(terms: Terms, s: State, r: Request, a: Answer, id: Name)
    requires Inv(terms, s) && HeldDecodes(s) && r !in s.answered
    ensures Responded(terms, s, r, a).id == Some(id) <==> s.id == Some(id) || Learns(s, Respond(r, a), id)
  {
    RespondUnheld(terms, s, r, a);
  }

  /** The held poll is released at most after everything is known. */
  lemma {:induction false} RespondUnheld(terms: Terms, s: State, r: Request, a: Answer)
    requires HeldDecodes(s)
    ensures var s1 := s.(answered := s.answered + {r});
            var s2 := s1.(id := IdAfter(s, r, a.id));
            var s3 := s2.(terminal := s.terminal || a.terminal);
            forall x :: x in {s1, s2, s3} ==>
              var s' := Unheld(terms, x);
              s'.failed == x.failed && s'.terminal == x.terminal && s'.id == x.id && HeldDecodes(s')
  {
    var s1 := s.(answered := s.answered + {r});
    var s2 := s1.(id := IdAfter(s, r, a.id));
    UnheldTeachesNothing(terms, s1);
    UnheldTeachesNothing(terms, s2);
    UnheldTeachesNothing(terms, s2.(terminal := s.terminal || a.terminal));
  }

  /** What one event makes known. */
  lemma {:induction false} StepMeans(terms: Terms, s: State, e: Event, id: Name)
    requires Inv(terms, s) && HeldDecodes(s) && Enabled(s, e)
    ensures var s' := Apply(terms, s, e);
            && (s'.failed <==> s.failed || Fails(terms, s, e))
            && (s'.terminal <==> s.terminal || Ends(s, e))
            && (s'.id == Some(id) <==> s.id == Some(id) || Learns(s, e, id))
            && HeldDecodes(s')
  {
    match e
    case Arm =>
    case Route(r) => RouteMeans(terms, s, r);
    case Respond(r, a) =>
      RespondFails(terms, s, r, a);
      RespondEnds(terms, s, r, a);
      RespondLearns(terms, s, r, a, id);
  }

  lemma {:induction false} RunMeansFrom(terms: Terms, s: State, events: seq<Event>, id: Name)
    requires Inv(terms, s) && HeldDecodes(s) && IsRun(terms, s, events)
    ensures var s' := After(terms, s, events);
            && (s'.failed <==> s.failed || SomeFails(terms, s, events))
            && (s'.terminal <==> s.terminal || SomeEnds(terms, s, events))
            && (s'.id == Some(id) <==> s.id == Some(id) || SomeLearns(terms, s, events, id))
    decreases |events|
  {
    if events != [] {
      StepMeans(terms, s, events[0], id);
      StepKeepsInv(terms, s, events[0]);
      RunMeansFrom(terms, Apply(terms, s, events[0]), events[1..], id);
    }
  }

  /** In every run the turn has failed exactly if some event was a failure, is over exactly if
      some terminal answer counted, and knows exactly the id its start's answer gave. */
  lemma {:induction false} RunMeans(terms: Terms, events: seq<Event>, id: Name)
    requires IsRun(terms, Fresh, events)
    ensures var s := After(terms, Fresh, events);
            && (s.failed <==> SomeFails(terms, Fresh, events))
            && (s.terminal <==> SomeEnds(terms, Fresh, events))
            && (s.id == Some(id) <==> SomeLearns(terms, Fresh, events, id))
  {
    RunMeansFrom(terms, Fresh, events, id);
  }

  // ---------------------------------------------------------------- the held poll

  function TheStart(terms: Terms): Start {
    Start(Text(terms.model), Text(terms.effort), Text(terms.project))
  }

  /** The page's start goes out, it polls at once, and then the start is answered. */
  function EarlyPoll(terms: Terms, id: Name, polled: Value): seq<Event> {
    var start, poll := ToStart(0, true, Some(TheStart(terms))), ToStatus(1, true, Some(polled));
    [Arm, Route(start), Route(poll), Respond(start, Answer(true, true, Text(id), false, Stored))]
  }

  lemma {:induction false} EventFirst(terms: Terms, s: State, e: Event, rest: seq<Event>, end: State)
    requires Enabled(s, e) && IsRun(terms, Apply(terms, s, e), rest) && After(terms, Apply(terms, s, e), rest) == end
    ensures IsRun(terms, s, [e] + rest) && After(terms, s, [e] + rest) == end
  {
    assert ([e] + rest)[0] == e && ([e] + rest)[1..] == rest;
  }

  /** Where the first three events lead: the start is out and the poll is held. */
  function Holding(terms: Terms, start: Request, poll: Request): State {
    State(true, true, false, None, Some(poll), false, {start}, Some(start), {}, [StartPassed(TheStart(terms))])
  }

  lemma {:induction false} PollIsHeld(terms: Terms, start: Request, poll: Request)
    requires start == ToStart(0, true, Some(TheStart(terms))) && poll.ToStatus? && poll.decodes && poll.id.Some?
    ensures var s1 := Apply(terms, Fresh, Arm);
            var s2 := Apply(terms, s1, Route(start));
            && Enabled(s1, Route(start)) && Enabled(s2, Route(poll))
            && Apply(terms, s2, Route(poll)) == Holding(terms, start, poll)
  {
    assert ([] + [StartPassed(TheStart(terms))])[0] == StartPassed(TheStart(terms));
  }

  lemma {:induction false} HeldIsJudged(terms: Terms, start: Request, poll: Request, id: Name, polled: Value)
    requires start == ToStart(0, true, Some(TheStart(terms))) && poll == ToStatus(1, true, Some(polled))
    ensures var answer := Answer(true, true, Text(id), false, Stored);
            var s := Apply(terms, Holding(terms, start, poll), Respond(start, answer));
            && s.passed == [StartPassed(TheStart(terms))] + (if polled == Text(id) then [PollPassed(Text(id))] else [])
            && s.id == Some(id) && s.held == None && !s.failed && !s.terminal
  {
  }

  /** A poll that came too early goes out once the start is answered exactly if it carries the
      id the answer gave; in either case nothing stays held and the turn goes on. */
  lemma {:induction false} EarlyPollIsJudged(terms: Terms, id: Name, polled: Value)
    ensures IsRun(terms, Fresh, EarlyPoll(terms, id, polled))
    ensures var s := After(terms, Fresh, EarlyPoll(terms, id, polled));
            && s.passed == [StartPassed(TheStart(terms))] + (if polled == Text(id) then [PollPassed(Text(id))] else [])
            && s.id == Some(id) && s.held == None && !s.failed && !s.terminal
  {
    var start, poll := ToStart(0, true, Some(TheStart(terms))), ToStatus(1, true, Some(polled));
    var answer := Respond(start, Answer(true, true, Text(id), false, Stored));
    var s1 := Apply(terms, Fresh, Arm);
    var s2 := Apply(terms, s1, Route(start));
    var s3 := Holding(terms, start, poll);
    var s4 := Apply(terms, s3, answer);
    PollIsHeld(terms, start, poll);
    HeldIsJudged(terms, start, poll, id, polled);
    EventFirst(terms, s3, answer, [], s4);
    EventFirst(terms, s2, Route(poll), [answer] + [], s4);
    EventFirst(terms, s1, Route(start), [Route(poll)] + ([answer] + []), s4);
    EventFirst(terms, Fresh, Arm, [Route(start)] + ([Route(poll)] + ([answer] + [])), s4);
    assert EarlyPoll(terms, id, polled) == [Arm] + ([Route(start)] + ([Route(poll)] + ([answer] + [])));
  }

  // ---------------------------------------------------------------- the object

  class BrowserRequest {
    const terms: Terms
    var armed: bool
    var sent: bool
    var failed: bool
    var id: Option<Name>
    var held: Option<Request>
    var terminal: bool
    var accepted: set<Request>
    ghost var first: Option<Request>
    ghost var answered: set<Request>
    ghost var passed: seq<Passage>

    ghost function Now(): State
      reads this
    {
      State(armed, sent, failed, id, held, terminal, accepted, first, answered, passed)
    }

    constructor (terms: Terms)
      ensures this.terms == terms && Now() == Fresh
    {
      this.terms := terms;
      armed, sent, failed, id, held, terminal, accepted := false, false, false, None, None, false, {};
      first, answered, passed := None, {}, [];
    }

    method ArmStart()
      modifies this
      ensures Now() == Apply(terms, old(Now()), Arm)
    {
      armed := true;
    }

    /** `route`: whether the request is continued now. */
    method RouteRequest(r: Request) returns (go: bool)
      modifies this
      ensures Now() == Routed(terms, old(Now()), r)
      ensures go <==> passed != old(passed)
    {
      go := false;
      if r.ToStart? {
        var wanted := Start(Text(terms.model), Text(terms.effort), Text(terms.project));
        if r.decodes && armed && !sent && r.start == Some(wanted) {
          sent, accepted, go := true, accepted + {r}, true;
          first, passed := Some(r), passed + [StartPassed(r.start.value)];
        } else {
          failed := true;
        }
      } else if !r.decodes {
        failed := true;
      } else if sent && id.None? && held.None? && r.id.Some? {
        held := Some(r);
      } else if !terminal && sent && id.Some? && r.id == Some(Text(id.value)) {
        accepted, go := accepted + {r}, true;
        passed := passed + [PollPassed(r.id.value)];
      }
    }

    /** The end of `response`: the held poll, if any, is routed again. */
    method Reroute()
      modifies this
      ensures Now() == Unheld(terms, old(Now()))
    {
      if id.Some? && held.Some? {
        var poll := held.value;
        held := None;
        var _ := RouteRequest(poll);
      }
    }

    /** `response`; an answer that does not decode teaches nothing. */
    method Response(r: Request, a: Answer)
      modifies this
      ensures Now() == Responded(terms, old(Now()), r, a)
    {
      if r !in accepted {
        return;
      }
      answered := answered + {r};
      if a.decodes {
        if !a.isObject {
          return;
        }
        if IsForeign(id, a.id) {
          failed := true;
          return;
        }
        if r.ToStart? && (a.id.Text? || a.id.Empty?) {
          id := if a.id.Text? then Some(a.id.name) else None;
        }
        if id.Some? && a.update.Broken? {
          return;
        }
        if id.None? || a.update.Stored? {
          terminal := terminal || a.terminal;
        }
      }
      Reroute();
    }
  }
}

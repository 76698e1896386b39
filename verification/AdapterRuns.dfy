/** The adapter as a whole: requests that reserve tool results, run a turn through a
    start gate, and settle the lease, in every interleaving and with process deaths.

    This is the reserve/run/complete part of `Handler.do_POST` (prism-adapter/server.py)
    around `MultiplexBrowser.run` (prism-adapter/multiplex_browser.py). The result is
    `AtMostOnce`: the result of an issued tool call is the fresh input of at most one
    upstream start that may have executed. */
module AdapterRuns {
  import opened Prelude
  import L = Leases
  import G = StartGate

  datatype Stage =
    | Running                  // inside `browser_turn.run`
    | Raised(release: bool)    // an error reached the handler, read as "not submitted" or not
    | Terminal                 // `run` returned the upstream answer
    | Settled                  // the handler, or its process, is done

  /** A request past `reserve`: `calls` are those whose results it presents first. */
  datatype Turn = Turn(scope: string, calls: set<string>, gate: G.Gate, stage: Stage)

  datatype System = System(table: L.Table, turns: map<string, Turn>)

  datatype Step =
    | Reserve(lease: string, scope: string, calls: seq<L.Call>, results: map<string, string>, needsFresh: bool,
              model: Name, effort: Name)
    | AtGate(lease: string, event: G.Event)
      // admission, account, cooldown or memory refused the turn before it was armed
    | Refuse(lease: string, release: bool)
      // `run` failed after closing its gate: the error says whether a start is out
    | Fail(lease: string)
      // a deadline or a lost executor; the turn itself may go on unobserved
    | Abandon(lease: string)
    | Return(lease: string)
    | NotSent(lease: string)
    | Keep(lease: string)
    | Complete(lease: string, group: string, calls: seq<L.Call>)
    | Crash

  predicate At(s: System, lease: string, stage: Stage) {
    lease in s.turns && s.turns[lease].stage == stage
  }

  predicate Enabled(s: System, step: Step) {
    match step
    case Reserve(lease, _, calls, _, _, _, _) => lease !in s.turns && L.DistinctIds(calls)
    case AtGate(lease, e) => lease in s.turns && G.Enabled(s.turns[lease].gate, e)
    case Refuse(lease, _) => At(s, lease, Running) && !s.turns[lease].gate.armed
    case Fail(lease) => At(s, lease, Running) && s.turns[lease].gate.closed
    case Abandon(lease) => At(s, lease, Running)
    case Return(lease) => At(s, lease, Running) && G.HasAnswer(s.turns[lease].gate)
    case NotSent(lease) => At(s, lease, Raised(true))
    case Keep(lease) => At(s, lease, Raised(false))
    case Complete(lease, _, _) => At(s, lease, Terminal)
    case Crash => true
  }

  function Moved(s: System, lease: string, stage: Stage): System
    requires lease in s.turns
  {
    s.(turns := s.turns[lease := s.turns[lease].(stage := stage)])
  }

  function Shut(g: G.Gate): G.Gate {
    G.Apply(g, G.Close)
  }

  function Reserved(s: System, lease: string, scope: string, calls: seq<L.Call>, results: map<string, string>,
                    needsFresh: bool, model: Name, effort: Name): System {
    match L.ReserveOutcome(s.table, scope, calls, results, lease, needsFresh)
    case Err(_) => s
    case Ok((table, unseen)) =>
      System(table, s.turns[lease := Turn(scope, (set id | id in unseen), G.NewGate(model, effort), Running)])
  }

  function Completed(s: System, lease: string, group: string, calls: seq<L.Call>): System
    requires lease in s.turns
  {
    match L.CompleteOutcome(s.table, s.turns[lease].scope, lease, group, calls)
    case Err(_) => Moved(s, lease, Settled)
    case Ok(table) => Moved(s, lease, Settled).(table := table)
  }

  function Apply(s: System, step: Step): System
    requires Enabled(s, step)
  {
    match step
    case Reserve(lease, scope, calls, results, needsFresh, model, effort) =>
      Reserved(s, lease, scope, calls, results, needsFresh, model, effort)
    case AtGate(lease, e) =>
      s.(turns := s.turns[lease := s.turns[lease].(gate := G.Apply(s.turns[lease].gate, e))])
    case Refuse(lease, release) =>
      s.(turns := s.turns[lease := s.turns[lease].(gate := Shut(s.turns[lease].gate), stage := Raised(release))])
    case Fail(lease) => Moved(s, lease, Raised(!s.turns[lease].gate.sent))
    case Abandon(lease) => Moved(s, lease, Raised(false))
    case Return(lease) => Moved(s, lease, Terminal)
    case NotSent(lease) =>
      Moved(s, lease, Settled).(table := L.Release(s.table, s.turns[lease].scope, lease))
    case Keep(lease) => Moved(s, lease, Settled)
    case Complete(lease, group, calls) => Completed(s, lease, group, calls)
    case Crash =>
      // Memory is gone; the table is not. Starts already sent stay sent.
      s.(turns := map lease | lease in s.turns ::
           s.turns[lease].(gate := Shut(s.turns[lease].gate), stage := Settled))
  }

  predicate IsRun(s: System, steps: seq<Step>)
    decreases |steps|
  {
    steps != [] ==> Enabled(s, steps[0]) && IsRun(Apply(s, steps[0]), steps[1..])
  }

  function After(s: System, steps: seq<Step>): System
    requires IsRun(s, steps)
    decreases |steps|
  {
    if steps == [] then s else After(Apply(s, steps[0]), steps[1..])
  }

  // ---------------------------------------------------------------- invariant

  /** A turn that can still do something with its results. */
  predicate Active(turn: Turn) {
    !turn.gate.closed || !turn.stage.Settled?
  }

  /** The turn's own part of the invariant: what it has reserved is still its own
      while it is active, and never becomes anyone else's once a start is out. */
  predicate TurnOk(t: L.Table, lease: string, turn: Turn) {
    && (forall id :: id in turn.calls ==> id in t && t[id].scope == turn.scope)
    && (Active(turn) ==> forall id :: id in turn.calls ==> t[id].lease == Some(lease))
    && (turn.gate.sent ==> forall id :: id in turn.calls ==> t[id].phase.Consumed? || t[id].lease == Some(lease))
    && (turn.stage == Raised(true) ==> turn.gate.closed && !turn.gate.sent)
    && (turn.stage == Terminal ==> turn.gate.closed)
  }

  predicate TurnsOk(s: System) {
    forall lease :: lease in s.turns ==> TurnOk(s.table, lease, s.turns[lease])
  }

  /** Turns with a start out share no call. */
  predicate SendersApart(turns: map<string, Turn>) {
    forall a, b :: a in turns && b in turns && a != b && turns[a].gate.sent && turns[b].gate.sent
      ==> turns[a].calls !! turns[b].calls
  }

  predicate Inv(s: System) {
    L.TableOk(s.table) && TurnsOk(s) && SendersApart(s.turns)
  }

  ghost predicate GatesOk(s: System) {
    forall lease :: lease in s.turns ==> G.GateOk(s.turns[lease].gate)
  }

  lemma {:induction false} StepKeepsGates(s: System, step: Step)
    requires GatesOk(s) && Enabled(s, step)
    ensures GatesOk(Apply(s, step))
  {
    var s' := Apply(s, step);
    forall lease | lease in s'.turns
      ensures G.GateOk(s'.turns[lease].gate)
    {
      if lease !in s.turns {
        G.NewGateOk(step.model, step.effort);
      } else if step.AtGate? && lease == step.lease {
        G.EventKeepsGateOk(s.turns[lease].gate, step.event);
      } else {
        G.EventKeepsGateOk(s.turns[lease].gate, G.Close);
      }
    }
  }

  predicate AnswersOk(s: System) {
    forall lease :: lease in s.turns ==> G.AnswerOk(s.turns[lease].gate)
  }

  lemma {:induction false} StepKeepsAnswers(s: System, step: Step)
    requires GatesOk(s) && AnswersOk(s) && Enabled(s, step)
    ensures AnswersOk(Apply(s, step))
  {
    var s' := Apply(s, step);
    forall lease | lease in s'.turns
      ensures G.AnswerOk(s'.turns[lease].gate)
    {
      GateAfter(s, step, lease);
      if lease !in s.turns {
        G.NewAnswerOk(step.model, step.effort);
      } else if step.AtGate? && lease == step.lease {
        G.EventKeepsAnswerOk(s.turns[lease].gate, step.event);
      } else {
        G.EventKeepsAnswerOk(s.turns[lease].gate, G.Close);
      }
    }
  }

  /** A step makes a new gate, passes an event to one, or at most shuts it. */
  lemma {:induction false} GateAfter(s: System, step: Step, lease: string)
    requires Enabled(s, step) && lease in Apply(s, step).turns
    ensures var gate := Apply(s, step).turns[lease].gate;
            if lease !in s.turns then step.Reserve? && gate == G.NewGate(step.model, step.effort)
            else if step.AtGate? && lease == step.lease then gate == G.Apply(s.turns[lease].gate, step.event)
            else gate == s.turns[lease].gate || gate == Shut(s.turns[lease].gate)
  {
  }

  /** A turn that could still start shares no call with one that has: they would
      both hold the same row. */
  lemma {:induction false} NewcomerIsApart(s: System, a: string, b: string)
    requires Inv(s) && a in s.turns && b in s.turns && a != b
    requires Active(s.turns[a]) && s.turns[b].gate.sent
    ensures s.turns[a].calls !! s.turns[b].calls
  {
    assert TurnOk(s.table, a, s.turns[a]) && TurnOk(s.table, b, s.turns[b]);
    forall id | id in s.turns[a].calls
      ensures id !in s.turns[b].calls
    {
      assert L.RowOk(s.table[id]);
    }
  }

  /** A turn does not notice changes to rows that are not its own. */
  lemma {:induction false} UntouchedTurn(t: L.Table, u: L.Table, lease: string, turn: Turn, changed: set<string>)
    requires L.TableOk(t) && TurnOk(t, lease, turn)
    requires t.Keys <= u.Keys
    requires forall id :: id in t && id !in changed ==> u[id] == t[id]
    requires forall id :: id in t ==> u[id].scope == t[id].scope
    requires forall id :: id in changed && id in t ==> !t[id].phase.Consumed? && t[id].lease != Some(lease)
    ensures TurnOk(u, lease, turn)
  {
  }

  /** Replacing one turn, and possibly the table under all of them. */
  lemma {:induction false} PutTurn(s: System, u: L.Table, lease: string, turn: Turn)
    requires L.TableOk(u) && SendersApart(s.turns)
    requires forall other :: other in s.turns && other != lease ==> TurnOk(u, other, s.turns[other])
    requires TurnOk(u, lease, turn)
    requires turn.gate.sent ==> forall other :: other in s.turns && other != lease && s.turns[other].gate.sent
                                  ==> turn.calls !! s.turns[other].calls
    ensures Inv(System(u, s.turns[lease := turn]))
  {
  }

  lemma {:induction false} ReservedRows(t: L.Table, scope: string, calls: seq<L.Call>, results: map<string, string>,
                                        lease: string, needsFresh: bool)
    requires L.TableOk(t) && L.ReserveOutcome(t, scope, calls, results, lease, needsFresh).Ok?
    ensures var (u, unseen) := L.ReserveOutcome(t, scope, calls, results, lease, needsFresh).value;
            && L.TableOk(u) && u.Keys == t.Keys
            && (forall id :: id in t ==> u[id].scope == t[id].scope)
            && (forall id :: id in t && id !in unseen ==> u[id] == t[id])
            && (forall id :: id in unseen ==>
                  id in t && t[id].phase.Issued? && t[id].lease.None? && u[id].scope == scope
                      && u[id].lease == Some(lease))
  {
    L.StepKeepsTableOk(t, L.DoReserve(scope, calls, results, lease, needsFresh));
    var unseen := L.Unseen(t, calls);
    forall id | id in unseen
      ensures id in t && id in results && t[id].scope == scope && t[id].phase.Issued? && t[id].lease.None?
    {
      L.UnseenRow(t, scope, calls, results, id);
      assert L.RowOk(t[id]);
    }
  }

  lemma {:induction false} ReserveKeepsInv(s: System, lease: string, scope: string, calls: seq<L.Call>,
                                           results: map<string, string>,
                                           needsFresh: bool, model: Name, effort: Name)
    requires Inv(s) && lease !in s.turns
    ensures Inv(Reserved(s, lease, scope, calls, results, needsFresh, model, effort))
  {
    var outcome := L.ReserveOutcome(s.table, scope, calls, results, lease, needsFresh);
    if outcome.Ok? {
      var s' := Reserved(s, lease, scope, calls, results, needsFresh, model, effort);
      ReservedRows(s.table, scope, calls, results, lease, needsFresh);
      var unseen := set id | id in outcome.value.1;
      forall other | other in s.turns
        ensures TurnOk(s'.table, other, s.turns[other])
      {
        UntouchedTurn(s.table, s'.table, other, s.turns[other], unseen);
      }
      PutTurn(s, s'.table, lease, s'.turns[lease]);
    }
  }

  lemma {:induction false} GateKeepsInv(s: System, lease: string, e: G.Event)
    requires Inv(s) && GatesOk(s) && Enabled(s, AtGate(lease, e))
    ensures Inv(Apply(s, AtGate(lease, e)))
  {
    var turn := s.turns[lease];
    var turn' := turn.(gate := G.Apply(turn.gate, e));
    GateTurn(s.table, lease, turn, e);
    forall other | other in s.turns && other != lease && s.turns[other].gate.sent && turn'.gate.sent
      ensures turn.calls !! s.turns[other].calls
    {
      if !turn.gate.sent {
        NewcomerIsApart(s, lease, other);
      }
    }
    PutTurn(s, s.table, lease, turn');
  }

  /** An event at the gate sends a start only while the gate, so the turn, is active. */
  lemma {:induction false} GateTurn(t: L.Table, lease: string, turn: Turn, e: G.Event)
    requires TurnOk(t, lease, turn) && G.GateOk(turn.gate) && G.Enabled(turn.gate, e)
    ensures TurnOk(t, lease, turn.(gate := G.Apply(turn.gate, e)))
    ensures G.Apply(turn.gate, e).sent && !turn.gate.sent ==> Active(turn)
  {
    if turn.gate.closed {
      G.ClosedStep(turn.gate, e);
    } else {
      OpenStep(turn.gate, e);
    }
  }

  lemma {:induction false} OpenStep(g: G.Gate, e: G.Event)
    requires !g.closed && G.Enabled(g, e)
    ensures G.Apply(g, e).closed == e.Close?
  {
  }

  /** Changes to one turn that leave the table and the gate's `sent` alone. */
  lemma {:induction false} MoveKeepsInv(s: System, lease: string, turn: Turn)
    requires Inv(s) && lease in s.turns
    requires turn.calls == s.turns[lease].calls
    requires TurnOk(s.table, lease, turn) && turn.gate.sent == s.turns[lease].gate.sent
    ensures Inv(s.(turns := s.turns[lease := turn]))
  {
  }

  /** Settling a lease changes only rows that carry it. */
  lemma {:induction false} SettleKeepsInv(s: System, lease: string, u: L.Table)
    requires Inv(s) && lease in s.turns && L.TableOk(u)
    requires s.table.Keys <= u.Keys
    requires forall id :: id in s.table ==> u[id].scope == s.table[id].scope
    requires forall id :: id in s.table && s.table[id].lease != Some(lease) ==> u[id] == s.table[id]
    requires TurnOk(u, lease, s.turns[lease].(stage := Settled))
    ensures Inv(Moved(s, lease, Settled).(table := u))
  {
    var changed := set id | id in s.table && s.table[id].lease == Some(lease);
    forall id | id in changed
      ensures !s.table[id].phase.Consumed?
    {
      assert L.RowOk(s.table[id]);
    }
    forall other | other in s.turns && other != lease
      ensures TurnOk(u, other, s.turns[other])
    {
      UntouchedTurn(s.table, u, other, s.turns[other], changed);
    }
  }

  lemma {:induction false} NotSentKeepsInv(s: System, lease: string)
    requires Inv(s) && Enabled(s, NotSent(lease))
    ensures Inv(Apply(s, NotSent(lease)))
  {
    var turn := s.turns[lease];
    L.StepKeepsTableOk(s.table, L.DoNotSent(turn.scope, lease));
    assert TurnOk(s.table, lease, turn);
    SettleKeepsInv(s, lease, L.Release(s.table, turn.scope, lease));
  }

  lemma {:induction false} CompletedRows(t: L.Table, scope: string, lease: string, group: string, calls: seq<L.Call>)
    requires L.TableOk(t) && L.CompleteOutcome(t, scope, lease, group, calls).Ok?
    ensures var u := L.CompleteOutcome(t, scope, lease, group, calls).value;
            && L.TableOk(u) && t.Keys <= u.Keys
            && (forall id :: id in t ==> u[id].scope == t[id].scope)
            && (forall id :: id in t && !L.Holds(t[id], scope, lease) ==> u[id] == t[id])
            && (forall id :: id in t && L.Holds(t[id], scope, lease) ==> u[id].phase.Consumed?)
  {
    L.CompleteKeepsTableOk(t, scope, lease, group, calls);
    L.InsertedKeys(t, scope, group, calls);
    var v := L.Inserted(t, scope, group, calls);
    forall id | id in t
      ensures v[id] == t[id]
    {
      L.InsertedRow(t, scope, group, calls, id);
    }
  }

  lemma {:induction false} CompleteKeepsInv(s: System, lease: string, group: string, calls: seq<L.Call>)
    requires Inv(s) && Enabled(s, Complete(lease, group, calls))
    ensures Inv(Apply(s, Complete(lease, group, calls)))
  {
    var turn := s.turns[lease];
    assert TurnOk(s.table, lease, turn);
    if L.CompleteOutcome(s.table, turn.scope, lease, group, calls).Ok? {
      CompletedRows(s.table, turn.scope, lease, group, calls);
      SettleKeepsInv(s, lease, L.CompleteOutcome(s.table, turn.scope, lease, group, calls).value);
    } else {
      MoveKeepsInv(s, lease, turn.(stage := Settled));
    }
  }

  lemma {:induction false} CrashKeepsInv(s: System)
    requires Inv(s)
    ensures Inv(Apply(s, Crash))
  {
    var s' := Apply(s, Crash);
    assert s'.turns.Keys == s.turns.Keys;
    forall lease | lease in s'.turns
      ensures TurnOk(s'.table, lease, s'.turns[lease])
      ensures s'.turns[lease].calls == s.turns[lease].calls && s'.turns[lease].gate.sent == s.turns[lease].gate.sent
    {
      assert TurnOk(s.table, lease, s.turns[lease]);
    }
  }

  lemma {:induction false} StepKeepsInv(s: System, step: Step)
    requires Inv(s) && GatesOk(s) && Enabled(s, step)
    ensures Inv(Apply(s, step))
  {
    match step
    case Reserve(lease, scope, calls, results, needsFresh, model, effort) =>
      ReserveKeepsInv(s, lease, scope, calls, results, needsFresh, model, effort);
    case AtGate(lease, e) => GateKeepsInv(s, lease, e);
    case NotSent(lease) => NotSentKeepsInv(s, lease);
    case Complete(lease, group, calls) => CompleteKeepsInv(s, lease, group, calls);
    case Crash => CrashKeepsInv(s);
    case _ => QuietStepKeepsInv(s, step);
  }

  lemma {:induction false} QuietStepKeepsInv(s: System, step: Step)
    requires Inv(s) && GatesOk(s) && Enabled(s, step)
    requires step.Refuse? || step.Fail? || step.Abandon? || step.Return? || step.Keep?
    ensures Inv(Apply(s, step))
  {
    var turn := s.turns[step.lease];
    assert TurnOk(s.table, step.lease, turn);
    if step.Refuse? {
      UnarmedIsUnsent(turn.gate);
    }
    MoveKeepsInv(s, step.lease, Apply(s, step).turns[step.lease]);
  }

  lemma {:induction false} UnarmedIsUnsent(g: G.Gate)
    requires G.GateOk(g) && !g.armed
    ensures !g.sent
  {
  }

  lemma {:induction false} RunKeepsInv(s: System, steps: seq<Step>)
    requires Inv(s) && GatesOk(s) && IsRun(s, steps)
    ensures Inv(After(s, steps)) && GatesOk(After(s, steps))
    decreases |steps|
  {
    if steps != [] {
      StepKeepsInv(s, steps[0]);
      StepKeepsGates(s, steps[0]);
      RunKeepsInv(Apply(s, steps[0]), steps[1..]);
    }
  }

  // ---------------------------------------------------------------- results

  const Fresh := System(map[], map[])

  /** The `i`-th start of this turn went out and was not answered with an explicit
      reconnect: it executed, or it may have. */
  predicate MayHaveExecuted(turn: Turn, i: nat) {
    i < |turn.gate.log| && !G.Refused(turn.gate.log[i])
  }

  /** Over every interleaving of requests, failures and process deaths, the result of
      a tool call is the fresh input of at most one start that may have executed. */
  lemma {:induction false} AtMostOnce(steps: seq<Step>, id: string, a: string, i: nat, b: string, j: nat)
    requires IsRun(Fresh, steps)
    requires var s := After(Fresh, steps);
             && a in s.turns && id in s.turns[a].calls && MayHaveExecuted(s.turns[a], i)
             && b in s.turns && id in s.turns[b].calls && MayHaveExecuted(s.turns[b], j)
    ensures a == b && i == j
  {
    RunKeepsInv(Fresh, steps);
    var s := After(Fresh, steps);
    assert TurnOk(s.table, a, s.turns[a]) && TurnOk(s.table, b, s.turns[b]);
    ExecutedIsLast(s.turns[a], i);
    ExecutedIsLast(s.turns[b], j);
  }

  lemma {:induction false} ExecutedIsLast(turn: Turn, i: nat)
    requires G.GateOk(turn.gate) && MayHaveExecuted(turn, i)
    ensures turn.gate.sent && i == |turn.gate.log| - 1
  {
  }

  /** As long as a start may have executed, no later request is given its tool
      results as fresh input: it is refused or the results are already consumed. */
  lemma {:induction false} UnknownIsNeverReplayed(steps: seq<Step>, lease: string, i: nat, id: string,
                                                  scope: string, calls: seq<L.Call>, results: map<string, string>,
                                                  other: string, needsFresh: bool)
    requires IsRun(Fresh, steps)
    requires var s := After(Fresh, steps);
             lease in s.turns && id in s.turns[lease].calls && MayHaveExecuted(s.turns[lease], i)
    ensures id in After(Fresh, steps).table
    ensures match L.ReserveOutcome(After(Fresh, steps).table, scope, calls, results, other, needsFresh)
            case Ok((_, unseen)) =>
              id !in unseen && (id in L.Ids(calls) ==> After(Fresh, steps).table[id].phase.Consumed?)
            case Err(_) => true
  {
    RunKeepsInv(Fresh, steps);
    var s := After(Fresh, steps);
    assert TurnOk(s.table, lease, s.turns[lease]);
    ExecutedIsLast(s.turns[lease], i);
    assert L.RowOk(s.table[id]);
    L.UnseenIds(s.table, calls, id);
    if s.table[id].phase.Reserved? && id in L.Ids(calls) {
      L.ReservedBlocks(s.table, scope, calls, results, other, needsFresh, id);
    }
  }

  lemma {:induction false} RunKeepsAnswers(s: System, steps: seq<Step>)
    requires GatesOk(s) && AnswersOk(s) && IsRun(s, steps)
    ensures GatesOk(After(s, steps)) && AnswersOk(After(s, steps))
    decreases |steps|
  {
    if steps != [] {
      StepKeepsAnswers(s, steps[0]);
      StepKeepsGates(s, steps[0]);
      RunKeepsAnswers(Apply(s, steps[0]), steps[1..]);
    }
  }

  /** In every run, a turn returns an answer, and so can complete, only if its last start came
      back with a request id and did not invite another try. */
  lemma {:induction false} ReturnMeansAnswered(steps: seq<Step>, lease: string)
    requires IsRun(Fresh, steps) && Enabled(After(Fresh, steps), Return(lease))
    ensures var log := After(Fresh, steps).turns[lease].gate.log;
            log != [] && log[|log| - 1].reply.Some? && G.IsFinal(log[|log| - 1].reply.value, |log|)
  {
    RunKeepsAnswers(Fresh, steps);
    var gate := After(Fresh, steps).turns[lease].gate;
    assert G.GateOk(gate) && G.AnswerOk(gate);
  }

  /** In every run, a request that needs fresh input and presents only calls that are consumed
      changes nothing: no turn runs for it. */
  lemma {:induction false} ReplayStartsNothing(steps: seq<Step>, lease: string, scope: string, calls: seq<L.Call>,
                                               results: map<string, string>, model: Name, effort: Name)
    requires IsRun(Fresh, steps)
    requires Enabled(After(Fresh, steps), Reserve(lease, scope, calls, results, true, model, effort))
    requires forall i :: 0 <= i < |calls| ==> !L.IsIssued(After(Fresh, steps).table, calls[i].0)
    ensures Apply(After(Fresh, steps), Reserve(lease, scope, calls, results, true, model, effort))
         == After(Fresh, steps)
  {
    L.ReserveAdmits(After(Fresh, steps).table, scope, calls, results, lease, true);
  }

  /** In every run, a turn that needed fresh input holds some: a call issued before and
      reserved by this turn now. */
  lemma {:induction false} FreshTurnHoldsFresh(steps: seq<Step>, lease: string, scope: string, calls: seq<L.Call>,
                                               results: map<string, string>, model: Name, effort: Name, s': System)
    requires IsRun(Fresh, steps)
    requires Enabled(After(Fresh, steps), Reserve(lease, scope, calls, results, true, model, effort))
    requires s' == Apply(After(Fresh, steps), Reserve(lease, scope, calls, results, true, model, effort))
    requires lease in s'.turns
    ensures exists id :: id in s'.turns[lease].calls && L.IsIssued(After(Fresh, steps).table, id)
                         && L.IsReservedBy(s'.table, id, lease)
  {
    var t := After(Fresh, steps).table;
    L.ReserveAdmits(t, scope, calls, results, lease, true);
    L.ReserveMarks(t, scope, calls, results, lease, true);
    var i :| 0 <= i < |calls| && L.IsIssued(t, calls[i].0);
    assert calls[i].0 in L.Ids(calls);
    assert calls[i].0 in s'.turns[lease].calls;
  }

  /** The results of a turn that failed with nothing outstanding can be presented again: once
      it is released, each call it held is issued as before. */
  lemma {:induction false} UnsentIsIssuedAgain(steps: seq<Step>, lease: string, id: string)
    requires IsRun(Fresh, steps)
    requires Enabled(After(Fresh, steps), Fail(lease)) && !After(Fresh, steps).turns[lease].gate.sent
    requires id in After(Fresh, steps).turns[lease].calls
    ensures var failed := Apply(After(Fresh, steps), Fail(lease));
            && Enabled(failed, NotSent(lease))
            && L.IsIssued(Apply(failed, NotSent(lease)).table, id)
  {
    RunKeepsInv(Fresh, steps);
    var s := After(Fresh, steps);
    assert TurnOk(s.table, lease, s.turns[lease]);
  }

  /** A lease is released only for a turn none of whose starts executed, and none
      ever will: its gate is shut for good. */
  lemma {:induction false} ReleasedMeansUnsent(steps: seq<Step>, lease: string, events: seq<G.Event>)
    requires IsRun(Fresh, steps)
    requires Enabled(After(Fresh, steps), NotSent(lease))
    requires G.IsRun(After(Fresh, steps).turns[lease].gate, events)
    ensures var gate := G.After(After(Fresh, steps).turns[lease].gate, events);
            forall i :: 0 <= i < |gate.log| ==> G.Refused(gate.log[i])
  {
    RunKeepsInv(Fresh, steps);
    var s := After(Fresh, steps);
    assert TurnOk(s.table, lease, s.turns[lease]);
    G.ClosedForGood(s.turns[lease].gate, events);
  }

  // ---------------------------------------------------------------- the theorems speak of something

  lemma {:induction false} StepFirst(s: System, step: Step, rest: seq<Step>, end: System)
    requires Enabled(s, step) && IsRun(Apply(s, step), rest) && After(Apply(s, step), rest) == end
    ensures IsRun(s, [step] + rest) && After(s, [step] + rest) == end
  {
    assert ([step] + rest)[1..] == rest;
  }

  /** A table with one issued call, and what reserving it gives. */
  lemma {:induction false} OneCall(table: L.Table)
    requires table == map["c" := L.Row("s", "f", "g", L.Issued, None, None)]
    ensures L.CompleteOutcome(map[], "s", "one", "g", [("c", "f")]) == Ok(table)
    ensures var r := L.ReserveOutcome(table, "s", [("c", "f")], map["c" := "h"], "two", true);
            r.Ok? && r.value.1 == ["c"]
  {
    var calls: seq<L.Call> := [("c", "f")];
    assert calls[..0] == [];
    assert L.Inserted(map[], "s", "g", calls) == table;
    assert L.Consume(table, "s", "one") == table;
    assert L.GroupOf(table, "s", "g") == {"c"};
    assert L.Unseen(table, calls) == ["c"];
  }

  /** A request that presents the call's result and lets its start out. */
  lemma {:induction false} SecondRequest(s: System, model: Name, effort: Name,
                                         body: G.Body) returns (steps: seq<Step>, end: System)
    requires s.table == map["c" := L.Row("s", "f", "g", L.Issued, None, None)] && "two" !in s.turns
    requires body.metadata.Some? && body.metadata.value.model == model && body.metadata.value.effort == effort
    ensures IsRun(s, steps) && After(s, steps) == end
    ensures "two" in end.turns && "c" in end.turns["two"].calls && MayHaveExecuted(end.turns["two"], 0)
  {
    OneCall(s.table);
    var a := Reserve("two", "s", [("c", "f")], map["c" := "h"], true, model, effort);
    var s1 := Apply(s, a);
    assert "two" in s1.turns && s1.turns["two"].calls == {"c"};
    var b := AtGate("two", G.Arm(body.metadata.value.project));
    var s2 := Apply(s1, b);
    var c := AtGate("two", G.Route(body, true));
    end := Apply(s2, c);
    StepFirst(s2, c, [], end);
    StepFirst(s1, b, [c] + [], end);
    StepFirst(s, a, [b] + ([c] + []), end);
    steps := [a] + ([b] + ([c] + []));
  }

  /** A request without tool results, at some stage. */
  function Alone(gate: G.Gate, stage: Stage): System {
    System(map[], map["one" := Turn("s", {}, gate, stage)])
  }

  lemma {:induction false} FirstReserve(model: Name, effort: Name)
    ensures Reserved(Fresh, "one", "s", [], map[], false, model, effort) == Alone(G.NewGate(model, effort), Running)
  {
    var unseen := L.Unseen(map[], []);
    assert unseen == [] && (set id | id in unseen) == {};
    assert L.Mark(map[], unseen, map[], "one") == map[];
  }

  /** What happens at the gate happens to the request. */
  lemma {:induction false} GateRun(gate: G.Gate, events: seq<G.Event>) returns (steps: seq<Step>)
    requires G.IsRun(gate, events)
    ensures IsRun(Alone(gate, Running), steps)
    ensures After(Alone(gate, Running), steps) == Alone(G.After(gate, events), Running)
    decreases |events|
  {
    if events == [] {
      steps := [];
    } else {
      var next := G.Apply(gate, events[0]);
      var rest := GateRun(next, events[1..]);
      assert Apply(Alone(gate, Running), AtGate("one", events[0])) == Alone(next, Running);
      StepFirst(Alone(gate, Running), AtGate("one", events[0]), rest, Alone(G.After(gate, events), Running));
      steps := [AtGate("one", events[0])] + rest;
    }
  }

  /** The gate of a turn that armed, sent, heard and decoded a usable answer, and closed. */
  lemma {:induction false} AnsweredGate(model: Name, effort: Name, body: G.Body,
                                        id: Name) returns (events: seq<G.Event>)
    requires body.metadata.Some? && body.metadata.value.model == model && body.metadata.value.effort == effort
    ensures G.IsRun(G.NewGate(model, effort), events) && G.HasAnswer(G.After(G.NewGate(model, effort), events))
  {
    var a, b, c := G.Arm(body.metadata.value.project), G.Route(body, true), G.Hear(0);
    var d, e := G.Decode(0, G.Answered(id), true), G.Close;
    var g1 := G.Apply(G.NewGate(model, effort), a);
    var g2 := G.Apply(g1, b);
    assert g2.log == [G.Start(body, false, None)];
    var g3 := G.Apply(g2, c);
    assert 0 in g3.decoding;
    var g4 := G.Apply(g3, d);
    var g5 := G.Apply(g4, e);
    assert G.HasAnswer(g5);
    G.EventFirst(g4, e, [], g5);
    G.EventFirst(g3, d, [e], g5);
    G.EventFirst(g2, c, [d, e], g5);
    G.EventFirst(g1, b, [c, d, e], g5);
    G.EventFirst(G.NewGate(model, effort), a, [b, c, d, e], g5);
    events := [a, b, c, d, e];
  }

  lemma {:induction false} FirstComplete(gate: G.Gate)
    ensures Enabled(Alone(gate, Terminal), Complete("one", "g", [("c", "f")]))
    ensures var end := Apply(Alone(gate, Terminal), Complete("one", "g", [("c", "f")]));
            end.table == map["c" := L.Row("s", "f", "g", L.Issued, None, None)] && "two" !in end.turns
  {
    OneCall(map["c" := L.Row("s", "f", "g", L.Issued, None, None)]);
    assert "one" != "two";
  }

  /** Its start is answered, and its answer issues a call. */
  lemma {:induction false} FirstRequest(model: Name, effort: Name, body: G.Body, id: Name) returns (steps: seq<Step>,
                                        end: System)
    requires body.metadata.Some? && body.metadata.value.model == model && body.metadata.value.effort == effort
    ensures IsRun(Fresh, steps) && After(Fresh, steps) == end
    ensures end.table == map["c" := L.Row("s", "f", "g", L.Issued, None, None)] && "two" !in end.turns
  {
    FirstReserve(model, effort);
    var gate := G.NewGate(model, effort);
    var events := AnsweredGate(model, effort, body, id);
    var done := G.After(gate, events);
    var waiting := GateRun(gate, events);
    var s3, complete := Alone(done, Terminal), Complete("one", "g", [("c", "f")]);
    FirstComplete(done);
    end := Apply(s3, complete);
    StepFirst(s3, complete, [], end);
    assert Apply(Alone(done, Running), Return("one")) == s3;
    StepFirst(Alone(done, Running), Return("one"), [complete] + [], end);
    var tail := [Return("one")] + ([complete] + []);
    RunInTurn(Alone(gate, Running), waiting, tail);
    StepFirst(Fresh, Reserve("one", "s", [], map[], false, model, effort), waiting + tail, end);
    steps := [Reserve("one", "s", [], map[], false, model, effort)] + (waiting + tail);
  }

  lemma {:induction false} RunInTurn(s: System, a: seq<Step>, b: seq<Step>)
    requires IsRun(s, a) && IsRun(After(s, a), b)
    ensures IsRun(s, a + b) && After(s, a + b) == After(After(s, a), b)
    decreases |a|
  {
    if a == [] {
      assert a + b == b;
    } else {
      RunInTurn(Apply(s, a[0]), a[1..], b);
      assert (a + b)[1..] == a[1..] + b;
    }
  }

  /** There is a run in which the result of an issued call is the fresh input of a start
      that may have executed: a first request sends its start, is answered and completes with
      a call; a second presents the call's result and lets its start out. */
  lemma {:induction false} ExecutionIsReachable(model: Name, effort: Name, body: G.Body,
                                                id: Name) returns (steps: seq<Step>)
    requires body.metadata.Some? && body.metadata.value.model == model && body.metadata.value.effort == effort
    ensures IsRun(Fresh, steps)
    ensures var s := After(Fresh, steps);
            "two" in s.turns && "c" in s.turns["two"].calls && MayHaveExecuted(s.turns["two"], 0)
  {
    var first, middle := FirstRequest(model, effort, body, id);
    var second, end := SecondRequest(middle, model, effort, body);
    RunInTurn(Fresh, first, second);
    steps := first + second;
  }
}

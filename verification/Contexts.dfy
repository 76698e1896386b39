/** Browser contexts, one per account, and the projects remembered in them: `account`, `run`
    and `prune` of `MultiplexBrowser`, and `projects` of `AccountBrowser`, in
    prism-adapter/multiplex_browser.py.

    `account` holds a lock across its `await`s, so while a context is being opened turns may
    end but no other context is taken, evicted or pruned. */
module Contexts {
  import opened Prelude

  /** An open context; `projects` maps sessions to the project last used. */
  datatype Actor = Actor(serial: nat, credential: Name, refs: nat, projects: map<Name, nat>)

  /** A turn in flight; `shared` is its session if it may reuse a project. */
  datatype Turn = Turn(account: Name, session: Option<Name>, shared: Option<Name>, actor: nat, project: Option<nat>)

  /** A context being opened for a turn. */
  datatype Pending = Pending(turn: nat, account: Name, credential: Name, session: Option<Name>, reuse: bool)

  /** A turn's choice of a project. */
  datatype Use = Use(turn: nat, account: Name, shared: Option<Name>, project: nat)

  /** `closed` are the contexts closed so far; `born` lists the projects created so far, each
      with the account and the sharing session it was created for. */
  datatype State = State(
    actors: map<Name, Actor>, turns: map<nat, Turn>, closed: set<nat>, serial: nat,
    born: seq<(Name, Option<Name>)>, lock: Option<Pending>, uses: seq<Use>)

  const Fresh := State(map[], map[], {}, 0, [], None, [])

  datatype Step =
    | Ask(turn: nat, account: Name, credential: Name, session: Option<Name>, reuse: bool, victim: Name)
    | Opened(ok: bool)
    | Choose(turn: nat, recent: bool)
    | Leave(turn: nat, succeeded: bool, forgotten: set<Name>)
    | Prune(accounts: set<Name>)

  predicate IsIdle(actors: map<Name, Actor>, account: Name) {
    account in actors && actors[account].refs == 0
  }

  predicate Stale(actors: map<Name, Actor>, account: Name, credential: Name) {
    account in actors && actors[account].credential != credential
  }

  /** The turn's name for reuse, and its record. */
  function Joined(p: Pending, serial: nat): Turn {
    Turn(p.account, p.session, if p.reuse then p.session else None, serial, None)
  }

  function Join(s: State, p: Pending): State
    requires p.account in s.actors
  {
    var actor := s.actors[p.account];
    s.(actors := s.actors[p.account := actor.(refs := actor.refs + 1)],
       turns := s.turns[p.turn := Joined(p, actor.serial)])
  }

  /** Close an idle context and go on to open another; `close` comes after `pop`. */
  function Dropped(s: State, account: Name): State {
    if account !in s.actors then s
    else s.(actors := s.actors - {account}, closed := s.closed + {s.actors[account].serial})
  }

  /** `account`, up to the `await` that opens a context. */
  function Asked(max: nat, s: State, p: Pending, victim: Name): State {
    if p.account in s.actors && !Stale(s.actors, p.account, p.credential) then Join(s, p)
    else if p.account in s.actors && s.actors[p.account].refs > 0 then s
    else
      var s1 := Dropped(s, p.account);
      if |s1.actors| < max then s1.(lock := Some(p))
      else if IsIdle(s1.actors, victim) then Dropped(s1, victim).(lock := Some(p))
      else s
  }

  function Added(s: State, p: Pending): State {
    s.(actors := s.actors[p.account := Actor(s.serial, p.credential, 1, map[])], serial := s.serial + 1,
       turns := s.turns[p.turn := Joined(p, s.serial)], lock := None)
  }

  /** The project remembered for the session, if it is recent; otherwise a new one. */
  function Chosen(s: State, turn: nat, recent: bool): State
    requires turn in s.turns && s.turns[turn].account in s.actors
  {
    var t := s.turns[turn];
    var known := s.actors[t.account].projects;
    var reused := recent && t.shared.Some? && t.shared.value in known;
    var project := if reused then known[t.shared.value] else |s.born|;
    s.(turns := s.turns[turn := t.(project := Some(project))],
       uses := s.uses + [Use(turn, t.account, t.shared, project)],
       born := if reused then s.born else s.born + [(t.account, t.shared)])
  }

  /** What the context remembers after the turn. */
  function Remembered(known: map<Name, nat>, t: Turn, succeeded: bool, forgotten: set<Name>): map<Name, nat> {
    if succeeded then
      (if t.shared.Some? && t.project.Some? then known[t.shared.value := t.project.value] else known) - forgotten
    else if t.session.Some? then known - {t.session.value}
    else known
  }

  function Left(s: State, turn: nat, succeeded: bool, forgotten: set<Name>): State
    requires turn in s.turns && s.turns[turn].account in s.actors && s.actors[s.turns[turn].account].refs > 0
  {
    var t := s.turns[turn];
    var actor := s.actors[t.account];
    s.(turns := s.turns - {turn},
       actors := s.actors[t.account := actor.(refs := actor.refs - 1,
                                              projects := Remembered(actor.projects, t, succeeded, forgotten))])
  }

  function Pruned(s: State, accounts: set<Name>): State {
    s.(actors := map a | a in s.actors && !(a in accounts && s.actors[a].refs == 0) :: s.actors[a],
       closed := s.closed + (set a | a in s.actors && a in accounts && s.actors[a].refs == 0 :: s.actors[a].serial))
  }

  /** The victim is idle if any context is. */
  predicate Enabled(s: State, step: Step) {
    match step
    case Ask(turn, _, _, _, _, victim) =>
      && s.lock.None? && turn !in s.turns
      && (forall a :: a in s.actors && s.actors[a].refs == 0 ==> IsIdle(s.actors, victim))
    case Opened(_) => s.lock.Some? && s.lock.value.turn !in s.turns
    case Choose(turn, _) => turn in s.turns && s.turns[turn].project.None? && s.turns[turn].account in s.actors
    case Leave(turn, succeeded, _) =>
      && turn in s.turns && s.turns[turn].account in s.actors && s.actors[s.turns[turn].account].refs > 0
      && (succeeded ==> s.turns[turn].project.Some?)
    case Prune(_) => s.lock.None?
  }

  function Apply(max: nat, s: State, step: Step): State
    requires Enabled(s, step)
  {
    match step
    case Ask(turn, account, credential, session, reuse, victim) =>
      Asked(max, s, Pending(turn, account, credential, session, reuse), victim)
    case Opened(ok) => if ok then Added(s, s.lock.value) else s.(lock := None)
    case Choose(turn, recent) => Chosen(s, turn, recent)
    case Leave(turn, succeeded, forgotten) => Left(s, turn, succeeded, forgotten)
    case Prune(accounts) => Pruned(s, accounts)
  }

  // ---------------------------------------------------------------- invariant

  function TurnsOf(turns: map<nat, Turn>, account: Name): set<nat> {
    set i | i in turns && turns[i].account == account
  }

  /** `refs` counts the turns in flight on this very context. */
  predicate ActorOk(turns: map<nat, Turn>, closed: set<nat>, serial: nat, account: Name, actor: Actor) {
    && actor.refs == |TurnsOf(turns, account)|
    && actor.serial < serial && actor.serial !in closed
  }

  predicate TurnOk(actors: map<Name, Actor>, t: Turn) {
    && t.account in actors && actors[t.account].serial == t.actor
    && (t.shared.Some? ==> t.session == t.shared)
  }

  predicate ActorsOk(actors: map<Name, Actor>, turns: map<nat, Turn>, closed: set<nat>, serial: nat) {
    && (forall a :: a in actors ==> ActorOk(turns, closed, serial, a, actors[a]))
    && (forall i :: i in closed ==> i < serial)
  }

  predicate SerialsDiffer(actors: map<Name, Actor>) {
    forall a, b :: a in actors && b in actors && actors[a].serial == actors[b].serial ==> a == b
  }

  predicate TurnsOk(actors: map<Name, Actor>, turns: map<nat, Turn>) {
    forall i :: i in turns ==> TurnOk(actors, turns[i])
  }

  predicate RoomOk(max: nat, s: State) {
    |s.actors| <= max && (s.lock.Some? ==> |s.actors| < max && s.lock.value.account !in s.actors)
  }

  /** What a context remembers was created for this account and session. */
  predicate EntryOk(born: seq<(Name, Option<Name>)>, account: Name, session: Name, project: nat) {
    project < |born| && born[project] == (account, Some(session))
  }

  predicate EntriesOk(born: seq<(Name, Option<Name>)>, account: Name, projects: map<Name, nat>) {
    forall session :: session in projects ==> EntryOk(born, account, session, projects[session])
  }

  predicate ProjectsOk(born: seq<(Name, Option<Name>)>, actors: map<Name, Actor>) {
    forall a :: a in actors ==> EntriesOk(born, a, actors[a].projects)
  }

  predicate ChoiceOk(born: seq<(Name, Option<Name>)>, t: Turn) {
    t.project.Some? ==> t.project.value < |born| && born[t.project.value] == (t.account, t.shared)
  }

  predicate ChoicesOk(born: seq<(Name, Option<Name>)>, turns: map<nat, Turn>) {
    forall i :: i in turns ==> ChoiceOk(born, turns[i])
  }

  predicate UseOk(born: seq<(Name, Option<Name>)>, u: Use) {
    u.project < |born| && born[u.project] == (u.account, u.shared)
  }

  predicate UsesOk(born: seq<(Name, Option<Name>)>, uses: seq<Use>) {
    && (forall i :: 0 <= i < |uses| ==> UseOk(born, uses[i]))
    && (forall i, j :: 0 <= i < j < |uses| && uses[i].project == uses[j].project ==> uses[i].shared.Some?)
  }

  predicate Inv(max: nat, s: State) {
    && ActorsOk(s.actors, s.turns, s.closed, s.serial) && SerialsDiffer(s.actors)
    && TurnsOk(s.actors, s.turns) && RoomOk(max, s)
    && ProjectsOk(s.born, s.actors) && ChoicesOk(s.born, s.turns) && UsesOk(s.born, s.uses)
  }

  // ---------------------------------------------------------------- counting

  lemma {:induction false} TurnAdded(turns: map<nat, Turn>, i: nat, t: Turn, account: Name)
    requires i !in turns
    ensures |TurnsOf(turns[i := t], account)| == |TurnsOf(turns, account)| + if t.account == account then 1 else 0
  {
    var before, after := TurnsOf(turns, account), TurnsOf(turns[i := t], account);
    assert after == if t.account == account then before + {i} else before;
  }

  lemma {:induction false} TurnRemoved(turns: map<nat, Turn>, i: nat, account: Name)
    requires i in turns
    ensures |TurnsOf(turns - {i}, account)| == |TurnsOf(turns, account)| - if turns[i].account == account then 1 else 0
  {
    var before, after := TurnsOf(turns, account), TurnsOf(turns - {i}, account);
    assert before == if turns[i].account == account then after + {i} else after;
  }

  lemma {:induction false} NoTurns(turns: map<nat, Turn>, account: Name, i: nat)
    requires |TurnsOf(turns, account)| == 0 && i in turns
    ensures turns[i].account != account
  {
    assert turns[i].account == account ==> i in TurnsOf(turns, account);
  }

  /** While a turn is in flight its context is open. */
  lemma {:induction false} TurnHoldsContext(max: nat, s: State, turn: nat)
    requires Inv(max, s) && turn in s.turns
    ensures s.turns[turn].account in s.actors && s.actors[s.turns[turn].account].refs > 0
    ensures s.turns[turn].actor !in s.closed
  {
    var t := s.turns[turn];
    assert TurnOk(s.actors, t) && ActorOk(s.turns, s.closed, s.serial, t.account, s.actors[t.account]);
    assert turn in TurnsOf(s.turns, t.account);
  }

  // ---------------------------------------------------------------- steps

  lemma {:induction false} JoinKeepsInv(max: nat, s: State, p: Pending)
    requires Inv(max, s) && s.lock.None? && p.turn !in s.turns && p.account in s.actors
    ensures Inv(max, Join(s, p))
  {
    var s' := Join(s, p);
    var t := Joined(p, s.actors[p.account].serial);
    forall a | a in s'.actors
      ensures ActorOk(s'.turns, s'.closed, s'.serial, a, s'.actors[a]) && EntriesOk(s'.born, a, s'.actors[a].projects)
    {
      assert ActorOk(s.turns, s.closed, s.serial, a, s.actors[a]) && EntriesOk(s.born, a, s.actors[a].projects);
      TurnAdded(s.turns, p.turn, t, a);
    }
    forall i | i in s'.turns
      ensures TurnOk(s'.actors, s'.turns[i]) && ChoiceOk(s'.born, s'.turns[i])
    {
      assert i in s.turns ==> TurnOk(s.actors, s.turns[i]) && ChoiceOk(s.born, s.turns[i]);
    }
    assert s'.actors.Keys == s.actors.Keys;
    SameSize(s'.actors, s.actors);
  }

  lemma {:induction false} SameSize(a: map<Name, Actor>, b: map<Name, Actor>)
    requires a.Keys == b.Keys
    ensures |a| == |b|
  {
    assert |a| == |a.Keys| && |b| == |b.Keys|;
  }

  /** Contexts without turns can go. */
  lemma {:induction false} DropKeepsInv(max: nat, s: State, account: Name)
    requires Inv(max, s) && (account in s.actors ==> s.actors[account].refs == 0)
    ensures Inv(max, Dropped(s, account)) && (account in s.actors ==> |Dropped(s, account).actors| == |s.actors| - 1)
  {
    if account in s.actors {
      var s' := Dropped(s, account);
      DropSize(s.actors, account);
      assert ActorOk(s.turns, s.closed, s.serial, account, s.actors[account]);
      forall i | i in s'.turns
        ensures TurnOk(s'.actors, s'.turns[i])
      {
        assert TurnOk(s.actors, s.turns[i]);
        NoTurns(s.turns, account, i);
      }
      forall a | a in s'.actors
        ensures ActorOk(s'.turns, s'.closed, s'.serial, a, s'.actors[a]) && EntriesOk(s'.born, a, s'.actors[a].projects)
      {
        assert ActorOk(s.turns, s.closed, s.serial, a, s.actors[a]) && EntriesOk(s.born, a, s.actors[a].projects);
      }
    }
  }

  lemma {:induction false} DropSize(actors: map<Name, Actor>, account: Name)
    requires account in actors
    ensures |actors - {account}| == |actors| - 1
  {
    assert (actors - {account}).Keys == actors.Keys - {account};
    assert |actors - {account}| == |(actors - {account}).Keys| && |actors| == |actors.Keys|;
  }

  lemma {:induction false} AskedKeepsInv(max: nat, s: State, p: Pending, victim: Name)
    requires Inv(max, s) && s.lock.None? && p.turn !in s.turns
    ensures Inv(max, Asked(max, s, p, victim))
  {
    if p.account in s.actors && !Stale(s.actors, p.account, p.credential) {
      JoinKeepsInv(max, s, p);
    } else if !(p.account in s.actors && s.actors[p.account].refs > 0) {
      var s1 := Dropped(s, p.account);
      DropKeepsInv(max, s, p.account);
      if |s1.actors| < max {
        LockKeepsInv(max, s1, p);
      } else if IsIdle(s1.actors, victim) {
        DropKeepsInv(max, s1, victim);
        LockKeepsInv(max, Dropped(s1, victim), p);
      }
    }
  }

  lemma {:induction false} LockKeepsInv(max: nat, s: State, p: Pending)
    requires Inv(max, s) && |s.actors| < max && p.account !in s.actors
    ensures Inv(max, s.(lock := Some(p)))
  {
  }

  lemma {:induction false} AddKeepsInv(max: nat, s: State)
    requires Inv(max, s) && s.lock.Some? && s.lock.value.turn !in s.turns
    ensures Inv(max, Added(s, s.lock.value))
  {
    var p, s' := s.lock.value, Added(s, s.lock.value);
    var t := Joined(p, s.serial);
    forall i | i in s.turns
      ensures s.turns[i].account != p.account && TurnOk(s'.actors, s.turns[i]) && ChoiceOk(s'.born, s.turns[i])
    {
      assert TurnOk(s.actors, s.turns[i]) && ChoiceOk(s.born, s.turns[i]);
    }
    assert TurnsOf(s.turns, p.account) == {};
    forall a | a in s'.actors
      ensures ActorOk(s'.turns, s'.closed, s'.serial, a, s'.actors[a]) && EntriesOk(s'.born, a, s'.actors[a].projects)
    {
      assert a in s.actors ==> ActorOk(s.turns, s.closed, s.serial, a, s.actors[a]);
      assert a in s.actors ==> EntriesOk(s.born, a, s.actors[a].projects);
      TurnAdded(s.turns, p.turn, t, a);
    }
    AddSize(s.actors, p.account, s'.actors[p.account]);
  }

  lemma {:induction false} AddSize(actors: map<Name, Actor>, account: Name, actor: Actor)
    requires account !in actors
    ensures |actors[account := actor]| == |actors| + 1
  {
    assert actors[account := actor].Keys == actors.Keys + {account};
    assert |actors[account := actor]| == |actors[account := actor].Keys| && |actors| == |actors.Keys|;
  }

  lemma {:induction false} MoreBorn(born: seq<(Name, Option<Name>)>, b: (Name, Option<Name>), s: State)
    requires ProjectsOk(born, s.actors) && ChoicesOk(born, s.turns) && UsesOk(born, s.uses)
    ensures ProjectsOk(born + [b], s.actors) && ChoicesOk(born + [b], s.turns) && UsesOk(born + [b], s.uses)
  {
    forall a | a in s.actors
      ensures EntriesOk(born + [b], a, s.actors[a].projects)
    {
      assert EntriesOk(born, a, s.actors[a].projects);
      forall session | session in s.actors[a].projects
        ensures EntryOk(born + [b], a, session, s.actors[a].projects[session])
      {
        assert EntryOk(born, a, session, s.actors[a].projects[session]);
      }
    }
    forall i | i in s.turns
      ensures ChoiceOk(born + [b], s.turns[i])
    {
      assert ChoiceOk(born, s.turns[i]);
    }
    forall i | 0 <= i < |s.uses|
      ensures UseOk(born + [b], s.uses[i])
    {
      assert UseOk(born, s.uses[i]);
    }
  }

  /** A use of a project created for the same account and session, or of a new one. */
  lemma {:induction false} UseAdded(born: seq<(Name, Option<Name>)>, uses: seq<Use>, u: Use, n: nat)
    requires UsesOk(born, uses) && UseOk(born, u)
    requires (u.shared.Some? || (forall i :: 0 <= i < |uses| ==> uses[i].project < n <= u.project))
    ensures UsesOk(born, uses + [u])
  {
    var all := uses + [u];
    forall i, j | 0 <= i < j < |all| && all[i].project == all[j].project
      ensures all[i].shared.Some?
    {
      assert UseOk(born, all[i]) && UseOk(born, all[j]);
    }
  }

  lemma {:induction false} ChosenKeepsInv(max: nat, s: State, turn: nat, recent: bool)
    requires Inv(max, s) && Enabled(s, Choose(turn, recent))
    ensures Inv(max, Chosen(s, turn, recent))
  {
    var t, s' := s.turns[turn], Chosen(s, turn, recent);
    var u := s'.uses[|s.uses|];
    assert ActorOk(s.turns, s.closed, s.serial, t.account, s.actors[t.account]);
    assert EntriesOk(s.born, t.account, s.actors[t.account].projects);
    if s'.born != s.born {
      MoreBorn(s.born, (t.account, t.shared), s);
      assert forall i :: 0 <= i < |s.uses| ==> UseOk(s.born, s.uses[i]);
      UseAdded(s'.born, s.uses, u, |s.born|);
    } else {
      assert EntryOk(s.born, t.account, t.shared.value, u.project);
      UseAdded(s.born, s.uses, u, 0);
    }
    SameTurns(s.turns, turn, s'.turns[turn]);
    forall a | a in s'.actors
      ensures ActorOk(s'.turns, s'.closed, s'.serial, a, s'.actors[a])
    {
      assert ActorOk(s.turns, s.closed, s.serial, a, s.actors[a]);
    }
    forall i | i in s'.turns
      ensures TurnOk(s'.actors, s'.turns[i]) && ChoiceOk(s'.born, s'.turns[i])
    {
      assert TurnOk(s.actors, s.turns[i]) && ChoiceOk(s'.born, s.turns[i]);
    }
  }

  lemma {:induction false} SameTurns(turns: map<nat, Turn>, i: nat, t: Turn)
    requires i in turns && t.account == turns[i].account
    ensures forall account :: TurnsOf(turns[i := t], account) == TurnsOf(turns, account)
  {
  }

  lemma {:induction false} RememberedOk(born: seq<(Name, Option<Name>)>, known: map<Name, nat>, t: Turn,
                                        succeeded: bool, forgotten: set<Name>)
    requires EntriesOk(born, t.account, known) && ChoiceOk(born, t)
    ensures EntriesOk(born, t.account, Remembered(known, t, succeeded, forgotten))
  {
    forall session | session in Remembered(known, t, succeeded, forgotten)
      ensures EntryOk(born, t.account, session, Remembered(known, t, succeeded, forgotten)[session])
    {
      assert session in known ==> EntryOk(born, t.account, session, known[session]);
    }
  }

  lemma {:induction false} LeftKeepsInv(max: nat, s: State, turn: nat, succeeded: bool, forgotten: set<Name>)
    requires Inv(max, s) && Enabled(s, Leave(turn, succeeded, forgotten))
    ensures Inv(max, Left(s, turn, succeeded, forgotten))
  {
    var t, s' := s.turns[turn], Left(s, turn, succeeded, forgotten);
    assert ChoiceOk(s.born, t) && EntriesOk(s.born, t.account, s.actors[t.account].projects);
    RememberedOk(s.born, s.actors[t.account].projects, t, succeeded, forgotten);
    forall a | a in s'.actors
      ensures ActorOk(s'.turns, s'.closed, s'.serial, a, s'.actors[a]) && EntriesOk(s'.born, a, s'.actors[a].projects)
    {
      assert ActorOk(s.turns, s.closed, s.serial, a, s.actors[a]) && EntriesOk(s.born, a, s.actors[a].projects);
      TurnRemoved(s.turns, turn, a);
    }
    forall i | i in s'.turns
      ensures TurnOk(s'.actors, s'.turns[i]) && ChoiceOk(s'.born, s'.turns[i])
    {
      assert TurnOk(s.actors, s.turns[i]) && ChoiceOk(s.born, s.turns[i]);
    }
    SameSize(s'.actors, s.actors);
  }

  lemma {:induction false} PrunedKeepsInv(max: nat, s: State, accounts: set<Name>)
    requires Inv(max, s) && s.lock.None?
    ensures Inv(max, Pruned(s, accounts))
  {
    var s' := Pruned(s, accounts);
    FewerActors(s'.actors, s.actors);
    forall a | a in s'.actors
      ensures ActorOk(s'.turns, s'.closed, s'.serial, a, s'.actors[a]) && EntriesOk(s'.born, a, s'.actors[a].projects)
    {
      assert ActorOk(s.turns, s.closed, s.serial, a, s.actors[a]) && EntriesOk(s.born, a, s.actors[a].projects);
    }
    forall i | i in s'.turns
      ensures TurnOk(s'.actors, s'.turns[i])
    {
      assert TurnOk(s.actors, s.turns[i]);
      TurnHoldsContext(max, s, i);
    }
    forall i | i in s'.closed
      ensures i < s'.serial
    {
      if i !in s.closed {
        var a :| a in s.actors && s.actors[a].serial == i;
        assert ActorOk(s.turns, s.closed, s.serial, a, s.actors[a]);
      }
    }
  }

  lemma {:induction false} FewerActors(a: map<Name, Actor>, b: map<Name, Actor>)
    requires a.Keys <= b.Keys
    ensures |a| <= |b|
  {
    SubsetSize(a.Keys, b.Keys);
    assert |a| == |a.Keys| && |b| == |b.Keys|;
  }

  lemma {:induction false} StepKeepsInv(max: nat, s: State, step: Step)
    requires Inv(max, s) && Enabled(s, step)
    ensures Inv(max, Apply(max, s, step))
  {
    match step
    case Ask(turn, account, credential, session, reuse, victim) =>
      AskedKeepsInv(max, s, Pending(turn, account, credential, session, reuse), victim);
    case Opened(ok) =>
      if ok {
        AddKeepsInv(max, s);
      }
    case Choose(turn, recent) => ChosenKeepsInv(max, s, turn, recent);
    case Leave(turn, succeeded, forgotten) => LeftKeepsInv(max, s, turn, succeeded, forgotten);
    case Prune(accounts) => PrunedKeepsInv(max, s, accounts);
  }

  // ---------------------------------------------------------------- runs

  predicate IsRun(max: nat, s: State, steps: seq<Step>)
    decreases |steps|
  {
    steps != [] ==> Enabled(s, steps[0]) && IsRun(max, Apply(max, s, steps[0]), steps[1..])
  }

  function After(max: nat, s: State, steps: seq<Step>): State
    requires IsRun(max, s, steps)
    decreases |steps|
  {
    if steps == [] then s else After(max, Apply(max, s, steps[0]), steps[1..])
  }

  lemma {:induction false} RunKeepsInv(max: nat, s: State, steps: seq<Step>, end: State)
    requires Inv(max, s) && IsRun(max, s, steps) && After(max, s, steps) == end
    ensures Inv(max, end)
    decreases |steps|
  {
    if steps != [] {
      StepKeepsInv(max, s, steps[0]);
      RunKeepsInv(max, Apply(max, s, steps[0]), steps[1..], end);
    }
  }

  /** In every reachable state there are at most `max` contexts, each counts exactly the turns
      in flight on its account, and no such turn's context was evicted, rotated or pruned away. */
  lemma {:induction false} ContextsAreSafe(max: nat, steps: seq<Step>, account: Name, turn: nat)
    requires IsRun(max, Fresh, steps)
    ensures var s := After(max, Fresh, steps);
            && |s.actors| <= max
            && (account in s.actors ==> s.actors[account].refs == |TurnsOf(s.turns, account)|)
            && (turn in s.turns ==>
                  && s.turns[turn].account in s.actors
                  && s.actors[s.turns[turn].account].serial == s.turns[turn].actor
                  && s.turns[turn].actor !in s.closed)
  {
    var s := After(max, Fresh, steps);
    RunKeepsInv(max, Fresh, steps, s);
    if account in s.actors {
      assert ActorOk(s.turns, s.closed, s.serial, account, s.actors[account]);
    }
    if turn in s.turns {
      TurnHoldsContext(max, s, turn);
      assert TurnOk(s.actors, s.turns[turn]);
    }
  }

  /** Two turns get the same project only if they share account and session and both may reuse it. */
  lemma {:induction false} ProjectsAreSeparate(max: nat, steps: seq<Step>, i: nat, j: nat)
    requires IsRun(max, Fresh, steps) && i < j < |After(max, Fresh, steps).uses|
    requires After(max, Fresh, steps).uses[i].project == After(max, Fresh, steps).uses[j].project
    ensures var a, b := After(max, Fresh, steps).uses[i], After(max, Fresh, steps).uses[j];
            a.account == b.account && a.shared == b.shared && a.shared.Some?
  {
    var s := After(max, Fresh, steps);
    RunKeepsInv(max, Fresh, steps, s);
    assert UseOk(s.born, s.uses[i]) && UseOk(s.born, s.uses[j]);
  }

  // ---------------------------------------------------------------- who gets a context, and which project

  predicate HasContext(s: State, account: Name, credential: Name) {
    account in s.actors && s.actors[account].credential == credential
  }

  /** In every run a turn joins its account's context exactly if that is open under the same
      credential; a context is opened for it exactly if a stale one is idle, or there is none
      and there is room or an idle one to evict; otherwise nothing happens. Only idle contexts
      are closed: the stale one, or the victim when there is no room. */
  lemma {:induction false} AskMeans(max: nat, steps: seq<Step>, p: Pending, victim: Name)
    requires IsRun(max, Fresh, steps)
    requires Enabled(After(max, Fresh, steps), Ask(p.turn, p.account, p.credential, p.session, p.reuse, victim))
    ensures var s := After(max, Fresh, steps);
            var s' := Apply(max, s, Ask(p.turn, p.account, p.credential, p.session, p.reuse, victim));
            && (p.turn in s'.turns <==> HasContext(s, p.account, p.credential))
            && (s'.lock == Some(p)
                <==> && !HasContext(s, p.account, p.credential)
                     && (p.account in s.actors ==> IsIdle(s.actors, p.account))
                     && (p.account in s.actors || |s.actors| < max || exists a :: IsIdle(s.actors, a)))
            && (p.turn !in s'.turns && s'.lock != Some(p) ==> s' == s)
            && (forall a :: a in s.actors && a !in s'.actors ==>
                  && IsIdle(s.actors, a) && s'.lock == Some(p)
                  && (a == p.account || (a == victim && p.account !in s.actors && |s.actors| == max)))
  {
    var s := After(max, Fresh, steps);
    RunKeepsInv(max, Fresh, steps, s);
    AskedMeans(max, s, p, victim);
  }

  lemma {:induction false} AskedMeans(max: nat, s: State, p: Pending, victim: Name)
    requires |s.actors| <= max && s.lock.None? && p.turn !in s.turns
    requires (exists a :: IsIdle(s.actors, a)) ==> IsIdle(s.actors, victim)
    ensures var s' := Asked(max, s, p, victim);
            && (p.turn in s'.turns <==> HasContext(s, p.account, p.credential))
            && (s'.lock == Some(p)
                <==> && !HasContext(s, p.account, p.credential)
                     && (p.account in s.actors ==> IsIdle(s.actors, p.account))
                     && (p.account in s.actors || |s.actors| < max || exists a :: IsIdle(s.actors, a)))
            && (p.turn !in s'.turns && s'.lock != Some(p) ==> s' == s)
            && (forall a :: a in s.actors && a !in s'.actors ==>
                  && IsIdle(s.actors, a) && s'.lock == Some(p)
                  && (a == p.account || (a == victim && p.account !in s.actors && |s.actors| == max)))
  {
    if p.account in s.actors {
      DropSize(s.actors, p.account);
    }
  }

  /** The project a turn gets that comes after another of its session: the other's, if that
      succeeded, this one may reuse it and it is recent; otherwise one of its own. */
  lemma {:induction false} SessionComesBack(max: nat, s: State, turn: nat, succeeded: bool, next: Pending,
                                            victim: Name, recent: bool)
    requires Inv(max, s) && s.lock.None? && next.turn !in s.turns
    requires turn in s.turns && s.turns[turn].project.Some? && s.turns[turn].shared.Some?
    requires next.account == s.turns[turn].account && next.session == s.turns[turn].shared
    requires HasContext(s, next.account, next.credential)
    requires Enabled(s, Leave(turn, succeeded, {}))
    requires Enabled(Left(s, turn, succeeded, {}),
                     Ask(next.turn, next.account, next.credential, next.session, next.reuse, victim))
    ensures var ask := Ask(next.turn, next.account, next.credential, next.session, next.reuse, victim);
            var s1 := Apply(max, s, Leave(turn, succeeded, {}));
            var s2 := Apply(max, s1, ask);
            && Enabled(s2, Choose(next.turn, recent))
            && var s3 := Apply(max, s2, Choose(next.turn, recent));
               s3.turns[next.turn].project
               == if succeeded && recent && next.reuse then s.turns[turn].project else Some(|s.born|)
  {
    assert TurnOk(s.actors, s.turns[turn]);
  }

  // ---------------------------------------------------------------- the object

  /** What `account` comes to: a context that is there, one to be opened, or an error. */
  datatype Acquired = Hit | MustOpen | Rotating | Busy

  /** The dictionary `actors`. */
  class Pool {
    var actors: map<Name, Actor>
    ghost var closed: set<nat>

    constructor ()
      ensures actors == map[] && closed == {}
    {
      actors := map[];
      closed := {};
    }

    method Drop(account: Name)
      requires account in actors
      modifies this
      ensures actors == old(actors) - {account} && closed == old(closed) + {old(actors)[account].serial}
    {
      closed := closed + {actors[account].serial};
      actors := actors - {account};
    }

    method Acquire(max: nat, p: Pending, victim: Name, ghost s: State) returns (r: Acquired)
      requires s.actors == actors && s.closed == closed && s.lock.None? && |actors| <= max
      modifies this
      ensures actors == Asked(max, s, p, victim).actors && closed == Asked(max, s, p, victim).closed
      ensures r == MustOpen <==> Asked(max, s, p, victim).lock == Some(p)
      ensures r == Hit <==> p.account in old(actors) && old(actors)[p.account].credential == p.credential
      ensures r == Rotating <==> Stale(old(actors), p.account, p.credential) && old(actors)[p.account].refs > 0
      ensures r == Busy <==> p.account !in old(actors) && |old(actors)| >= max && !IsIdle(old(actors), victim)
    {
      if p.account in actors {
        var actor := actors[p.account];
        if actor.credential == p.credential {
          actors := actors[p.account := actor.(refs := actor.refs + 1)];
          return Hit;
        }
        if actor.refs > 0 {
          return Rotating;
        }
        DropSize(actors, p.account);
        Drop(p.account);
      }
      if |actors| >= max {
        if !IsIdle(actors, victim) {
          return Busy;
        }
        Drop(victim);
      }
      return MustOpen;
    }

    /** `prune`: the contexts that are due and idle are closed, the others stay. */
    method PruneDue(due: set<Name>, ghost s: State)
      requires s.actors == actors && s.closed == closed
      modifies this
      ensures actors == Pruned(s, due).actors && closed == Pruned(s, due).closed
    {
      var rest := actors.Keys;
      while rest != {}
        invariant rest <= s.actors.Keys
        invariant forall a :: a in s.actors ==> (a in actors <==> a in rest || !(a in due && s.actors[a].refs == 0))
        invariant actors.Keys <= s.actors.Keys && forall a :: a in actors ==> actors[a] == s.actors[a]
        invariant closed == s.closed + (set a | a in s.actors && a !in rest && a in due && s.actors[a].refs == 0 ::
                                          s.actors[a].serial)
        decreases |rest|
      {
        var a :| a in rest;
        if a in due && actors[a].refs == 0 {
          Drop(a);
        }
        rest := rest - {a};
      }
    }
  }
}

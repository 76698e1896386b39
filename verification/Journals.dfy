/** Pending records on disk: `State` of prism-adapter/server.py (one file per account,
    "v1") and `TurnJournal` of prism-adapter/multiplex_runtime.py (one directory per
    account with one file per conversation, "v2").

    Executors of both kinds may share one state directory, so every system call is its
    own step here and any two may interleave. */
module Journals {
  import opened Prelude

  /** What stands under `pending/<account>`. */
  datatype Entry = Legacy | Folder(scopes: set<Name>)

  type Pending = map<Name, Entry>

  datatype Error = PendingTurn | NoSuchFile | IsFolder

  // ---------------------------------------------------------------- system calls

  /** `os.open(pending / account, O_CREAT | O_EXCL)`. */
  function CreateLegacy(p: Pending, a: Name): Result<Pending, Error> {
    if a in p then Err(PendingTurn) else Ok(p[a := Legacy])
  }

  function UnlinkLegacy(p: Pending, a: Name): Result<Pending, Error> {
    if a !in p then Err(NoSuchFile) else if p[a].Folder? then Err(IsFolder) else Ok(p - {a})
  }

  /** `mkdir`, an existing directory being welcome and an existing file not. */
  function MakeFolder(p: Pending, a: Name): Result<Pending, Error> {
    if a !in p then Ok(p[a := Folder({})]) else if p[a].Legacy? then Err(PendingTurn) else Ok(p)
  }

  function CreateScope(p: Pending, a: Name, s: Name): Result<Pending, Error> {
    if a !in p || p[a].Legacy? then Err(NoSuchFile)
    else if s in p[a].scopes then Err(PendingTurn)
    else Ok(p[a := Folder(p[a].scopes + {s})])
  }

  function UnlinkScope(p: Pending, a: Name, s: Name): Result<Pending, Error> {
    if a !in p || p[a].Legacy? || s !in p[a].scopes then Err(NoSuchFile) else Ok(p[a := Folder(p[a].scopes - {s})])
  }

  /** `rmdir`, ENOTEMPTY being welcome and every other failure not. */
  function RemoveFolder(p: Pending, a: Name): Result<Pending, Error> {
    if a !in p || p[a].Legacy? then Err(NoSuchFile)
    else if p[a].scopes == {} then Ok(p - {a})
    else Ok(p)
  }

  // ---------------------------------------------------------------- executors

  /** `Absent` before anything, `Opening` between `mkdir` and `open`, `Owning` with its
      record on disk, `Closing` between `unlink` and `rmdir`, `Done` or `Refused` after,
      and `Lost` if it ended with its record in place: unknown outcome, or death. */
  datatype Progress = Absent | Opening | Owning | Closing | Done | Refused | Lost

  datatype Turn = OldTurn(account: Name, progress: Progress) | NewTurn(account: Name, scope: Name, progress: Progress)

  datatype World = World(pending: Pending, turns: map<nat, Turn>, died: set<Name>)

  datatype Step =
    | Arrive(id: nat, turn: Turn)
    | Open(id: nat)      // v1: the exclusive create; v2: mkdir, then the exclusive create
    | Close(id: nat)     // v1: unlink; v2: unlink, then rmdir
    | Lose(id: nat)      // ends without closing its record
    | Die(id: nat)       // its process dies in the middle of opening or closing

  predicate At(w: World, id: nat, p: Progress) {
    id in w.turns && w.turns[id].progress == p
  }

  predicate Enabled(w: World, step: Step) {
    match step
    case Arrive(id, turn) => id !in w.turns && turn.progress == Absent
    case Open(id) => At(w, id, Absent) || (At(w, id, Opening) && w.turns[id].NewTurn?)
    case Close(id) => At(w, id, Owning) || (At(w, id, Closing) && w.turns[id].NewTurn?)
    case Lose(id) => At(w, id, Owning)
    case Die(id) => At(w, id, Opening) || At(w, id, Closing)
  }

  function Moved(w: World, id: nat, r: Result<Pending, Error>, ok: Progress, failed: Progress): World
    requires id in w.turns
  {
    match r
    case Ok(p) => w.(pending := p, turns := w.turns[id := w.turns[id].(progress := ok)])
    case Err(_) => w.(turns := w.turns[id := w.turns[id].(progress := failed)])
  }

  function Opened(w: World, id: nat): World
    requires id in w.turns
  {
    match w.turns[id]
    case OldTurn(a, _) => Moved(w, id, CreateLegacy(w.pending, a), Owning, Refused)
    case NewTurn(a, s, progress) =>
      if progress == Absent then Moved(w, id, MakeFolder(w.pending, a), Opening, Refused)
      else Moved(w, id, CreateScope(w.pending, a, s), Owning, Refused)
  }

  function Closed(w: World, id: nat): World
    requires id in w.turns
  {
    match w.turns[id]
    case OldTurn(a, _) => Moved(w, id, UnlinkLegacy(w.pending, a), Done, Lost)
    case NewTurn(a, s, progress) =>
      if progress == Owning then Moved(w, id, UnlinkScope(w.pending, a, s), Closing, Lost)
      else Moved(w, id, RemoveFolder(w.pending, a), Done, Done)
  }

  function Apply(w: World, step: Step): World
    requires Enabled(w, step)
  {
    match step
    case Arrive(id, turn) => w.(turns := w.turns[id := turn])
    case Open(id) => Opened(w, id)
    case Close(id) => Closed(w, id)
    case Lose(id) => w.(turns := w.turns[id := w.turns[id].(progress := Lost)])
    case Die(id) => w.(turns := w.turns[id := w.turns[id].(progress := Done)], died := w.died + {w.turns[id].account})
  }

  // ---------------------------------------------------------------- invariant

  /** The turn's record is on disk and belongs to it. */
  predicate Unresolved(t: Turn) {
    t.progress.Owning? || t.progress.Lost?
  }

  predicate Recorded(p: Pending, t: Turn) {
    && t.account in p
    && match t
       case OldTurn(a, _) => p[a].Legacy?
       case NewTurn(a, s, _) => p[a].Folder? && s in p[a].scopes
  }

  /** Two records that may not both exist. */
  predicate Clash(t: Turn, u: Turn) {
    t.account == u.account && (t.OldTurn? || u.OldTurn? || t.scope == u.scope)
  }

  predicate OwnsLegacy(turns: map<nat, Turn>, id: nat, a: Name) {
    id in turns && turns[id].OldTurn? && turns[id].account == a && Unresolved(turns[id])
  }

  predicate OwnsScope(turns: map<nat, Turn>, id: nat, a: Name, s: Name) {
    id in turns && turns[id].NewTurn? && turns[id].account == a && turns[id].scope == s && Unresolved(turns[id])
  }

  /** A turn between its two system calls. */
  predicate Passing(turns: map<nat, Turn>, id: nat, a: Name) {
    && id in turns && turns[id].NewTurn? && turns[id].account == a
    && (turns[id].progress.Opening? || turns[id].progress.Closing?)
  }

  /** Every record is someone's; an empty directory is someone's in passing. */
  ghost predicate Explained(turns: map<nat, Turn>, died: set<Name>, a: Name, e: Entry) {
    match e
    case Legacy => exists id :: OwnsLegacy(turns, id, a)
    case Folder(scopes) =>
      && (forall s :: s in scopes ==> exists id :: OwnsScope(turns, id, a, s))
      && (scopes == {} ==> (a in died || exists id :: Passing(turns, id, a)))
  }

  ghost predicate AllExplained(w: World) {
    forall a :: a in w.pending ==> Explained(w.turns, w.died, a, w.pending[a])
  }

  predicate AllRecorded(w: World) {
    forall id :: id in w.turns && Unresolved(w.turns[id]) ==> Recorded(w.pending, w.turns[id])
  }

  predicate NoClash(turns: map<nat, Turn>) {
    forall i, j :: i in turns && j in turns && i != j && Unresolved(turns[i]) && Unresolved(turns[j]) ==>
        !Clash(turns[i], turns[j])
  }

  /** Only the two-call executor is ever between calls. */
  predicate Shapes(turns: map<nat, Turn>) {
    forall id :: id in turns && turns[id].OldTurn? ==> !turns[id].progress.Opening? && !turns[id].progress.Closing?
  }

  ghost predicate Inv(w: World) {
    AllRecorded(w) && NoClash(w.turns) && Shapes(w.turns) && AllExplained(w)
  }

  // ---------------------------------------------------------------- records and turns

  /** A turn that gains a record gains one nobody has. */
  lemma {:induction false} GainIsApart(w: World, id: nat)
    requires Inv(w) && Enabled(w, Open(id)) && !Unresolved(w.turns[id]) && Unresolved(Opened(w, id).turns[id])
    ensures NoClash(Opened(w, id).turns) && AllRecorded(Opened(w, id))
  {
    var t := w.turns[id];
    forall other | other in w.turns && other != id && Unresolved(w.turns[other])
      ensures !Clash(t, w.turns[other]) && Recorded(Opened(w, id).pending, w.turns[other])
    {
      assert Recorded(w.pending, w.turns[other]);
    }
  }

  lemma {:induction false} OpenKeepsRecords(w: World, id: nat)
    requires Inv(w) && Enabled(w, Open(id))
    ensures AllRecorded(Opened(w, id)) && NoClash(Opened(w, id).turns) && Shapes(Opened(w, id).turns)
  {
    if Unresolved(Opened(w, id).turns[id]) {
      GainIsApart(w, id);
    } else {
      assert forall other :: other in w.turns && other != id && Unresolved(w.turns[other]) ==>
          Recorded(Opened(w, id).pending, w.turns[other]);
    }
  }

  lemma {:induction false} CloseKeepsRecords(w: World, id: nat)
    requires Inv(w) && Enabled(w, Close(id))
    ensures AllRecorded(Closed(w, id)) && NoClash(Closed(w, id).turns) && Shapes(Closed(w, id).turns)
  {
    assert Unresolved(w.turns[id]) ==> Recorded(w.pending, w.turns[id]);
    forall other | other in w.turns && other != id && Unresolved(w.turns[other])
      ensures Recorded(Closed(w, id).pending, w.turns[other])
    {
      assert Recorded(w.pending, w.turns[other]);
      assert Unresolved(w.turns[id]) ==> !Clash(w.turns[id], w.turns[other]);
    }
  }

  // ---------------------------------------------------------------- explanations

  /** Explanations survive when the turns they cite do. */
  lemma {:induction false} ExplanationCarries(turns: map<nat, Turn>, died: set<Name>, turns': map<nat, Turn>,
                                              died': set<Name>, a: Name, e: Entry)
    requires Explained(turns, died, a, e) && died <= died'
    requires forall id :: OwnsLegacy(turns, id, a) ==> OwnsLegacy(turns', id, a)
    requires forall id, s :: OwnsScope(turns, id, a, s) ==> OwnsScope(turns', id, a, s)
    requires forall id :: Passing(turns, id, a) ==> Passing(turns', id, a) || a in died'
    ensures Explained(turns', died', a, e)
  {
    match e
    case Legacy =>
      var id :| OwnsLegacy(turns, id, a);
      assert OwnsLegacy(turns', id, a);
    case Folder(scopes) =>
      forall s | s in scopes
        ensures exists id :: OwnsScope(turns', id, a, s)
      {
        var id :| OwnsScope(turns, id, a, s);
        assert OwnsScope(turns', id, a, s);
      }
      if scopes == {} && a !in died' {
        var id :| Passing(turns, id, a);
        assert Passing(turns', id, a);
      }
  }

  lemma {:induction false} OpenExplains(w: World, id: nat)
    requires Inv(w) && Enabled(w, Open(id))
    ensures AllExplained(Opened(w, id))
  {
    var w' := Opened(w, id);
    var t := w.turns[id];
    forall a | a in w'.pending
      ensures Explained(w'.turns, w'.died, a, w'.pending[a])
    {
      if a != t.account {
        ExplanationCarries(w.turns, w.died, w'.turns, w'.died, a, w.pending[a]);
      } else {
        OpenExplainsOwn(w, id);
      }
    }
  }

  lemma {:induction false} OpenExplainsOwn(w: World, id: nat)
    requires Inv(w) && Enabled(w, Open(id)) && w.turns[id].account in Opened(w, id).pending
    ensures var a := w.turns[id].account;
            Explained(Opened(w, id).turns, w.died, a, Opened(w, id).pending[a])
  {
    var w' := Opened(w, id);
    var t := w.turns[id];
    var a := t.account;
    assert a in w.pending ==> Explained(w.turns, w.died, a, w.pending[a]);
    match t
    case OldTurn(_, _) =>
      if a in w.pending {
        ExplanationCarries(w.turns, w.died, w'.turns, w.died, a, w.pending[a]);
      } else {
        assert OwnsLegacy(w'.turns, id, a);
      }
    case NewTurn(_, s, progress) =>
      if progress == Absent {
        if a in w.pending {
          ExplanationCarries(w.turns, w.died, w'.turns, w.died, a, w.pending[a]);
        } else {
          assert Passing(w'.turns, id, a);
        }
      } else if w'.turns[id].progress == Owning {
        forall x | x in w'.pending[a].scopes
          ensures exists i :: OwnsScope(w'.turns, i, a, x)
        {
          if x == s {
            assert OwnsScope(w'.turns, id, a, x);
          } else {
            var i :| OwnsScope(w.turns, i, a, x);
            assert OwnsScope(w'.turns, i, a, x);
          }
        }
      } else {
        RefusedExplains(w, id);
      }
  }

  /** A turn that finds its record taken leaves a directory that is not empty. */
  lemma {:induction false} RefusedExplains(w: World, id: nat)
    requires Inv(w) && At(w, id, Opening) && w.turns[id].NewTurn?
    requires CreateScope(w.pending, w.turns[id].account, w.turns[id].scope).Err?
    requires w.turns[id].account in w.pending
    ensures var a := w.turns[id].account;
            Explained(Opened(w, id).turns, w.died, a, w.pending[a])
  {
    var w' := Opened(w, id);
    var a := w.turns[id].account;
    assert Explained(w.turns, w.died, a, w.pending[a]);
    match w.pending[a]
    case Legacy =>
      var i :| OwnsLegacy(w.turns, i, a);
      assert OwnsLegacy(w'.turns, i, a);
    case Folder(scopes) =>
      forall x | x in scopes
        ensures exists i :: OwnsScope(w'.turns, i, a, x)
      {
        var i :| OwnsScope(w.turns, i, a, x);
        assert OwnsScope(w'.turns, i, a, x);
      }
  }

  lemma {:induction false} CloseExplains(w: World, id: nat)
    requires Inv(w) && Enabled(w, Close(id))
    ensures AllExplained(Closed(w, id))
  {
    var w' := Closed(w, id);
    var t := w.turns[id];
    assert Unresolved(t) ==> Recorded(w.pending, t);
    forall a | a in w'.pending
      ensures Explained(w'.turns, w'.died, a, w'.pending[a])
    {
      if a != t.account {
        ExplanationCarries(w.turns, w.died, w'.turns, w'.died, a, w.pending[a]);
      } else {
        CloseExplainsOwn(w, id);
      }
    }
  }

  lemma {:induction false} CloseExplainsOwn(w: World, id: nat)
    requires Inv(w) && Enabled(w, Close(id)) && w.turns[id].account in Closed(w, id).pending
    ensures var a := w.turns[id].account;
            Explained(Closed(w, id).turns, w.died, a, Closed(w, id).pending[a])
  {
    var w' := Closed(w, id);
    var t := w.turns[id];
    var a := t.account;
    assert Unresolved(t) ==> Recorded(w.pending, t);
    assert a in w.pending && Explained(w.turns, w.died, a, w.pending[a]);
    if t.NewTurn? && t.progress == Owning {
      assert Passing(w'.turns, id, a);
      forall x | x in w'.pending[a].scopes
        ensures exists i :: OwnsScope(w'.turns, i, a, x)
      {
        var i :| OwnsScope(w.turns, i, a, x);
        assert OwnsScope(w'.turns, i, a, x);
      }
    } else if w.pending[a].Folder? {
      forall x | x in w.pending[a].scopes
        ensures exists i :: OwnsScope(w'.turns, i, a, x)
      {
        var i :| OwnsScope(w.turns, i, a, x);
        assert OwnsScope(w'.turns, i, a, x);
      }
    } else {
      var i :| OwnsLegacy(w.turns, i, a);
      assert OwnsLegacy(w'.turns, i, a);
    }
  }

  lemma {:induction false} StepKeepsInv(w: World, step: Step)
    requires Inv(w) && Enabled(w, step)
    ensures Inv(Apply(w, step))
  {
    match step
    case Open(id) =>
      OpenKeepsRecords(w, id);
      OpenExplains(w, id);
    case Close(id) =>
      CloseKeepsRecords(w, id);
      CloseExplains(w, id);
    case _ =>
      QuietStepKeepsInv(w, step);
  }

  lemma {:induction false} QuietStepKeepsInv(w: World, step: Step)
    requires Inv(w) && Enabled(w, step) && !step.Open? && !step.Close?
    ensures Inv(Apply(w, step))
  {
    var w' := Apply(w, step);
    forall a | a in w'.pending
      ensures Explained(w'.turns, w'.died, a, w'.pending[a])
    {
      ExplanationCarries(w.turns, w.died, w'.turns, w'.died, a, w.pending[a]);
    }
  }

  // ---------------------------------------------------------------- runs

  predicate IsRun(w: World, steps: seq<Step>)
    decreases |steps|
  {
    steps != [] ==> Enabled(w, steps[0]) && IsRun(Apply(w, steps[0]), steps[1..])
  }

  function After(w: World, steps: seq<Step>): World
    requires IsRun(w, steps)
    decreases |steps|
  {
    if steps == [] then w else After(Apply(w, steps[0]), steps[1..])
  }

  const Empty := World(map[], map[], {})

  lemma {:induction false} RunKeepsInv(w: World, steps: seq<Step>)
    requires Inv(w) && IsRun(w, steps)
    ensures Inv(After(w, steps))
    decreases |steps|
  {
    if steps != [] {
      StepKeepsInv(w, steps[0]);
      RunKeepsInv(Apply(w, steps[0]), steps[1..]);
    }
  }

  /** Fail-closed in both directions: whatever mix of executors shares the directory, a
      turn that opens its record does so while no unresolved turn excludes it. */
  lemma {:induction false} EveryOpeningIsExclusive(steps: seq<Step>, id: nat, other: nat)
    requires IsRun(Empty, steps)
    requires var w := After(Empty, steps);
             && Enabled(w, Open(id)) && other in w.turns && other != id
             && Unresolved(w.turns[other]) && Clash(w.turns[id], w.turns[other])
    ensures !Unresolved(Apply(After(Empty, steps), Open(id)).turns[id])
  {
    RunKeepsInv(Empty, steps);
    var w := After(Empty, steps);
    assert Recorded(w.pending, w.turns[other]);
  }

  /** And no other turn is refused: a v2 turn that makes its two calls in a row opens its record
      exactly if no unresolved turn excludes it, whatever others left behind. */
  lemma {:induction false} OpensUnlessExcluded(steps: seq<Step>, id: nat)
    requires IsRun(Empty, steps) && At(After(Empty, steps), id, Absent) && After(Empty, steps).turns[id].NewTurn?
    ensures var w := After(Empty, steps);
            var w' := Apply(w, Open(id));
            var free :=
              forall other :: other in w.turns && Unresolved(w.turns[other]) ==> !Clash(w.turns[id], w.turns[other]);
            if At(w', id, Opening) then At(Apply(w', Open(id)), id, Owning) <==> free else At(w', id, Refused) && !free
  {
    RunKeepsInv(Empty, steps);
    var w := After(Empty, steps);
    var t := w.turns[id];
    forall other | other in w.turns && Unresolved(w.turns[other]) && Clash(t, w.turns[other])
      ensures Recorded(w.pending, w.turns[other])
    {
    }
    if t.account in w.pending {
      assert Explained(w.turns, w.died, t.account, w.pending[t.account]);
      RecordHasOwner(w, t.account, t.scope);
    }
  }

  lemma {:induction false} RecordHasOwner(w: World, a: Name, s: Name)
    requires a in w.pending && Explained(w.turns, w.died, a, w.pending[a])
    ensures w.pending[a].Legacy? || s in w.pending[a].scopes ==>
              exists id :: id in w.turns && Unresolved(w.turns[id]) && Clash(NewTurn(a, s, Absent), w.turns[id])
  {
    if w.pending[a].Legacy? {
      var id :| OwnsLegacy(w.turns, id, a);
      assert Clash(NewTurn(a, s, Absent), w.turns[id]);
    } else if s in w.pending[a].scopes {
      var id :| OwnsScope(w.turns, id, a, s);
      assert Clash(NewTurn(a, s, Absent), w.turns[id]);
    }
  }

  /** An unresolved v1 turn refuses every v2 turn of its account at its first call, and
      any unresolved v2 turn refuses v1. */
  lemma {:induction false} UnresolvedBlocksAccount(steps: seq<Step>, other: nat)
    requires IsRun(Empty, steps)
    requires other in After(Empty, steps).turns && Unresolved(After(Empty, steps).turns[other])
    ensures var p, a := After(Empty, steps).pending, After(Empty, steps).turns[other].account;
            && CreateLegacy(p, a) == Err(PendingTurn)
            && (After(Empty, steps).turns[other].OldTurn? ==> MakeFolder(p, a) == Err(PendingTurn))
  {
    RunKeepsInv(Empty, steps);
    assert Recorded(After(Empty, steps).pending, After(Empty, steps).turns[other]);
  }

  /** In every run a turn that closes its own record finds it and takes it away, and no other. */
  lemma {:induction false} ClosingRemovesOwn(steps: seq<Step>, id: nat)
    requires IsRun(Empty, steps) && At(After(Empty, steps), id, Owning)
    ensures var w := After(Empty, steps);
            var t, w' := w.turns[id], Apply(w, Close(id));
            match t
            case OldTurn(a, _) => At(w', id, Done) && w'.pending == w.pending - {a}
            case NewTurn(a, s, _) =>
              && At(w', id, Closing) && a in w.pending && w.pending[a].Folder? && s in w.pending[a].scopes
              && w'.pending == w.pending[a := Folder(w.pending[a].scopes - {s})]
              && At(Apply(w', Close(id)), id, Done)
              && Apply(w', Close(id)).pending == if w.pending[a].scopes == {s} then w.pending - {a} else w'.pending
  {
    RunKeepsInv(Empty, steps);
    var w := After(Empty, steps);
    assert Recorded(w.pending, w.turns[id]);
    if w.turns[id].NewTurn? {
      var a, w' := w.turns[id].account, Apply(w, Close(id));
      assert w'.pending - {a} == w.pending - {a};
    }
  }

  predicate Over(t: Turn) {
    t.progress.Done? || t.progress.Refused? || t.progress.Absent?
  }

  /** Once every turn of an account is over, and none died between two calls, nothing is
      left on disk for it: finishing the last v2 record lets v1 in again. */
  lemma {:induction false} LastCloseUnblocks(steps: seq<Step>, a: Name)
    requires IsRun(Empty, steps)
    requires var w := After(Empty, steps);
             a !in w.died && forall id :: id in w.turns && w.turns[id].account == a ==> Over(w.turns[id])
    ensures a !in After(Empty, steps).pending && CreateLegacy(After(Empty, steps).pending, a).Ok?
  {
    RunKeepsInv(Empty, steps);
    var w := After(Empty, steps);
    forall e
      ensures !Explained(w.turns, w.died, a, e)
    {
      assert forall id :: !OwnsLegacy(w.turns, id, a) && !Passing(w.turns, id, a);
      assert forall id, s :: !OwnsScope(w.turns, id, a, s);
    }
  }

  // ---------------------------------------------------------------- the objects

  /** The `pending` directory, with the v1 operations on it. */
  class StateDirectory {
    var pending: Pending

    constructor ()
      ensures pending == map[]
    {
      pending := map[];
    }

    method EnsureIdle(account: Name) returns (e: Option<Error>)
      ensures e.None? <==> CreateLegacy(pending, account).Ok?
      ensures e.Some? ==> e == Some(PendingTurn)
    {
      e := if account in pending then Some(PendingTurn) else None;
    }

    method Begin(account: Name) returns (e: Option<Error>)
      modifies this
      ensures match CreateLegacy(old(pending), account)
              case Ok(p) => e == None && pending == p
              case Err(error) => e == Some(error) && pending == old(pending)
    {
      if account in pending {
        return Some(PendingTurn);
      }
      pending := pending[account := Legacy];
      return None;
    }

    method Finish(account: Name) returns (e: Option<Error>)
      modifies this
      ensures match UnlinkLegacy(old(pending), account)
              case Ok(p) => e == None && pending == p
              case Err(error) => e == Some(error) && pending == old(pending)
    {
      if account !in pending {
        return Some(NoSuchFile);
      }
      if pending[account].Folder? {
        return Some(IsFolder);
      }
      pending := pending - {account};
      return None;
    }
  }

  class TurnJournal {
    const state: StateDirectory
    const account: Name
    const scope: Name
    var owned: bool

    constructor (state: StateDirectory, account: Name, scope: Name)
      ensures this.state == state && this.account == account && this.scope == scope && !owned
    {
      this.state, this.account, this.scope, owned := state, account, scope, false;
    }

    /** Both system calls in one go, as one executor makes them: owned exactly when the
        record is new, and nothing on disk but this record changed. */
    method Begin() returns (e: Option<Error>)
      requires !owned
      modifies this, state
      ensures owned <==> e.None?
      ensures e.None? ==> Recorded(state.pending, NewTurn(account, scope, Owning))
                          && !Recorded(old(state.pending), NewTurn(account, scope, Owning))
      ensures e.Some? ==> e == Some(PendingTurn) && state.pending == old(state.pending)
      ensures e.Some? <==> account in old(state.pending)
                           && (old(state.pending)[account].Legacy? || scope in old(state.pending)[account].scopes)
      ensures state.pending.Keys == old(state.pending).Keys + (if owned then {account} else {})
      ensures forall a :: a in old(state.pending) && a != account ==> state.pending[a] == old(state.pending)[a]
      ensures owned && account in old(state.pending) ==>
                state.pending[account] == Folder(old(state.pending)[account].scopes + {scope})
      ensures owned && account !in old(state.pending) ==> state.pending[account] == Folder({scope})
    {
      var made := MakeFolder(state.pending, account);
      if made.Err? {
        return Some(made.error);
      }
      var created := CreateScope(made.value, account, scope);
      if created.Err? {
        return Some(created.error);
      }
      state.pending := created.value;
      owned := true;
      return None;
    }

    /** Undoes `Begin`: with no turn in between, the directory is as it was. */
    method Finish()
      requires owned ==> Recorded(state.pending, NewTurn(account, scope, Owning))
      modifies this, state
      ensures !owned
      ensures !old(owned) ==> state.pending == old(state.pending)
      ensures old(owned) ==>
                var rest := old(state.pending)[account].scopes - {scope};
                state.pending
                == if rest == {} then old(state.pending) - {account} else old(state.pending)[account := Folder(rest)]
    {
      if !owned {
        return;
      }
      var unlinked := UnlinkScope(state.pending, account, scope).value;
      state.pending := RemoveFolder(unlinked, account).value;
      assert unlinked - {account} == state.pending - {account};
      owned := false;
    }
  }
}

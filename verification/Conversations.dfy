/** Turns under admission: `MultiplexBrowser.run` (prism-adapter/multiplex_browser.py) around
    `Admission` and `TurnJournal` (prism-adapter/multiplex_runtime.py) and a start gate.

    A turn writes its pending record right after it is admitted. The record goes when the
    turn's terminal is recorded, or at the end if the turn's gate has nothing outstanding
    then; otherwise it stays. A response callback that was suspended while all this happened
    may still decode, and rewrite the record, later. */
module Conversations {
  import opened Prelude
  import A = Admission
  import G = StartGate

  /** What a record is filed under: a named session, or a fresh id per request. */
  datatype Conversation = Named(account: Name, session: Name) | Unnamed(account: Name, serial: nat)

  /** What became of a turn's journal: in use; removed with the terminal recorded; removed
      because nothing was sent; left behind because something was; left behind by a death. */
  datatype Fate = Open | Recorded | Released | Kept | Died

  /** `alive` until the process dies: callbacks of a turn that is over may still run. */
  datatype Turn = Turn(conversation: Conversation, ticket: nat, gate: G.Gate, fate: Fate, alive: bool)

  /** `turns` lists every turn that opened a journal; `owned` says which of them a running
      ticket belongs to; `records` are the files on disk and the turn each was written by. */
  datatype World = World(
    queue: A.State, owned: map<nat, nat>, turns: seq<Turn>, records: map<Conversation, nat>, legacy: set<Name>)

  datatype Step =
    | Move(step: A.Step)
    | Start(id: nat, model: Name, effort: Name)
    | AtGate(turn: nat, event: G.Event)
    | Record(id: nat)
    | End(id: nat)
    | Crash

  function ConversationOf(w: World, t: A.Ticket): Conversation {
    if t.session.Some? then Named(t.account, t.session.value) else Unnamed(t.account, |w.turns|)
  }

  /** The callback that notes a reconnect in the journal. */
  predicate Rewrites(g: G.Gate, e: G.Event) {
    e.Decode? && G.Rearms(g, e.reply) && e.stored
  }

  /** The turn a running ticket belongs to. */
  predicate Owns(w: World, id: nat) {
    id in w.owned && w.owned[id] < |w.turns|
  }

  predicate Enabled(w: World, step: Step) {
    match step
    case Move(s) => !s.Begin? && !s.Leave? && A.Enabled(w.queue, s)
    case Start(id, _, _) => A.Enabled(w.queue, A.Begin(id))
    // the journal can be rewritten only while its file exists
    case AtGate(i, e) =>
      && i < |w.turns| && w.turns[i].alive && G.Enabled(w.turns[i].gate, e)
      && (Rewrites(w.turns[i].gate, e) ==> w.turns[i].conversation in w.records)
    case Record(id) => Owns(w, id) && w.turns[w.owned[id]].fate == Open && G.HasAnswer(w.turns[w.owned[id]].gate)
    // `close` comes before the journal is looked at; a gate never armed cannot have sent
    case End(id) => id in w.queue.tickets && (Owns(w, id) ==> var g := w.turns[w.owned[id]].gate; g.closed || !g.armed)
    case Crash => true
  }

  /** `begin` answers `pending_turn`. */
  predicate Pending(w: World, id: nat)
    requires id in w.queue.tickets
  {
    var t := w.queue.tickets[id];
    t.account in w.legacy || ConversationOf(w, t) in w.records
  }

  /** Admission lets the turn run, and without another `await` it opens its journal. */
  function Started(w: World, id: nat, model: Name, effort: Name): World
    requires id in w.queue.tickets
  {
    var queue := A.Begun(w.queue, id);
    if Pending(w, id) then w.(queue := queue)
    else
      var conversation := ConversationOf(w, w.queue.tickets[id]);
      World(queue, w.owned[id := |w.turns|], w.turns + [Turn(conversation, id, G.NewGate(model, effort), Open, true)],
            w.records[conversation := |w.turns|], w.legacy)
  }

  /** A rewritten record is the writer's from then on, whoever wrote it before. */
  function Gated(w: World, i: nat, e: G.Event): World
    requires i < |w.turns| && G.Enabled(w.turns[i].gate, e)
  {
    var t := w.turns[i];
    w.(turns := w.turns[i := t.(gate := G.Apply(t.gate, e))],
       records := if Rewrites(t.gate, e) then w.records[t.conversation := i] else w.records)
  }

  function TerminalRecorded(w: World, id: nat): World
    requires Owns(w, id)
  {
    var i := w.owned[id];
    var t := w.turns[i];
    w.(turns := w.turns[i := t.(fate := Recorded)], records := w.records - {t.conversation})
  }

  /** What the `finally` of `run` makes of a turn: a journal still in use goes exactly if
      nothing is outstanding at the gate. */
  function Settled(t: Turn): Turn {
    t.(gate := G.Apply(t.gate, G.Close),
       fate := if t.fate != Open then t.fate else if t.gate.sent then Kept else Released)
  }

  /** The `finally` of `run`, then that of `enter`. */
  function Ended(w: World, id: nat): World
    requires id in w.queue.tickets
  {
    var queue := A.Left(w.queue, id);
    if !Owns(w, id) then w.(queue := queue, owned := w.owned - {id})
    else
      var i := w.owned[id];
      var t := Settled(w.turns[i]);
      World(queue, w.owned - {id}, w.turns[i := t],
            if w.turns[i].fate == Open && t.fate == Released then w.records - {t.conversation} else w.records, w.legacy)
  }

  function Dead(t: Turn): Turn {
    t.(alive := false, fate := if t.fate == Open then Died else t.fate)
  }

  function AllDead(turns: seq<Turn>): seq<Turn> {
    seq(|turns|, i requires 0 <= i < |turns| => Dead(turns[i]))
  }

  function Apply(c: A.Limits, w: World, step: Step): World
    requires Enabled(w, step)
  {
    match step
    case Move(s) => w.(queue := A.Apply(c, w.queue, s))
    case Start(id, model, effort) => Started(w, id, model, effort)
    case AtGate(i, e) => Gated(w, i, e)
    case Record(id) => TerminalRecorded(w, id)
    case End(id) => Ended(w, id)
    case Crash => World(A.Fresh(c), map[], AllDead(w.turns), w.records, w.legacy)
  }

  function Fresh(c: A.Limits, legacy: set<Name>): World {
    World(A.Fresh(c), map[], [], map[], legacy)
  }

  // ---------------------------------------------------------------- invariant

  /** A turn on its own. */
  ghost predicate TurnOk(t: Turn, i: nat) {
    && G.GateOk(t.gate) && G.AnswerOk(t.gate)
    && (t.conversation.Unnamed? ==> t.conversation.serial == i)
    && (t.fate == Open ==> t.alive)
    && (t.fate == Died ==> !t.alive)
    && (t.fate == Released ==> t.gate.closed && !t.gate.sent)
    && (t.fate == Recorded ==> t.gate.closed && t.gate.sent && t.gate.response == G.Resolved(true))
    && (t.fate == Kept ==> t.gate.closed)
  }

  ghost predicate TurnAt(turns: seq<Turn>, i: nat) {
    i < |turns| ==> TurnOk(turns[i], i)
  }

  ghost predicate TurnsOk(turns: seq<Turn>) {
    forall i: nat {:trigger TurnAt(turns, i)} :: TurnAt(turns, i)
  }

  predicate OnDisk(fate: Fate) {
    fate == Open || fate == Kept || fate == Died
  }

  predicate RecordOk(turns: seq<Turn>, conversation: Conversation, i: nat) {
    i < |turns| && turns[i].conversation == conversation && OnDisk(turns[i].fate)
  }

  predicate FiledAt(turns: seq<Turn>, records: map<Conversation, nat>, i: nat) {
    i < |turns| && OnDisk(turns[i].fate) ==> turns[i].conversation in records && records[turns[i].conversation] == i
  }

  /** The files on disk are exactly those of turns in use, kept or dead, each its own. */
  ghost predicate RecordsOk(turns: seq<Turn>, records: map<Conversation, nat>) {
    && (forall conversation :: conversation in records ==> RecordOk(turns, conversation, records[conversation]))
    && (forall i: nat {:trigger FiledAt(turns, records, i)} :: FiledAt(turns, records, i))
  }

  /** A journal in use belongs to a running ticket of that conversation. */
  predicate OwnerOk(tickets: map<nat, A.Ticket>, turns: seq<Turn>, id: nat, i: nat) {
    && i < |turns| && turns[i].ticket == id && (turns[i].fate == Open || turns[i].fate == Recorded)
    && id in tickets && tickets[id].running && tickets[id].account == turns[i].conversation.account
    && match turns[i].conversation
       case Named(_, session) => tickets[id].session == Some(session)
       case Unnamed(_, _) => tickets[id].session.None?
  }

  predicate OwnedAt(owned: map<nat, nat>, turns: seq<Turn>, i: nat) {
    i < |turns| && turns[i].fate == Open ==> turns[i].ticket in owned && owned[turns[i].ticket] == i
  }

  ghost predicate OwnersOk(tickets: map<nat, A.Ticket>, owned: map<nat, nat>, turns: seq<Turn>) {
    && (forall id :: id in owned ==> OwnerOk(tickets, turns, id, owned[id]))
    && (forall i: nat {:trigger OwnedAt(owned, turns, i)} :: OwnedAt(owned, turns, i))
  }

  ghost predicate Inv(c: A.Limits, w: World) {
    && A.Inv(c, w.queue) && OwnersOk(w.queue.tickets, w.owned, w.turns)
    && TurnsOk(w.turns) && RecordsOk(w.turns, w.records)
  }

  // ---------------------------------------------------------------- turns

  lemma {:induction false} TurnChanged(turns: seq<Turn>, i: nat, t: Turn)
    requires TurnsOk(turns) && i < |turns| && TurnOk(t, i)
    ensures TurnsOk(turns[i := t])
  {
    forall j: nat {:trigger TurnAt(turns[i := t], j)}
      ensures TurnAt(turns[i := t], j)
    {
      assert TurnAt(turns, j);
    }
  }

  lemma {:induction false} TurnAdded(turns: seq<Turn>, t: Turn)
    requires TurnsOk(turns) && TurnOk(t, |turns|)
    ensures TurnsOk(turns + [t])
  {
    forall j: nat {:trigger TurnAt(turns + [t], j)}
      ensures TurnAt(turns + [t], j)
    {
      assert TurnAt(turns, j);
    }
  }

  /** A closed gate with nothing outstanding stays so, and so does an answered one. */
  lemma {:induction false} GateStepOk(t: Turn, i: nat, e: G.Event)
    requires TurnOk(t, i) && t.alive && G.Enabled(t.gate, e)
    ensures TurnOk(t.(gate := G.Apply(t.gate, e)), i)
  {
    G.EventKeepsGateOk(t.gate, e);
    G.EventKeepsAnswerOk(t.gate, e);
    if t.gate.closed {
      G.ClosedStep(t.gate, e);
    }
  }

  /** Only a turn with a start outstanding and unanswered can still be decoding. */
  lemma {:induction false} DecodingIsOnDisk(t: Turn, i: nat, e: G.Event)
    requires TurnOk(t, i) && t.alive && G.Enabled(t.gate, e) && e.Decode?
    ensures OnDisk(t.fate)
  {
    assert t.gate.decoding != {};
  }

  lemma {:induction false} SettledOk(t: Turn, i: nat)
    requires TurnOk(t, i) && (t.gate.closed || !t.gate.armed)
    ensures TurnOk(Settled(t), i)
  {
    G.EventKeepsGateOk(t.gate, G.Close);
  }

  // ---------------------------------------------------------------- records

  /** A turn whose record stays where it is. */
  lemma {:induction false} RecordsStay(turns: seq<Turn>, records: map<Conversation, nat>, i: nat, t: Turn)
    requires RecordsOk(turns, records) && i < |turns| && t.conversation == turns[i].conversation
    requires OnDisk(t.fate) <==> OnDisk(turns[i].fate)
    ensures RecordsOk(turns[i := t], records)
  {
    var turns' := turns[i := t];
    forall conversation | conversation in records
      ensures RecordOk(turns', conversation, records[conversation])
    {
      assert RecordOk(turns, conversation, records[conversation]);
    }
    forall j: nat {:trigger FiledAt(turns', records, j)}
      ensures FiledAt(turns', records, j)
    {
      assert FiledAt(turns, records, j);
    }
  }

  /** Removing a turn's record removes nobody else's. */
  lemma {:induction false} RecordRemoved(turns: seq<Turn>, records: map<Conversation, nat>, i: nat, t: Turn)
    requires RecordsOk(turns, records) && i < |turns| && t.conversation == turns[i].conversation
    requires OnDisk(turns[i].fate) && !OnDisk(t.fate)
    ensures RecordsOk(turns[i := t], records - {t.conversation})
  {
    var turns', records' := turns[i := t], records - {t.conversation};
    assert FiledAt(turns, records, i);
    forall conversation | conversation in records'
      ensures RecordOk(turns', conversation, records'[conversation])
    {
      assert RecordOk(turns, conversation, records[conversation]);
    }
    forall j: nat {:trigger FiledAt(turns', records', j)}
      ensures FiledAt(turns', records', j)
    {
      assert FiledAt(turns, records, j);
    }
  }

  lemma {:induction false} RecordAdded(turns: seq<Turn>, records: map<Conversation, nat>, t: Turn)
    requires RecordsOk(turns, records) && t.conversation !in records && OnDisk(t.fate)
    ensures RecordsOk(turns + [t], records[t.conversation := |turns|])
  {
    var turns', records' := turns + [t], records[t.conversation := |turns|];
    forall conversation | conversation in records'
      ensures RecordOk(turns', conversation, records'[conversation])
    {
      assert conversation in records ==> RecordOk(turns, conversation, records[conversation]);
    }
    forall j: nat {:trigger FiledAt(turns', records', j)}
      ensures FiledAt(turns', records', j)
    {
      assert FiledAt(turns, records, j);
    }
  }

  // ---------------------------------------------------------------- owners

  lemma {:induction false} OwnersFollow(tickets: map<nat, A.Ticket>, owned: map<nat, nat>, turns: seq<Turn>, i: nat,
                                        t: Turn)
    requires OwnersOk(tickets, owned, turns) && i < |turns|
    requires t.conversation == turns[i].conversation && t.ticket == turns[i].ticket
    requires t.fate == turns[i].fate || (turns[i].fate == Open && t.fate == Recorded)
    ensures OwnersOk(tickets, owned, turns[i := t])
  {
    var turns' := turns[i := t];
    forall id | id in owned
      ensures OwnerOk(tickets, turns', id, owned[id])
    {
      assert OwnerOk(tickets, turns, id, owned[id]);
    }
    forall j: nat {:trigger OwnedAt(owned, turns', j)}
      ensures OwnedAt(owned, turns', j)
    {
      assert OwnedAt(owned, turns, j);
    }
  }

  /** Moving on in the queue takes nobody's running ticket away. */
  lemma {:induction false} MoveKeepsOwners(c: A.Limits, s: A.State, step: A.Step, owned: map<nat, nat>,
                                           turns: seq<Turn>)
    requires OwnersOk(s.tickets, owned, turns) && A.Enabled(s, step) && !step.Leave? && !step.Begin?
    ensures OwnersOk(A.Apply(c, s, step).tickets, owned, turns)
  {
    var s' := A.Apply(c, s, step);
    forall id | id in owned
      ensures OwnerOk(s'.tickets, turns, id, owned[id])
    {
      assert OwnerOk(s.tickets, turns, id, owned[id]);
    }
  }

  lemma {:induction false} BeginKeepsOwners(s: A.State, id: nat, owned: map<nat, nat>, turns: seq<Turn>)
    requires OwnersOk(s.tickets, owned, turns) && A.Enabled(s, A.Begin(id))
    ensures OwnersOk(A.Begun(s, id).tickets, owned, turns) && id !in owned
  {
    var s' := A.Begun(s, id);
    forall j | j in owned
      ensures OwnerOk(s'.tickets, turns, j, owned[j]) && j != id
    {
      assert OwnerOk(s.tickets, turns, j, owned[j]);
    }
  }

  lemma {:induction false} OwnerAdded(tickets: map<nat, A.Ticket>, owned: map<nat, nat>, turns: seq<Turn>, t: Turn)
    requires OwnersOk(tickets, owned, turns) && t.ticket !in owned && OwnerOk(tickets, turns + [t], t.ticket, |turns|)
    ensures OwnersOk(tickets, owned[t.ticket := |turns|], turns + [t])
  {
    var owned', turns' := owned[t.ticket := |turns|], turns + [t];
    forall j | j in owned'
      ensures OwnerOk(tickets, turns', j, owned'[j])
    {
      assert j in owned ==> OwnerOk(tickets, turns, j, owned[j]);
    }
    forall j: nat {:trigger OwnedAt(owned', turns', j)}
      ensures OwnedAt(owned', turns', j)
    {
      assert OwnedAt(owned, turns, j);
    }
  }

  /** A turn that is over gives up its ticket. */
  lemma {:induction false} OwnerGone(tickets: map<nat, A.Ticket>, owned: map<nat, nat>, turns: seq<Turn>, id: nat,
                                     t: Turn)
    requires OwnersOk(tickets, owned, turns) && id in owned && owned[id] < |turns|
    requires t.ticket == turns[owned[id]].ticket && t.fate != Open
    ensures OwnersOk(tickets - {id}, owned - {id}, turns[owned[id] := t])
  {
    var i := owned[id];
    var owned', turns' := owned - {id}, turns[i := t];
    assert OwnerOk(tickets, turns, id, i);
    forall j | j in owned'
      ensures OwnerOk(tickets - {id}, turns', j, owned'[j])
    {
      assert OwnerOk(tickets, turns, j, owned[j]);
    }
    forall j: nat {:trigger OwnedAt(owned', turns', j)}
      ensures OwnedAt(owned', turns', j)
    {
      assert OwnedAt(owned, turns, j);
    }
  }

  lemma {:induction false} NobodyGone(tickets: map<nat, A.Ticket>, owned: map<nat, nat>, turns: seq<Turn>, id: nat)
    requires OwnersOk(tickets, owned, turns) && id !in owned
    ensures OwnersOk(tickets - {id}, owned - {id}, turns)
  {
    assert owned - {id} == owned;
    forall j | j in owned
      ensures OwnerOk(tickets - {id}, turns, j, owned[j])
    {
      assert OwnerOk(tickets, turns, j, owned[j]);
    }
  }

  // ---------------------------------------------------------------- starting

  /** A record in use is in use by this very turn, so a turn that is only starting and
      meets a record meets a leftover. */
  lemma {:induction false} MetRecordIsLeftover(c: A.Limits, w: World, id: nat)
    requires Inv(c, w) && A.Enabled(w.queue, A.Begin(id))
    requires ConversationOf(w, w.queue.tickets[id]) in w.records
    ensures w.queue.tickets[id].session.Some?
    ensures var i := w.records[ConversationOf(w, w.queue.tickets[id])];
            i < |w.turns| && (w.turns[i].fate == Kept || w.turns[i].fate == Died)
  {
    var t, conversation := w.queue.tickets[id], ConversationOf(w, w.queue.tickets[id]);
    var i := w.records[conversation];
    assert RecordOk(w.turns, conversation, i) && TurnAt(w.turns, i);
    if w.turns[i].fate == Open {
      var j := w.turns[i].ticket;
      assert OwnedAt(w.owned, w.turns, i);
      assert OwnerOk(w.queue.tickets, w.turns, j, i);
      SecondOfConversation(c, w.queue, id, j);
    }
  }

  /** Admission has no running ticket of the conversation another ticket can begin. */
  lemma {:induction false} SecondOfConversation(c: A.Limits, s: A.State, id: nat, j: nat)
    requires A.Inv(c, s) && A.Enabled(s, A.Begin(id)) && s.tickets[id].session.Some?
    requires j in s.tickets && s.tickets[j].running && s.tickets[j].account == s.tickets[id].account
    ensures s.tickets[j].session != s.tickets[id].session
  {
    var t := s.tickets[id];
    if s.tickets[j].session == t.session {
      A.StepKeepsInv(c, s, A.Begin(id));
      A.OneTurnPerConversation(c, A.Begun(s, id), id, j, A.Scope(t.account, t.session.value));
    }
  }

  lemma {:induction false} StartKeepsInv(c: A.Limits, w: World, id: nat, model: Name, effort: Name)
    requires Inv(c, w) && Enabled(w, Start(id, model, effort))
    ensures Inv(c, Started(w, id, model, effort))
  {
    A.StepKeepsInv(c, w.queue, A.Begin(id));
    BeginKeepsOwners(w.queue, id, w.owned, w.turns);
    if !Pending(w, id) {
      var t := Turn(ConversationOf(w, w.queue.tickets[id]), id, G.NewGate(model, effort), Open, true);
      G.NewGateOk(model, effort);
      TurnAdded(w.turns, t);
      RecordAdded(w.turns, w.records, t);
      OwnerAdded(A.Begun(w.queue, id).tickets, w.owned, w.turns, t);
    }
  }

  // ---------------------------------------------------------------- the other steps

  /** A late callback rewrites only its own turn's record, which is still there. */
  lemma {:induction false} RewriteIsOwn(w: World, i: nat, e: G.Event)
    requires TurnsOk(w.turns) && RecordsOk(w.turns, w.records)
    requires i < |w.turns| && w.turns[i].alive && G.Enabled(w.turns[i].gate, e) && Rewrites(w.turns[i].gate, e)
    ensures w.turns[i].conversation in w.records && w.records[w.turns[i].conversation] == i
  {
    assert TurnAt(w.turns, i) && FiledAt(w.turns, w.records, i);
    DecodingIsOnDisk(w.turns[i], i, e);
  }

  lemma {:induction false} GatedKeepsInv(c: A.Limits, w: World, i: nat, e: G.Event)
    requires Inv(c, w) && Enabled(w, AtGate(i, e))
    ensures Inv(c, Gated(w, i, e)) && Gated(w, i, e).records == w.records
  {
    var t := w.turns[i].(gate := G.Apply(w.turns[i].gate, e));
    assert TurnAt(w.turns, i);
    GateStepOk(w.turns[i], i, e);
    TurnChanged(w.turns, i, t);
    RecordsStay(w.turns, w.records, i, t);
    OwnersFollow(w.queue.tickets, w.owned, w.turns, i, t);
    if Rewrites(w.turns[i].gate, e) {
      RewriteIsOwn(w, i, e);
    }
  }

  lemma {:induction false} RecordKeepsInv(c: A.Limits, w: World, id: nat)
    requires Inv(c, w) && Enabled(w, Record(id))
    ensures Inv(c, TerminalRecorded(w, id))
  {
    var i := w.owned[id];
    var t := w.turns[i].(fate := Recorded);
    assert TurnAt(w.turns, i);
    TurnChanged(w.turns, i, t);
    RecordRemoved(w.turns, w.records, i, t);
    OwnersFollow(w.queue.tickets, w.owned, w.turns, i, t);
  }

  lemma {:induction false} EndKeepsInv(c: A.Limits, w: World, id: nat)
    requires Inv(c, w) && Enabled(w, End(id))
    ensures Inv(c, Ended(w, id))
  {
    A.StepKeepsInv(c, w.queue, A.Leave(id));
    if id in w.owned {
      var i := w.owned[id];
      var t := Settled(w.turns[i]);
      assert OwnerOk(w.queue.tickets, w.turns, id, i) && TurnAt(w.turns, i);
      SettledOk(w.turns[i], i);
      TurnChanged(w.turns, i, t);
      OwnerGone(w.queue.tickets, w.owned, w.turns, id, t);
      if w.turns[i].fate == Open && t.fate == Released {
        RecordRemoved(w.turns, w.records, i, t);
      } else {
        RecordsStay(w.turns, w.records, i, t);
      }
    } else {
      NobodyGone(w.queue.tickets, w.owned, w.turns, id);
    }
  }

  lemma {:induction false} CrashKeepsInv(c: A.Limits, w: World)
    requires Inv(c, w)
    ensures Inv(c, World(A.Fresh(c), map[], AllDead(w.turns), w.records, w.legacy))
  {
    var turns' := AllDead(w.turns);
    A.FreshInv(c);
    forall i: nat {:trigger TurnAt(turns', i)}
      ensures TurnAt(turns', i)
    {
      assert TurnAt(w.turns, i);
    }
    forall conversation | conversation in w.records
      ensures RecordOk(turns', conversation, w.records[conversation])
    {
      assert RecordOk(w.turns, conversation, w.records[conversation]);
    }
    forall i: nat {:trigger FiledAt(turns', w.records, i)}
      ensures FiledAt(turns', w.records, i)
    {
      assert FiledAt(w.turns, w.records, i);
    }
    forall i: nat {:trigger OwnedAt(map[], turns', i)}
      ensures OwnedAt(map[], turns', i)
    {
      assert i < |turns'| ==> turns'[i].fate != Open;
    }
  }

  lemma {:induction false} MoveKeepsInv(c: A.Limits, w: World, step: A.Step)
    requires Inv(c, w) && Enabled(w, Move(step))
    ensures Inv(c, w.(queue := A.Apply(c, w.queue, step)))
  {
    A.StepKeepsInv(c, w.queue, step);
    MoveKeepsOwners(c, w.queue, step, w.owned, w.turns);
  }

  lemma {:induction false} StepKeepsInv(c: A.Limits, w: World, step: Step)
    requires Inv(c, w) && Enabled(w, step)
    ensures Inv(c, Apply(c, w, step))
  {
    match step
    case Move(s) => MoveKeepsInv(c, w, s);
    case Start(id, model, effort) => StartKeepsInv(c, w, id, model, effort);
    case AtGate(i, e) => GatedKeepsInv(c, w, i, e);
    case Record(id) => RecordKeepsInv(c, w, id);
    case End(id) => EndKeepsInv(c, w, id);
    case Crash => CrashKeepsInv(c, w);
  }

  // ---------------------------------------------------------------- runs

  predicate IsRun(c: A.Limits, w: World, steps: seq<Step>)
    decreases |steps|
  {
    steps != [] ==> Enabled(w, steps[0]) && IsRun(c, Apply(c, w, steps[0]), steps[1..])
  }

  function After(c: A.Limits, w: World, steps: seq<Step>): World
    requires IsRun(c, w, steps)
    decreases |steps|
  {
    if steps == [] then w else After(c, Apply(c, w, steps[0]), steps[1..])
  }

  /** A state some run from an empty executor leads to. */
  ghost predicate Reached(c: A.Limits, legacy: set<Name>, steps: seq<Step>, w: World) {
    IsRun(c, Fresh(c, legacy), steps) && After(c, Fresh(c, legacy), steps) == w
  }

  lemma {:induction false} FreshInv(c: A.Limits, legacy: set<Name>)
    ensures Inv(c, Fresh(c, legacy))
  {
    A.FreshInv(c);
  }

  lemma {:induction false} RunKeepsInv(c: A.Limits, w: World, steps: seq<Step>, end: World)
    requires Inv(c, w) && IsRun(c, w, steps) && After(c, w, steps) == end
    ensures Inv(c, end)
    decreases |steps|
  {
    if steps != [] {
      var next := Apply(c, w, steps[0]);
      StepKeepsInv(c, w, steps[0]);
      RunKeepsInv(c, next, steps[1..], end);
    }
  }

  lemma {:induction false} ReachedInv(c: A.Limits, legacy: set<Name>, steps: seq<Step>, w: World)
    requires Reached(c, legacy, steps, w)
    ensures Inv(c, w)
  {
    FreshInv(c, legacy);
    RunKeepsInv(c, Fresh(c, legacy), steps, w);
  }

  lemma {:induction false} LegacyStays(c: A.Limits, w: World, steps: seq<Step>)
    requires IsRun(c, w, steps)
    ensures After(c, w, steps).legacy == w.legacy
    decreases |steps|
  {
    if steps != [] {
      LegacyStays(c, Apply(c, w, steps[0]), steps[1..]);
    }
  }

  // ---------------------------------------------------------------- when a record outlives its turn

  predicate HasRecord(w: World, i: nat) {
    i < |w.turns| && w.turns[i].conversation in w.records && w.records[w.turns[i].conversation] == i
  }

  predicate SomeUnrefused(g: G.Gate) {
    exists k :: 0 <= k < |g.log| && !G.Refused(g.log[k])
  }

  /** In every reachable state, the record of a turn that ends is on disk afterwards exactly if
      its terminal was not recorded and its gate let a start out that was not refused, or was
      refused for good (no attempts left, or the note of it failed). No other record changes. */
  lemma {:induction false} RecordOutlivesTurn(c: A.Limits, legacy: set<Name>, steps: seq<Step>, w: World, id: nat)
    requires Reached(c, legacy, steps, w) && Enabled(w, End(id)) && Owns(w, id)
    ensures var i := w.owned[id];
            var g := w.turns[i].gate;
            HasRecord(Ended(w, id), i) <==> w.turns[i].fate != Recorded && (SomeUnrefused(g) || G.FinallyRefused(g))
    ensures forall conversation :: conversation != w.turns[w.owned[id]].conversation ==>
              (conversation in Ended(w, id).records <==> conversation in w.records)
              && (conversation in w.records ==> Ended(w, id).records[conversation] == w.records[conversation])
  {
    ReachedInv(c, legacy, steps, w);
    EndLeavesRecord(w, id);
  }

  lemma {:induction false} EndLeavesRecord(w: World, id: nat)
    requires OwnersOk(w.queue.tickets, w.owned, w.turns) && TurnsOk(w.turns) && RecordsOk(w.turns, w.records)
    requires id in w.queue.tickets && Owns(w, id)
    ensures var i := w.owned[id];
            var g := w.turns[i].gate;
            HasRecord(Ended(w, id), i) <==> w.turns[i].fate != Recorded && (SomeUnrefused(g) || G.FinallyRefused(g))
  {
    var i := w.owned[id];
    assert OwnerOk(w.queue.tickets, w.turns, id, i) && TurnAt(w.turns, i) && FiledAt(w.turns, w.records, i);
    G.SentMeansUnrefused(w.turns[i].gate);
    if w.turns[i].fate == Recorded && w.turns[i].conversation in w.records {
      assert RecordOk(w.turns, w.turns[i].conversation, w.records[w.turns[i].conversation]);
    }
  }

  /** In every run, a pending record is removed with its terminal recorded only if the turn's
      last start came back with a request id and did not invite another try. */
  lemma {:induction false} RecordMeansAnswered(c: A.Limits, legacy: set<Name>, steps: seq<Step>, w: World, id: nat)
    requires Reached(c, legacy, steps, w) && Enabled(w, Record(id))
    ensures var log := w.turns[w.owned[id]].gate.log;
            log != [] && log[|log| - 1].reply.Some? && G.IsFinal(log[|log| - 1].reply.value, |log|)
  {
    ReachedInv(c, legacy, steps, w);
    assert TurnAt(w.turns, w.owned[id]);
  }

  /** A late callback, even of a turn long over, leaves every record as it is. */
  lemma {:induction false} LateCallbackIsHarmless(c: A.Limits, legacy: set<Name>, steps: seq<Step>, w: World, i: nat,
                                                  e: G.Event)
    requires Reached(c, legacy, steps, w) && Enabled(w, AtGate(i, e))
    ensures Gated(w, i, e).records == w.records
    ensures Rewrites(w.turns[i].gate, e) ==> HasRecord(w, i)
  {
    ReachedInv(c, legacy, steps, w);
    GatedKeepsInv(c, w, i, e);
    if Rewrites(w.turns[i].gate, e) {
      RewriteIsOwn(w, i, e);
    }
  }

  // ---------------------------------------------------------------- what stays

  /** A journal that is done with is never in use again. */
  predicate SameFate(w: World, w': World, i: nat) {
    && i < |w.turns| && i < |w'.turns| && w'.turns[i].conversation == w.turns[i].conversation
    && (w.turns[i].fate != Open ==> w'.turns[i].fate == w.turns[i].fate)
  }

  lemma {:induction false} FateStays(c: A.Limits, w: World, step: Step, i: nat)
    requires Enabled(w, step) && i < |w.turns|
    ensures SameFate(w, Apply(c, w, step), i)
  {
  }

  lemma {:induction false} FateStaysForGood(c: A.Limits, w: World, steps: seq<Step>, i: nat)
    requires IsRun(c, w, steps) && i < |w.turns|
    ensures SameFate(w, After(c, w, steps), i)
    decreases |steps|
  {
    if steps != [] {
      FateStays(c, w, steps[0], i);
      FateStaysForGood(c, Apply(c, w, steps[0]), steps[1..], i);
    }
  }

  /** Once a turn's record was removed because nothing was outstanding, every start the turn
      ever let out was refused, none will follow, and the record never comes back. */
  lemma {:induction false} GoneForGood(c: A.Limits, legacy: set<Name>, steps: seq<Step>, w: World, more: seq<Step>,
                                       end: World, i: nat)
    requires Reached(c, legacy, steps, w) && IsRun(c, w, more) && After(c, w, more) == end
    requires i < |w.turns| && w.turns[i].fate == Released
    ensures i < |end.turns| && !HasRecord(end, i)
    ensures forall k :: 0 <= k < |end.turns[i].gate.log| ==> G.Refused(end.turns[i].gate.log[k])
  {
    ReachedInv(c, legacy, steps, w);
    RunKeepsInv(c, w, more, end);
    FateStaysForGood(c, w, more, i);
    assert TurnAt(end.turns, i);
    assert HasRecord(end, i) ==> RecordOk(end.turns, end.turns[i].conversation, i);
  }

  /** A record left behind stays on disk. */
  lemma {:induction false} LeftForGood(c: A.Limits, legacy: set<Name>, steps: seq<Step>, w: World, more: seq<Step>,
                                       end: World, i: nat)
    requires Reached(c, legacy, steps, w) && IsRun(c, w, more) && After(c, w, more) == end
    requires i < |w.turns| && (w.turns[i].fate == Kept || w.turns[i].fate == Died)
    ensures HasRecord(end, i)
  {
    ReachedInv(c, legacy, steps, w);
    RunKeepsInv(c, w, more, end);
    FateStaysForGood(c, w, more, i);
    assert FiledAt(end.turns, end.records, i);
  }

  // ---------------------------------------------------------------- pending_turn

  /** A turn is told `pending_turn` only for a legacy file of its account, or because the
      record of its own named conversation was left behind by a turn that is over or died:
      never because a predecessor is still running, and never for an anonymous request. */
  lemma {:induction false} PendingMeansUnresolved(c: A.Limits, legacy: set<Name>, steps: seq<Step>, w: World, id: nat)
    requires Reached(c, legacy, steps, w) && A.Enabled(w.queue, A.Begin(id)) && Pending(w, id)
    ensures var t := w.queue.tickets[id];
            || t.account in legacy
            || (t.session.Some? && Named(t.account, t.session.value) in w.records
                && var i := w.records[Named(t.account, t.session.value)];
                   i < |w.turns| && (w.turns[i].fate == Kept || w.turns[i].fate == Died))
  {
    ReachedInv(c, legacy, steps, w);
    LegacyStays(c, Fresh(c, legacy), steps);
    if w.queue.tickets[id].account !in legacy {
      MetRecordIsLeftover(c, w, id);
    }
  }

  /** The turn's record is on disk, and it is of this conversation. */
  predicate Occupies(w: World, i: nat, conversation: Conversation) {
    i < |w.turns| && w.turns[i].conversation == conversation && OnDisk(w.turns[i].fate)
  }

  /** In every run a turn that may begin is turned away exactly if its account has a legacy
      record, or some turn of its conversation is in use, was kept or died. */
  lemma {:induction false} PendingMeans(c: A.Limits, legacy: set<Name>, steps: seq<Step>, w: World, id: nat)
    requires Reached(c, legacy, steps, w) && A.Enabled(w.queue, A.Begin(id))
    ensures var t := w.queue.tickets[id];
            Pending(w, id) <==> t.account in legacy || exists i :: Occupies(w, i, ConversationOf(w, t))
  {
    ReachedInv(c, legacy, steps, w);
    LegacyStays(c, Fresh(c, legacy), steps);
    var conversation := ConversationOf(w, w.queue.tickets[id]);
    if conversation in w.records {
      assert RecordOk(w.turns, conversation, w.records[conversation]);
      assert Occupies(w, w.records[conversation], conversation);
    }
    if exists i :: Occupies(w, i, conversation) {
      var i :| Occupies(w, i, conversation);
      assert FiledAt(w.turns, w.records, i);
    }
  }

  /** Step `k` of the run left the record of turn `i` behind: the turn ended with a start that
      was not refused or was refused for good, or the process died while the turn was running. */
  ghost predicate Causes(c: A.Limits, w: World, steps: seq<Step>, k: nat, i: nat) {
    && k < |steps| && IsRun(c, w, steps[..k])
    && var before := After(c, w, steps[..k]);
       && i < |before.turns| && before.turns[i].fate == Open
       && match steps[k]
          case End(id) =>
            Owns(before, id) && before.owned[id] == i
            && (SomeUnrefused(before.turns[i].gate) || G.FinallyRefused(before.turns[i].gate))
          case Crash => true
          case _ => false
  }

  predicate IsLeft(w: World, i: nat) {
    i < |w.turns| && (w.turns[i].fate == Kept || w.turns[i].fate == Died)
  }

  lemma {:induction false} LeftByStep(c: A.Limits, w: World, steps: seq<Step>, i: nat)
    requires TurnsOk(w.turns) && steps != [] && Enabled(w, steps[0])
    requires !IsLeft(w, i) && IsLeft(Apply(c, w, steps[0]), i)
    ensures Causes(c, w, steps, 0, i)
  {
    assert steps[..0] == [];
    assert TurnAt(w.turns, i);
    if i < |w.turns| {
      G.SentMeansUnrefused(w.turns[i].gate);
    }
  }

  lemma {:induction false} CauseLater(c: A.Limits, w: World, steps: seq<Step>, k: nat, i: nat)
    requires steps != [] && Enabled(w, steps[0]) && Causes(c, Apply(c, w, steps[0]), steps[1..], k, i)
    ensures Causes(c, w, steps, k + 1, i)
  {
    assert steps[..k + 1][1..] == steps[1..][..k];
  }

  lemma {:induction false} LeftHasCause(c: A.Limits, w: World, steps: seq<Step>, i: nat) returns (k: nat)
    requires Inv(c, w) && IsRun(c, w, steps) && !IsLeft(w, i) && IsLeft(After(c, w, steps), i)
    ensures Causes(c, w, steps, k, i)
    decreases |steps|
  {
    var next := Apply(c, w, steps[0]);
    StepKeepsInv(c, w, steps[0]);
    if IsLeft(next, i) {
      LeftByStep(c, w, steps, i);
      k := 0;
    } else {
      var j := LeftHasCause(c, next, steps[1..], i);
      CauseLater(c, w, steps, j, i);
      k := j + 1;
    }
  }

  /** Unless a legacy file blocks its account, whoever is told `pending_turn` can be shown the
      turn `i` of its own session and the step `k` of the run that left the record behind. */
  lemma {:induction false} PendingHasCause(c: A.Limits, legacy: set<Name>, steps: seq<Step>, w: World,
                                           id: nat) returns (i: nat, k: nat)
    requires Reached(c, legacy, steps, w) && A.Enabled(w.queue, A.Begin(id)) && Pending(w, id)
    requires w.queue.tickets[id].account !in legacy
    ensures var t := w.queue.tickets[id];
            && t.session.Some? && i < |w.turns| && w.turns[i].conversation == Named(t.account, t.session.value)
            && Causes(c, Fresh(c, legacy), steps, k, i)
  {
    var t := w.queue.tickets[id];
    PendingMeansUnresolved(c, legacy, steps, w, id);
    ReachedInv(c, legacy, steps, w);
    FreshInv(c, legacy);
    i := w.records[Named(t.account, t.session.value)];
    assert RecordOk(w.turns, Named(t.account, t.session.value), i);
    k := LeftHasCause(c, Fresh(c, legacy), steps, i);
  }
}

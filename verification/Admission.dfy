/** Queueing and locking in front of the browser: `Admission` of prism-adapter/multiplex_runtime.py.

    A ticket takes its conversation's lock, its account's semaphore and the global
    semaphore, in that order, each `await` being a point where other tickets move. The
    lock objects live in dictionaries with a count of the tickets that use them and are
    dropped at zero, so the same key may later get a different object. */
module Admission {
  import opened Prelude

  /** `accounts` and `scopes` are one dictionary here, with tagged keys. */
  datatype Key = Scope(account: Name, session: Name) | Account(id: Name) | Global

  /** The two-element lists of the source: a lock object and how many tickets use it. */
  datatype Entry = Entry(lock: nat, count: int)

  /** How far a ticket is: what it waits for, or that it has everything. */
  datatype Stage = WantScope | WantAccount | WantGlobal | HasAll

  /** One call of `enter`: the objects it found for its conversation (if it names one)
      and its account, how many of its locks it has, and whether its body runs. */
  datatype Ticket = Ticket(
    account: Name, session: Option<Name>, scopeLock: nat, accountLock: nat, stage: Stage, running: bool)

  datatype Limits = Limits(active: nat, perAccount: nat, queued: nat)

  /** The bounds `__init__` insists on. */
  predicate Sensible(c: Limits) {
    1 <= c.perAccount <= c.active <= 30 && c.queued <= 60
  }

  /** `free` holds the permits left of every object made, `made` the key it was made for. */
  datatype Pool = Pool(entries: map<Key, Entry>, free: map<nat, nat>, made: map<nat, Key>, next: nat)

  datatype State = State(pool: Pool, tickets: map<nat, Ticket>, outstanding: int, running: int, closed: bool)

  const GLOBAL_SLOTS := 0

  function Capacity(c: Limits, key: Key): nat {
    match key
    case Scope(_, _) => 1
    case Account(_) => c.perAccount
    case Global => c.active
  }

  function Fresh(c: Limits): State {
    State(Pool(map[], map[GLOBAL_SLOTS := c.active], map[GLOBAL_SLOTS := Global], 1), map[], 0, 0, false)
  }

  /** The keys of a request that live in the dictionaries. */
  function Shared(account: Name, session: Option<Name>): set<Key> {
    {Account(account)} + if session.Some? then {Scope(account, session.value)} else {}
  }

  function Needs(account: Name, session: Option<Name>): set<Key> {
    Shared(account, session) + {Global}
  }

  /** What the ticket waits for: conversation, then account, then a global slot. */
  function Next(t: Ticket): Option<Key> {
    match t.stage
    case WantScope => if t.session.Some? then Some(Scope(t.account, t.session.value)) else None
    case WantAccount => Some(Account(t.account))
    case WantGlobal => Some(Global)
    case HasAll => None
  }

  function Onward(stage: Stage): Stage {
    match stage
    case WantScope => WantAccount
    case WantAccount => WantGlobal
    case WantGlobal => HasAll
    case HasAll => HasAll
  }

  /** The object this ticket uses for one of its keys. */
  function LockFor(t: Ticket, key: Key): nat {
    match key
    case Scope(_, _) => t.scopeLock
    case Account(_) => t.accountLock
    case Global => GLOBAL_SLOTS
  }

  /** The list `acquired`. */
  function Taken(t: Ticket): seq<nat> {
    var scope := if t.session.Some? then [t.scopeLock] else [];
    match t.stage
    case WantScope => []
    case WantAccount => scope
    case WantGlobal => scope + [t.accountLock]
    case HasAll => scope + [t.accountLock, GLOBAL_SLOTS]
  }

  predicate Holds(t: Ticket, o: nat) {
    || (t.session.Some? && !t.stage.WantScope? && o == t.scopeLock)
    || ((t.stage.WantGlobal? || t.stage.HasAll?) && o == t.accountLock)
    || (t.stage.HasAll? && o == GLOBAL_SLOTS)
  }

  /** `setdefault` and the increment after it. */
  function Join(c: Limits, p: Pool, key: Key): Pool {
    if key in p.entries then
      p.(entries := p.entries[key := Entry(p.entries[key].lock, p.entries[key].count + 1)])
    else
      Pool(p.entries[key := Entry(p.next, 1)], p.free[p.next := Capacity(c, key)], p.made[p.next := key], p.next + 1)
  }

  /** The decrement and, at zero, the `pop`. */
  function Quit(p: Pool, key: Key): Pool {
    if key !in p.entries then p
    else if p.entries[key].count == 1 then p.(entries := p.entries - {key})
    else p.(entries := p.entries[key := Entry(p.entries[key].lock, p.entries[key].count - 1)])
  }

  function JoinAll(c: Limits, p: Pool, account: Name, session: Option<Name>): Pool {
    var q := Join(c, p, Account(account));
    if session.Some? then Join(c, q, Scope(account, session.value)) else q
  }

  function QuitAll(p: Pool, account: Name, session: Option<Name>): Pool {
    var q := Quit(p, Account(account));
    if session.Some? then Quit(q, Scope(account, session.value)) else q
  }

  function ObjectFor(p: Pool, key: Key): nat {
    if key in p.entries then p.entries[key].lock else GLOBAL_SLOTS
  }

  function NewTicket(p: Pool, account: Name, session: Option<Name>): Ticket {
    Ticket(account, session, if session.Some? then ObjectFor(p, Scope(account, session.value)) else GLOBAL_SLOTS,
           ObjectFor(p, Account(account)), if session.Some? then WantScope else WantAccount, false)
  }

  datatype Refusal = Unavailable | Busy

  function Refused(c: Limits, s: State): Option<Refusal> {
    if s.closed then Some(Unavailable)
    else if s.outstanding >= c.active + c.queued then Some(Busy)
    else None
  }

  datatype Step =
    | Enter(id: nat, account: Name, session: Option<Name>)
    | Acquire(id: nat)
    | Begin(id: nat)
    | Leave(id: nat)
    | Stop

  /** The object of the next lock has a permit left. */
  predicate CanAcquire(p: Pool, t: Ticket) {
    Next(t).Some? && LockFor(t, Next(t).value) in p.free && p.free[LockFor(t, Next(t).value)] > 0
  }

  predicate Enabled(s: State, step: Step) {
    match step
    case Enter(id, _, _) => id !in s.tickets
    case Acquire(id) => id in s.tickets && CanAcquire(s.pool, s.tickets[id])
    case Begin(id) => id in s.tickets && Next(s.tickets[id]).None? && !s.tickets[id].running
    case Leave(id) => id in s.tickets
    case Stop => true
  }

  function Entered(c: Limits, s: State, id: nat, account: Name, session: Option<Name>): State {
    var pool := JoinAll(c, s.pool, account, session);
    State(pool, s.tickets[id := NewTicket(pool, account, session)], s.outstanding + 1, s.running, s.closed)
  }

  function Acquired(s: State, id: nat): State
    requires Enabled(s, Acquire(id))
  {
    var t := s.tickets[id];
    var lock := LockFor(t, Next(t).value);
    s.(pool := s.pool.(free := s.pool.free[lock := s.pool.free[lock] - 1]),
       tickets := s.tickets[id := t.(stage := Onward(t.stage))])
  }

  /** Releasing everything a ticket has acquired. */
  function Returned(free: map<nat, nat>, t: Ticket): map<nat, nat> {
    map o | o in free :: if Holds(t, o) then free[o] + 1 else free[o]
  }

  function Left(s: State, id: nat): State
    requires id in s.tickets
  {
    var t := s.tickets[id];
    State(QuitAll(s.pool.(free := Returned(s.pool.free, t)), t.account, t.session), s.tickets - {id},
          s.outstanding - 1, if t.running then s.running - 1 else s.running, s.closed)
  }

  function Begun(s: State, id: nat): State
    requires id in s.tickets
  {
    s.(tickets := s.tickets[id := s.tickets[id].(running := true)], running := s.running + 1)
  }

  function Apply(c: Limits, s: State, step: Step): State
    requires Enabled(s, step)
  {
    match step
    case Enter(id, account, session) => if Refused(c, s).Some? then s else Entered(c, s, id, account, session)
    case Acquire(id) => Acquired(s, id)
    case Begin(id) => Begun(s, id)
    case Leave(id) => Left(s, id)
    case Stop => s.(closed := true)
  }

  // ---------------------------------------------------------------- invariant

  function Users(tickets: map<nat, Ticket>, key: Key): set<nat> {
    set id | id in tickets && key in Shared(tickets[id].account, tickets[id].session)
  }

  function Holders(tickets: map<nat, Ticket>, o: nat): set<nat> {
    set id | id in tickets && Holds(tickets[id], o)
  }

  function Runners(tickets: map<nat, Ticket>): set<nat> {
    set id | id in tickets && tickets[id].running
  }

  predicate LockOk(entries: map<Key, Entry>, t: Ticket, key: Key) {
    key in entries && entries[key].lock == LockFor(t, key)
  }

  /** The ticket uses the objects that the dictionaries hold now. */
  predicate TicketOk(entries: map<Key, Entry>, t: Ticket) {
    && LockOk(entries, t, Account(t.account))
    && (t.session.Some? ==> LockOk(entries, t, Scope(t.account, t.session.value)))
    && (t.stage.WantScope? ==> t.session.Some?)
    && (t.running ==> t.stage.HasAll?)
  }

  predicate TicketsOk(entries: map<Key, Entry>, tickets: map<nat, Ticket>) {
    forall id :: id in tickets ==> TicketOk(entries, tickets[id])
  }

  function Extra(key: Key, extra: set<Key>): int {
    if key in extra then 1 else 0
  }

  /** A key is in the dictionaries exactly when tickets use it, with their number as
      its count. `extra` are keys counted for a ticket that is just coming or going. */
  predicate KeyOk(entries: map<Key, Entry>, tickets: map<nat, Ticket>, extra: set<Key>, key: Key) {
    var n := |Users(tickets, key)| + Extra(key, extra);
    if key in entries then entries[key].count == n > 0 else n == 0
  }

  ghost predicate EntriesOk(entries: map<Key, Entry>, tickets: map<nat, Ticket>, extra: set<Key>) {
    forall key :: KeyOk(entries, tickets, extra, key)
  }

  /** Every object knows its key; the one in the dictionary is of that key. */
  predicate ObjectsOk(p: Pool) {
    && Global !in p.entries
    && p.made.Keys == p.free.Keys
    && (forall o :: o in p.made ==> o < p.next)
    && GLOBAL_SLOTS in p.made && p.made[GLOBAL_SLOTS] == Global
    && (forall key :: key in p.entries ==> p.entries[key].lock in p.made && p.made[p.entries[key].lock] == key)
  }

  /** Permits are conserved: those left and those held make up the capacity. */
  predicate PermitOk(c: Limits, free: map<nat, nat>, made: map<nat, Key>, tickets: map<nat, Ticket>, o: nat) {
    o in free && o in made ==> free[o] + |Holders(tickets, o)| == Capacity(c, made[o])
  }

  ghost predicate PermitsOk(c: Limits, free: map<nat, nat>, made: map<nat, Key>, tickets: map<nat, Ticket>) {
    forall o :: PermitOk(c, free, made, tickets, o)
  }

  predicate CountsOk(c: Limits, s: State) {
    s.outstanding == |s.tickets| <= c.active + c.queued && s.running == |Runners(s.tickets)|
  }

  /** Locking: who uses which object. */
  ghost predicate UseOk(s: State) {
    TicketsOk(s.pool.entries, s.tickets) && EntriesOk(s.pool.entries, s.tickets, {}) && ObjectsOk(s.pool)
  }

  /** Counting: how many permits and tickets there are. */
  ghost predicate NumbersOk(c: Limits, s: State) {
    PermitsOk(c, s.pool.free, s.pool.made, s.tickets) && CountsOk(c, s)
  }

  ghost predicate Inv(c: Limits, s: State) {
    UseOk(s) && NumbersOk(c, s)
  }

  // ---------------------------------------------------------------- counting

  lemma {:induction false} UsersAdded(tickets: map<nat, Ticket>, id: nat, t: Ticket, key: Key)
    requires id !in tickets
    ensures |Users(tickets[id := t], key)| == |Users(tickets, key)| + Extra(key, Shared(t.account, t.session))
  {
    var added := if key in Shared(t.account, t.session) then {id} else {};
    assert Users(tickets[id := t], key) == Users(tickets, key) + added;
  }

  lemma {:induction false} UsersRemoved(tickets: map<nat, Ticket>, id: nat, key: Key)
    requires id in tickets
    ensures |Users(tickets - {id}, key)| + Extra(key, Shared(tickets[id].account, tickets[id].session))
        == |Users(tickets, key)|
  {
    var users := Users(tickets, key);
    assert Users(tickets - {id}, key) == users - {id};
    assert id in users <==> key in Shared(tickets[id].account, tickets[id].session);
    if id in users {
      assert |users - {id}| == |users| - 1;
    } else {
      assert users - {id} == users;
    }
  }

  lemma {:induction false} UsersKept(tickets: map<nat, Ticket>, id: nat, t: Ticket, key: Key)
    requires id in tickets && t.account == tickets[id].account && t.session == tickets[id].session
    ensures |Users(tickets[id := t], key)| == |Users(tickets, key)|
  {
    assert Users(tickets[id := t], key) == Users(tickets, key);
  }

  lemma {:induction false} HoldersAdded(tickets: map<nat, Ticket>, id: nat, t: Ticket, o: nat)
    requires id !in tickets && !Holds(t, o)
    ensures |Holders(tickets[id := t], o)| == |Holders(tickets, o)|
  {
    assert Holders(tickets[id := t], o) == Holders(tickets, o);
  }

  lemma {:induction false} HoldersRemoved(tickets: map<nat, Ticket>, id: nat, o: nat)
    requires id in tickets
    ensures |Holders(tickets - {id}, o)| == |Holders(tickets, o)| - if Holds(tickets[id], o) then 1 else 0
  {
    assert Holders(tickets - {id}, o) == Holders(tickets, o) - {id};
  }

  lemma {:induction false} HoldersKept(tickets: map<nat, Ticket>, id: nat, t: Ticket, o: nat)
    requires id in tickets && (Holds(t, o) <==> Holds(tickets[id], o))
    ensures |Holders(tickets[id := t], o)| == |Holders(tickets, o)|
  {
    assert Holders(tickets[id := t], o) == Holders(tickets, o);
  }

  lemma {:induction false} HoldersRaised(tickets: map<nat, Ticket>, id: nat, t: Ticket, o: nat)
    requires id in tickets && Holds(t, o) && !Holds(tickets[id], o)
    ensures |Holders(tickets[id := t], o)| == |Holders(tickets, o)| + 1
  {
    assert Holders(tickets[id := t], o) == Holders(tickets, o) + {id};
  }

  lemma {:induction false} RunnersChanged(tickets: map<nat, Ticket>, id: nat, t: Ticket)
    requires id in tickets ==> !tickets[id].running
    ensures |Runners(tickets[id := t])| == |Runners(tickets)| + if t.running then 1 else 0
  {
    assert Runners(tickets[id := t]) == Runners(tickets) + if t.running then {id} else {};
  }

  lemma {:induction false} RunnersRemoved(tickets: map<nat, Ticket>, id: nat)
    requires id in tickets
    ensures |Runners(tickets - {id})| == |Runners(tickets)| - if tickets[id].running then 1 else 0
    ensures |tickets - {id}| == |tickets| - 1
  {
    assert Runners(tickets - {id}) == Runners(tickets) - {id};
    assert (tickets - {id}).Keys == tickets.Keys - {id};
    assert |tickets - {id}| == |(tickets - {id}).Keys| && |tickets| == |tickets.Keys|;
  }

  lemma {:induction false} SizeKept(tickets: map<nat, Ticket>, id: nat, t: Ticket)
    requires id in tickets
    ensures |tickets[id := t]| == |tickets|
  {
    assert tickets[id := t].Keys == tickets.Keys;
    assert |tickets[id := t]| == |tickets[id := t].Keys| && |tickets| == |tickets.Keys|;
  }

  // ---------------------------------------------------------------- coming and going

  lemma {:induction false} JoinKeepsEntries(c: Limits, p: Pool, tickets: map<nat, Ticket>, extra: set<Key>, key: Key)
    requires EntriesOk(p.entries, tickets, extra) && key !in extra
    ensures EntriesOk(Join(c, p, key).entries, tickets, extra + {key})
  {
    forall k
      ensures KeyOk(Join(c, p, key).entries, tickets, extra + {key}, k)
    {
      assert KeyOk(p.entries, tickets, extra, k);
    }
  }

  lemma {:induction false} JoinKeepsObjects(c: Limits, p: Pool, key: Key)
    requires ObjectsOk(p) && !key.Global?
    ensures ObjectsOk(Join(c, p, key))
    ensures forall k :: k in p.entries ==>
        k in Join(c, p, key).entries && Join(c, p, key).entries[k].lock == p.entries[k].lock
  {
  }

  lemma {:induction false} LocksAreMade(p: Pool, t: Ticket, o: nat)
    requires TicketOk(p.entries, t) && ObjectsOk(p) && Holds(t, o)
    ensures o in p.made && p.made[o] in Needs(t.account, t.session) && LockFor(t, p.made[o]) == o
  {
  }

  lemma {:induction false} NewObjectIsFree(p: Pool, tickets: map<nat, Ticket>)
    requires TicketsOk(p.entries, tickets) && ObjectsOk(p)
    ensures Holders(tickets, p.next) == {}
  {
    forall id | id in tickets
      ensures !Holds(tickets[id], p.next)
    {
      if Holds(tickets[id], p.next) {
        LocksAreMade(p, tickets[id], p.next);
      }
    }
  }

  lemma {:induction false} JoinKeepsPermits(c: Limits, p: Pool, tickets: map<nat, Ticket>, key: Key)
    requires TicketsOk(p.entries, tickets) && ObjectsOk(p) && PermitsOk(c, p.free, p.made, tickets)
    ensures PermitsOk(c, Join(c, p, key).free, Join(c, p, key).made, tickets)
  {
    NewObjectIsFree(p, tickets);
    var q := Join(c, p, key);
    forall o
      ensures PermitOk(c, q.free, q.made, tickets, o)
    {
      assert PermitOk(c, p.free, p.made, tickets, o);
    }
  }

  lemma {:induction false} QuitKeepsEntries(p: Pool, tickets: map<nat, Ticket>, extra: set<Key>, key: Key)
    requires EntriesOk(p.entries, tickets, extra) && key in extra
    ensures EntriesOk(Quit(p, key).entries, tickets, extra - {key})
  {
    forall k
      ensures KeyOk(Quit(p, key).entries, tickets, extra - {key}, k)
    {
      assert KeyOk(p.entries, tickets, extra, k);
    }
  }

  lemma {:induction false} QuitKeepsObjects(p: Pool, key: Key)
    requires ObjectsOk(p)
    ensures ObjectsOk(Quit(p, key)) && Quit(p, key).free == p.free && Quit(p, key).made == p.made
    ensures forall k :: k in Quit(p, key).entries ==>
        k in p.entries && Quit(p, key).entries[k].lock == p.entries[k].lock
  {
  }

  /** Tickets are untouched by dictionary changes that keep the keys they use. */
  lemma {:induction false} TicketsCarry(old_: map<Key, Entry>, entries: map<Key, Entry>, tickets: map<nat, Ticket>)
    requires TicketsOk(old_, tickets)
    requires forall id, key :: id in tickets && key in Shared(tickets[id].account, tickets[id].session)
               ==> key in entries && (key in old_ ==> entries[key].lock == old_[key].lock)
    ensures TicketsOk(entries, tickets)
  {
    forall id | id in tickets
      ensures TicketOk(entries, tickets[id])
    {
      var t := tickets[id];
      assert TicketOk(old_, t);
      assert Account(t.account) in Shared(t.account, t.session);
      assert t.session.Some? ==> Scope(t.account, t.session.value) in Shared(t.account, t.session);
    }
  }

  /** The new ticket takes over the counts kept for it. */
  lemma {:induction false} CountTicket(entries: map<Key, Entry>, tickets: map<nat, Ticket>, id: nat, t: Ticket,
                                       after: map<nat, Ticket>)
    requires id !in tickets && EntriesOk(entries, tickets, Shared(t.account, t.session))
    requires after == tickets[id := t]
    ensures EntriesOk(entries, after, {})
  {
    var shared := Shared(t.account, t.session);
    forall key
      ensures KeyOk(entries, after, {}, key)
    {
      assert KeyOk(entries, tickets, shared, key);
      UsersAdded(tickets, id, t, key);
    }
  }

  lemma {:induction false} UncountTicket(entries: map<Key, Entry>, tickets: map<nat, Ticket>, id: nat)
    requires id in tickets && EntriesOk(entries, tickets, {})
    ensures EntriesOk(entries, tickets - {id}, Shared(tickets[id].account, tickets[id].session))
  {
    var shared := Shared(tickets[id].account, tickets[id].session);
    forall key
      ensures KeyOk(entries, tickets - {id}, shared, key)
    {
      assert KeyOk(entries, tickets, {}, key);
      UsersRemoved(tickets, id, key);
    }
  }

  lemma {:induction false} MemberCounts(s: set<nat>, x: nat)
    requires x in s
    ensures |s| > 0
  {
  }

  /** A key some ticket uses is in the dictionaries. */
  lemma {:induction false} UsedKey(entries: map<Key, Entry>, tickets: map<nat, Ticket>, extra: set<Key>, id: nat,
                                   key: Key)
    requires EntriesOk(entries, tickets, extra) && id in tickets
    requires key in Shared(tickets[id].account, tickets[id].session)
    ensures key in entries
  {
    MemberCounts(Users(tickets, key), id);
    assert KeyOk(entries, tickets, extra, key);
  }

  // ---------------------------------------------------------------- enter

  lemma {:induction false} JoinKeepsAll(c: Limits, p: Pool, tickets: map<nat, Ticket>, extra: set<Key>, key: Key)
    requires TicketsOk(p.entries, tickets) && ObjectsOk(p) && PermitsOk(c, p.free, p.made, tickets)
    requires EntriesOk(p.entries, tickets, extra) && key !in extra && !key.Global?
    ensures var q := Join(c, p, key);
            && TicketsOk(q.entries, tickets) && ObjectsOk(q) && PermitsOk(c, q.free, q.made, tickets)
            && EntriesOk(q.entries, tickets, extra + {key})
  {
    JoinKeepsEntries(c, p, tickets, extra, key);
    JoinKeepsObjects(c, p, key);
    JoinKeepsPermits(c, p, tickets, key);
    var q := Join(c, p, key);
    forall id, k | id in tickets && k in Shared(tickets[id].account, tickets[id].session)
      ensures k in q.entries && (k in p.entries ==> q.entries[k].lock == p.entries[k].lock)
    {
      UsedKey(p.entries, tickets, extra, id, k);
    }
    TicketsCarry(p.entries, q.entries, tickets);
  }

  lemma {:induction false} JoinAllKeepsAll(c: Limits, p: Pool, tickets: map<nat, Ticket>, account: Name,
                                           session: Option<Name>)
    requires TicketsOk(p.entries, tickets) && ObjectsOk(p) && PermitsOk(c, p.free, p.made, tickets)
    requires EntriesOk(p.entries, tickets, {})
    ensures var q := JoinAll(c, p, account, session);
            && TicketsOk(q.entries, tickets) && ObjectsOk(q) && PermitsOk(c, q.free, q.made, tickets)
            && EntriesOk(q.entries, tickets, Shared(account, session))
  {
    JoinKeepsAll(c, p, tickets, {}, Account(account));
    assert {} + {Account(account)} == {Account(account)};
    if session.Some? {
      JoinKeepsAll(c, Join(c, p, Account(account)), tickets, {Account(account)}, Scope(account, session.value));
    } else {
      assert Shared(account, session) == {Account(account)};
    }
  }

  lemma {:induction false} NewTicketOk(p: Pool, tickets: map<nat, Ticket>, account: Name, session: Option<Name>)
    requires ObjectsOk(p) && EntriesOk(p.entries, tickets, Shared(account, session))
    ensures TicketOk(p.entries, NewTicket(p, account, session))
  {
    assert KeyOk(p.entries, tickets, Shared(account, session), Account(account));
    if session.Some? {
      assert KeyOk(p.entries, tickets, Shared(account, session), Scope(account, session.value));
    }
  }

  lemma {:induction false} EnterKeepsUse(c: Limits, s: State, id: nat, account: Name, session: Option<Name>)
    requires Inv(c, s) && id !in s.tickets
    ensures UseOk(Entered(c, s, id, account, session))
  {
    var p := JoinAll(c, s.pool, account, session);
    var t := NewTicket(p, account, session);
    JoinAllKeepsAll(c, s.pool, s.tickets, account, session);
    NewTicketOk(p, s.tickets, account, session);
    CountTicket(p.entries, s.tickets, id, t, s.tickets[id := t]);
  }

  lemma {:induction false} EnterKeepsNumbers(c: Limits, s: State, id: nat, account: Name, session: Option<Name>)
    requires Inv(c, s) && id !in s.tickets && Refused(c, s).None?
    ensures NumbersOk(c, Entered(c, s, id, account, session))
  {
    var p := JoinAll(c, s.pool, account, session);
    var t := NewTicket(p, account, session);
    JoinAllKeepsAll(c, s.pool, s.tickets, account, session);
    AddKeepsPermits(c, p, s.tickets, id, t, s.tickets[id := t]);
    RunnersChanged(s.tickets, id, t);
  }

  lemma {:induction false} AddKeepsPermits(c: Limits, p: Pool, tickets: map<nat, Ticket>, id: nat, t: Ticket,
                                           after: map<nat, Ticket>)
    requires PermitsOk(c, p.free, p.made, tickets) && id !in tickets && Taken(t) == []
    requires after == tickets[id := t]
    ensures PermitsOk(c, p.free, p.made, after)
  {
    forall o
      ensures PermitOk(c, p.free, p.made, after, o)
    {
      assert PermitOk(c, p.free, p.made, tickets, o);
      HoldsTaken(t, o);
      HoldersAdded(tickets, id, t, o);
    }
  }

  // ---------------------------------------------------------------- acquire and begin

  /** A ticket that moves on disturbs neither the others nor the counts. */
  lemma {:induction false} ReplaceTicket(entries: map<Key, Entry>, tickets: map<nat, Ticket>, id: nat, t: Ticket,
                                         after: map<nat, Ticket>)
    requires TicketsOk(entries, tickets) && EntriesOk(entries, tickets, {}) && id in tickets
    requires TicketOk(entries, t) && t.account == tickets[id].account && t.session == tickets[id].session
    requires after == tickets[id := t]
    ensures TicketsOk(entries, after) && EntriesOk(entries, after, {})
  {
    forall key
      ensures KeyOk(entries, after, {}, key)
    {
      assert KeyOk(entries, tickets, {}, key);
      UsersKept(tickets, id, t, key);
    }
  }

  lemma {:induction false} HoldsTaken(t: Ticket, o: nat)
    ensures Holds(t, o) <==> o in Taken(t)
  {
  }

  /** A ticket's objects for different keys are different objects, each made for its key. */
  lemma {:induction false} LockOf(p: Pool, t: Ticket, key: Key)
    requires TicketOk(p.entries, t) && ObjectsOk(p) && key in Needs(t.account, t.session)
    ensures LockFor(t, key) == ObjectFor(p, key) && LockFor(t, key) in p.made && p.made[LockFor(t, key)] == key
  {
  }

  lemma {:induction false} RaisedTicket(p: Pool, t: Ticket)
    requires TicketOk(p.entries, t) && ObjectsOk(p) && Next(t).Some?
    ensures Next(t).value in Needs(t.account, t.session)
    ensures TicketOk(p.entries, t.(stage := Onward(t.stage))) && !t.running
    ensures forall o :: Holds(t.(stage := Onward(t.stage)), o) <==> Holds(t, o) || o == LockFor(t, Next(t).value)
    ensures !Holds(t, LockFor(t, Next(t).value))
  {
    LockOf(p, t, Account(t.account));
    LockOf(p, t, Global);
    if t.session.Some? {
      LockOf(p, t, Scope(t.account, t.session.value));
    }
  }

  lemma {:induction false} RaiseKeepsPermits(c: Limits, p: Pool, tickets: map<nat, Ticket>, id: nat, t': Ticket,
                                             after: map<nat, Ticket>)
    requires id in tickets && TicketOk(p.entries, tickets[id]) && ObjectsOk(p) && PermitsOk(c, p.free, p.made, tickets)
    requires CanAcquire(p, tickets[id]) && t' == tickets[id].(stage := Onward(tickets[id].stage))
    requires after == tickets[id := t']
    ensures var lock := LockFor(tickets[id], Next(tickets[id]).value);
            PermitsOk(c, p.free[lock := p.free[lock] - 1], p.made, after)
  {
    var lock := LockFor(tickets[id], Next(tickets[id]).value);
    RaisedTicket(p, tickets[id]);
    var free := p.free[lock := p.free[lock] - 1];
    forall o
      ensures PermitOk(c, free, p.made, after, o)
    {
      assert PermitOk(c, p.free, p.made, tickets, o);
      if o == lock {
        HoldersRaised(tickets, id, t', o);
      } else {
        HoldersKept(tickets, id, t', o);
      }
    }
  }

  lemma {:induction false} AcquireKeepsUse(s: State, id: nat)
    requires UseOk(s) && Enabled(s, Acquire(id))
    ensures UseOk(Acquired(s, id))
  {
    var t := s.tickets[id];
    var t' := t.(stage := Onward(t.stage));
    RaisedTicket(s.pool, t);
    ReplaceTicket(s.pool.entries, s.tickets, id, t', s.tickets[id := t']);
  }

  lemma {:induction false} AcquireKeepsNumbers(c: Limits, s: State, id: nat)
    requires Inv(c, s) && Enabled(s, Acquire(id))
    ensures NumbersOk(c, Acquired(s, id))
  {
    var t := s.tickets[id];
    var t' := t.(stage := Onward(t.stage));
    RaisedTicket(s.pool, t);
    RaiseKeepsPermits(c, s.pool, s.tickets, id, t', s.tickets[id := t']);
    RunnersChanged(s.tickets, id, t');
    SizeKept(s.tickets, id, t');
  }

  lemma {:induction false} RunKeepsPermits(c: Limits, p: Pool, tickets: map<nat, Ticket>, id: nat, t': Ticket,
                                           after: map<nat, Ticket>)
    requires id in tickets && PermitsOk(c, p.free, p.made, tickets)
    requires t' == tickets[id].(running := true) && after == tickets[id := t']
    ensures PermitsOk(c, p.free, p.made, after)
  {
    forall o
      ensures PermitOk(c, p.free, p.made, after, o)
    {
      assert PermitOk(c, p.free, p.made, tickets, o);
      HoldersKept(tickets, id, t', o);
    }
  }

  lemma {:induction false} BeginKeepsInv(c: Limits, s: State, id: nat)
    requires Inv(c, s) && Enabled(s, Begin(id))
    ensures UseOk(Begun(s, id)) && NumbersOk(c, Begun(s, id))
  {
    var t' := s.tickets[id].(running := true);
    RunningTicketOk(s.pool.entries, s.tickets[id]);
    ReplaceTicket(s.pool.entries, s.tickets, id, t', s.tickets[id := t']);
    RunKeepsPermits(c, s.pool, s.tickets, id, t', s.tickets[id := t']);
    RunnersChanged(s.tickets, id, t');
    SizeKept(s.tickets, id, t');
  }

  lemma {:induction false} RunningTicketOk(entries: map<Key, Entry>, t: Ticket)
    requires TicketOk(entries, t) && Next(t).None?
    ensures TicketOk(entries, t.(running := true))
  {
  }

  // ---------------------------------------------------------------- leave

  lemma {:induction false} QuitKeepsAll(p: Pool, tickets: map<nat, Ticket>, extra: set<Key>, key: Key)
    requires TicketsOk(p.entries, tickets) && ObjectsOk(p)
    requires EntriesOk(p.entries, tickets, extra) && key in extra
    ensures var q := Quit(p, key);
            && TicketsOk(q.entries, tickets) && ObjectsOk(q) && q.free == p.free && q.made == p.made
            && EntriesOk(q.entries, tickets, extra - {key})
  {
    var q := Quit(p, key);
    QuitKeepsEntries(p, tickets, extra, key);
    QuitKeepsObjects(p, key);
    forall id, k | id in tickets && k in Shared(tickets[id].account, tickets[id].session)
      ensures k in q.entries && (k in p.entries ==> q.entries[k].lock == p.entries[k].lock)
    {
      UsedKey(q.entries, tickets, extra - {key}, id, k);
    }
    TicketsCarry(p.entries, q.entries, tickets);
  }

  lemma {:induction false} QuitAllKeepsAll(p: Pool, tickets: map<nat, Ticket>, account: Name, session: Option<Name>)
    requires TicketsOk(p.entries, tickets) && ObjectsOk(p)
    requires EntriesOk(p.entries, tickets, Shared(account, session))
    ensures var q := QuitAll(p, account, session);
            && TicketsOk(q.entries, tickets) && ObjectsOk(q) && q.free == p.free && q.made == p.made
            && EntriesOk(q.entries, tickets, {})
  {
    var shared := Shared(account, session);
    QuitKeepsAll(p, tickets, shared, Account(account));
    if session.Some? {
      QuitKeepsAll(Quit(p, Account(account)), tickets, shared - {Account(account)}, Scope(account, session.value));
      assert shared - {Account(account)} - {Scope(account, session.value)} == {};
    } else {
      assert shared - {Account(account)} == {};
    }
  }

  lemma {:induction false} ReturnKeepsPermits(c: Limits, p: Pool, tickets: map<nat, Ticket>, id: nat)
    requires id in tickets && PermitsOk(c, p.free, p.made, tickets)
    ensures PermitsOk(c, Returned(p.free, tickets[id]), p.made, tickets - {id})
  {
    var free, after := Returned(p.free, tickets[id]), tickets - {id};
    forall o
      ensures PermitOk(c, free, p.made, after, o)
    {
      assert PermitOk(c, p.free, p.made, tickets, o);
      HoldersRemoved(tickets, id, o);
    }
  }

  lemma {:induction false} LeaveKeepsUse(s: State, id: nat)
    requires UseOk(s) && id in s.tickets
    ensures UseOk(Left(s, id))
    ensures Left(s, id).pool.free == Returned(s.pool.free, s.tickets[id]) && Left(s, id).pool.made == s.pool.made
  {
    var t := s.tickets[id];
    UncountTicket(s.pool.entries, s.tickets, id);
    QuitAllKeepsAll(s.pool.(free := Returned(s.pool.free, t)), s.tickets - {id}, t.account, t.session);
  }

  lemma {:induction false} LeaveKeepsNumbers(c: Limits, s: State, id: nat)
    requires Inv(c, s) && id in s.tickets
    ensures NumbersOk(c, Left(s, id))
  {
    LeaveKeepsUse(s, id);
    ReturnKeepsPermits(c, s.pool, s.tickets, id);
    RunnersRemoved(s.tickets, id);
  }

  lemma {:induction false} StepKeepsInv(c: Limits, s: State, step: Step)
    requires Inv(c, s) && Enabled(s, step)
    ensures Inv(c, Apply(c, s, step))
  {
    match step
    case Enter(id, account, session) =>
      if Refused(c, s).None? {
        EnterKeepsUse(c, s, id, account, session);
        EnterKeepsNumbers(c, s, id, account, session);
      }
    case Acquire(id) =>
      AcquireKeepsUse(s, id);
      AcquireKeepsNumbers(c, s, id);
    case Begin(id) => BeginKeepsInv(c, s, id);
    case Leave(id) =>
      LeaveKeepsUse(s, id);
      LeaveKeepsNumbers(c, s, id);
    case Stop =>
  }

  // ---------------------------------------------------------------- runs

  predicate IsRun(c: Limits, s: State, steps: seq<Step>)
    decreases |steps|
  {
    steps != [] ==> Enabled(s, steps[0]) && IsRun(c, Apply(c, s, steps[0]), steps[1..])
  }

  function After(c: Limits, s: State, steps: seq<Step>): State
    requires IsRun(c, s, steps)
    decreases |steps|
  {
    if steps == [] then s else After(c, Apply(c, s, steps[0]), steps[1..])
  }

  lemma {:induction false} FreshInv(c: Limits)
    ensures Inv(c, Fresh(c))
  {
    assert Runners(map[]) == {};
    var s := Fresh(c);
    forall o
      ensures PermitOk(c, s.pool.free, s.pool.made, map[], o)
    {
      assert Holders(map[], o) == {};
    }
    forall key
      ensures KeyOk(map[], map[], {}, key)
    {
      assert Users(map[], key) == {};
    }
  }

  lemma {:induction false} RunKeepsInv(c: Limits, s: State, steps: seq<Step>)
    requires Inv(c, s) && IsRun(c, s, steps)
    ensures Inv(c, After(c, s, steps))
    decreases |steps|
  {
    if steps != [] {
      StepKeepsInv(c, s, steps[0]);
      RunKeepsInv(c, Apply(c, s, steps[0]), steps[1..]);
    }
  }

  // ---------------------------------------------------------------- safety

  lemma {:induction false} TicketOf(c: Limits, s: State, id: nat)
    requires Inv(c, s) && id in s.tickets
    ensures TicketOk(s.pool.entries, s.tickets[id]) && ObjectsOk(s.pool)
  {
  }

  lemma {:induction false} PermitsOf(c: Limits, s: State, o: nat)
    requires Inv(c, s) && o in s.pool.made
    ensures o in s.pool.free && s.pool.free[o] + |Holders(s.tickets, o)| == Capacity(c, s.pool.made[o])
  {
    assert PermitOk(c, s.pool.free, s.pool.made, s.tickets, o);
  }

  /** A running ticket holds a permit of the object every user of the key shares. */
  lemma {:induction false} RunnerHolds(p: Pool, t: Ticket, key: Key)
    requires TicketOk(p.entries, t) && ObjectsOk(p) && t.running && key in Needs(t.account, t.session)
    ensures Holds(t, ObjectFor(p, key)) && ObjectFor(p, key) in p.made && p.made[ObjectFor(p, key)] == key
  {
    LockOf(p, t, key);
  }

  lemma {:induction false} RunnersHold(c: Limits, s: State, id: nat, key: Key)
    requires Inv(c, s) && id in s.tickets && s.tickets[id].running
    requires key in Needs(s.tickets[id].account, s.tickets[id].session)
    ensures id in Holders(s.tickets, ObjectFor(s.pool, key))
    ensures |Holders(s.tickets, ObjectFor(s.pool, key))| <= Capacity(c, key)
  {
    TicketOf(c, s, id);
    RunnerHolds(s.pool, s.tickets[id], key);
    PermitsOf(c, s, ObjectFor(s.pool, key));
  }

  /** Of all tickets of a conversation at most one runs. */
  lemma {:induction false} OneTurnPerConversation(c: Limits, s: State, a: nat, b: nat, key: Key)
    requires Inv(c, s) && key.Scope?
    requires a in s.tickets && s.tickets[a].running && key in Needs(s.tickets[a].account, s.tickets[a].session)
    requires b in s.tickets && s.tickets[b].running && key in Needs(s.tickets[b].account, s.tickets[b].session)
    ensures a == b
  {
    RunnersHold(c, s, a, key);
    RunnersHold(c, s, b, key);
    TwoOfOne(Holders(s.tickets, ObjectFor(s.pool, key)), a, b);
  }

  lemma {:induction false} TwoOfOne(s: set<nat>, a: nat, b: nat)
    requires a in s && b in s && |s| <= 1
    ensures a == b
  {
    if a != b {
      SubsetSize({a, b}, s);
    }
  }

  function RunnersWith(tickets: map<nat, Ticket>, key: Key): set<nat> {
    set id | id in tickets && tickets[id].running && key in Needs(tickets[id].account, tickets[id].session)
  }

  /** Running turns that need a key never outnumber its permits. */
  lemma {:induction false} RunnersBounded(c: Limits, s: State, key: Key)
    requires Inv(c, s)
    ensures |RunnersWith(s.tickets, key)| <= Capacity(c, key)
  {
    var runners := RunnersWith(s.tickets, key);
    if runners != {} {
      var some :| some in runners;
      RunnersHold(c, s, some, key);
      forall id | id in runners
        ensures id in Holders(s.tickets, ObjectFor(s.pool, key))
      {
        RunnersHold(c, s, id, key);
      }
      SubsetSize(runners, Holders(s.tickets, ObjectFor(s.pool, key)));
    }
  }

  /** All outstanding tickets of a key share one object. */
  lemma {:induction false} OneObjectPerKey(c: Limits, s: State, a: nat, b: nat, key: Key)
    requires Inv(c, s) && a in s.tickets && b in s.tickets
    requires key in Needs(s.tickets[a].account, s.tickets[a].session)
    requires key in Needs(s.tickets[b].account, s.tickets[b].session)
    ensures LockFor(s.tickets[a], key) == LockFor(s.tickets[b], key)
  {
    TicketOf(c, s, a);
    TicketOf(c, s, b);
    LockOf(s.pool, s.tickets[a], key);
    LockOf(s.pool, s.tickets[b], key);
  }

  function UsersOf(s: State, key: Key): set<nat> {
    set id | id in s.tickets && key in Needs(s.tickets[id].account, s.tickets[id].session)
  }

  /** At most one turn in a conversation, and the configured numbers for an account and overall. */
  predicate Fits(c: Limits, key: Key, n: nat) {
    match key
    case Scope(_, _) => n <= 1
    case Account(_) => n <= c.perAccount
    case Global => n <= c.active
  }

  predicate SafeState(c: Limits, s: State, a: nat, b: nat, key: Key) {
    && |s.tickets| <= c.active + c.queued
    && Fits(c, key, |RunnersWith(s.tickets, key)|)
    && (a in UsersOf(s, key) && b in UsersOf(s, key) ==> LockFor(s.tickets[a], key) == LockFor(s.tickets[b], key))
    && (key.Scope? && a in RunnersWith(s.tickets, key) && b in RunnersWith(s.tickets, key) ==> a == b)
  }

  /** In every interleaving, however often entries were dropped and made anew: any two
      outstanding tickets of a key share its object, at most one turn runs per
      conversation, running turns stay within the account's and the global limit (take
      `key` an account, or `Global`), and outstanding tickets within limit plus queue. */
  lemma {:induction false} EveryRunIsSafe(c: Limits, steps: seq<Step>, a: nat, b: nat, key: Key)
    requires IsRun(c, Fresh(c), steps)
    ensures SafeState(c, After(c, Fresh(c), steps), a, b, key)
  {
    FreshInv(c);
    RunKeepsInv(c, Fresh(c), steps);
    SafeNow(c, After(c, Fresh(c), steps), a, b, key);
  }

  lemma {:induction false} SafeNow(c: Limits, s: State, a: nat, b: nat, key: Key)
    requires Inv(c, s)
    ensures SafeState(c, s, a, b, key)
  {
    RunnersBounded(c, s, key);
    if a in UsersOf(s, key) && b in UsersOf(s, key) {
      OneObjectPerKey(c, s, a, b, key);
    }
    if key.Scope? && a in RunnersWith(s.tickets, key) && b in RunnersWith(s.tickets, key) {
      OneTurnPerConversation(c, s, a, b, key);
    }
  }

  // ---------------------------------------------------------------- progress

  /** In every run, a ticket that waits for its conversation holds nothing, and one that waits
      for its account holds its conversation at most. */
  lemma {:induction false} WaitingHoldsNothing(c: Limits, steps: seq<Step>, id: nat, o: nat)
    requires IsRun(c, Fresh(c), steps)
    requires var s := After(c, Fresh(c), steps);
             id in s.tickets && Next(s.tickets[id]).Some? && !Next(s.tickets[id]).value.Global?
    ensures var s := After(c, Fresh(c), steps);
            id in Holders(s.tickets, o) ==>
              && Next(s.tickets[id]).value.Account? && o in s.pool.made
              && s.tickets[id].session.Some?
              && s.pool.made[o] == Scope(s.tickets[id].account, s.tickets[id].session.value)
  {
    FreshInv(c);
    RunKeepsInv(c, Fresh(c), steps);
    var s := After(c, Fresh(c), steps);
    TicketOf(c, s, id);
    if id in Holders(s.tickets, o) {
      LocksAreMade(s.pool, s.tickets[id], o);
    }
  }

  // ---------------------------------------------------------------- who is let in, and when

  /** Who holds a permit of the key: a ticket that has got that far. */
  predicate Past(t: Ticket, key: Key) {
    match key
    case Scope(_, _) => !t.stage.WantScope?
    case Account(_) => t.stage.WantGlobal? || t.stage.HasAll?
    case Global => t.stage.HasAll?
  }

  function HoldersOf(s: State, key: Key): set<nat> {
    set id | id in UsersOf(s, key) && Past(s.tickets[id], key)
  }

  lemma {:induction false} HoldsIsPast(p: Pool, t: Ticket, key: Key, o: nat)
    requires TicketOk(p.entries, t) && ObjectsOk(p) && o in p.made && p.made[o] == key && o == ObjectFor(p, key)
    ensures Holds(t, o) <==> key in Needs(t.account, t.session) && Past(t, key)
  {
    if Holds(t, o) {
      LocksAreMade(p, t, o);
    }
    if key in Needs(t.account, t.session) {
      LockOf(p, t, key);
    }
    LockOf(p, t, Account(t.account));
    LockOf(p, t, Global);
    if t.session.Some? {
      LockOf(p, t, Scope(t.account, t.session.value));
    }
  }

  lemma {:induction false} HoldersAgree(c: Limits, s: State, key: Key, o: nat)
    requires Inv(c, s) && o in s.pool.made && s.pool.made[o] == key && o == ObjectFor(s.pool, key)
    ensures Holders(s.tickets, o) == HoldersOf(s, key)
  {
    forall id | id in s.tickets
      ensures id in Holders(s.tickets, o) <==> id in HoldersOf(s, key)
    {
      TicketOf(c, s, id);
      HoldsIsPast(s.pool, s.tickets[id], key, o);
    }
  }

  /** In every run a waiting ticket can move on exactly if fewer tickets than allowed hold what
      it waits for: none for a conversation, the configured numbers for an account and overall. */
  lemma {:induction false} AcquireMeans(c: Limits, steps: seq<Step>, id: nat)
    requires IsRun(c, Fresh(c), steps)
    requires var s := After(c, Fresh(c), steps); id in s.tickets && Next(s.tickets[id]).Some?
    ensures var s := After(c, Fresh(c), steps);
            var key := Next(s.tickets[id]).value;
            Enabled(s, Acquire(id)) <==> Fits(c, key, |HoldersOf(s, key)| + 1)
  {
    FreshInv(c);
    RunKeepsInv(c, Fresh(c), steps);
    var s := After(c, Fresh(c), steps);
    var t := s.tickets[id];
    var key := Next(t).value;
    TicketOf(c, s, id);
    RaisedTicket(s.pool, t);
    LockOf(s.pool, t, key);
    PermitsOf(c, s, LockFor(t, key));
    HoldersAgree(c, s, key, LockFor(t, key));
  }

  lemma {:induction false} ClosedMeans(c: Limits, s: State, steps: seq<Step>)
    requires IsRun(c, s, steps)
    ensures After(c, s, steps).closed <==> s.closed || Stop in steps
    decreases |steps|
  {
    if steps != [] {
      var s1 := Apply(c, s, steps[0]);
      ClosedMeans(c, s1, steps[1..]);
      assert s1.closed <==> s.closed || steps[0] == Stop;
      assert steps == [steps[0]] + steps[1..];
    }
  }

  /** In every run a request is turned away exactly if the gate was stopped before, or as many
      are outstanding as may run and wait; otherwise it gets a ticket of its own, which waits
      for its conversation if it names one and for its account if not. */
  lemma {:induction false} EnterMeans(c: Limits, steps: seq<Step>, id: nat, account: Name, session: Option<Name>)
    requires IsRun(c, Fresh(c), steps) && Enabled(After(c, Fresh(c), steps), Enter(id, account, session))
    ensures var s := After(c, Fresh(c), steps);
            var s' := Apply(c, s, Enter(id, account, session));
            && (Refused(c, s) == Some(Unavailable) <==> Stop in steps)
            && (Refused(c, s) == Some(Busy) <==> Stop !in steps && |s.tickets| >= c.active + c.queued)
            && (Refused(c, s).Some? ==> s' == s)
            && (Refused(c, s).None? ==>
                  && s'.tickets.Keys == s.tickets.Keys + {id}
                  && s'.tickets[id].account == account && s'.tickets[id].session == session
                  && Next(s'.tickets[id])
                     == Some(if session.Some? then Scope(account, session.value) else Account(account)))
  {
    FreshInv(c);
    RunKeepsInv(c, Fresh(c), steps);
    ClosedMeans(c, Fresh(c), steps);
  }

  /** How far along the fixed lock order a ticket is. */
  function Rank(t: Ticket): int {
    match t.stage
    case WantScope => 0
    case WantAccount => 1
    case WantGlobal => 2
    case HasAll => 3
  }

  lemma {:induction false} BlockedMeansHeld(c: Limits, s: State, id: nat)
    requires Sensible(c) && Inv(c, s) && id in s.tickets
    requires Next(s.tickets[id]).Some? && !CanAcquire(s.pool, s.tickets[id])
    ensures var key := Next(s.tickets[id]).value;
            |Holders(s.tickets, ObjectFor(s.pool, key))| >= 1
            && ObjectFor(s.pool, key) in s.pool.made && s.pool.made[ObjectFor(s.pool, key)] == key
  {
    var t := s.tickets[id];
    TicketOf(c, s, id);
    RaisedTicket(s.pool, t);
    LockOf(s.pool, t, Next(t).value);
    PermitsOf(c, s, LockFor(t, Next(t).value));
  }

  /** If a lock is not to be had, a ticket further along has it. */
  lemma {:induction false} BlockedByAhead(c: Limits, s: State, id: nat) returns (other: nat)
    requires Sensible(c) && Inv(c, s) && id in s.tickets
    requires Next(s.tickets[id]).Some? && !CanAcquire(s.pool, s.tickets[id])
    ensures other in s.tickets && Rank(s.tickets[other]) > Rank(s.tickets[id])
  {
    var key := Next(s.tickets[id]).value;
    BlockedMeansHeld(c, s, id);
    other := AnyOf(Holders(s.tickets, ObjectFor(s.pool, key)));
    TicketOf(c, s, id);
    TicketOf(c, s, other);
    Outranked(s.pool, s.tickets[id], s.tickets[other]);
  }

  lemma {:induction false} Outranked(p: Pool, t: Ticket, u: Ticket)
    requires TicketOk(p.entries, t) && TicketOk(p.entries, u) && ObjectsOk(p) && Next(t).Some?
    requires Holds(u, ObjectFor(p, Next(t).value))
    requires ObjectFor(p, Next(t).value) in p.made && p.made[ObjectFor(p, Next(t).value)] == Next(t).value
    ensures Rank(u) > Rank(t)
  {
    LocksAreMade(p, u, ObjectFor(p, Next(t).value));
    LockOf(p, u, Account(u.account));
    LockOf(p, u, Global);
    if u.session.Some? {
      LockOf(p, u, Scope(u.account, u.session.value));
    }
  }

  lemma {:induction false} AnyOf(s: set<nat>) returns (x: nat)
    requires |s| >= 1
    ensures x in s
  {
    x :| x in s;
  }

  /** No deadlock in any run: while there are tickets, one of them can acquire its next lock,
      or has them all and can begin or is running. */
  lemma {:induction false} SomeTicketMoves(c: Limits, steps: seq<Step>) returns (id: nat)
    requires Sensible(c) && IsRun(c, Fresh(c), steps) && After(c, Fresh(c), steps).tickets != map[]
    ensures var s := After(c, Fresh(c), steps);
            id in s.tickets && (Next(s.tickets[id]).None? || CanAcquire(s.pool, s.tickets[id]))
  {
    FreshInv(c);
    RunKeepsInv(c, Fresh(c), steps);
    var s := After(c, Fresh(c), steps);
    var some :| some in s.tickets;
    id := MoverFrom(c, s, some);
  }

  lemma {:induction false} MoverFrom(c: Limits, s: State, start: nat) returns (id: nat)
    requires Sensible(c) && Inv(c, s) && start in s.tickets
    ensures id in s.tickets && (Next(s.tickets[id]).None? || CanAcquire(s.pool, s.tickets[id]))
    decreases 3 - Rank(s.tickets[start])
  {
    if Next(s.tickets[start]).None? || CanAcquire(s.pool, s.tickets[start]) {
      id := start;
    } else {
      var other := BlockedByAhead(c, s, start);
      id := MoverFrom(c, s, other);
    }
  }

  /** In every run, when all tickets have left, both dictionaries are empty and every semaphore
      and lock ever made is back at full capacity. */
  lemma {:induction false} Drained(c: Limits, steps: seq<Step>)
    requires IsRun(c, Fresh(c), steps) && After(c, Fresh(c), steps).tickets == map[]
    ensures var s := After(c, Fresh(c), steps);
            && s.pool.entries == map[] && s.outstanding == 0 && s.running == 0
            && forall o :: o in s.pool.made ==> o in s.pool.free && s.pool.free[o] == Capacity(c, s.pool.made[o])
  {
    FreshInv(c);
    RunKeepsInv(c, Fresh(c), steps);
    DrainedNow(c, After(c, Fresh(c), steps));
  }

  lemma {:induction false} DrainedNow(c: Limits, s: State)
    requires Inv(c, s) && s.tickets == map[]
    ensures s.pool.entries == map[] && s.outstanding == 0 && s.running == 0
    ensures forall o :: o in s.pool.made ==> o in s.pool.free && s.pool.free[o] == Capacity(c, s.pool.made[o])
  {
    forall key
      ensures key !in s.pool.entries
    {
      assert KeyOk(s.pool.entries, s.tickets, {}, key);
      assert Users(s.tickets, key) == {};
    }
    forall o | o in s.pool.made
      ensures s.pool.free[o] == Capacity(c, s.pool.made[o])
    {
      PermitsOf(c, s, o);
      assert Holders(s.tickets, o) == {};
    }
    assert Runners(s.tickets) == {};
  }

  // ---------------------------------------------------------------- the object

  /** What releasing relies on: the acquired locks are different objects that exist. */
  predicate Separate(free: map<nat, nat>, t: Ticket) {
    && (forall i :: 0 <= i < |Taken(t)| ==> Taken(t)[i] in free)
    && (forall i, j :: 0 <= i < j < |Taken(t)| ==> Taken(t)[i] != Taken(t)[j])
  }

  lemma {:induction false} TicketsAreSeparate(c: Limits, s: State, id: nat)
    requires Inv(c, s) && id in s.tickets
    ensures Separate(s.pool.free, s.tickets[id])
  {
    TicketOf(c, s, id);
    var t := s.tickets[id];
    LockOf(s.pool, t, Account(t.account));
    LockOf(s.pool, t, Global);
    if t.session.Some? {
      LockOf(s.pool, t, Scope(t.account, t.session.value));
    }
  }

  class Gatekeeper {
    const limits: Limits
    var entries: map<Key, Entry>
    var free: map<nat, nat>
    var outstanding: int
    var running: int
    var closed: bool
    var next: nat
    ghost var made: map<nat, Key>
    ghost var tickets: map<nat, Ticket>

    ghost function View(): State
      reads this
    {
      State(Pool(entries, free, made, next), tickets, outstanding, running, closed)
    }

    constructor (limits: Limits)
      requires Sensible(limits)
      ensures this.limits == limits && View() == Fresh(limits)
    {
      this.limits := limits;
      entries, free, made, next := map[], map[GLOBAL_SLOTS := limits.active], map[GLOBAL_SLOTS := Global], 1;
      tickets, outstanding, running, closed := map[], 0, 0, false;
    }

    /** One dictionary entry: `setdefault`, then the increment. */
    method Take(key: Key)
      modifies this`entries, this`free, this`made, this`next
      ensures Pool(entries, free, made, next) == Join(limits, old(Pool(entries, free, made, next)), key)
    {
      if key !in entries {
        entries := entries[key := Entry(next, 0)];
        free := free[next := Capacity(limits, key)];
        made := made[next := key];
        next := next + 1;
      }
      entries := entries[key := Entry(entries[key].lock, entries[key].count + 1)];
    }

    method Drop(key: Key)
      modifies this`entries
      ensures Pool(entries, free, made, next) == Quit(old(Pool(entries, free, made, next)), key)
    {
      if key in entries {
        var count := entries[key].count - 1;
        if count == 0 {
          entries := entries - {key};
        } else {
          entries := entries[key := Entry(entries[key].lock, count)];
        }
      }
    }

    /** `enter` up to its first `await`. */
    method Arrive(id: nat, account: Name, session: Option<Name>) returns (refusal: Option<Refusal>)
      requires id !in tickets
      modifies this
      ensures View() == Apply(limits, old(View()), Enter(id, account, session))
      ensures refusal == Some(Unavailable) <==> old(closed)
      ensures refusal == Some(Busy) <==> !old(closed) && old(outstanding) >= limits.active + limits.queued
      ensures refusal.None? <==> id in tickets
    {
      if closed {
        return Some(Unavailable);
      }
      if outstanding >= limits.active + limits.queued {
        return Some(Busy);
      }
      outstanding := outstanding + 1;
      Take(Account(account));
      if session.Some? {
        Take(Scope(account, session.value));
      }
      tickets := tickets[id := NewTicket(Pool(entries, free, made, next), account, session)];
      return None;
    }

    /** An `await lock.acquire()` that completes. */
    method Acquires(id: nat, lock: nat)
      requires Enabled(View(), Acquire(id)) && lock == LockFor(tickets[id], Next(tickets[id]).value)
      modifies this`free, this`tickets
      ensures View() == Apply(limits, old(View()), Acquire(id))
    {
      free := free[lock := free[lock] - 1];
      tickets := tickets[id := tickets[id].(stage := Onward(tickets[id].stage))];
    }

    method Begins(id: nat)
      requires Enabled(View(), Begin(id))
      modifies this`running, this`tickets
      ensures View() == Apply(limits, old(View()), Begin(id))
    {
      running := running + 1;
      tickets := tickets[id := tickets[id].(running := true)];
    }

    /** The `finally` block: release what was acquired, then give up the entries. */
    method Leaves(id: nat, t: Ticket)
      requires id in tickets && tickets[id] == t && Separate(free, t)
      modifies this
      ensures View() == Apply(limits, old(View()), Leave(id))
    {
      if t.running {
        running := running - 1;
      }
      ReleaseAll(t);
      outstanding := outstanding - 1;
      tickets := tickets - {id};
      Drop(Account(t.account));
      if t.session.Some? {
        Drop(Scope(t.account, t.session.value));
      }
    }

    /** `for lock in reversed(acquired): lock.release()`. */
    method ReleaseAll(t: Ticket)
      requires Separate(free, t)
      modifies this`free
      ensures free == Returned(old(free), t)
    {
      var acquired := Taken(t);
      var i := |acquired|;
      while i > 0
        invariant 0 <= i <= |acquired|
        invariant free.Keys == old(free).Keys
        invariant forall o :: o in free ==> free[o] == old(free)[o] + if o in acquired[i..] then 1 else 0
      {
        i := i - 1;
        var lock := acquired[i];
        assert acquired[i..] == [lock] + acquired[i + 1..];
        free := free[lock := free[lock] + 1];
      }
      assert acquired[0..] == acquired;
      forall o | o in free
        ensures Holds(t, o) <==> o in acquired
      {
        HoldsTaken(t, o);
      }
    }
  }
}

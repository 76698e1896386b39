/** Replacing a TOTP secret: `rotate`, `verify_pair` and `Journal` of
    tools/openai_totp_rotation.py, over the encrypted records of tools/openai_totp_journal.mjs.

    Every call to the journal, the API or the provider can succeed, fail without effect, or
    take effect and still raise; the process can die between any two of them and a later run
    starts over with whatever claim it is handed. Time passes between any two steps. */
module Rotation {
  import opened Prelude

  /** What the provider returned as a secret or a session id, before it is validated. */
  datatype Raw = Text(s: string) | Junk(truthy: bool)

  datatype Action = Rotate | VerifyNew | VerifyOld | Unsupported

  datatype Claim = Claim(task: int, account: Name, secret: string, action: Action, candidate: string)

  datatype Entry = Entry(account: Name, previous: string, candidate: Raw, acked: bool)

  type Journal = map<int, Entry>

  datatype Stage = LoginFailed | EnrollmentFailed | ActivationUnconfirmed | VerificationFailed

  /** Where a run is: the external call it makes next. */
  datatype Point =
    | Opening | SavingClaim | SigningIn | Announcing | Enrolling
    | SavingCandidate(raw: Raw, session: Raw)
    | Preparing(c: string) | Acknowledging(c: string) | Arming(c: string) | Activating(c: string)
    | Confirming(c: string)
    | Recovering
    | Accepting(c: string) | Resting(c: string, at: real) | Rejecting(c: string, at: real, until: real)
    | Closing(c: string, at: real, last: real)
    | Failing(stage: Stage)

  datatype Process = Idle | Running(run: nat, claim: Claim, point: Point)

  /** An activation request on its way: `before` was the secret in force. */
  datatype Activation = Activation(run: nat, task: int, account: Name, candidate: string, before: string)

  datatype Report =
    | Success(run: nat, accepted: string, acceptedAt: real, rejected: string, rejectedAt: real, force: string)
    | Failure(run: nat, stage: Stage)

  /** A login a run made: the secret presented, what came of it, and when. */
  datatype Attempt = Attempt(run: nat, secret: string, verdict: Verdict, at: real)

  /** `force` maps accounts to secrets in force at the provider, where they have changed;
      `used` are the (account, secret, time step) triples of codes already presented;
      `logins` lists the logins in order, `claims` what each run was begun with. */
  datatype World = World(
    journal: Journal, database: map<int, Raw>, force: map<Name, string>, used: set<(Name, string, int)>,
    logins: seq<Attempt>, claims: seq<Claim>, sent: seq<Activation>, reports: seq<Report>, clock: real, runs: nat,
    process: Process)

  /** The secret an account had before the first rotation. */
  const Initial: Name -> string

  /** Upper case, without blanks and padding. */
  const Normalized: string -> string

  const Base32: string -> bool

  predicate Usable(secret: string) {
    16 <= |Normalized(secret)| <= 128 && Base32(Normalized(secret))
  }

  predicate Alike(a: string, b: string) {
    Normalized(a) == Normalized(b)
  }

  function InForce(w: World, account: Name): string {
    if account in w.force then w.force[account] else Initial(account)
  }

  /** The time step of section 4.2 of RFC 6238. */
  function TimeStep(t: real): int {
    (t / 30.0).Floor
  }

  /** How long `verify_pair` sleeps. */
  function Nap(t: real): real {
    31.0 - (t - 30.0 * TimeStep(t) as real)
  }

  // ---------------------------------------------------------------- the journal

  predicate Present(r: Raw) {
    match r
    case Text(s) => s != ""
    case Junk(truthy) => truthy
  }

  /** A candidate once recorded is never overwritten by another. */
  function Write(j: Journal, task: int, e: Entry): Option<Journal> {
    if task <= 0 then None
    else if task in j && Present(j[task].candidate) && j[task].candidate != e.candidate then None
    else Some(j[task := e])
  }

  function Acknowledge(j: Journal, task: int): Option<Journal> {
    if task !in j then None else Write(j, task, j[task].(acked := true))
  }

  // ---------------------------------------------------------------- steps

  /** A call succeeds, raises without effect, or has its effect and raises. */
  datatype Outcome = Done | Refused | Lost

  datatype Verdict = Accepted | Denied | Raised

  datatype Event =
    | Tick(seconds: real)
    | Begin(claim: Claim)
    | Call(outcome: Outcome)
    | Enrolled(outcome: Outcome, raw: Raw, session: Raw)
    | Login(verdict: Verdict)
    | Crash
    | Recover(task: int, api: Outcome, disk: Outcome)

  /** The stage a failure is reported with. */
  function StageAt(p: Point): Stage {
    match p
    case Opening => LoginFailed
    case SavingClaim => LoginFailed
    case SigningIn => LoginFailed
    case Announcing => LoginFailed
    case Recovering => LoginFailed
    case Enrolling => EnrollmentFailed
    case SavingCandidate(_, _) => EnrollmentFailed
    case Preparing(_) => EnrollmentFailed
    case Acknowledging(_) => EnrollmentFailed
    case Arming(_) => EnrollmentFailed
    case Activating(_) => ActivationUnconfirmed
    case Confirming(_) => ActivationUnconfirmed
    case Failing(stage) => stage
    case _ => VerificationFailed
  }

  function Go(w: World, p: Point): World
    requires w.process.Running?
  {
    w.(process := w.process.(point := p))
  }

  function Fail(w: World): World
    requires w.process.Running?
  {
    Go(w, Failing(StageAt(w.process.point)))
  }

  /** On from a call that changes nothing the model keeps. */
  function Onward(w: World, outcome: Outcome, p: Point): World
    requires w.process.Running?
  {
    if outcome == Done then Go(w, p) else Fail(w)
  }

  function Saved(w: World, outcome: Outcome, j: Option<Journal>, p: Point): World
    requires w.process.Running?
  {
    if j.None? || outcome == Refused then Fail(w) else Onward(w.(journal := j.value), outcome, p)
  }

  function EntryOf(claim: Claim, candidate: Raw): Entry {
    Entry(claim.account, claim.secret, candidate, false)
  }

  function First(claim: Claim): Point {
    match claim.action
    case Rotate => SavingClaim
    case VerifyNew => Recovering
    case VerifyOld => Recovering
    case Unsupported => Failing(LoginFailed)
  }

  /** After the raw candidate is on disk it is validated. */
  function Validated(claim: Claim, raw: Raw, session: Raw): Point {
    match (raw, session)
    case (Text(c), Text(id)) =>
      if c == "" || id == "" || Alike(c, claim.secret) || !Usable(c) then Failing(EnrollmentFailed) else Preparing(c)
    case _ => Failing(EnrollmentFailed)
  }

  function Activated(w: World, outcome: Outcome, c: string): World
    requires w.process.Running?
  {
    var claim := w.process.claim;
    var sent := w.sent + [Activation(w.process.run, claim.task, claim.account, c, InForce(w, claim.account))];
    var w1 := w.(sent := sent, used := w.used + {(claim.account, Normalized(c), TimeStep(w.clock))});
    Onward(if outcome == Refused then w1 else w1.(force := w1.force[claim.account := c]), outcome, Confirming(c))
  }

  /** The secret that must log in, and the one that must not. */
  function Pair(claim: Claim, c: string): (string, string) {
    if claim.action == VerifyOld then (claim.secret, c) else (c, claim.secret)
  }

  function Closed(w: World, outcome: Outcome, report: Report, next: Process): World {
    if outcome == Refused then w.(process := next) else w.(process := next, reports := w.reports + [report])
  }

  function Called(w: World, outcome: Outcome): World
    requires w.process.Running?
  {
    var (claim, run) := (w.process.claim, w.process.run);
    match w.process.point
    case Opening => Onward(w, outcome, First(claim))
    case SavingClaim => Saved(w, outcome, Write(w.journal, claim.task, EntryOf(claim, Text(""))), SigningIn)
    case Announcing => Onward(w, outcome, Enrolling)
    case SavingCandidate(raw, session) =>
      Saved(w, outcome, Write(w.journal, claim.task, EntryOf(claim, raw)), Validated(claim, raw, session))
    case Preparing(c) =>
      var w1 := if outcome == Refused then w else w.(database := w.database[claim.task := Text(c)]);
      Onward(w1, outcome, Acknowledging(c))
    case Acknowledging(c) => Saved(w, outcome, Acknowledge(w.journal, claim.task), Arming(c))
    case Arming(c) => Onward(w, outcome, Activating(c))
    case Activating(c) => Activated(w, outcome, c)
    case Confirming(c) => Onward(w, outcome, Accepting(c))
    case Recovering => Onward(w, outcome, Accepting(claim.candidate))
    case Resting(c, at) => Onward(w, outcome, Rejecting(c, at, w.clock + Nap(w.clock)))
    case Closing(c, at, last) =>
      var (accepted, rejected) := Pair(claim, c);
      Closed(w, outcome, Success(run, accepted, at, rejected, last, InForce(w, claim.account)),
             if outcome == Done then Idle else Running(run, claim, Failing(VerificationFailed)))
    case Failing(stage) => Closed(w, outcome, Failure(run, stage), Idle)
    case _ => w
  }

  function LoggedIn(w: World, verdict: Verdict): World
    requires w.process.Running?
  {
    var claim := w.process.claim;
    match w.process.point
    case SigningIn =>
      var w1 := Presented(w, claim.secret, verdict);
      if verdict == Accepted then Go(w1, Announcing) else Fail(w1)
    case Accepting(c) =>
      var (accepted, rejected) := Pair(claim, c);
      if accepted == "" then Fail(w)
      else
        var w1 := Presented(w, accepted, verdict);
        if verdict != Accepted then Fail(w1)
        else if rejected == "" then Go(w1, Closing(c, w.clock, w.clock))
        else Go(w1, Resting(c, w.clock))
    case Rejecting(c, at, _) =>
      var w1 := Presented(w, Pair(claim, c).1, verdict);
      if verdict == Denied then Go(w1, Closing(c, at, w.clock)) else Fail(w1)
    case _ => w
  }

  function Presented(w: World, secret: string, verdict: Verdict): World
    requires w.process.Running?
  {
    w.(logins := w.logins + [Attempt(w.process.run, secret, verdict, w.clock)],
       used := w.used + {(w.process.claim.account, Normalized(secret), TimeStep(w.clock))})
  }

  /** Which secret the login at this point presents. */
  function Offered(claim: Claim, p: Point): Option<string> {
    match p
    case SigningIn => Some(claim.secret)
    case Accepting(c) => Some(Pair(claim, c).0)
    case Rejecting(c, _, _) => Some(Pair(claim, c).1)
    case _ => None
  }

  /** The provider accepts only the secret in force, and rejects it only where its code of
      this time step was presented before. */
  predicate Truthful(w: World, account: Name, secret: string, verdict: Verdict) {
    match verdict
    case Accepted => Alike(secret, InForce(w, account))
    case Denied => !Alike(secret, InForce(w, account)) || (account, Normalized(secret), TimeStep(w.clock)) in w.used
    case Raised => true
  }

  /** `recover`, for one record: hand an unacknowledged candidate to the API, then note it. */
  function Recovered(w: World, task: int, api: Outcome, disk: Outcome): World {
    if task !in w.journal || !Present(w.journal[task].candidate) || w.journal[task].acked || api == Refused then w
    else if task in w.database && w.database[task] != w.journal[task].candidate then w
    else
      var w1 := w.(database := w.database[task := w.journal[task].candidate]);
      var j := Acknowledge(w.journal, task);
      if api == Lost || disk == Refused || j.None? then w1 else w1.(journal := j.value)
  }

  predicate Enabled(w: World, e: Event) {
    match e
    case Tick(seconds) => seconds >= 0.0
    case Begin(_) => w.process.Idle?
    case Call(_) => w.process.Running? && Offered(w.process.claim, w.process.point).None? && !w.process.point.Enrolling?
    case Enrolled(_, _, _) => w.process.Running? && w.process.point.Enrolling?
    case Login(verdict) =>
      && w.process.Running? && Offered(w.process.claim, w.process.point).Some?
      && Truthful(w, w.process.claim.account, Offered(w.process.claim, w.process.point).value, verdict)
      && (w.process.point.Rejecting? ==> w.clock >= w.process.point.until)
    case Crash => true
    case Recover(_, _, _) => w.process.Idle?
  }

  function Apply(w: World, e: Event): World
    requires Enabled(w, e)
  {
    match e
    case Tick(seconds) => w.(clock := w.clock + seconds)
    case Begin(claim) =>
      w.(process := Running(w.runs, claim, Opening), runs := w.runs + 1, claims := w.claims + [claim])
    case Call(outcome) => Called(w, outcome)
    case Enrolled(outcome, raw, session) => Onward(w, outcome, SavingCandidate(raw, session))
    case Login(verdict) => LoggedIn(w, verdict)
    case Crash => w.(process := Idle)
    case Recover(task, api, disk) => Recovered(w, task, api, disk)
  }

  const Fresh := World(map[], map[], map[], {}, [], [], [], [], 0.0, 0, Idle)

  // ---------------------------------------------------------------- invariant

  /** The journal names the candidate and the secret it replaces and notes that the API has
      the candidate, and the API has it. */
  predicate Recorded(j: Journal, db: map<int, Raw>, a: Activation) {
    && a.task in j && j[a.task].account == a.account && j[a.task].acked && a.candidate != ""
    && j[a.task].candidate == Text(a.candidate) && Alike(j[a.task].previous, a.before)
    && a.task in db && db[a.task] == Text(a.candidate)
  }

  predicate AllRecorded(j: Journal, db: map<int, Raw>, sent: seq<Activation>) {
    forall i :: 0 <= i < |sent| ==> Recorded(j, db, sent[i])
  }

  predicate OncePerTask(sent: seq<Activation>) {
    forall i, j :: 0 <= i < j < |sent| ==> sent[i].task != sent[j].task
  }

  predicate Unsent(sent: seq<Activation>, task: int) {
    forall i :: 0 <= i < |sent| ==> sent[i].task != task
  }

  predicate Silent(sent: seq<Activation>, run: nat) {
    forall i :: 0 <= i < |sent| ==> sent[i].run != run
  }

  predicate Earlier(sent: seq<Activation>, runs: nat) {
    forall i :: 0 <= i < |sent| ==> sent[i].run < runs
  }

  predicate Installed(sent: seq<Activation>, account: Name, secret: string) {
    exists i :: 0 <= i < |sent| && sent[i].account == account && sent[i].candidate == secret
  }

  predicate ForceOk(sent: seq<Activation>, force: map<Name, string>) {
    forall account :: account in force ==> Installed(sent, account, force[account])
  }

  predicate DatabaseOk(j: Journal, db: map<int, Raw>) {
    forall task :: task in db ==> task in j && Present(db[task]) && j[task].candidate == db[task]
  }

  predicate UsedOk(used: set<(Name, string, int)>, clock: real) {
    forall u :: u in used ==> u.2 <= TimeStep(clock)
  }

  predicate IsEarly(stage: Stage) {
    stage == LoginFailed || stage == EnrollmentFailed
  }

  predicate ReportOk(r: Report, sent: seq<Activation>, runs: nat) {
    && r.run < runs
    && match r
       case Failure(run, stage) => IsEarly(stage) ==> Silent(sent, run)
       case Success(_, accepted, at, rejected, last, force) =>
         Alike(accepted, force) && (rejected != "" ==> !Alike(rejected, force) && TimeStep(at) < TimeStep(last))
  }

  predicate ReportsOk(reports: seq<Report>, sent: seq<Activation>, runs: nat) {
    forall i :: 0 <= i < |reports| ==> ReportOk(reports[i], sent, runs)
  }

  predicate Unreported(reports: seq<Report>, run: nat) {
    forall i :: 0 <= i < |reports| ==> reports[i].run != run
  }

  /** Before the candidate is there: the claim is journaled under a task never activated. */
  predicate Journaled(w: World, claim: Claim, candidate: string, acked: bool) {
    && claim.task > 0 && Unsent(w.sent, claim.task) && claim.action == Rotate
    && claim.task in w.journal && w.journal[claim.task] == EntryOf(claim, Text(candidate)).(acked := acked)
  }

  predicate Holding(w: World, claim: Claim) {
    Alike(claim.secret, InForce(w, claim.account))
  }

  predicate Stored(w: World, claim: Claim, c: string) {
    c != "" && claim.task in w.database && w.database[claim.task] == Text(c)
  }

  predicate AcceptedNow(w: World, claim: Claim, c: string) {
    Alike(Pair(claim, c).0, InForce(w, claim.account))
  }

  predicate PointOk(w: World, claim: Claim, p: Point) {
    match p
    case SigningIn => Journaled(w, claim, "", false)
    case Announcing => Journaled(w, claim, "", false) && Holding(w, claim)
    case Enrolling => Journaled(w, claim, "", false) && Holding(w, claim)
    case SavingClaim => claim.action == Rotate
    case SavingCandidate(_, _) => Journaled(w, claim, "", false) && Holding(w, claim)
    case Preparing(c) => Journaled(w, claim, c, false) && Holding(w, claim) && c != ""
    case Acknowledging(c) => Journaled(w, claim, c, false) && Holding(w, claim) && Stored(w, claim, c)
    case Arming(c) => Journaled(w, claim, c, true) && Holding(w, claim) && Stored(w, claim, c)
    case Activating(c) => Journaled(w, claim, c, true) && Holding(w, claim) && Stored(w, claim, c)
    case Resting(c, at) => AcceptedNow(w, claim, c) && at <= w.clock
    case Rejecting(c, at, until) =>
      AcceptedNow(w, claim, c) && TimeStep(at) < TimeStep(until) && (forall u :: u in w.used ==> u.2 < TimeStep(until))
    case Closing(c, at, last) =>
      && AcceptedNow(w, claim, c)
      && (Pair(claim, c).1 != "" ==>
            !Alike(Pair(claim, c).1, InForce(w, claim.account)) && TimeStep(at) < TimeStep(last))
    case _ => true
  }

  predicate ProcessOk(w: World) {
    w.process.Running? ==>
      && w.process.run < w.runs && PointOk(w, w.process.claim, w.process.point)
      && (IsEarly(StageAt(w.process.point)) ==> Silent(w.sent, w.process.run))
      && (w.process.point != Failing(VerificationFailed) ==> Unreported(w.reports, w.process.run))
  }

  predicate Inv(w: World) {
    && AllRecorded(w.journal, w.database, w.sent) && OncePerTask(w.sent) && Earlier(w.sent, w.runs)
    && ForceOk(w.sent, w.force) && DatabaseOk(w.journal, w.database) && UsedOk(w.used, w.clock)
    && ReportsOk(w.reports, w.sent, w.runs) && ProcessOk(w)
  }

  // ---------------------------------------------------------------- the clock

  lemma {:induction false} LaterStep(t: real, u: real)
    requires t <= u
    ensures TimeStep(t) <= TimeStep(u)
  {
    assert t / 30.0 <= u / 30.0;
  }

  /** After the nap another code is due. */
  lemma {:induction false} NapCrossesStep(t: real, u: real)
    requires u >= t + Nap(t)
    ensures TimeStep(t) < TimeStep(u)
  {
    var n := TimeStep(t);
    assert u >= 30.0 * (n as real) + 31.0;
    assert u / 30.0 >= (n as real) + 1.0;
  }

  // ---------------------------------------------------------------- steps keep the invariant

  /** Rewriting the entry of a task that was never activated nor handed to the API. */
  lemma {:induction false} OtherEntry(w: World, task: int, e: Entry)
    requires AllRecorded(w.journal, w.database, w.sent) && DatabaseOk(w.journal, w.database)
    requires task !in w.journal || !Present(w.journal[task].candidate)
    ensures Unsent(w.sent, task) && task !in w.database
    ensures AllRecorded(w.journal[task := e], w.database, w.sent) && DatabaseOk(w.journal[task := e], w.database)
  {
    forall i | 0 <= i < |w.sent|
      ensures w.sent[i].task != task && Recorded(w.journal[task := e], w.database, w.sent[i])
    {
      assert Recorded(w.journal, w.database, w.sent[i]);
    }
  }

  lemma {:induction false} FailKeepsInv(w: World)
    requires Inv(w) && w.process.Running?
    ensures Inv(Fail(w))
  {
  }

  lemma {:induction false} SavingClaimKeepsInv(w: World, outcome: Outcome)
    requires Inv(w) && w.process.Running? && w.process.point.SavingClaim?
    ensures Inv(Called(w, outcome))
  {
    var claim := w.process.claim;
    if Write(w.journal, claim.task, EntryOf(claim, Text(""))).Some? {
      OtherEntry(w, claim.task, EntryOf(claim, Text("")));
    }
  }

  lemma {:induction false} SavingCandidateKeepsInv(w: World, outcome: Outcome)
    requires Inv(w) && w.process.Running? && w.process.point.SavingCandidate?
    ensures Inv(Called(w, outcome))
  {
    OtherEntry(w, w.process.claim.task, EntryOf(w.process.claim, w.process.point.raw));
  }

  /** A change to the database that only adds what the journal says. */
  lemma {:induction false} StoreKeeps(w: World, task: int)
    requires AllRecorded(w.journal, w.database, w.sent) && DatabaseOk(w.journal, w.database)
    requires task in w.journal && Present(w.journal[task].candidate)
    ensures var db := w.database[task := w.journal[task].candidate];
            AllRecorded(w.journal, db, w.sent) && DatabaseOk(w.journal, db)
  {
    var db := w.database[task := w.journal[task].candidate];
    forall i | 0 <= i < |w.sent|
      ensures Recorded(w.journal, db, w.sent[i])
    {
      assert Recorded(w.journal, w.database, w.sent[i]);
    }
  }

  lemma {:induction false} AckKeeps(w: World, db: map<int, Raw>, task: int)
    requires AllRecorded(w.journal, db, w.sent) && DatabaseOk(w.journal, db) && Acknowledge(w.journal, task).Some?
    ensures var j := Acknowledge(w.journal, task).value;
            AllRecorded(j, db, w.sent) && DatabaseOk(j, db)
  {
    var j := Acknowledge(w.journal, task).value;
    forall i | 0 <= i < |w.sent|
      ensures Recorded(j, db, w.sent[i])
    {
      assert Recorded(w.journal, db, w.sent[i]);
    }
  }

  lemma {:induction false} PreparingKeepsInv(w: World, outcome: Outcome)
    requires Inv(w) && w.process.Running? && w.process.point.Preparing?
    ensures Inv(Called(w, outcome))
  {
    StoreKeeps(w, w.process.claim.task);
  }

  lemma {:induction false} AcknowledgingKeepsInv(w: World, outcome: Outcome)
    requires Inv(w) && w.process.Running? && w.process.point.Acknowledging?
    ensures Inv(Called(w, outcome))
  {
    AckKeeps(w, w.database, w.process.claim.task);
  }

  lemma {:induction false} SendKeeps(w: World, a: Activation)
    requires AllRecorded(w.journal, w.database, w.sent) && OncePerTask(w.sent) && Earlier(w.sent, w.runs)
    requires ForceOk(w.sent, w.force)
    requires Recorded(w.journal, w.database, a) && Unsent(w.sent, a.task) && a.run < w.runs
    ensures var sent := w.sent + [a];
            && AllRecorded(w.journal, w.database, sent) && OncePerTask(sent) && Earlier(sent, w.runs)
            && ForceOk(sent, w.force) && ForceOk(sent, w.force[a.account := a.candidate])
  {
    var sent := w.sent + [a];
    assert sent[|w.sent|] == a;
    assert Installed(sent, a.account, a.candidate);
    forall account | account in w.force
      ensures Installed(sent, account, w.force[account])
    {
      assert Installed(w.sent, account, w.force[account]);
      var i :| 0 <= i < |w.sent| && w.sent[i].account == account && w.sent[i].candidate == w.force[account];
      assert sent[i] == w.sent[i];
    }
  }

  /** A later activation is of another run than every report. */
  lemma {:induction false} SendKeepsReports(reports: seq<Report>, sent: seq<Activation>, runs: nat, a: Activation)
    requires ReportsOk(reports, sent, runs) && Unreported(reports, a.run)
    ensures ReportsOk(reports, sent + [a], runs)
  {
    forall i | 0 <= i < |reports|
      ensures ReportOk(reports[i], sent + [a], runs)
    {
      assert ReportOk(reports[i], sent, runs) && reports[i].run != a.run;
    }
  }

  function Sending(w: World): Activation
    requires w.process.Running? && w.process.point.Activating?
  {
    var claim := w.process.claim;
    Activation(w.process.run, claim.task, claim.account, w.process.point.c, InForce(w, claim.account))
  }

  lemma {:induction false} ActivatingProcess(w: World, outcome: Outcome)
    requires ProcessOk(w) && w.process.Running? && w.process.point.Activating?
    ensures ProcessOk(Activated(w, outcome, w.process.point.c)) && Recorded(w.journal, w.database, Sending(w))
  {
  }

  /** What sending adds, apart from where the run goes next. */
  lemma {:induction false} ActivatedParts(w: World, outcome: Outcome)
    requires w.process.Running? && w.process.point.Activating?
    ensures var w' := Called(w, outcome);
            && w'.journal == w.journal && w'.database == w.database && w'.runs == w.runs && w'.clock == w.clock
            && w'.reports == w.reports && w'.sent == w.sent + [Sending(w)]
            && w'.used == w.used + {(w.process.claim.account, Normalized(w.process.point.c), TimeStep(w.clock))}
            && (w'.force == w.force || w'.force == w.force[Sending(w).account := Sending(w).candidate])
  {
  }

  lemma {:induction false} ActivatingKeepsInv(w: World, outcome: Outcome)
    requires Inv(w) && w.process.Running? && w.process.point.Activating?
    ensures Inv(Called(w, outcome))
  {
    ActivatedParts(w, outcome);
    ActivatingProcess(w, outcome);
    SendKeeps(w, Sending(w));
    SendKeepsReports(w.reports, w.sent, w.runs, Sending(w));
    PresentKeepsUsed(w, w.process.point.c);
  }

  lemma {:induction false} ReportKeeps(w: World, r: Report)
    requires ReportsOk(w.reports, w.sent, w.runs) && ReportOk(r, w.sent, w.runs)
    ensures ReportsOk(w.reports + [r], w.sent, w.runs)
  {
  }

  lemma {:induction false} ClosingKeepsInv(w: World, outcome: Outcome)
    requires Inv(w) && w.process.Running? && (w.process.point.Closing? || w.process.point.Failing?)
    ensures Inv(Called(w, outcome))
  {
    var run, claim := w.process.run, w.process.claim;
    match w.process.point
    case Closing(c, at, last) =>
      ReportKeeps(w, Success(run, Pair(claim, c).0, at, Pair(claim, c).1, last, InForce(w, claim.account)));
    case Failing(stage) =>
      ReportKeeps(w, Failure(run, stage));
  }

  lemma {:induction false} RestingKeepsInv(w: World, outcome: Outcome)
    requires Inv(w) && w.process.Running? && w.process.point.Resting?
    ensures Inv(Called(w, outcome))
  {
    LaterStep(w.process.point.at, w.clock);
    NapCrossesStep(w.clock, w.clock + Nap(w.clock));
  }

  lemma {:induction false} CalledKeepsInv(w: World, outcome: Outcome)
    requires Inv(w) && Enabled(w, Call(outcome))
    ensures Inv(Called(w, outcome))
  {
    match w.process.point
    case SavingClaim => SavingClaimKeepsInv(w, outcome);
    case SavingCandidate(_, _) => SavingCandidateKeepsInv(w, outcome);
    case Preparing(_) => PreparingKeepsInv(w, outcome);
    case Acknowledging(_) => AcknowledgingKeepsInv(w, outcome);
    case Activating(_) => ActivatingKeepsInv(w, outcome);
    case Resting(_, _) => RestingKeepsInv(w, outcome);
    case Closing(_, _, _) => ClosingKeepsInv(w, outcome);
    case Failing(_) => ClosingKeepsInv(w, outcome);
    case _ => PhaseKeepsInv(w, outcome);
  }

  /** Calls that only tell the API how far the run has come. */
  lemma {:induction false} PhaseKeepsInv(w: World, outcome: Outcome)
    requires Inv(w) && w.process.Running?
    requires var p := w.process.point; p.Opening? || p.Announcing? || p.Arming? || p.Confirming? || p.Recovering?
    ensures Inv(Called(w, outcome))
  {
    FailKeepsInv(w);
  }

  lemma {:induction false} PresentKeepsUsed(w: World, secret: string)
    requires w.process.Running? && UsedOk(w.used, w.clock)
    ensures forall verdict :: UsedOk(Presented(w, secret, verdict).used, w.clock)
  {
  }

  lemma {:induction false} PresentKeepsInv(w: World, secret: string, verdict: Verdict)
    requires Inv(w) && w.process.Running? && !w.process.point.Rejecting?
    ensures Inv(Presented(w, secret, verdict))
  {
    PresentKeepsUsed(w, secret);
  }

  lemma {:induction false} GoKeepsInv(w: World, p: Point)
    requires Inv(w) && w.process.Running? && w.process.point != Failing(VerificationFailed)
    requires PointOk(w, w.process.claim, p) && (IsEarly(StageAt(p)) ==> IsEarly(StageAt(w.process.point)))
    ensures Inv(Go(w, p))
  {
  }

  lemma {:induction false} SigningInKeepsInv(w: World, verdict: Verdict)
    requires Inv(w) && Enabled(w, Login(verdict)) && w.process.point.SigningIn?
    ensures Inv(LoggedIn(w, verdict))
  {
    var w1 := Presented(w, w.process.claim.secret, verdict);
    PresentKeepsInv(w, w.process.claim.secret, verdict);
    if verdict == Accepted {
      GoKeepsInv(w1, Announcing);
    } else {
      FailKeepsInv(w1);
    }
  }

  lemma {:induction false} AcceptingKeepsInv(w: World, verdict: Verdict)
    requires Inv(w) && Enabled(w, Login(verdict)) && w.process.point.Accepting?
    ensures Inv(LoggedIn(w, verdict))
  {
    var c := w.process.point.c;
    var (accepted, rejected) := Pair(w.process.claim, c);
    var w1 := Presented(w, accepted, verdict);
    PresentKeepsInv(w, accepted, verdict);
    if accepted == "" {
      FailKeepsInv(w);
    } else if verdict != Accepted {
      FailKeepsInv(w1);
    } else if rejected == "" {
      GoKeepsInv(w1, Closing(c, w.clock, w.clock));
    } else {
      GoKeepsInv(w1, Resting(c, w.clock));
    }
  }

  lemma {:induction false} LoginKeepsInv(w: World, verdict: Verdict)
    requires Inv(w) && Enabled(w, Login(verdict))
    ensures Inv(LoggedIn(w, verdict))
  {
    match w.process.point
    case SigningIn => SigningInKeepsInv(w, verdict);
    case Accepting(_) => AcceptingKeepsInv(w, verdict);
    case Rejecting(_, _, _) => RejectingKeepsInv(w, verdict);
  }

  /** A code of a new time step that is rejected was not rejected as a replay. */
  lemma {:induction false} RejectingKeepsInv(w: World, verdict: Verdict)
    requires Inv(w) && Enabled(w, Login(verdict)) && w.process.point.Rejecting?
    ensures Inv(LoggedIn(w, verdict))
  {
    var secret, account := Pair(w.process.claim, w.process.point.c).1, w.process.claim.account;
    LaterStep(w.process.point.until, w.clock);
    assert (account, Normalized(secret), TimeStep(w.clock)) !in w.used;
    PresentKeepsUsed(w, secret);
  }

  lemma {:induction false} RecoverKeepsInv(w: World, task: int, api: Outcome, disk: Outcome)
    requires Inv(w) && w.process.Idle?
    ensures Inv(Recovered(w, task, api, disk))
  {
    if task in w.journal && Present(w.journal[task].candidate) {
      StoreKeeps(w, task);
      if Acknowledge(w.journal, task).Some? {
        AckKeeps(w, w.database[task := w.journal[task].candidate], task);
      }
    }
  }

  lemma {:induction false} BeginKeepsInv(w: World, claim: Claim)
    requires Inv(w) && w.process.Idle?
    ensures Inv(Apply(w, Begin(claim)))
  {
    forall i | 0 <= i < |w.reports|
      ensures ReportOk(w.reports[i], w.sent, w.runs + 1) && w.reports[i].run != w.runs
    {
      assert ReportOk(w.reports[i], w.sent, w.runs);
    }
  }

  lemma {:induction false} TickKeepsInv(w: World, seconds: real)
    requires Inv(w) && seconds >= 0.0
    ensures Inv(Apply(w, Tick(seconds)))
  {
    UsedLater(w.used, w.clock, w.clock + seconds);
  }

  lemma {:induction false} UsedLater(used: set<(Name, string, int)>, t: real, u: real)
    requires UsedOk(used, t) && t <= u
    ensures UsedOk(used, u)
  {
    LaterStep(t, u);
  }

  lemma {:induction false} StepKeepsInv(w: World, e: Event)
    requires Inv(w) && Enabled(w, e)
    ensures Inv(Apply(w, e))
  {
    match e
    case Tick(seconds) => TickKeepsInv(w, seconds);
    case Begin(claim) => BeginKeepsInv(w, claim);
    case Call(outcome) => CalledKeepsInv(w, outcome);
    case Enrolled(_, _, _) => FailKeepsInv(w);
    case Login(verdict) => LoginKeepsInv(w, verdict);
    case Crash =>
    case Recover(task, api, disk) => RecoverKeepsInv(w, task, api, disk);
  }

  // ---------------------------------------------------------------- runs

  predicate IsRun(w: World, events: seq<Event>)
    decreases |events|
  {
    events != [] ==> Enabled(w, events[0]) && IsRun(Apply(w, events[0]), events[1..])
  }

  function After(w: World, events: seq<Event>): World
    requires IsRun(w, events)
    decreases |events|
  {
    if events == [] then w else After(Apply(w, events[0]), events[1..])
  }

  lemma {:induction false} RunKeepsInv(w: World, events: seq<Event>, end: World)
    requires Inv(w) && IsRun(w, events) && After(w, events) == end
    ensures Inv(end)
    decreases |events|
  {
    if events != [] {
      StepKeepsInv(w, events[0]);
      RunKeepsInv(Apply(w, events[0]), events[1..], end);
    }
  }

  /** Whatever fails or dies, over any number of runs: an activation was sent only for a
      candidate that the journal holds together with the secret then in force and that the
      API acknowledged, and no task is activated twice. */
  lemma {:induction false} WriteAhead(events: seq<Event>, i: nat)
    requires IsRun(Fresh, events) && i < |After(Fresh, events).sent|
    ensures var w := After(Fresh, events);
            && Recorded(w.journal, w.database, w.sent[i])
            && forall j :: 0 <= j < |w.sent| && j != i ==> w.sent[j].task != w.sent[i].task
  {
    RunKeepsInv(Fresh, events, After(Fresh, events));
  }

  /** The secret in force is never lost: it is the one the account started with, or the
      candidate of a journal entry of that account. */
  lemma {:induction false} SecretIsRecorded(events: seq<Event>, account: Name)
    requires IsRun(Fresh, events)
    ensures var w := After(Fresh, events);
            || InForce(w, account) == Initial(account)
            || exists task :: task in w.journal && w.journal[task].account == account
                && w.journal[task].candidate == Text(InForce(w, account))
  {
    var w := After(Fresh, events);
    RunKeepsInv(Fresh, events, w);
    if account in w.force {
      assert Installed(w.sent, account, w.force[account]);
      var i :| 0 <= i < |w.sent| && w.sent[i].account == account && w.sent[i].candidate == w.force[account];
      assert Recorded(w.journal, w.database, w.sent[i]);
      assert w.sent[i].task in w.journal;
    }
  }

  /** A run reported as `login_failed` or `enrollment_failed` never sent an activation. */
  lemma {:induction false} EarlyFailureMeansUnsent(events: seq<Event>, i: nat, k: nat)
    requires IsRun(Fresh, events) && i < |After(Fresh, events).reports| && k < |After(Fresh, events).sent|
    requires After(Fresh, events).reports[i].Failure? && IsEarly(After(Fresh, events).reports[i].stage)
    ensures After(Fresh, events).sent[k].run != After(Fresh, events).reports[i].run
  {
    var w := After(Fresh, events);
    RunKeepsInv(Fresh, events, w);
    assert ReportOk(w.reports[i], w.sent, w.runs);
  }

  // ---------------------------------------------------------------- the logins behind a success

  /** What a run has shown by its logins so far. */
  predicate Shown(logins: seq<Attempt>, process: Process) {
    process.Running? ==>
      match process.point
      case Resting(c, at) => Attempt(process.run, Pair(process.claim, c).0, Accepted, at) in logins
      case Rejecting(c, at, _) => Attempt(process.run, Pair(process.claim, c).0, Accepted, at) in logins
      case Closing(c, at, last) =>
        && Attempt(process.run, Pair(process.claim, c).0, Accepted, at) in logins
        && (Pair(process.claim, c).1 != "" ==> Attempt(process.run, Pair(process.claim, c).1, Denied, last) in logins)
      case _ => true
  }

  predicate Proven(logins: seq<Attempt>, r: Report) {
    r.Success? ==>
      && Attempt(r.run, r.accepted, Accepted, r.acceptedAt) in logins
      && (r.rejected != "" ==> Attempt(r.run, r.rejected, Denied, r.rejectedAt) in logins)
  }

  predicate AllProven(logins: seq<Attempt>, reports: seq<Report>) {
    forall i :: 0 <= i < |reports| ==> Proven(logins, reports[i])
  }

  lemma {:induction false} LoginProves(w: World, verdict: Verdict)
    requires Shown(w.logins, w.process) && AllProven(w.logins, w.reports) && Enabled(w, Login(verdict))
    ensures Shown(LoggedIn(w, verdict).logins, LoggedIn(w, verdict).process)
    ensures AllProven(LoggedIn(w, verdict).logins, LoggedIn(w, verdict).reports)
  {
    var w' := LoggedIn(w, verdict);
    assert forall a :: a in w.logins ==> a in w'.logins;
    forall i | 0 <= i < |w.reports|
      ensures Proven(w'.logins, w.reports[i])
    {
      assert Proven(w.logins, w.reports[i]);
    }
  }

  /** The calls that write the journal, and the activation. */
  predicate IsWrite(p: Point) {
    p.SavingClaim? || p.SavingCandidate? || p.Preparing? || p.Acknowledging? || p.Activating?
  }

  /** Neither a login nor a report; and the run does not get to the end of the verification. */
  predicate Quiet(w: World, w': World) {
    && w'.logins == w.logins && w'.reports == w.reports && w'.process.Running?
    && w'.claims == w.claims && w'.runs == w.runs
    && !w'.process.point.Resting? && !w'.process.point.Rejecting? && !w'.process.point.Closing?
  }

  /** Whatever becomes of a journal write, the run goes on or fails, and nothing else is said. */
  lemma {:induction false} SavedMoves(w: World, outcome: Outcome, j: Option<Journal>, p: Point)
    requires w.process.Running?
    ensures var w' := Saved(w, outcome, j, p);
            && Moves(w, w') && w'.logins == w.logins
            && w'.process.point in {p, Failing(StageAt(w.process.point))}
  {
  }

  lemma {:induction false} SaveIsQuiet(w: World, outcome: Outcome)
    requires w.process.Running?
    requires var p := w.process.point; p.SavingClaim? || p.SavingCandidate? || p.Acknowledging?
    ensures Quiet(w, Called(w, outcome))
  {
    var j, next := SaveOf(w);
    SavedMoves(w, outcome, j, next);
    assert Called(w, outcome) == Saved(w, outcome, j, next);
  }

  /** What is written at this point, and where the run goes on to. */
  lemma {:induction false} SaveOf(w: World) returns (j: Option<Journal>, next: Point)
    requires w.process.Running?
    requires var p := w.process.point; p.SavingClaim? || p.SavingCandidate? || p.Acknowledging?
    ensures forall outcome :: Called(w, outcome) == Saved(w, outcome, j, next)
    ensures match w.process.point
            case SavingClaim => next == SigningIn
            case SavingCandidate(raw, session) => next == Validated(w.process.claim, raw, session)
            case Acknowledging(c) => next == Arming(c)
            case _ => true
  {
    var claim := w.process.claim;
    match w.process.point
    case SavingClaim => j, next := Write(w.journal, claim.task, EntryOf(claim, Text(""))), SigningIn;
    case SavingCandidate(raw, session) =>
      j, next := Write(w.journal, claim.task, EntryOf(claim, raw)), Validated(claim, raw, session);
    case Acknowledging(c) => j, next := Acknowledge(w.journal, claim.task), Arming(c);
  }

  lemma {:induction false} SendIsQuiet(w: World, outcome: Outcome)
    requires w.process.Running? && (w.process.point.Preparing? || w.process.point.Activating?)
    ensures Quiet(w, Called(w, outcome))
  {
  }

  lemma {:induction false} WriteIsQuiet(w: World, outcome: Outcome)
    requires w.process.Running? && IsWrite(w.process.point)
    ensures Quiet(w, Called(w, outcome))
  {
    if w.process.point.Preparing? || w.process.point.Activating? {
      SendIsQuiet(w, outcome);
    } else {
      SaveIsQuiet(w, outcome);
    }
  }

  lemma {:induction false} PhaseIsQuiet(w: World, outcome: Outcome)
    requires w.process.Running?
    requires var p := w.process.point; p.Opening? || p.Announcing? || p.Arming? || p.Confirming? || p.Recovering?
    ensures Quiet(w, Called(w, outcome))
  {
  }

  lemma {:induction false} ReportIsNoLogin(w: World, outcome: Outcome)
    requires w.process.Running? && (w.process.point.Resting? || w.process.point.Closing? || w.process.point.Failing?)
    ensures Called(w, outcome).logins == w.logins
    ensures Called(w, outcome).claims == w.claims && Called(w, outcome).runs == w.runs
  {
  }

  lemma {:induction false} CallIsNoLogin(w: World, outcome: Outcome)
    requires Enabled(w, Call(outcome))
    ensures Called(w, outcome).logins == w.logins
    ensures Called(w, outcome).claims == w.claims && Called(w, outcome).runs == w.runs
  {
    if IsWrite(w.process.point) {
      WriteIsQuiet(w, outcome);
    } else if w.process.point.Resting? || w.process.point.Closing? || w.process.point.Failing? {
      ReportIsNoLogin(w, outcome);
    } else {
      PhaseIsQuiet(w, outcome);
    }
  }

  lemma {:induction false} ReportProves(w: World, outcome: Outcome)
    requires Shown(w.logins, w.process) && AllProven(w.logins, w.reports)
    requires w.process.Running? && (w.process.point.Resting? || w.process.point.Closing? || w.process.point.Failing?)
    ensures Shown(Called(w, outcome).logins, Called(w, outcome).process)
    ensures AllProven(Called(w, outcome).logins, Called(w, outcome).reports)
  {
  }

  lemma {:induction false} CallProves(w: World, outcome: Outcome)
    requires Shown(w.logins, w.process) && AllProven(w.logins, w.reports) && Enabled(w, Call(outcome))
    ensures Shown(Called(w, outcome).logins, Called(w, outcome).process)
    ensures AllProven(Called(w, outcome).logins, Called(w, outcome).reports)
  {
    if IsWrite(w.process.point) {
      WriteIsQuiet(w, outcome);
    } else if w.process.point.Resting? || w.process.point.Closing? || w.process.point.Failing? {
      ReportProves(w, outcome);
    } else {
      PhaseIsQuiet(w, outcome);
    }
  }

  lemma {:induction false} StepProves(w: World, e: Event)
    requires Shown(w.logins, w.process) && AllProven(w.logins, w.reports) && Enabled(w, e)
    ensures Shown(Apply(w, e).logins, Apply(w, e).process) && AllProven(Apply(w, e).logins, Apply(w, e).reports)
  {
    match e
    case Login(verdict) => LoginProves(w, verdict);
    case Call(outcome) => CallProves(w, outcome);
    case _ => assert Apply(w, e).logins == w.logins && Apply(w, e).reports == w.reports;
  }

  lemma {:induction false} RunProves(w: World, events: seq<Event>)
    requires Shown(w.logins, w.process) && AllProven(w.logins, w.reports) && IsRun(w, events)
    ensures AllProven(After(w, events).logins, After(w, events).reports)
    decreases |events|
  {
    if events != [] {
      StepProves(w, events[0]);
      RunProves(Apply(w, events[0]), events[1..]);
    }
  }

  /** Event `k` of the run is this login, made by this run at this time with this secret. */
  ghost predicate IsLogin(w: World, events: seq<Event>, k: nat, a: Attempt) {
    && k < |events| && events[k] == Login(a.verdict) && IsRun(w, events[..k])
    && var before := After(w, events[..k]);
       && before.clock == a.at && before.process.Running? && before.process.run == a.run
       && Offered(before.process.claim, before.process.point) == Some(a.secret)
  }

  lemma {:induction false} LoginAttempts(w: World, verdict: Verdict)
    requires Enabled(w, Login(verdict))
    ensures LoggedIn(w, verdict).logins == w.logins
         || LoggedIn(w, verdict).logins
            == w.logins + [Attempt(w.process.run, Offered(w.process.claim, w.process.point).value, verdict, w.clock)]
  {
  }

  lemma {:induction false} NewAttempt(w: World, e: Event, a: Attempt)
    requires Enabled(w, e) && a !in w.logins && a in Apply(w, e).logins
    ensures e == Login(a.verdict) && w.clock == a.at && w.process.Running? && w.process.run == a.run
    ensures Offered(w.process.claim, w.process.point) == Some(a.secret)
  {
    match e
    case Login(verdict) => LoginAttempts(w, verdict);
    case Call(outcome) => CallIsNoLogin(w, outcome);
    case _ =>
  }

  lemma {:induction false} AttemptWasMade(w: World, events: seq<Event>, a: Attempt) returns (k: nat)
    requires IsRun(w, events) && a !in w.logins && a in After(w, events).logins
    ensures IsLogin(w, events, k, a)
    decreases |events|
  {
    var next := Apply(w, events[0]);
    if a in next.logins {
      NewAttempt(w, events[0], a);
      assert events[..0] == [];
      k := 0;
    } else {
      var j := AttemptWasMade(next, events[1..], a);
      k := j + 1;
      assert events[..k][1..] == events[1..][..j];
    }
  }

  /** Success is reported only when the accepted secret was in force and the other one, if
      there is one, was not; and only after the run logged in with the first and was explicitly
      denied with the second in a strictly later time step. */
  lemma {:induction false} SuccessMeansVerified(events: seq<Event>, i: nat)
    requires IsRun(Fresh, events) && i < |After(Fresh, events).reports| && After(Fresh, events).reports[i].Success?
    ensures var r := After(Fresh, events).reports[i];
            && Alike(r.accepted, r.force)
            && (exists k :: IsLogin(Fresh, events, k, Attempt(r.run, r.accepted, Accepted, r.acceptedAt)))
            && (r.rejected != "" ==>
                  && !Alike(r.rejected, r.force) && TimeStep(r.acceptedAt) < TimeStep(r.rejectedAt)
                  && exists k :: IsLogin(Fresh, events, k, Attempt(r.run, r.rejected, Denied, r.rejectedAt)))
  {
    var w := After(Fresh, events);
    var r := w.reports[i];
    RunKeepsInv(Fresh, events, w);
    assert ReportOk(r, w.sent, w.runs);
    RunProves(Fresh, events);
    assert Proven(w.logins, r);
    var k := AttemptWasMade(Fresh, events, Attempt(r.run, r.accepted, Accepted, r.acceptedAt));
    if r.rejected != "" {
      var j := AttemptWasMade(Fresh, events, Attempt(r.run, r.rejected, Denied, r.rejectedAt));
    }
  }

  // ---------------------------------------------------------------- what a run was begun with

  /** This run sent the activation of this candidate for its claim. */
  predicate WasSent(sent: seq<Activation>, run: nat, claim: Claim, c: string) {
    exists i :: 0 <= i < |sent| && sent[i].run == run && sent[i].task == claim.task
                && sent[i].account == claim.account && sent[i].candidate == c
  }

  /** The candidate a verification is about: the one just activated, or the claim's. */
  predicate IsCandidate(sent: seq<Activation>, run: nat, claim: Claim, c: string) {
    match claim.action
    case Rotate => WasSent(sent, run, claim, c)
    case VerifyNew => c == claim.candidate
    case VerifyOld => c == claim.candidate
    case Unsupported => false
  }

  /** A candidate worth activating. */
  predicate IsNew(claim: Claim, c: string) {
    claim.action == Rotate && c != "" && Usable(c) && !Alike(c, claim.secret)
  }

  predicate PointFits(sent: seq<Activation>, run: nat, claim: Claim, p: Point) {
    match p
    case SavingClaim => claim.action == Rotate
    case SigningIn => claim.action == Rotate
    case Announcing => claim.action == Rotate
    case Enrolling => claim.action == Rotate
    case SavingCandidate(_, _) => claim.action == Rotate
    case Preparing(c) => IsNew(claim, c)
    case Acknowledging(c) => IsNew(claim, c)
    case Arming(c) => IsNew(claim, c)
    case Activating(c) => IsNew(claim, c)
    case Confirming(c) => IsCandidate(sent, run, claim, c)
    case Recovering => claim.action == VerifyNew || claim.action == VerifyOld
    case Accepting(c) => IsCandidate(sent, run, claim, c)
    case Resting(c, _) => IsCandidate(sent, run, claim, c)
    case Rejecting(c, _, _) => IsCandidate(sent, run, claim, c)
    case Closing(c, _, _) => IsCandidate(sent, run, claim, c)
    case _ => true
  }

  predicate Fits(claims: seq<Claim>, sent: seq<Activation>, process: Process) {
    process.Running? ==>
      && process.run < |claims| && claims[process.run] == process.claim
      && PointFits(sent, process.run, process.claim, process.point)
  }

  /** Which secret was accepted and which was rejected, for each kind of claim. */
  predicate ReportFits(claims: seq<Claim>, sent: seq<Activation>, r: Report) {
    r.Success? ==>
      && r.run < |claims|
      && var claim := claims[r.run];
         match claim.action
         case Rotate => WasSent(sent, r.run, claim, r.accepted) && r.rejected == claim.secret
         case VerifyNew => r.accepted == claim.candidate && r.rejected == claim.secret
         case VerifyOld => r.accepted == claim.secret && r.rejected == claim.candidate
         case Unsupported => false
  }

  predicate AllFit(claims: seq<Claim>, sent: seq<Activation>, reports: seq<Report>) {
    forall i :: 0 <= i < |reports| ==> ReportFits(claims, sent, reports[i])
  }

  predicate AllNew(sent: seq<Activation>) {
    forall i :: 0 <= i < |sent| ==> Usable(sent[i].candidate) && !Alike(sent[i].candidate, sent[i].before)
  }

  predicate Fitting(w: World) {
    && |w.claims| == w.runs && Fits(w.claims, w.sent, w.process)
    && AllFit(w.claims, w.sent, w.reports) && AllNew(w.sent)
  }

  lemma {:induction false} SaveFits(w: World, outcome: Outcome)
    requires Fitting(w) && w.process.Running? && (w.process.point.SavingClaim? || w.process.point.Acknowledging?)
    ensures Fitting(Called(w, outcome))
  {
    var j, next := SaveOf(w);
    SavedMoves(w, outcome, j, next);
    MoveFits(w, Saved(w, outcome, j, next));
  }

  lemma {:induction false} SaveCandidateFits(w: World, outcome: Outcome)
    requires Fitting(w) && w.process.Running? && w.process.point.SavingCandidate?
    ensures Fitting(Called(w, outcome))
  {
    var j, next := SaveOf(w);
    assert PointFits(w.sent, w.process.run, w.process.claim, next);
    SavedMoves(w, outcome, j, next);
    MoveFits(w, Saved(w, outcome, j, next));
  }

  lemma {:induction false} PrepareFits(w: World, outcome: Outcome)
    requires Fitting(w) && w.process.Running? && w.process.point.Preparing?
    ensures Fitting(Called(w, outcome))
  {
  }

  /** Sending on keeps what was sent. */
  lemma {:induction false} SentStays(claims: seq<Claim>, sent: seq<Activation>, a: Activation, reports: seq<Report>)
    requires AllFit(claims, sent, reports)
    ensures AllFit(claims, sent + [a], reports)
  {
    forall i | 0 <= i < |reports|
      ensures ReportFits(claims, sent + [a], reports[i])
    {
      assert ReportFits(claims, sent, reports[i]);
      if reports[i].Success? && claims[reports[i].run].action == Rotate {
        var n :| 0 <= n < |sent| && sent[n].run == reports[i].run && sent[n].task == claims[reports[i].run].task
                 && sent[n].account == claims[reports[i].run].account && sent[n].candidate == reports[i].accepted;
        assert (sent + [a])[n] == sent[n];
      }
    }
  }

  lemma {:induction false} ActivateFits(w: World, outcome: Outcome)
    requires Inv(w) && Fitting(w) && w.process.Running? && w.process.point.Activating?
    ensures Fitting(Called(w, outcome))
  {
    var w' := Called(w, outcome);
    ActivatedParts(w, outcome);
    SentStays(w.claims, w.sent, Sending(w), w.reports);
    assert w'.sent[|w.sent|] == Sending(w);
    assert WasSent(w'.sent, w.process.run, w.process.claim, w.process.point.c);
  }

  lemma {:induction false} PhaseFits(w: World, outcome: Outcome)
    requires Fitting(w) && w.process.Running?
    requires var p := w.process.point; p.Opening? || p.Announcing? || p.Arming? || p.Confirming? || p.Recovering?
    ensures Fitting(Called(w, outcome))
  {
  }

  lemma {:induction false} ClosingFits(w: World, outcome: Outcome)
    requires Fitting(w) && w.process.Running?
    requires w.process.point.Resting? || w.process.point.Closing? || w.process.point.Failing?
    ensures Fitting(Called(w, outcome))
  {
  }

  lemma {:induction false} CallFits(w: World, outcome: Outcome)
    requires Inv(w) && Fitting(w) && Enabled(w, Call(outcome))
    ensures Fitting(Called(w, outcome))
  {
    match w.process.point
    case SavingClaim => SaveFits(w, outcome);
    case SavingCandidate(_, _) => SaveCandidateFits(w, outcome);
    case Acknowledging(_) => SaveFits(w, outcome);
    case Preparing(_) => PrepareFits(w, outcome);
    case Activating(_) => ActivateFits(w, outcome);
    case Resting(_, _) => ClosingFits(w, outcome);
    case Closing(_, _, _) => ClosingFits(w, outcome);
    case Failing(_) => ClosingFits(w, outcome);
    case _ => PhaseFits(w, outcome);
  }

  /** A step of the same run that sends and reports nothing. */
  predicate Moves(w: World, w': World) {
    && w'.claims == w.claims && w'.sent == w.sent && w'.reports == w.reports && w'.runs == w.runs
    && w.process.Running? && w'.process.Running?
    && w'.process.run == w.process.run && w'.process.claim == w.process.claim
  }

  lemma {:induction false} MoveFits(w: World, w': World)
    requires Fitting(w) && Moves(w, w') && PointFits(w.sent, w.process.run, w.process.claim, w'.process.point)
    ensures Fitting(w')
  {
  }

  lemma {:induction false} SigningInMoves(w: World, verdict: Verdict)
    requires w.process.Running? && w.process.point.SigningIn?
    ensures var w' := LoggedIn(w, verdict);
            Moves(w, w') && (w'.process.point.Announcing? || w'.process.point.Failing?)
  {
  }

  lemma {:induction false} AcceptingMoves(w: World, verdict: Verdict)
    requires w.process.Running? && w.process.point.Accepting?
    ensures var w', p := LoggedIn(w, verdict), LoggedIn(w, verdict).process.point;
            && Moves(w, w') && (p.Closing? || p.Resting? || p.Failing?)
            && (p.Closing? || p.Resting? ==> p.c == w.process.point.c)
  {
  }

  lemma {:induction false} RejectingMoves(w: World, verdict: Verdict)
    requires w.process.Running? && w.process.point.Rejecting?
    ensures var w', p := LoggedIn(w, verdict), LoggedIn(w, verdict).process.point;
            Moves(w, w') && (p.Closing? || p.Failing?) && (p.Closing? ==> p.c == w.process.point.c)
  {
  }

  lemma {:induction false} LoginFits(w: World, verdict: Verdict)
    requires Fitting(w) && Enabled(w, Login(verdict))
    ensures Fitting(LoggedIn(w, verdict))
  {
    if w.process.point.SigningIn? {
      SigningInMoves(w, verdict);
    } else if w.process.point.Accepting? {
      AcceptingMoves(w, verdict);
    } else {
      RejectingMoves(w, verdict);
    }
    MoveFits(w, LoggedIn(w, verdict));
  }

  lemma {:induction false} BeginFits(w: World, claim: Claim)
    requires Fitting(w) && w.process.Idle?
    ensures Fitting(Apply(w, Begin(claim)))
  {
    forall i | 0 <= i < |w.reports|
      ensures ReportFits(w.claims + [claim], w.sent, w.reports[i])
    {
      assert ReportFits(w.claims, w.sent, w.reports[i]);
    }
  }

  lemma {:induction false} StepFits(w: World, e: Event)
    requires Inv(w) && Fitting(w) && Enabled(w, e)
    ensures Fitting(Apply(w, e))
  {
    match e
    case Call(outcome) => CallFits(w, outcome);
    case Login(verdict) => LoginFits(w, verdict);
    case Begin(claim) => BeginFits(w, claim);
    case _ =>
  }

  lemma {:induction false} RunFits(w: World, events: seq<Event>)
    requires Inv(w) && Fitting(w) && IsRun(w, events)
    ensures Fitting(After(w, events))
    decreases |events|
  {
    if events != [] {
      StepFits(w, events[0]);
      StepKeepsInv(w, events[0]);
      RunFits(Apply(w, events[0]), events[1..]);
    }
  }

  /** In every run, an activation is sent only for a usable candidate that is not the secret in force. */
  lemma {:induction false} SentIsNew(events: seq<Event>, i: nat)
    requires IsRun(Fresh, events) && i < |After(Fresh, events).sent|
    ensures var a := After(Fresh, events).sent[i]; Usable(a.candidate) && !Alike(a.candidate, a.before)
  {
    RunFits(Fresh, events);
  }

  /** Event `k` of the run began this run with this claim. */
  ghost predicate IsBegin(w: World, events: seq<Event>, k: nat, run: nat, claim: Claim) {
    k < |events| && events[k] == Begin(claim) && IsRun(w, events[..k]) && After(w, events[..k]).runs == run
  }

  lemma {:induction false} NewClaim(w: World, e: Event)
    requires Enabled(w, e)
    ensures Apply(w, e).claims == if e.Begin? then w.claims + [e.claim] else w.claims
    ensures Apply(w, e).runs == if e.Begin? then w.runs + 1 else w.runs
  {
    match e
    case Call(outcome) => CallIsNoLogin(w, outcome);
    case _ =>
  }

  lemma {:induction false} ClaimWasBegun(w: World, events: seq<Event>, run: nat) returns (k: nat)
    requires IsRun(w, events) && w.runs == |w.claims| <= run < |After(w, events).claims|
    ensures IsBegin(w, events, k, run, After(w, events).claims[run])
    decreases |events|
  {
    var next := Apply(w, events[0]);
    NewClaim(w, events[0]);
    if run < |next.claims| {
      ClaimsStay(next, events[1..], run);
      assert events[..0] == [];
      k := 0;
    } else {
      var j := ClaimWasBegun(next, events[1..], run);
      k := j + 1;
      assert events[..k][1..] == events[1..][..j];
    }
  }

  lemma {:induction false} ClaimsStay(w: World, events: seq<Event>, run: nat)
    requires IsRun(w, events) && run < |w.claims|
    ensures run < |After(w, events).claims| && After(w, events).claims[run] == w.claims[run]
    decreases |events|
  {
    if events != [] {
      NewClaim(w, events[0]);
      ClaimsStay(Apply(w, events[0]), events[1..], run);
    }
  }

  /** Success answers the claim its run was begun with. After a rotation the accepted secret is
      the candidate that this very run activated, and for `verify_new` the claim's candidate,
      with the claim's secret as the one rejected; for `verify_old` it is the other way round. */
  lemma {:induction false} SuccessAnswersClaim(events: seq<Event>, i: nat) returns (k: nat)
    requires IsRun(Fresh, events) && i < |After(Fresh, events).reports| && After(Fresh, events).reports[i].Success?
    ensures var w := After(Fresh, events);
            var r := w.reports[i];
            && k < |events| && events[k].Begin? && IsBegin(Fresh, events, k, r.run, events[k].claim)
            && var claim := events[k].claim;
               && (claim.action == Rotate ==> WasSent(w.sent, r.run, claim, r.accepted) && r.rejected == claim.secret)
               && (claim.action == VerifyNew ==> r.accepted == claim.candidate && r.rejected == claim.secret)
               && (claim.action == VerifyOld ==> r.accepted == claim.secret && r.rejected == claim.candidate)
               && claim.action != Unsupported
  {
    var w := After(Fresh, events);
    RunFits(Fresh, events);
    assert ReportFits(w.claims, w.sent, w.reports[i]);
    k := ClaimWasBegun(Fresh, events, w.reports[i].run);
  }

  // ---------------------------------------------------------------- reconciliation

  /** A candidate that the API may not know of, and would take. */
  predicate Owed(w: World, task: int) {
    && task > 0 && task in w.journal && Present(w.journal[task].candidate)
    && (task in w.database ==> w.database[task] == w.journal[task].candidate)
  }

  predicate Handed(w: World, task: int) {
    task in w.journal && w.journal[task].acked && task in w.database && w.database[task] == w.journal[task].candidate
  }

  predicate EntryKept(e: Entry, e': Entry) {
    e'.account == e.account && e'.previous == e.previous && e'.candidate == e.candidate && (e.acked ==> e'.acked)
  }

  /** Nothing but acknowledgements and the API's copies may change. */
  predicate OnlyAcks(w: World, w': World) {
    && w'.journal.Keys == w.journal.Keys
    && (forall task :: task in w.journal ==> EntryKept(w.journal[task], w'.journal[task]))
    && w'.sent == w.sent && w'.force == w.force && w'.reports == w.reports && w'.process == w.process
  }

  /** What was owed before is owed still, or handed over. */
  predicate Progress(w: World, w': World, task: int) {
    Owed(w, task) && !w.journal[task].acked ==> Owed(w', task) && (w'.journal[task].acked ==> Handed(w', task))
  }

  lemma {:induction false} RecoverOne(w: World, task: int, api: Outcome, disk: Outcome, w': World)
    requires w' == Recovered(w, task, api, disk)
    ensures OnlyAcks(w, w') && forall t :: Progress(w, w', t)
    ensures api == Done && disk == Done && Owed(w, task) ==> w'.journal[task].acked
  {
  }

  lemma {:induction false} RecoverTwo(w: World, w': World, w'': World, task: int)
    requires Progress(w, w', task) && Progress(w', w'', task) && OnlyAcks(w, w') && OnlyAcks(w', w'')
    requires Handed(w', task) ==> Handed(w'', task)
    ensures Progress(w, w'', task)
  {
  }

  /** Handing over one candidate leaves the others where they are. */
  lemma {:induction false} HandedStays(w: World, task: int, api: Outcome, disk: Outcome, t: int)
    requires Handed(w, t)
    ensures Handed(Recovered(w, task, api, disk), t)
  {
  }

  predicate NotedAt(w: World, w': World, task: int, api: Outcome, disk: Outcome) {
    task in w.journal && task in w'.journal && w'.journal[task].acked && !w.journal[task].acked ==>
      api == Done && disk != Refused
  }

  /** A candidate is noted as handed over only after the API said so. */
  ghost predicate NotedAfterAnswer(w: World, w': World, api: int -> Outcome, disk: int -> Outcome) {
    forall t {:trigger NotedAt(w, w', t, api(t), disk(t))} :: NotedAt(w, w', t, api(t), disk(t))
  }

  lemma {:induction false} RecoverNotes(w: World, before: World, task: int, api: int -> Outcome, disk: int -> Outcome,
                                        after: World)
    requires NotedAfterAnswer(w, before, api, disk) && OnlyAcks(w, before)
    requires after == Recovered(before, task, api(task), disk(task))
    ensures NotedAfterAnswer(w, after, api, disk)
  {
    forall t {:trigger NotedAt(w, after, t, api(t), disk(t))}
      ensures NotedAt(w, after, t, api(t), disk(t))
    {
      assert NotedAt(w, before, t, api(t), disk(t));
    }
  }

  /** `recover`: every candidate the journal still owes the API is handed over if the calls
      for it succeed, failures keep it for later, and no candidate is ever changed. */
  method RecoverAll(w: World, tasks: seq<int>, api: int -> Outcome, disk: int -> Outcome) returns (w': World)
    requires Inv(w) && w.process.Idle?
    ensures Inv(w') && OnlyAcks(w, w') && forall t :: Progress(w, w', t)
    ensures forall t :: t in tasks && Owed(w, t) && !w.journal[t].acked && api(t) == Done && disk(t) == Done ==>
        Handed(w', t)
    ensures NotedAfterAnswer(w, w', api, disk)
  {
    w' := w;
    var i := 0;
    while i < |tasks|
      invariant 0 <= i <= |tasks|
      invariant Inv(w') && OnlyAcks(w, w') && forall t :: Progress(w, w', t)
      invariant NotedAfterAnswer(w, w', api, disk)
      invariant forall t :: t in tasks[..i] && Owed(w', t) && api(t) == Done && disk(t) == Done ==> w'.journal[t].acked
    {
      var t, before := tasks[i], w';
      RecoverKeepsInv(w', t, api(t), disk(t));
      w' := Recovered(w', t, api(t), disk(t));
      RecoverOne(before, t, api(t), disk(t), w');
      RecoverNotes(w, before, t, api, disk, w');
      forall u
        ensures Progress(w, w', u)
      {
        if Handed(before, u) {
          HandedStays(before, t, api(t), disk(t), u);
        }
        RecoverTwo(w, before, w', u);
      }
      OwedBefore(before, t, api(t), disk(t), w');
      assert tasks[..i + 1] == tasks[..i] + [t];
      i := i + 1;
    }
    assert tasks[..i] == tasks;
    forall t | t in tasks && Owed(w, t) && !w.journal[t].acked && api(t) == Done && disk(t) == Done
      ensures Handed(w', t)
    {
      assert Progress(w, w', t);
    }
  }

  lemma {:induction false} OwedBefore(w: World, task: int, api: Outcome, disk: Outcome, w': World)
    requires w' == Recovered(w, task, api, disk)
    ensures forall t :: Owed(w', t) ==> Owed(w, t)
  {
  }

  // ---------------------------------------------------------------- the theorems speak of something

  lemma {:induction false} EventFirst(w: World, e: Event, rest: seq<Event>, end: World)
    requires Enabled(w, e) && IsRun(Apply(w, e), rest) && After(Apply(w, e), rest) == end
    ensures IsRun(w, [e] + rest) && After(w, [e] + rest) == end
  {
    assert ([e] + rest)[1..] == rest;
  }

  /** Just sent: the candidate is in force and nothing was reported. */
  predicate IsSent(w: World, claim: Claim, c: string) {
    w.process == Running(0, claim, Confirming(c)) && InForce(w, claim.account) == c && |w.sent| == 1 && w.reports == []
  }

  /** From the acknowledgement on: noted, announced and sent. */
  lemma {:induction false} AcknowledgedIsSent(w: World, claim: Claim, c: string)
      returns (events: seq<Event>, end: World)
    requires w.process == Running(0, claim, Acknowledging(c)) && claim.task > 0 && claim.task in w.journal
    requires w.sent == [] && w.reports == []
    ensures IsRun(w, events) && After(w, events) == end && IsSent(end, claim, c)
  {
    var w1 := Called(w, Done);
    assert w1.process.point == Arming(c);
    var w2 := Called(w1, Done);
    end := Called(w2, Done);
    EventFirst(w2, Call(Done), [], end);
    EventFirst(w1, Call(Done), [Call(Done)] + [], end);
    events := [Call(Done)] + ([Call(Done)] + ([Call(Done)] + []));
    EventFirst(w, Call(Done), [Call(Done)] + ([Call(Done)] + []), end);
  }

  /** From the candidate on: saved and prepared before that. */
  lemma {:induction false} CandidateIsSent(w: World, claim: Claim, c: string) returns (events: seq<Event>, end: World)
    requires w.process == Running(0, claim, SavingCandidate(Text(c), Text("session"))) && claim.task > 0
    requires claim.task in w.journal && !Present(w.journal[claim.task].candidate)
    requires c != "" && Usable(c) && !Alike(c, claim.secret) && w.sent == [] && w.reports == []
    ensures IsRun(w, events) && After(w, events) == end && IsSent(end, claim, c)
  {
    var w1 := Called(w, Done);
    assert w1.process.point == Preparing(c);
    var w2 := Called(w1, Done);
    var tail;
    tail, end := AcknowledgedIsSent(w2, claim, c);
    EventFirst(w1, Call(Done), tail, end);
    EventFirst(w, Call(Done), [Call(Done)] + tail, end);
    events := [Call(Done)] + ([Call(Done)] + tail);
  }

  /** Some run sends an activation, for any usable candidate other than the secret in force. */
  lemma {:induction false} ActivationIsReachable(account: Name, c: string) returns (events: seq<Event>)
    requires c != "" && Usable(c) && !Alike(c, Initial(account))
    ensures IsRun(Fresh, events)
    ensures IsSent(After(Fresh, events), Claim(1, account, Initial(account), Rotate, ""), c)
  {
    var claim := Claim(1, account, Initial(account), Rotate, "");
    var w1 := Apply(Fresh, Begin(claim));
    var w2 := Called(w1, Done);
    var w3 := Called(w2, Done);
    assert w3.process.point == SigningIn;
    var w4 := LoggedIn(w3, Accepted);
    var w5 := Called(w4, Done);
    var enrolled := Enrolled(Done, Text(c), Text("session"));
    var w6 := Apply(w5, enrolled);
    var tail, end := CandidateIsSent(w6, claim, c);
    EventFirst(w5, enrolled, tail, end);
    EventFirst(w4, Call(Done), [enrolled] + tail, end);
    EventFirst(w3, Login(Accepted), [Call(Done)] + ([enrolled] + tail), end);
    EventFirst(w2, Call(Done), [Login(Accepted)] + ([Call(Done)] + ([enrolled] + tail)), end);
    EventFirst(w1, Call(Done), [Call(Done)] + ([Login(Accepted)] + ([Call(Done)] + ([enrolled] + tail))), end);
    events := [Call(Done)] + ([Call(Done)] + ([Login(Accepted)] + ([Call(Done)] + ([enrolled] + tail))));
    EventFirst(Fresh, Begin(claim), events, end);
    events := [Begin(claim)] + events;
  }

  lemma {:induction false} RunInTurn(w: World, a: seq<Event>, b: seq<Event>)
    requires IsRun(w, a) && IsRun(After(w, a), b)
    ensures IsRun(w, a + b) && After(w, a + b) == After(After(w, a), b)
    decreases |a|
  {
    if a == [] {
      assert a + b == b;
    } else {
      RunInTurn(Apply(w, a[0]), a[1..], b);
      assert (a + b)[1..] == a[1..] + b;
    }
  }

  lemma {:induction false} DeniedIsReported(w: World, claim: Claim, c: string, at: real, until: real)
      returns (events: seq<Event>, end: World)
    requires w.process == Running(0, claim, Rejecting(c, at, until)) && w.reports == []
    requires !Alike(Pair(claim, c).1, InForce(w, claim.account)) && w.clock >= until
    ensures IsRun(w, events) && After(w, events) == end && |end.reports| == 1 && end.reports[0].Success?
  {
    var w1 := LoggedIn(w, Denied);
    end := Called(w1, Done);
    EventFirst(w1, Call(Done), [], end);
    EventFirst(w, Login(Denied), [Call(Done)] + [], end);
    events := [Login(Denied)] + ([Call(Done)] + []);
  }

  /** Once the one secret has logged in, the other is tried in a later step and reported. */
  lemma {:induction false} OtherIsDenied(w: World, claim: Claim, c: string, at: real)
      returns (events: seq<Event>, end: World)
    requires w.process == Running(0, claim, Resting(c, at)) && w.reports == []
    requires !Alike(Pair(claim, c).1, InForce(w, claim.account))
    ensures IsRun(w, events) && After(w, events) == end && |end.reports| == 1 && end.reports[0].Success?
  {
    var until := w.clock + Nap(w.clock);
    var w1 := Called(w, Done);
    var w2 := Apply(w1, Tick(31.0));
    assert until <= w2.clock;
    events, end := DeniedIsReported(w2, claim, c, at, until);
    EventFirst(w1, Tick(31.0), events, end);
    events := [Tick(31.0)] + events;
    EventFirst(w, Call(Done), events, end);
    events := [Call(Done)] + events;
  }

  lemma {:induction false} OneLogsIn(w: World, claim: Claim, c: string)
    requires w.process == Running(0, claim, Accepting(c)) && Pair(claim, c).0 != ""
    requires Alike(Pair(claim, c).0, InForce(w, claim.account))
    ensures Enabled(w, Login(Accepted))
    ensures var w' := LoggedIn(w, Accepted);
            && w'.process
               == Running(0, claim,
                          if Pair(claim, c).1 == "" then Closing(c, w.clock, w.clock) else Resting(c, w.clock))
            && w'.reports == w.reports && w'.force == w.force
  {
  }

  /** Once the one secret has logged in, the other is left to be denied, if there is one. */
  lemma {:induction false} ProvedSucceeds(w: World, claim: Claim, c: string, at: real)
      returns (events: seq<Event>, end: World)
    requires w.process == Running(0, claim, if Pair(claim, c).1 == "" then Closing(c, at, at) else Resting(c, at))
    requires w.reports == [] && !Alike(Pair(claim, c).1, InForce(w, claim.account))
    ensures IsRun(w, events) && After(w, events) == end && |end.reports| == 1 && end.reports[0].Success?
  {
    if Pair(claim, c).1 == "" {
      end := Called(w, Done);
      EventFirst(w, Call(Done), [], end);
      events := [Call(Done)] + [];
    } else {
      events, end := OtherIsDenied(w, claim, c, at);
    }
  }

  lemma {:induction false} SentSucceeds(w: World, claim: Claim, c: string) returns (events: seq<Event>, end: World)
    requires IsSent(w, claim, c) && claim.action == Rotate && c != "" && !Alike(c, claim.secret)
    ensures IsRun(w, events) && After(w, events) == end && |end.reports| == 1 && end.reports[0].Success?
  {
    var w1 := Called(w, Done);
    assert w1.process.point == Accepting(c) && InForce(w1, claim.account) == c && w1.reports == [];
    OneLogsIn(w1, claim, c);
    events, end := ProvedSucceeds(LoggedIn(w1, Accepted), claim, c, w1.clock);
    EventFirst(w1, Login(Accepted), events, end);
    events := [Login(Accepted)] + events;
    EventFirst(w, Call(Done), events, end);
    events := [Call(Done)] + events;
  }

  /** For every usable candidate other than the secret in force, some rotation ends in success. */
  lemma {:induction false} SuccessIsReachable(account: Name, c: string) returns (events: seq<Event>)
    requires c != "" && Usable(c) && !Alike(c, Initial(account))
    ensures IsRun(Fresh, events)
    ensures var w := After(Fresh, events); |w.reports| == 1 && w.reports[0].Success?
  {
    var claim := Claim(1, account, Initial(account), Rotate, "");
    var first := ActivationIsReachable(account, c);
    var second, end := SentSucceeds(After(Fresh, first), claim, c);
    RunInTurn(Fresh, first, second);
    events := first + second;
  }

  /** And for any other secret, verifying that the one in force is new, or old, and the other
      is not, ends in success in some run. */
  lemma {:induction false} VerificationIsReachable(account: Name, action: Action, other: string)
      returns (events: seq<Event>)
    requires action == VerifyNew || action == VerifyOld
    requires Initial(account) != "" && !Alike(other, Initial(account))
    ensures IsRun(Fresh, events) && events != []
    ensures events[0] == Begin(if action == VerifyNew then Claim(1, account, other, VerifyNew, Initial(account))
                               else Claim(1, account, Initial(account), VerifyOld, other))
    ensures var w := After(Fresh, events); |w.reports| == 1 && w.reports[0].Success?
  {
    var claim := if action == VerifyNew then Claim(1, account, other, VerifyNew, Initial(account))
                 else Claim(1, account, Initial(account), VerifyOld, other);
    var w1 := Apply(Fresh, Begin(claim));
    var w2 := Called(w1, Done);
    assert w2.process.point == Recovering;
    var w3 := Called(w2, Done);
    OneLogsIn(w3, claim, claim.candidate);
    var w4 := LoggedIn(w3, Accepted);
    var tail, end := ProvedSucceeds(w4, claim, claim.candidate, w3.clock);
    EventFirst(w3, Login(Accepted), tail, end);
    EventFirst(w2, Call(Done), [Login(Accepted)] + tail, end);
    EventFirst(w1, Call(Done), [Call(Done)] + ([Login(Accepted)] + tail), end);
    EventFirst(Fresh, Begin(claim), [Call(Done)] + ([Call(Done)] + ([Login(Accepted)] + tail)), end);
    events := [Begin(claim)] + ([Call(Done)] + ([Call(Done)] + ([Login(Accepted)] + tail)));
  }
}

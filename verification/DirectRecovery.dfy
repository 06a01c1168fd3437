/**
 The Direct Recovery protocol over its four tables: sessions, tickets, recovery
 rows and durable answers, shared by recovery workers that keep only a stale
 local snapshot. Every transaction of the source is one function on the tables;
 a statement whose WHERE clause matches nothing leaves them unchanged.
 */
module DirectRecovery {
  import opened Common
  import opened TicketStatus

  type Key = string
  type TicketId = string

  datatype SessionState = Active | Deleting | Deleted
  datatype Session = Session(state: SessionState, generation: nat, sessionId: Option<string>)

  /** What the unique request key is hashed from; a later owner change does not touch it. */
  datatype Request = Request(owner: Key, runId: string)

  /** `sequence` is the event id of the ticket's `accepted` event. */
  datatype Ticket = Ticket(
    request: Request,
    owner: Key,
    status: Status,
    eligible: bool,
    workflow: Option<string>,
    readyAt: Option<nat>,
    confirmedAt: Option<nat>,
    interrupted: bool,
    sequence: nat)

  /** A recovery run id is printed from exactly these three parts. */
  datatype RunId = RunId(ticket: TicketId, attempt: nat, generation: nat)

  datatype RowState = Pending | Claimed | AwaitingDelivery | Withdrawn

  /** One row of cnx_direct_recovery; `Claimed` is its state 'running', `Withdrawn` its state 'cancelled'. */
  datatype Row = Row(
    state: RowState,
    attempts: nat,
    activeRun: Option<RunId>,
    nextAt: Option<nat>,
    generation: nat,
    updatedAt: nat)

  /** A durable answer is keyed by ticket and generation, as its idempotency key is. */
  datatype AnswerKey = AnswerKey(ticket: TicketId, generation: nat)
  datatype Answer = Answer(id: nat, owner: Key, text: string, delivered: bool)

  /** What a launched recovery worker remembers; it never rereads it. */
  datatype Worker = Worker(ticket: TicketId, owner: Key, generation: nat, run: RunId)

  datatype Db = Db(
    sessions: map<Key, Session>,
    tickets: map<TicketId, Ticket>,
    recovery: map<TicketId, Row>,
    answers: map<AnswerKey, Answer>,
    nextEvent: nat,
    nextAnswer: nat)

  const EMPTY_DB := Db(map[], map[], map[], map[], 1, 1)

  // ---------------------------------------------------------------- shared conditions

  predicate ActiveAt(db: Db, key: Key, generation: nat) {
    key in db.sessions && db.sessions[key].state == Active && db.sessions[key].generation == generation
  }

  /** The ticket is accepted and still on the direct lane. */
  predicate Direct(db: Db, t: TicketId) {
    && t in db.tickets
    && db.tickets[t].status == Accepted
    && !db.tickets[t].eligible
    && db.tickets[t].workflow.None?
  }

  /** The join every recovery step makes: direct ticket, recovery row, active owner of that generation. */
  predicate Authorised(db: Db, t: TicketId, generation: nat) {
    && Direct(db, t)
    && t in db.recovery
    && ActiveAt(db, db.tickets[t].owner, generation)
    && db.recovery[t].generation == generation
  }

  /** claimIdentity with the worker's own run id. */
  predicate HoldsClaim(db: Db, w: Worker) {
    && Authorised(db, w.ticket, w.generation)
    && db.recovery[w.ticket].state == Claimed
    && db.recovery[w.ticket].activeRun == Some(w.run)
  }

  function EnsureSession(db: Db, key: Key): Db {
    if key in db.sessions then db else db.(sessions := db.sessions[key := Session(Active, 0, None)])
  }

  // ---------------------------------------------------------------- sessions

  function Reactivate(db: Db, key: Key, id: string): Db {
    if key == "" || id == "" then db
    else if key !in db.sessions then db.(sessions := db.sessions[key := Session(Active, 0, Some(id))])
    else
      var s := db.sessions[key];
      if s.state == Active && s.sessionId.None? then
        db.(sessions := db.sessions[key := s.(sessionId := Some(id))])
      else if s.state == Deleted && s.sessionId != Some(id) then
        db.(sessions := db.sessions[key := s.(state := Active, sessionId := Some(id))])
      else db
  }

  function CancelTicket(t: Ticket): Ticket {
    if Terminal(t.status) then t else t.(status := Cancelled, readyAt := None)
  }

  function WithdrawRow(r: Row, now: nat): Row {
    if r.state == Withdrawn then r else r.(state := Withdrawn, activeRun := None, nextAt := None, updatedAt := now)
  }

  predicate OwnedBy(tickets: map<TicketId, Ticket>, t: TicketId, key: Key) {
    t in tickets && tickets[t].owner == key
  }

  function CancelOwned(tickets: map<TicketId, Ticket>, key: Key): map<TicketId, Ticket> {
    map t | t in tickets :: if tickets[t].owner == key then CancelTicket(tickets[t]) else tickets[t]
  }

  function WithdrawOwned(rows: map<TicketId, Row>, tickets: map<TicketId, Ticket>, key: Key, now: nat): map<TicketId, Row> {
    map t | t in rows :: if OwnedBy(tickets, t, key) then WithdrawRow(rows[t], now) else rows[t]
  }

  /** cancelSessionByKey, resetSessionByKey and deleteSessionByKey: the generation always advances. */
  function Revoke(db: Db, key: Key, deleting: bool, id: Option<string>, now: nat): Db {
    var prior := EnsureSession(db, key).sessions[key];
    var session := Session(
                     if deleting then Deleting else Active,
                     prior.generation + 1,
                     if id.Some? then id else prior.sessionId);
    db.(sessions := db.sessions[key := session],
        tickets := CancelOwned(db.tickets, key),
        recovery := WithdrawOwned(db.recovery, db.tickets, key, now))
  }

  function FinalizeDeletion(db: Db, key: Key): Db {
    if key in db.sessions then db.(sessions := db.sessions[key := db.sessions[key].(state := Deleted)]) else db
  }

  // ---------------------------------------------------------------- tickets

  predicate RequestTaken(db: Db, request: Request) {
    exists u :: u in db.tickets && db.tickets[u].request == request
  }

  /** The insert of accept; the session check before it is a separate transaction. */
  function Accept(db: Db, t: TicketId, owner: Key, runId: string): Db {
    if t in db.tickets || RequestTaken(db, Request(owner, runId)) then db
    else
      var created := Ticket(Request(owner, runId), owner, Accepted, false, None, None, None, false, db.nextEvent);
      EnsureSession(db, owner).(tickets := db.tickets[t := created], nextEvent := db.nextEvent + 1)
  }

  /** rebindSessionOwner. */
  function Rebind(db: Db, source: Key, target: Key): Db {
    if source == "" || target == "" || source == target then db
    else
      db.(tickets := map t | t in db.tickets ::
              if db.tickets[t].owner == source && !Terminal(db.tickets[t].status)
              then db.tickets[t].(owner := target) else db.tickets[t])
  }

  /** What any statement of the base ticket store may make of a ticket row. */
  predicate StoreWrite(before: Ticket, after: Ticket) {
    && !Terminal(before.status)
    && after.owner == before.owner && after.request == before.request && after.sequence == before.sequence
    && (after.status == Accepted ==> before.status == Accepted)
    && (after.workflow != before.workflow ==> before.status == after.status == Running)
  }

  /** The lane trigger: an update that would promote a ticket holding a recovery row is dropped whole. */
  predicate LaneVeto(before: Ticket, after: Ticket, hasRecovery: bool) {
    !before.eligible && hasRecovery && (after.eligible || after.workflow.Some?)
  }

  function LegacyWrite(db: Db, t: TicketId, after: Ticket): Db {
    if t !in db.tickets || !StoreWrite(db.tickets[t], after) || LaneVeto(db.tickets[t], after, t in db.recovery) then db
    else db.(tickets := db.tickets[t := after])
  }

  // ---------------------------------------------------------------- queueing

  function Requeued(prior: Option<Row>, generation: nat, now: nat): Row {
    match prior
    case None => Row(Pending, 0, None, Some(now), generation, now)
    case Some(r) => r.(state := Pending, activeRun := None, nextAt := Some(now), generation := generation, updatedAt := now)
  }

  function RowOf(db: Db, t: TicketId): Option<Row> {
    if t in db.recovery then Some(db.recovery[t]) else None
  }

  /** queueRecovery and, when it queued, the ticket update after it. An inactive owner session queues nothing. */
  function Queue(db: Db, t: TicketId, after: Ticket, now: nat): Db {
    var owner := after.owner;
    var e := EnsureSession(db, owner);
    if e.sessions[owner].state != Active then e
    else
      e.(recovery := db.recovery[t := Requeued(RowOf(db, t), e.sessions[owner].generation, now)],
         tickets := db.tickets[t := after])
  }

  /** markDirectRecovery for the accepted direct ticket its run names. */
  function MarkRecovery(db: Db, t: TicketId, now: nat): Db {
    if t !in db.tickets || db.tickets[t].status != Accepted || db.tickets[t].eligible then db
    else Queue(db, t, db.tickets[t].(interrupted := true, readyAt := None, confirmedAt := None), now)
  }

  /** markSession, for the session's newest unanswered direct ticket. */
  function MarkSession(db: Db, t: TicketId, now: nat): Db {
    if t !in db.tickets || db.tickets[t].status != Accepted || db.tickets[t].eligible || db.tickets[t].readyAt.Some? then db
    else Queue(db, t, db.tickets[t].(interrupted := true), now)
  }

  /** `older` is an active recovery of the same session and generation accepted before `t`. */
  predicate Precedes(db: Db, older: TicketId, t: TicketId, generation: nat) {
    && t in db.tickets
    && older != t
    && ActiveRecovery(db, older, db.tickets[t].owner, generation)
    && db.tickets[older].sequence < db.tickets[t].sequence
  }

  predicate ActiveRecovery(db: Db, t: TicketId, owner: Key, generation: nat) {
    && Direct(db, t)
    && db.tickets[t].owner == owner
    && t in db.recovery
    && db.recovery[t].generation == generation
    && db.recovery[t].state != Withdrawn
  }

  predicate HasPredecessor(db: Db, t: TicketId, generation: nat) {
    exists older :: older in db.tickets && Precedes(db, older, t, generation)
  }

  function Serialized(prior: Option<Row>, generation: nat, now: nat): Row {
    match prior
    case None => Row(Pending, 0, None, Some(now), generation, now)
    case Some(r) =>
      if r.state == Claimed || r.state == AwaitingDelivery
      then r.(activeRun := if r.state == Claimed then r.activeRun else None, generation := generation, updatedAt := now)
      else r.(state := Pending, activeRun := None, nextAt := Some(now), generation := generation, updatedAt := now)
  }

  function QueueBehindOlder(db: Db, t: TicketId, now: nat): Db {
    if !Direct(db, t) then db
    else
      var owner := db.tickets[t].owner;
      if owner !in db.sessions || db.sessions[owner].state != Active then db
      else
        var generation := db.sessions[owner].generation;
        if !HasPredecessor(db, t, generation) then db
        else
          db.(recovery := db.recovery[t := Serialized(RowOf(db, t), generation, now)],
              tickets := db.tickets[t := db.tickets[t].(interrupted := true, readyAt := None, confirmedAt := None)])
  }

  // ---------------------------------------------------------------- workers

  /** dueDirectRecovery without its liveness and model-call fences, which only narrow it. */
  predicate Due(db: Db, t: TicketId, now: nat) {
    && t in db.recovery
    && db.recovery[t].state == Pending
    && Authorised(db, t, db.recovery[t].generation)
    && (db.recovery[t].nextAt.None? || db.recovery[t].nextAt.value <= now)
  }

  /** The snapshot a launch works from, with the run id it prints. */
  function Snapshot(db: Db, t: TicketId): Worker
    requires t in db.recovery && t in db.tickets
  {
    var r := db.recovery[t];
    Worker(t, db.tickets[t].owner, r.generation, RunId(t, r.attempts + 1, r.generation))
  }

  predicate Claimable(db: Db, w: Worker) {
    Authorised(db, w.ticket, w.generation) && db.recovery[w.ticket].state == Pending
  }

  function Claim(db: Db, w: Worker, now: nat): Db {
    if !Claimable(db, w) then db
    else
      var r := db.recovery[w.ticket];
      db.(recovery := db.recovery[w.ticket :=
              r.(state := Claimed, attempts := r.attempts + 1, activeRun := Some(w.run), nextAt := None, updatedAt := now)])
  }

  function BackoffMs(attempts: nat): nat {
    if attempts <= 1 then 5_000
    else if attempts == 2 then 15_000
    else if attempts == 3 then 30_000
    else if attempts == 4 then 60_000
    else if attempts == 5 then 120_000
    else 300_000
  }

  function Retry(db: Db, w: Worker, now: nat): Db {
    if !HoldsClaim(db, w) then db
    else
      var r := db.recovery[w.ticket];
      db.(recovery := db.recovery[w.ticket :=
              r.(state := Pending, activeRun := None, nextAt := Some(now + BackoffMs(r.attempts)), updatedAt := now)],
          tickets := db.tickets[w.ticket := db.tickets[w.ticket].(interrupted := true)])
  }

  function FirstReady(t: Ticket, now: nat): Ticket {
    if t.readyAt.Some? then t else t.(readyAt := Some(now))
  }

  /** Insert an answer unless the key already holds one. */
  function Stored(db: Db, key: AnswerKey, owner: Key, text: string): Db {
    if key in db.answers then db
    else db.(answers := db.answers[key := Answer(db.nextAnswer, owner, text, false)], nextAnswer := db.nextAnswer + 1)
  }

  /** markResponseReady. A different text under the key makes the transaction throw and roll back. */
  function CommitResponse(db: Db, w: Worker, text: string, now: nat): Db {
    var key := AnswerKey(w.ticket, w.generation);
    if !HoldsClaim(db, w) || (key in db.answers && db.answers[key].text != text) then db
    else
      var stored := Stored(db, key, w.owner, text);
      stored.(tickets := stored.tickets[w.ticket := FirstReady(stored.tickets[w.ticket], now)],
              recovery := stored.recovery[w.ticket :=
                  stored.recovery[w.ticket].(state := AwaitingDelivery, activeRun := None, nextAt := None, updatedAt := now)])
  }

  /** The WHERE clause of touchDirectRecoveryClaim: unlike the others it asks about the session the worker remembers. */
  predicate TouchesClaim(db: Db, w: Worker) {
    && w.ticket in db.recovery
    && db.recovery[w.ticket].state == Claimed
    && db.recovery[w.ticket].activeRun == Some(w.run)
    && db.recovery[w.ticket].generation == w.generation
    && ActiveAt(db, w.owner, w.generation)
  }

  function Touch(db: Db, w: Worker, now: nat): Db {
    if TouchesClaim(db, w)
    then db.(recovery := db.recovery[w.ticket := db.recovery[w.ticket].(updatedAt := now)])
    else db
  }

  // ---------------------------------------------------------------- resets

  predicate Stale(db: Db, t: TicketId, now: nat, staleMs: nat) {
    && t in db.recovery
    && db.recovery[t].state == Claimed
    && db.recovery[t].updatedAt + staleMs <= now
    && Authorised(db, t, db.recovery[t].generation)
  }

  function Reopened(r: Row, now: nat): Row {
    r.(state := Pending, activeRun := None, nextAt := Some(now), updatedAt := now)
  }

  function ResetStale(db: Db, now: nat, staleMs: nat): Db {
    db.(recovery := map t | t in db.recovery ::
            if Stale(db, t, now, staleMs) then Reopened(db.recovery[t], now) else db.recovery[t])
  }

  /** The last statement of prepareV090RecoveryState: claims that did not survive a restart. */
  function ResetAtStartup(db: Db, now: nat): Db {
    db.(recovery := map t | t in db.recovery ::
            if db.recovery[t].state == Claimed && t in db.tickets && ActiveAt(db, db.tickets[t].owner, db.recovery[t].generation)
            then Reopened(db.recovery[t], now) else db.recovery[t])
  }

  function WithdrawTerminal(db: Db, now: nat): Db {
    db.(recovery := map t | t in db.recovery ::
            if t in db.tickets && Terminal(db.tickets[t].status) then WithdrawRow(db.recovery[t], now) else db.recovery[t])
  }

  /** A failed direct ticket that startup recognises as a user abort of an older release. */
  function MigrateAbort(db: Db, t: TicketId, now: nat): Db {
    if t !in db.tickets || db.tickets[t].status != Failed || db.tickets[t].eligible || db.tickets[t].workflow.Some? then db
    else
      db.(tickets := db.tickets[t := db.tickets[t].(status := Cancelled)],
          recovery := if t in db.recovery
                      then db.recovery[t := db.recovery[t].(state := Withdrawn, activeRun := None, nextAt := None, updatedAt := now)]
                      else db.recovery)
  }

  /** An interrupted direct ticket promoted by an older release goes back to the direct lane. */
  function Reopen(db: Db, t: TicketId, now: nat): Db {
    if t !in db.tickets || db.tickets[t].status !in {Waiting, Failed} || db.tickets[t].workflow.Some?
       || !db.tickets[t].eligible || !db.tickets[t].interrupted then db
    else Queue(db, t, db.tickets[t].(status := Accepted, eligible := false, readyAt := None, confirmedAt := None), now)
  }

  // ---------------------------------------------------------------- answers

  /** stageDashboardDirectResult on the ticket its run names. */
  function Stage(db: Db, t: TicketId, text: string, now: nat): Db {
    if !Direct(db, t) then db
    else
      var owner := db.tickets[t].owner;
      if owner !in db.sessions || db.sessions[owner].state != Active then db
      else
        var key := AnswerKey(t, db.sessions[owner].generation);
        if key in db.answers && db.answers[key].text != text then db
        else
          var stored := Stored(db, key, owner, text);
          stored.(tickets := stored.tickets[t := FirstReady(stored.tickets[t], now)])
  }

  predicate PendingAnswer(db: Db, key: AnswerKey) {
    key in db.answers && !db.answers[key].delivered
  }

  /** The pending answer of a ticket that was inserted last. */
  predicate LatestPending(db: Db, key: AnswerKey) {
    && PendingAnswer(db, key)
    && forall other :: other in db.answers && other.ticket == key.ticket && PendingAnswer(db, other) ==>
        db.answers[other].id <= db.answers[key].id
  }

  /** settleDashboardNativeDelivery, for the row its query selects. */
  function Settle(db: Db, key: AnswerKey, now: nat): Db {
    if !Direct(db, key.ticket) || db.tickets[key.ticket].readyAt.None? || !LatestPending(db, key) then db
    else
      db.(tickets := db.tickets[key.ticket := db.tickets[key.ticket].(status := Completed, confirmedAt := Some(now), interrupted := false)],
          answers := db.answers[key := db.answers[key].(delivered := true)])
  }

  predicate HasAnswer(db: Db, t: TicketId) {
    exists key :: key in db.answers && key.ticket == t
  }

  predicate Overdue(db: Db, t: TicketId, cutoff: nat) {
    && t in db.tickets
    && db.tickets[t].status == Accepted && !db.tickets[t].eligible
    && db.tickets[t].readyAt.Some? && db.tickets[t].confirmedAt.None?
    && db.tickets[t].readyAt.value <= cutoff
  }

  /** One overdue row of the deadline sweep: a durable answer settles it, otherwise inference is queued again. */
  function SweepOne(db: Db, t: TicketId, cutoff: nat, now: nat): Db {
    if !Overdue(db, t, cutoff) || HasAnswer(db, t) then db
    else Queue(db, t, db.tickets[t].(interrupted := true, readyAt := None), now)
  }

  function WithoutPending(answers: map<AnswerKey, Answer>, t: TicketId): map<AnswerKey, Answer> {
    map key | key in answers && !(key.ticket == t && !answers[key].delivered) :: answers[key]
  }

  /** disposeDirectRecoveryTicket; a failed fence throws and changes nothing. */
  function Dispose(db: Db, t: TicketId, owner: Key, generation: nat, now: nat): Db {
    if t !in db.tickets || t !in db.recovery || db.tickets[t].owner != owner
       || owner !in db.sessions || db.sessions[owner].generation != generation then db
    else if db.recovery[t].state == Withdrawn && db.tickets[t].status == Cancelled then db
    else
      db.(tickets := db.tickets[t := CancelTicket(db.tickets[t])],
          recovery := if db.recovery[t].generation == generation
                      then db.recovery[t := WithdrawRow(db.recovery[t], now)] else db.recovery,
          answers := WithoutPending(db.answers, t))
  }

  // ---------------------------------------------------------------- the system

  /** The tables and every worker ever launched; a worker may act again at any later time. */
  datatype World = World(db: Db, workers: seq<Worker>)

  const START := World(EMPTY_DB, [])

  datatype Step =
    | SessionSeen(key: Key)
    | LifecycleStart(key: Key, id: string)
    | SessionRevoked(key: Key, deleting: bool, sessionId: Option<string>, now: nat)
    | DeletionFinalized(key: Key)
    | TicketAccepted(ticket: TicketId, key: Key, runId: string)
    | OwnerRebound(source: Key, target: Key)
    | StoreWrites(ticket: TicketId, after: Ticket)
    | RunInterrupted(ticket: TicketId, now: nat)
    | SessionCompacted(ticket: TicketId, now: nat)
    | RunSerialized(ticket: TicketId, now: nat)
    | Launch(ticket: TicketId, now: nat)
    | WorkerCommits(index: nat, text: string, now: nat)
    | WorkerRetries(index: nat, now: nat)
    | WorkerTouches(index: nat, now: nat)
    | StaleReset(now: nat, staleMs: nat)
    | StartupReset(now: nat)
    | StartupWithdraw(now: nat)
    | StartupMigrate(ticket: TicketId, now: nat)
    | StartupReopen(ticket: TicketId, now: nat)
    | AnswerStaged(ticket: TicketId, text: string, now: nat)
    | AnswerSettled(answer: AnswerKey, now: nat)
    | DeadlineSwept(ticket: TicketId, cutoff: nat, now: nat)
    | TicketDisposed(ticket: TicketId, key: Key, generation: nat, now: nat)

  function NextDb(db: Db, workers: seq<Worker>, step: Step): Db {
    match step
    case SessionSeen(key) => EnsureSession(db, key)
    case LifecycleStart(key, id) => Reactivate(db, key, id)
    case SessionRevoked(key, deleting, id, now) => Revoke(db, key, deleting, id, now)
    case DeletionFinalized(key) => FinalizeDeletion(db, key)
    case TicketAccepted(t, key, runId) => Accept(db, t, key, runId)
    case OwnerRebound(source, target) => Rebind(db, source, target)
    case StoreWrites(t, after) => LegacyWrite(db, t, after)
    case RunInterrupted(t, now) => MarkRecovery(db, t, now)
    case SessionCompacted(t, now) => MarkSession(db, t, now)
    case RunSerialized(t, now) => QueueBehindOlder(db, t, now)
    case Launch(t, now) => if Due(db, t, now) then Claim(db, Snapshot(db, t), now) else db
    case WorkerCommits(i, text, now) => if i < |workers| then CommitResponse(db, workers[i], text, now) else db
    case WorkerRetries(i, now) => if i < |workers| then Retry(db, workers[i], now) else db
    case WorkerTouches(i, now) => if i < |workers| then Touch(db, workers[i], now) else db
    case StaleReset(now, staleMs) => ResetStale(db, now, staleMs)
    case StartupReset(now) => ResetAtStartup(db, now)
    case StartupWithdraw(now) => WithdrawTerminal(db, now)
    case StartupMigrate(t, now) => MigrateAbort(db, t, now)
    case StartupReopen(t, now) => Reopen(db, t, now)
    case AnswerStaged(t, text, now) => Stage(db, t, text, now)
    case AnswerSettled(key, now) => Settle(db, key, now)
    case DeadlineSwept(t, cutoff, now) => SweepOne(db, t, cutoff, now)
    case TicketDisposed(t, key, generation, now) => Dispose(db, t, key, generation, now)
  }

  /** The due read and the claim run without a pause between them, in the one worker process. */
  function Next(w: World, step: Step): World {
    World(NextDb(w.db, w.workers, step),
          if step.Launch? && Due(w.db, step.ticket, step.now) then w.workers + [Snapshot(w.db, step.ticket)] else w.workers)
  }

  /** A run: the steps taken and the worlds before, between and after them. */
  datatype Run = Run(worlds: seq<World>, steps: seq<Step>)

  predicate Linked(r: Run, i: nat)
    requires i < |r.steps| < |r.worlds|
  {
    r.worlds[i + 1] == Next(r.worlds[i], r.steps[i])
  }

  /** Runs start from empty tables with no worker; any list of steps may follow. */
  ghost predicate Legal(r: Run) {
    && |r.worlds| == |r.steps| + 1
    && r.worlds[0] == START
    && forall i {:trigger Linked(r, i)} :: 0 <= i < |r.steps| ==> Linked(r, i)
  }
}

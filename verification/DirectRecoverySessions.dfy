/**
 What the transactions of Direct Recovery write, column by column, and what a session that
 is being deleted, or is deleted, can no longer do.
 */
module DirectRecoverySessions {
  import opened Common
  import opened DirectRecovery
  import opened DirectRecoveryProofs
  import opened DirectRecoverySafety
  import opened TicketStatus

  // ---------------------------------------------------------------- revocations

  /** Cancel, reset and delete leave the session at the next generation: active, or being deleted. */
  lemma RevokedSession(w: World, key: Key, deleting: bool, id: Option<string>, now: nat)
    ensures var db, after := w.db, Next(w, SessionRevoked(key, deleting, id, now)).db;
            && after.sessions == db.sessions[key := after.sessions[key]]
            && after.sessions[key].state == (if deleting then Deleting else Active)
            && after.sessions[key].generation == (if key in db.sessions then db.sessions[key].generation + 1 else 1)
            && after.sessions[key].sessionId == if id.Some? then id else if key in db.sessions then db.sessions[key].sessionId else None
  {
  }

  /** Its open tickets are cancelled, its recovery rows withdrawn; nothing else changes. */
  lemma RevokedTickets(w: World, key: Key, deleting: bool, id: Option<string>, now: nat)
    ensures var db, after := w.db, Next(w, SessionRevoked(key, deleting, id, now)).db;
            && after.tickets.Keys == db.tickets.Keys && after.recovery.Keys == db.recovery.Keys && after.answers == db.answers
            && (forall t :: t in db.tickets ==>
                  after.tickets[t] == if db.tickets[t].owner == key && !Terminal(db.tickets[t].status)
                                      then db.tickets[t].(status := Cancelled, readyAt := None) else db.tickets[t])
            && (forall t :: t in db.recovery ==>
                  after.recovery[t] == if OwnedBy(db.tickets, t, key) && db.recovery[t].state != Withdrawn
                                       then db.recovery[t].(state := Withdrawn, activeRun := None, nextAt := None, updatedAt := now)
                                       else db.recovery[t])
  {
  }

  // ---------------------------------------------------------------- sessions that are not active

  predicate NotActive(db: Db, key: Key) {
    key in db.sessions && db.sessions[key].state != Active
  }

  /**
   Nothing happens any more to a ticket of the session: it is not due, nobody holds its claim,
   commits, retries or claims it, and neither an interruption, a compaction, an older recovery,
   the deadline sweep nor staging writes anything.
   */
  ghost predicate Fenced(db: Db, t: TicketId) {
    && (forall now: nat :: !Due(db, t, now))
    && (forall v: Worker :: v.ticket == t ==> !HoldsClaim(db, v))
    && (forall v: Worker, now: nat :: v.ticket == t ==> Claim(db, v, now) == db)
    && (forall v: Worker, now: nat :: v.ticket == t ==> Retry(db, v, now) == db)
    && (forall v: Worker, text: string, now: nat :: v.ticket == t ==> CommitResponse(db, v, text, now) == db)
    && (forall text: string, now: nat :: Stage(db, t, text, now) == db)
    && (forall now: nat :: MarkRecovery(db, t, now) == db && MarkSession(db, t, now) == db && QueueBehindOlder(db, t, now) == db)
    && (forall cutoff: nat, now: nat :: SweepOne(db, t, cutoff, now) == db)
    && (forall now: nat :: Reopen(db, t, now) == db)
  }

  lemma NotActiveFences(db: Db, t: TicketId, key: Key)
    requires NotActive(db, key) && OwnedBy(db.tickets, t, key)
    ensures Fenced(db, t)
  {
  }

  /** The steps that make a session active that is not: a revocation that does not delete, or another lifecycle once it is deleted. */
  predicate Revives(db: Db, step: Step, key: Key)
    requires key in db.sessions
  {
    match step
    case SessionRevoked(k, deleting, _, _) => k == key && !deleting
    case LifecycleStart(k, id) => k == key && key != "" && id != "" && db.sessions[key].state == Deleted && db.sessions[key].sessionId != Some(id)
    case _ => false
  }

  /** The row of the session is there and as it was. */
  predicate SameSession(db: Db, after: Db, key: Key)
    requires key in db.sessions
  {
    key in after.sessions && after.sessions[key] == db.sessions[key]
  }

  lemma QueueKeepsSession(db: Db, t: TicketId, after: Ticket, now: nat, key: Key)
    requires key in db.sessions
    ensures SameSession(db, Queue(db, t, after, now), key)
  {
  }

  lemma TicketStepKeepsSession(w: World, step: Step, key: Key)
    requires key in w.db.sessions && TicketStep(step)
    ensures SameSession(w.db, Next(w, step).db, key)
  {
    var db := w.db;
    match step
    case RunInterrupted(t, now) =>
      if MarkRecovery(db, t, now) != db {
        QueueKeepsSession(db, t, db.tickets[t].(interrupted := true, readyAt := None, confirmedAt := None), now, key);
      }
    case SessionCompacted(t, now) =>
      if MarkSession(db, t, now) != db {
        QueueKeepsSession(db, t, db.tickets[t].(interrupted := true), now, key);
      }
    case _ =>
  }

  lemma WorkerStepKeepsSession(w: World, step: Step, key: Key)
    requires key in w.db.sessions && WorkerStep(step)
    ensures SameSession(w.db, Next(w, step).db, key)
  {
  }

  lemma OtherStepKeepsSession(w: World, step: Step, key: Key)
    requires key in w.db.sessions && !SessionStep(step) && !TicketStep(step) && !WorkerStep(step)
    ensures SameSession(w.db, Next(w, step).db, key)
  {
    var db := w.db;
    match step
    case StartupReopen(t, now) =>
      if Reopen(db, t, now) != db {
        QueueKeepsSession(db, t, db.tickets[t].(status := Accepted, eligible := false, readyAt := None, confirmedAt := None), now, key);
      }
    case DeadlineSwept(t, cutoff, now) =>
      if SweepOne(db, t, cutoff, now) != db {
        QueueKeepsSession(db, t, db.tickets[t].(interrupted := true, readyAt := None), now, key);
      }
    case _ =>
  }

  /** A step outside the session steps leaves every session row as it is. */
  lemma SessionRowStays(w: World, step: Step, key: Key)
    requires key in w.db.sessions && !SessionStep(step)
    ensures SameSession(w.db, Next(w, step).db, key)
  {
    if TicketStep(step) {
      TicketStepKeepsSession(w, step, key);
    } else if WorkerStep(step) {
      WorkerStepKeepsSession(w, step, key);
    } else {
      OtherStepKeepsSession(w, step, key);
    }
  }

  /** A session that is not active becomes active exactly by such a step. */
  lemma RevivedIff(w: World, step: Step, key: Key)
    requires NotActive(w.db, key)
    ensures key in Next(w, step).db.sessions
    ensures Next(w, step).db.sessions[key].state == Active <==> Revives(w.db, step, key)
  {
    if !SessionStep(step) {
      SessionRowStays(w, step, key);
    }
  }

  /** A session being deleted accepts no lifecycle: it stays so exactly until it is revoked or its deletion is finalised. */
  lemma DeletingUntil(w: World, step: Step, key: Key)
    requires key in w.db.sessions && w.db.sessions[key].state == Deleting
    ensures key in Next(w, step).db.sessions
    ensures Next(w, step).db.sessions[key] != w.db.sessions[key] <==>
              (step.SessionRevoked? && step.key == key) || (step.DeletionFinalized? && step.key == key)
    ensures forall id: string :: Reactivate(w.db, key, id) == w.db
  {
    if !SessionStep(step) {
      SessionRowStays(w, step, key);
    }
  }

  predicate RevivesAt(r: Run, k: nat, key: Key)
    requires k < |r.steps| < |r.worlds|
  {
    key in r.worlds[k].db.sessions && Revives(r.worlds[k].db, r.steps[k], key)
  }

  /**
   From a deletion on, in every run, the session is not active and every ticket it owns is
   fenced, until a later revocation, or a new lifecycle after the deletion, revives it.
   */
  lemma {:induction false} DeletionFences(r: Run, i: nat, j: nat)
    requires Legal(r) && i < j <= |r.steps| && r.steps[i].SessionRevoked? && r.steps[i].deleting
    requires forall k :: i < k < j ==> !RevivesAt(r, k, r.steps[i].key)
    ensures NotActive(r.worlds[j].db, r.steps[i].key)
    ensures forall t :: OwnedBy(r.worlds[j].db.tickets, t, r.steps[i].key) ==> Fenced(r.worlds[j].db, t)
  {
    var key := r.steps[i].key;
    assert Linked(r, j - 1);
    if i < j - 1 {
      DeletionFences(r, i, j - 1);
      RevivedIff(r.worlds[j - 1], r.steps[j - 1], key);
      assert !RevivesAt(r, j - 1, key);
    } else {
      RevokedSession(r.worlds[i], key, true, r.steps[i].sessionId, r.steps[i].now);
    }
    forall t | OwnedBy(r.worlds[j].db.tickets, t, key) ensures Fenced(r.worlds[j].db, t) {
      NotActiveFences(r.worlds[j].db, t, key);
    }
  }

  // ---------------------------------------------------------------- tickets

  /** A new ticket is on the direct lane of its session, unanswered; a known request or id changes nothing. */
  lemma AcceptedTicket(w: World, t: TicketId, owner: Key, runId: string)
    ensures var db, after := w.db, Next(w, TicketAccepted(t, owner, runId)).db;
            if t in db.tickets || exists u :: u in db.tickets && db.tickets[u].request == Request(owner, runId) then after == db
            else
              && after.tickets == db.tickets[t :=
                     Ticket(Request(owner, runId), owner, Accepted, false, None, None, None, false, db.nextEvent)]
              && after.nextEvent == db.nextEvent + 1 && after.recovery == db.recovery && after.answers == db.answers
              && after.sessions == if owner in db.sessions then db.sessions else db.sessions[owner := Session(Active, 0, None)]
  {
  }

  /** A handover moves the open tickets of one session to another, and nothing but their owner. */
  lemma ReboundTickets(w: World, source: Key, target: Key)
    ensures var db, after := w.db, Next(w, OwnerRebound(source, target)).db;
            && after == db.(tickets := after.tickets) && after.tickets.Keys == db.tickets.Keys
            && forall t :: t in db.tickets ==>
                 after.tickets[t] == if source != "" && target != "" && db.tickets[t].owner == source && !Terminal(db.tickets[t].status)
                                     then db.tickets[t].(owner := target) else db.tickets[t]
  {
  }

  /** A compaction queues inference for an unanswered direct ticket of an active session, keeping its attempts. */
  lemma CompactedTicket(w: World, t: TicketId, now: nat)
    requires t in w.db.tickets && w.db.tickets[t].owner in w.db.sessions
    ensures var db, after := w.db, Next(w, SessionCompacted(t, now)).db;
            var x, s := db.tickets[t], db.sessions[db.tickets[t].owner];
            if x.status == Accepted && !x.eligible && x.readyAt.None? && s.state == Active then
              && after.tickets == db.tickets[t := x.(interrupted := true)]
              && after.recovery == db.recovery[t := Row(Pending, if t in db.recovery then db.recovery[t].attempts else 0, None, Some(now), s.generation, now)]
            else after == db
  {
  }

  // ---------------------------------------------------------------- workers

  /** A row is due exactly when it is pending, its time has come and its owner is active at its generation. */
  lemma DueIff(db: Db, t: TicketId, now: nat)
    ensures Due(db, t, now) <==>
              && t in db.recovery && t in db.tickets
              && var r, x := db.recovery[t], db.tickets[t];
              && r.state == Pending && (r.nextAt.Some? ==> r.nextAt.value <= now)
              && x.status == Accepted && !x.eligible && x.workflow.None?
              && x.owner in db.sessions && db.sessions[x.owner].state == Active && db.sessions[x.owner].generation == r.generation
  {
  }

  /** A recovery waits exactly behind an open one of the same session and generation whose ticket was accepted earlier. */
  lemma WaitsBehind(db: Db, t: TicketId, generation: nat)
    requires t in db.tickets
    ensures HasPredecessor(db, t, generation) <==>
              exists u ::
                && u in db.tickets && u in db.recovery && u != t
                && db.tickets[u].owner == db.tickets[t].owner && db.tickets[u].sequence < db.tickets[t].sequence
                && db.tickets[u].status == Accepted && !db.tickets[u].eligible && db.tickets[u].workflow.None?
                && db.recovery[u].generation == generation && db.recovery[u].state in {Pending, Claimed, AwaitingDelivery}
  {
    if HasPredecessor(db, t, generation) {
      var u :| u in db.tickets && Precedes(db, u, t, generation);
      assert u in db.recovery && db.recovery[u].state in {Pending, Claimed, AwaitingDelivery};
    }
    if exists u ::
         && u in db.tickets && u in db.recovery && u != t
         && db.tickets[u].owner == db.tickets[t].owner && db.tickets[u].sequence < db.tickets[t].sequence
         && db.tickets[u].status == Accepted && !db.tickets[u].eligible && db.tickets[u].workflow.None?
         && db.recovery[u].generation == generation && db.recovery[u].state in {Pending, Claimed, AwaitingDelivery}
    {
      var u :|
        && u in db.tickets && u in db.recovery && u != t
        && db.tickets[u].owner == db.tickets[t].owner && db.tickets[u].sequence < db.tickets[t].sequence
        && db.tickets[u].status == Accepted && !db.tickets[u].eligible && db.tickets[u].workflow.None?
        && db.recovery[u].generation == generation && db.recovery[u].state in {Pending, Claimed, AwaitingDelivery};
      assert Precedes(db, u, t, generation);
    }
  }

  /** A launch takes one due row: its worker holds the claim, under the next attempt number and the present owner and generation. */
  lemma LaunchedWorker(w: World, t: TicketId, now: nat)
    requires Due(w.db, t, now)
    ensures var db, v := w.db, Next(w, Launch(t, now));
            var worker := Worker(t, db.tickets[t].owner, db.recovery[t].generation, RunId(t, db.recovery[t].attempts + 1, db.recovery[t].generation));
            && v.workers == w.workers + [worker] && HoldsClaim(v.db, worker)
            && v.db == db.(recovery := db.recovery[t :=
                   Row(Claimed, db.recovery[t].attempts + 1, Some(worker.run), None, db.recovery[t].generation, now)])
  {
  }

  /** After a failed attempt the row waits 5, 15, 30, 60, 120 and from the sixth on 300 seconds; then it is due. */
  lemma RetryWaits(db: Db, v: Worker, now: nat, at: nat)
    requires HoldsClaim(db, v)
    ensures var n, after := db.recovery[v.ticket].attempts, Retry(db, v, now);
            var seconds := [5, 5, 15, 30, 60, 120, 300][if n < 6 then n else 6];
            && after.recovery == db.recovery[v.ticket := Row(Pending, n, None, Some(now + 1000 * seconds), v.generation, now)]
            && after.tickets == db.tickets[v.ticket := db.tickets[v.ticket].(interrupted := true)]
            && (Due(after, v.ticket, at) <==> now + 1000 * seconds <= at)
  {
  }
}

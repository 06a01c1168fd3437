/** Safety of the Direct Recovery protocol over all runs. */
module DirectRecoveryProofs {
  import opened Common
  import opened DirectRecovery
  import opened TicketStatus

  // ---------------------------------------------------------------- invariants

  /** A ticket with a recovery row stays on the direct lane. */
  ghost predicate LaneLocked(db: Db) {
    forall t :: t in db.recovery ==> t in db.tickets && !db.tickets[t].eligible && db.tickets[t].workflow.None?
  }

  /** A row has an active run exactly while it is claimed, and that run carries the current attempt. */
  predicate RowCoherent(t: TicketId, r: Row) {
    && (r.state == Claimed <==> r.activeRun.Some?)
    && (r.activeRun.Some? ==> r.activeRun.value.ticket == t && r.activeRun.value.attempt == r.attempts)
  }

  ghost predicate RowsCoherent(db: Db) {
    forall t :: t in db.recovery ==> RowCoherent(t, db.recovery[t])
  }

  ghost predicate AcceptedUnlinked(db: Db) {
    forall t :: t in db.tickets && db.tickets[t].status == Accepted ==> db.tickets[t].workflow.None?
  }

  ghost predicate AnswersKnown(db: Db) {
    forall k :: k in db.answers ==> k.ticket in db.tickets
  }

  predicate WorkerKnown(db: Db, w: Worker) {
    && w.ticket in db.recovery
    && w.run.ticket == w.ticket
    && w.run.generation == w.generation
    && 1 <= w.run.attempt <= db.recovery[w.ticket].attempts
  }

  ghost predicate WorkersOrdered(workers: seq<Worker>) {
    forall i, j :: 0 <= i < j < |workers| && workers[i].ticket == workers[j].ticket ==>
      workers[i].run.attempt < workers[j].run.attempt
  }

  ghost predicate Good(db: Db) {
    LaneLocked(db) && RowsCoherent(db) && AcceptedUnlinked(db) && AnswersKnown(db)
  }

  ghost predicate Inv(w: World) {
    && Good(w.db)
    && (forall i :: 0 <= i < |w.workers| ==> WorkerKnown(w.db, w.workers[i]))
    && WorkersOrdered(w.workers)
  }

  // ---------------------------------------------------------------- what every transaction keeps

  /** `kept` says that the owner stays, which every transaction but a rebind guarantees. */
  predicate TicketEvolves(before: Ticket, after: Ticket, laned: bool, kept: bool) {
    && after.sequence == before.sequence && after.request == before.request
    && (kept ==> after.owner == before.owner)
    && (before.status in {Completed, Cancelled} ==> after.status == before.status)
    && (Terminal(before.status) && laned ==> Terminal(after.status))
    && (after.status == Accepted && laned ==> before.status == Accepted)
  }

  /** Attempts only grow, and a run becomes active only together with a new attempt. */
  predicate RowEvolves(before: Row, after: Row) {
    && before.attempts <= after.attempts
    && (after.activeRun.None? || after.activeRun == before.activeRun || before.attempts < after.activeRun.value.attempt)
  }

  ghost predicate SessionsEvolve(db: Db, after: Db) {
    forall k :: k in db.sessions ==> k in after.sessions && db.sessions[k].generation <= after.sessions[k].generation
  }

  ghost predicate TicketsEvolve(db: Db, after: Db, kept: bool) {
    forall t :: t in db.tickets ==>
      t in after.tickets && TicketEvolves(db.tickets[t], after.tickets[t], t in db.recovery, kept)
  }

  ghost predicate RowsEvolve(db: Db, after: Db) {
    forall t :: t in db.recovery ==> t in after.recovery && RowEvolves(db.recovery[t], after.recovery[t])
  }

  /** No answer text changes; answers appear only for accepted tickets and vanish only with a closed one. */
  ghost predicate AnswersEvolve(db: Db, after: Db) {
    && (forall k :: k in db.answers && k in after.answers ==> after.answers[k].text == db.answers[k].text)
    && (forall k :: k !in db.answers && k in after.answers ==>
          k.ticket in db.tickets && db.tickets[k.ticket].status == Accepted)
    && (forall k :: k in db.answers && k !in after.answers ==> Closed(after, k.ticket))
  }

  /** A finished ticket that holds a recovery row: nothing can bring it back. */
  predicate Closed(db: Db, t: TicketId) {
    t in db.tickets && t in db.recovery && Terminal(db.tickets[t].status)
  }

  ghost predicate Evolves(db: Db, after: Db, kept: bool) {
    Good(after) && SessionsEvolve(db, after) && TicketsEvolve(db, after, kept) && RowsEvolve(db, after) && AnswersEvolve(db, after)
  }

  // One lemma per transaction: it keeps the invariants and is an evolution.

  /** A transaction that touches only session rows. */
  lemma SessionsOnlyEvolves(db: Db, after: Db)
    requires Good(db)
    requires after == db.(sessions := after.sessions) && SessionsEvolve(db, after)
    ensures Evolves(db, after, true)
  {
  }

  /** A transaction that touches, besides sessions, one ticket and its recovery row. */
  lemma LocalEvolves(db: Db, after: Db, t: TicketId, x: Ticket, r: Option<Row>)
    requires Good(db) && t in db.tickets
    requires SessionsEvolve(db, after) && AnswersEvolve(db, after) && AnswersKnown(after)
    requires after.tickets == db.tickets[t := x]
    requires after.recovery == if r.Some? then db.recovery[t := r.value] else db.recovery
    requires TicketEvolves(db.tickets[t], x, t in db.recovery, true)
    requires x.status == Accepted ==> x.workflow.None?
    requires t in after.recovery ==> !x.eligible && x.workflow.None?
    requires r.Some? ==> RowCoherent(t, r.value) && (t in db.recovery ==> RowEvolves(db.recovery[t], r.value))
    ensures Evolves(db, after, true)
  {
    forall u | u in db.recovery
      ensures u in after.recovery && RowEvolves(db.recovery[u], after.recovery[u])
    {
    }
  }

  lemma QueueEvolves(db: Db, t: TicketId, x: Ticket, now: nat)
    requires Good(db) && t in db.tickets
    requires TicketEvolves(db.tickets[t], x, t in db.recovery, true)
    requires !x.eligible && x.workflow.None?
    ensures Evolves(db, Queue(db, t, x, now), true)
  {
    var after := Queue(db, t, x, now);
    if after.tickets == db.tickets && after.recovery == db.recovery {
      SessionsOnlyEvolves(db, after);
    } else {
      LocalEvolves(db, after, t, x, Some(after.recovery[t]));
    }
  }

  /** The same transaction with an answer stored on top. */
  lemma StoredEvolves(db: Db, middle: Db, after: Db, key: AnswerKey, owner: Key, text: string)
    requires Evolves(db, middle, true) && middle.answers == db.answers && middle.nextAnswer == db.nextAnswer
    requires after == Stored(middle, key, owner, text)
    requires key.ticket in db.tickets && db.tickets[key.ticket].status == Accepted
    ensures Evolves(db, after, true)
  {
  }

  lemma SameEvolves(db: Db)
    requires Good(db)
    ensures Evolves(db, db, true)
  {
  }

  lemma EnsureSessionEvolves(db: Db, key: Key)
    requires Good(db)
    ensures Evolves(db, EnsureSession(db, key), true)
  {
  }

  lemma ReactivateEvolves(db: Db, key: Key, id: string)
    requires Good(db)
    ensures Evolves(db, Reactivate(db, key, id), true)
  {
    SessionsOnlyEvolves(db, Reactivate(db, key, id));
  }

  lemma RevokeEvolves(db: Db, key: Key, deleting: bool, id: Option<string>, now: nat)
    requires Good(db)
    ensures Evolves(db, Revoke(db, key, deleting, id, now), true)
  {
  }

  lemma FinalizeEvolves(db: Db, key: Key)
    requires Good(db)
    ensures Evolves(db, FinalizeDeletion(db, key), true)
  {
  }

  lemma AcceptEvolves(db: Db, t: TicketId, owner: Key, runId: string)
    requires Good(db)
    ensures Evolves(db, Accept(db, t, owner, runId), true)
  {
    var after := Accept(db, t, owner, runId);
    var seen := EnsureSession(db, owner);
    if after != db {
      SessionsOnlyEvolves(db, seen);
      assert after.recovery == db.recovery && after.answers == db.answers && t !in db.tickets;
    }
  }

  lemma RebindEvolves(db: Db, source: Key, target: Key)
    requires Good(db)
    ensures Evolves(db, Rebind(db, source, target), false)
  {
  }

  lemma LegacyWriteEvolves(db: Db, t: TicketId, written: Ticket)
    requires Good(db)
    ensures Evolves(db, LegacyWrite(db, t, written), true)
  {
    var after := LegacyWrite(db, t, written);
    if after != db {
      LocalEvolves(db, after, t, after.tickets[t], None);
    }
  }

  lemma MarkRecoveryEvolves(db: Db, t: TicketId, now: nat)
    requires Good(db)
    ensures Evolves(db, MarkRecovery(db, t, now), true)
  {
    if MarkRecovery(db, t, now) != db {
      QueueEvolves(db, t, db.tickets[t].(interrupted := true, readyAt := None, confirmedAt := None), now);
    }
  }

  lemma MarkSessionEvolves(db: Db, t: TicketId, now: nat)
    requires Good(db)
    ensures Evolves(db, MarkSession(db, t, now), true)
  {
    if MarkSession(db, t, now) != db {
      QueueEvolves(db, t, db.tickets[t].(interrupted := true), now);
    }
  }

  lemma SerializeEvolves(db: Db, t: TicketId, now: nat)
    requires Good(db)
    ensures Evolves(db, QueueBehindOlder(db, t, now), true)
  {
    var after := QueueBehindOlder(db, t, now);
    if after != db {
      LocalEvolves(db, after, t, after.tickets[t], Some(after.recovery[t]));
    }
  }

  lemma ClaimEvolves(db: Db, w: Worker, now: nat)
    requires Good(db)
    requires w.ticket in db.recovery && w.run.ticket == w.ticket && w.run.attempt == db.recovery[w.ticket].attempts + 1
    ensures Evolves(db, Claim(db, w, now), true)
  {
  }

  lemma RetryEvolves(db: Db, w: Worker, now: nat)
    requires Good(db)
    ensures Evolves(db, Retry(db, w, now), true)
  {
    var after := Retry(db, w, now);
    if after != db {
      LocalEvolves(db, after, w.ticket, after.tickets[w.ticket], Some(after.recovery[w.ticket]));
    }
  }

  lemma CommitEvolves(db: Db, w: Worker, text: string, now: nat)
    requires Good(db)
    ensures Evolves(db, CommitResponse(db, w, text, now), true)
  {
    var after := CommitResponse(db, w, text, now);
    var key := AnswerKey(w.ticket, w.generation);
    if after != db {
      var middle := db.(tickets := after.tickets, recovery := after.recovery);
      LocalEvolves(db, middle, w.ticket, after.tickets[w.ticket], Some(after.recovery[w.ticket]));
      StoredEvolves(db, middle, after, key, w.owner, text);
    }
  }

  lemma TouchEvolves(db: Db, w: Worker, now: nat)
    requires Good(db)
    ensures Evolves(db, Touch(db, w, now), true)
  {
  }

  lemma ResetStaleEvolves(db: Db, now: nat, staleMs: nat)
    requires Good(db)
    ensures Evolves(db, ResetStale(db, now, staleMs), true)
  {
  }

  lemma ResetAtStartupEvolves(db: Db, now: nat)
    requires Good(db)
    ensures Evolves(db, ResetAtStartup(db, now), true)
  {
  }

  lemma WithdrawTerminalEvolves(db: Db, now: nat)
    requires Good(db)
    ensures Evolves(db, WithdrawTerminal(db, now), true)
  {
  }

  lemma MigrateEvolves(db: Db, t: TicketId, now: nat)
    requires Good(db)
    ensures Evolves(db, MigrateAbort(db, t, now), true)
  {
    var after := MigrateAbort(db, t, now);
    if after != db {
      LocalEvolves(db, after, t, after.tickets[t], RowOf(after, t));
    }
  }

  lemma ReopenEvolves(db: Db, t: TicketId, now: nat)
    requires Good(db)
    ensures Evolves(db, Reopen(db, t, now), true)
  {
    if Reopen(db, t, now) != db {
      QueueEvolves(db, t, db.tickets[t].(status := Accepted, eligible := false, readyAt := None, confirmedAt := None), now);
    }
  }

  lemma StageEvolves(db: Db, t: TicketId, text: string, now: nat)
    requires Good(db)
    ensures Evolves(db, Stage(db, t, text, now), true)
  {
    var after := Stage(db, t, text, now);
    if after != db {
      var middle := db.(tickets := after.tickets);
      LocalEvolves(db, middle, t, after.tickets[t], None);
      var owner := db.tickets[t].owner;
      StoredEvolves(db, middle, after, AnswerKey(t, db.sessions[owner].generation), owner, text);
    }
  }

  lemma SettleEvolves(db: Db, key: AnswerKey, now: nat)
    requires Good(db)
    ensures Evolves(db, Settle(db, key, now), true)
  {
    var after := Settle(db, key, now);
    if after != db {
      LocalEvolves(db, after, key.ticket, after.tickets[key.ticket], None);
    }
  }

  lemma SweepEvolves(db: Db, t: TicketId, cutoff: nat, now: nat)
    requires Good(db)
    ensures Evolves(db, SweepOne(db, t, cutoff, now), true)
  {
    if SweepOne(db, t, cutoff, now) != db {
      QueueEvolves(db, t, db.tickets[t].(interrupted := true, readyAt := None), now);
    }
  }

  lemma DisposeEvolves(db: Db, t: TicketId, owner: Key, generation: nat, now: nat)
    requires Good(db)
    ensures Evolves(db, Dispose(db, t, owner, generation, now), true)
  {
    var after := Dispose(db, t, owner, generation, now);
    if after != db {
      LocalEvolves(db, after, t, after.tickets[t], RowOf(after, t));
    }
  }
}

/** Claim epochs, durable answers, lane ownership and recovery order, over all runs. */
module DirectRecoveryAnswers {
  import opened Common
  import opened DirectRecovery
  import opened DirectRecoveryProofs
  import opened DirectRecoverySafety
  import Tickets
  import opened TicketStatus

  // ---------------------------------------------------------------- claim epochs

  /** Run ids of all workers ever launched are pairwise distinct, and a claim carries the current attempt. */
  lemma ClaimEpochsUnique(r: Run, i: nat)
    requires Legal(r)
    requires i <= |r.steps|
    ensures var w := r.worlds[i];
            && (forall m, n :: 0 <= m < n < |w.workers| ==> w.workers[m].run != w.workers[n].run)
            && (forall t :: t in w.db.recovery && w.db.recovery[t].activeRun.Some? ==>
                  w.db.recovery[t].activeRun.value.attempt == w.db.recovery[t].attempts)
  {
    RunInv(r, i);
    var w := r.worlds[i];
    forall m, n | 0 <= m < n < |w.workers|
      ensures w.workers[m].run != w.workers[n].run
    {
      assert WorkerKnown(w.db, w.workers[m]) && WorkerKnown(w.db, w.workers[n]);
    }
    forall t | t in w.db.recovery && w.db.recovery[t].activeRun.Some?
      ensures w.db.recovery[t].activeRun.value.attempt == w.db.recovery[t].attempts
    {
      assert RowCoherent(t, w.db.recovery[t]);
    }
  }

  /** At most one worker at a time can commit or retry a ticket: the last one launched for it. */
  lemma ClaimHolderIsUnique(r: Run, i: nat, m: nat, n: nat)
    requires Legal(r)
    requires i <= |r.steps| && m < |r.worlds[i].workers| && n < |r.worlds[i].workers|
    requires HoldsClaim(r.worlds[i].db, r.worlds[i].workers[m])
    requires r.worlds[i].workers[m].ticket == r.worlds[i].workers[n].ticket
    ensures n <= m
    ensures HoldsClaim(r.worlds[i].db, r.worlds[i].workers[n]) ==> m == n
  {
    RunInv(r, i);
    var w := r.worlds[i];
    assert WorkerKnown(w.db, w.workers[m]) && WorkerKnown(w.db, w.workers[n]);
    assert RowCoherent(w.workers[m].ticket, w.db.recovery[w.workers[m].ticket]);
  }

  // ---------------------------------------------------------------- durable answers

  lemma ClosedEvolves(db: Db, after: Db, kept: bool, t: TicketId)
    requires Evolves(db, after, kept) && Closed(db, t)
    ensures Closed(after, t)
  {
    assert TicketEvolves(db.tickets[t], after.tickets[t], true, kept);
  }

  /** The key holds this text, or it is empty and its ticket closed. */
  predicate KeptOrClosed(db: Db, key: AnswerKey, text: string) {
    if key in db.answers then db.answers[key].text == text else Closed(db, key.ticket)
  }

  lemma KeptEvolves(db: Db, after: Db, kept: bool, key: AnswerKey, text: string)
    requires Evolves(db, after, kept) && KeptOrClosed(db, key, text)
    ensures KeptOrClosed(after, key, text)
  {
    if key !in db.answers {
      ClosedEvolves(db, after, kept, key.ticket);
    }
  }

  /** From any point on, a stored answer keeps its text, or its ticket is closed and the key stays empty. */
  lemma {:induction false} AnswerKeptOrClosed(r: Run, i: nat, j: nat, key: AnswerKey)
    requires Legal(r)
    requires i <= j <= |r.steps| && key in r.worlds[i].db.answers
    ensures KeptOrClosed(r.worlds[j].db, key, r.worlds[i].db.answers[key].text)
    decreases j
  {
    if i < j {
      AnswerKeptOrClosed(r, i, j - 1, key);
      EvolvesAt(r, j - 1);
      KeptEvolves(r.worlds[j - 1].db, r.worlds[j].db, !r.steps[j - 1].OwnerRebound?, key, r.worlds[i].db.answers[key].text);
    }
  }

  /** Every text ever stored under a ticket and generation is the same text, across deletions too. */
  lemma AnswerTextImmutable(r: Run, i: nat, j: nat, key: AnswerKey)
    requires Legal(r)
    requires i <= j <= |r.steps|
    requires key in r.worlds[i].db.answers && key in r.worlds[j].db.answers
    ensures r.worlds[i].db.answers[key].text == r.worlds[j].db.answers[key].text
  {
    AnswerKeptOrClosed(r, i, j, key);
  }

  lemma NoInsertBySession(w: World, step: Step, key: AnswerKey)
    requires Good(w.db) && SessionStep(step)
    ensures key in Next(w, step).db.answers ==> key in w.db.answers
  {
  }

  lemma NoInsertByTicket(w: World, step: Step, key: AnswerKey)
    requires Good(w.db) && TicketStep(step)
    ensures key in Next(w, step).db.answers ==> key in w.db.answers
  {
  }

  lemma NoInsertByOthers(w: World, step: Step, key: AnswerKey)
    requires Good(w.db) && !SessionStep(step) && !TicketStep(step) && !step.WorkerCommits? && !step.AnswerStaged?
    ensures key in Next(w, step).db.answers ==> key in w.db.answers
  {
  }

  /**
   An answer is only ever inserted by a worker's commit or by staging, for an accepted direct
   ticket and under the current generation of its active owner; a committing worker holds its claim.
   */
  lemma AnswerNeedsAuthority(w: World, step: Step, key: AnswerKey)
    requires Good(w.db)
    requires key !in w.db.answers && key in Next(w, step).db.answers
    ensures step.WorkerCommits? || step.AnswerStaged?
    ensures Direct(w.db, key.ticket) && ActiveAt(w.db, w.db.tickets[key.ticket].owner, key.generation)
    ensures step.WorkerCommits? ==> step.index < |w.workers| && w.workers[step.index].ticket == key.ticket && HoldsClaim(w.db, w.workers[step.index])
  {
    if SessionStep(step) {
      NoInsertBySession(w, step, key);
    } else if TicketStep(step) {
      NoInsertByTicket(w, step, key);
    } else if !step.WorkerCommits? && !step.AnswerStaged? {
      NoInsertByOthers(w, step, key);
    }
  }

  /** Staging and committing keep the first ready time and set it if there was none. */
  lemma FirstReadyKept(w: World, step: Step, t: TicketId)
    requires Good(w.db) && t in w.db.tickets
    requires step.WorkerCommits? || step.AnswerStaged?
    ensures var after := Next(w, step).db.tickets;
            && t in after
            && (w.db.tickets[t].readyAt.Some? ==> after[t].readyAt == w.db.tickets[t].readyAt)
            && (w.db.tickets[t].readyAt.None? && after[t].readyAt.Some? ==> after[t].readyAt == Some(step.now))
            && (after[t] != w.db.tickets[t] ==> HasAnswer(Next(w, step).db, t))
  {
    var after := Next(w, step).db;
    if after.tickets[t] != w.db.tickets[t] {
      var key := if step.AnswerStaged? then AnswerKey(t, w.db.sessions[w.db.tickets[t].owner].generation)
                 else AnswerKey(t, w.workers[step.index].generation);
      assert key in after.answers;
    }
  }

  /**
   The deadline sweep, exactly: an overdue ticket is put back to inference, and loses its
   ready time, if and only if it has no durable answer and its owner session is active.
   */
  lemma SweepExact(db: Db, t: TicketId, cutoff: nat, now: nat)
    requires Good(db) && Overdue(db, t, cutoff)
    ensures var after := SweepOne(db, t, cutoff, now);
            var owner := db.tickets[t].owner;
            var queued := !HasAnswer(db, t) && (owner !in db.sessions || db.sessions[owner].state == Active);
            && t in after.tickets && after.answers == db.answers
            && (after.tickets[t].readyAt.None? <==> queued)
            && (queued ==> t in after.recovery && after.recovery[t].state == Pending && after.recovery[t].nextAt == Some(now))
            && (!queued ==> after.tickets == db.tickets && after.recovery == db.recovery)
  {
  }

  // ---------------------------------------------------------------- lane ownership

  lemma {:induction false} RowPersists(r: Run, i: nat, j: nat, t: TicketId)
    requires Legal(r)
    requires i <= j <= |r.steps| && t in r.worlds[i].db.recovery
    ensures t in r.worlds[j].db.recovery
    decreases j
  {
    if i < j {
      RowPersists(r, i, j - 1, t);
      EvolvesAt(r, j - 1);
    }
  }

  /** From its first recovery row on, a ticket stays off the workflow lane, whatever is written to it. */
  lemma LaneLockedForever(r: Run, i: nat, j: nat, t: TicketId)
    requires Legal(r)
    requires i <= j <= |r.steps| && t in r.worlds[i].db.recovery
    ensures t in r.worlds[j].db.recovery && t in r.worlds[j].db.tickets
    ensures !r.worlds[j].db.tickets[t].eligible && r.worlds[j].db.tickets[t].workflow.None?
  {
    RowPersists(r, i, j, t);
    RunInv(r, j);
  }

  /**
   So the dispatcher never leases it: whatever cell of the ticket store shows the row's status
   and lane, it is not among the store's ready tickets.
   */
  lemma NeverReady(r: Run, i: nat, j: nat, t: TicketId, cell: Tickets.Cell)
    requires Legal(r)
    requires i <= j <= |r.steps| && t in r.worlds[i].db.recovery && t in r.worlds[j].db.tickets
    requires cell.row.status == r.worlds[j].db.tickets[t].status && cell.row.eligible == r.worlds[j].db.tickets[t].eligible
    ensures !Tickets.Ready(cell)
    ensures forall worker: string, leaseMs: int, now: nat, token: nat ::
              Tickets.NextCell(cell, Tickets.Dispatches(t, worker, leaseMs, now), token) == cell
  {
    LaneLockedForever(r, i, j, t);
  }

  /** An attempted promotion of such a ticket leaves the whole row as it was; any other store write goes through. */
  lemma PromotionVetoed(db: Db, t: TicketId, after: Ticket)
    requires Good(db) && t in db.recovery && StoreWrite(db.tickets[t], after)
    ensures after.eligible || after.workflow.Some? ==> LegacyWrite(db, t, after) == db
    ensures !after.eligible && after.workflow.None? ==> LegacyWrite(db, t, after).tickets[t] == after
  {
  }

  // ---------------------------------------------------------------- terminal tickets

  /** A completed or cancelled ticket stays so, through every reset, reopening and restart. */
  lemma {:induction false} FinishedForever(r: Run, i: nat, j: nat, t: TicketId)
    requires Legal(r)
    requires i <= j <= |r.steps| && t in r.worlds[i].db.tickets
    requires r.worlds[i].db.tickets[t].status in {Completed, Cancelled}
    ensures t in r.worlds[j].db.tickets
    ensures r.worlds[j].db.tickets[t].status == r.worlds[i].db.tickets[t].status
    decreases j
  {
    if i < j {
      FinishedForever(r, i, j - 1, t);
      EvolvesAt(r, j - 1);
      var before, after := r.worlds[j - 1].db, r.worlds[j].db;
      assert TicketEvolves(before.tickets[t], after.tickets[t], t in before.recovery, !r.steps[j - 1].OwnerRebound?);
    }
  }

  // ---------------------------------------------------------------- recovery order

  /** Queueing behind an older recovery never demotes a row in progress and never drops a live claim. */
  lemma SerializingKeepsProgress(db: Db, t: TicketId, now: nat)
    requires Good(db) && t in db.recovery
    ensures var after := QueueBehindOlder(db, t, now);
            && t in after.recovery
            && (db.recovery[t].state in {Claimed, AwaitingDelivery} ==> after.recovery[t].state == db.recovery[t].state)
            && after.recovery[t].activeRun == db.recovery[t].activeRun
            && after.recovery[t].attempts == db.recovery[t].attempts
  {
    assert RowCoherent(t, db.recovery[t]);
  }

  /** Among finitely many active recoveries of one session and generation, one was accepted first. */
  lemma {:induction false} EarliestRecovery(db: Db, owner: Key, generation: nat, ts: set<TicketId>) returns (first: TicketId)
    requires ts != {} && ts <= db.tickets.Keys
    requires forall t :: t in ts ==> ActiveRecovery(db, t, owner, generation)
    ensures first in ts
    ensures forall t :: t in ts ==> db.tickets[first].sequence <= db.tickets[t].sequence
    decreases |ts|
  {
    var t :| t in ts;
    if ts == {t} {
      first := t;
    } else {
      var rest := EarliestRecovery(db, owner, generation, ts - {t});
      first := if db.tickets[t].sequence < db.tickets[rest].sequence then t else rest;
    }
  }

  /** Waiting behind an older recovery cannot deadlock: whenever one is active, some active one waits for none. */
  lemma {:induction false} SomeRecoveryCanProceed(db: Db, owner: Key, generation: nat, t: TicketId)
    requires ActiveRecovery(db, t, owner, generation)
    ensures exists first :: ActiveRecovery(db, first, owner, generation) && !HasPredecessor(db, first, generation)
  {
    var ts := set u | u in db.tickets && ActiveRecovery(db, u, owner, generation);
    assert t in ts;
    var first := EarliestRecovery(db, owner, generation, ts);
    assert ActiveRecovery(db, first, owner, generation) && !HasPredecessor(db, first, generation);
  }

  // ---------------------------------------------------------------- a rebind escapes the fence

  const AT_A := map["A" := Session(Active, 0, None)]
  const AT_AB := map["A" := Session(Active, 0, None), "B" := Session(Active, 0, None)]
  const CANCELLED_A := map["A" := Session(Active, 1, None), "B" := Session(Active, 0, None)]
  const TICKET_OF_A := Ticket(Request("A", "r"), "A", Accepted, false, None, None, None, true, 1)
  const LATE := Worker("T", "A", 0, RunId("T", 1, 0))
  const CLAIMED_ROW := Row(Claimed, 1, Some(LATE.run), None, 0, 1)

  const W1 := World(Db(AT_A, map["T" := TICKET_OF_A.(interrupted := false)], map[], map[], 2, 1), [])
  const W2 := World(Db(AT_A, map["T" := TICKET_OF_A], map["T" := Row(Pending, 0, None, Some(1), 0, 1)], map[], 2, 1), [])
  const W3 := World(Db(AT_A, map["T" := TICKET_OF_A], map["T" := CLAIMED_ROW], map[], 2, 1), [LATE])
  const W4 := World(Db(AT_AB, map["T" := TICKET_OF_A], map["T" := CLAIMED_ROW], map[], 2, 1), [LATE])
  const W5 := World(Db(AT_AB, map["T" := TICKET_OF_A.(owner := "B")], map["T" := CLAIMED_ROW], map[], 2, 1), [LATE])
  const W6 := World(Db(CANCELLED_A, map["T" := TICKET_OF_A.(owner := "B")], map["T" := CLAIMED_ROW], map[], 2, 1), [LATE])
  const W7 := Next(W6, WorkerCommits(0, "late", 3))

  const REBIND_RUN := Run([START, W1, W2, W3, W4, W5, W6, W7], [
    TicketAccepted("T", "A", "r"),
    RunInterrupted("T", 1),
    Launch("T", 1),
    SessionSeen("B"),
    OwnerRebound("A", "B"),
    SessionRevoked("A", false, None, 2),
    WorkerCommits(0, "late", 3)])

  lemma RebindRunBegins()
    ensures Next(START, TicketAccepted("T", "A", "r")) == W1
    ensures Next(W1, RunInterrupted("T", 1)) == W2
    ensures Next(W2, Launch("T", 1)) == W3
  {
    assert Due(W2.db, "T", 1);
  }

  lemma RebindRunMoves()
    ensures Next(W3, SessionSeen("B")) == W4
    ensures Next(W4, OwnerRebound("A", "B")) == W5
  {
    assert "A" != "B";
    assert Next(W4, OwnerRebound("A", "B")).db.tickets == W5.db.tickets;
  }

  lemma RebindRunCancels()
    ensures Next(W5, SessionRevoked("A", false, None, 2)) == W6
  {
    assert "B" != "A";
    var after := Revoke(W5.db, "A", false, None, 2);
    assert after.tickets == W5.db.tickets;
    assert after.recovery == W5.db.recovery;
    assert after.sessions == CANCELLED_A;
  }

  lemma LateCommits()
    ensures HoldsClaim(W6.db, LATE)
    ensures AnswerKey("T", 0) in W7.db.answers && W7.db.answers[AnswerKey("T", 0)].owner == "A"
  {
    assert ActiveAt(W6.db, "B", 0);
  }

  lemma RebindRunLegal()
    ensures Legal(REBIND_RUN)
  {
    var r := REBIND_RUN;
    RebindRunBegins();
    RebindRunMoves();
    RebindRunCancels();
    forall i {:trigger Linked(r, i)} | 0 <= i < |r.steps|
      ensures Linked(r, i)
    {
      assert i == 0 || i == 1 || i == 2 || i == 3 || i == 4 || i == 5 || i == 6;
    }
  }

  /** A worker launched for A commits, under A, after A was cancelled: its ticket had moved to B. */
  lemma RebindEscapesFence()
    ensures Legal(REBIND_RUN)
    ensures REBIND_RUN.steps[5].SessionRevoked? && REBIND_RUN.steps[5].key == REBIND_RUN.worlds[5].workers[0].owner
    ensures !Powerless(REBIND_RUN.worlds[6].db, REBIND_RUN.worlds[5].workers[0])
    ensures AnswerKey("T", 0) !in REBIND_RUN.worlds[6].db.answers
    ensures AnswerKey("T", 0) in REBIND_RUN.worlds[7].db.answers
  {
    RebindRunLegal();
    LateCommits();
    PowerlessIff(W6.db, LATE);
  }
}

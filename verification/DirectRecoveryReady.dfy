/**
 When a ticket loses its ready time and when inference is queued for it, exactly: the
 steps that do either, beside a durable answer or without one.
 */
module DirectRecoveryReady {
  import opened Common
  import opened DirectRecovery
  import opened DirectRecoveryProofs
  import opened DirectRecoverySafety
  import opened TicketStatus

  // ---------------------------------------------------------------- losing the ready time

  /** Queueing goes through unless the owner session is known and not active. */
  predicate OwnerQueues(db: Db, owner: Key) {
    owner !in db.sessions || db.sessions[owner].state == Active
  }

  /** The ticket is queued behind an older recovery of its session. */
  predicate Serializes(db: Db, t: TicketId) {
    && Direct(db, t)
    && db.tickets[t].owner in db.sessions && db.sessions[db.tickets[t].owner].state == Active
    && HasPredecessor(db, t, db.sessions[db.tickets[t].owner].generation)
  }

  predicate Interrupts(db: Db, t: TicketId) {
    t in db.tickets && db.tickets[t].status == Accepted && !db.tickets[t].eligible && OwnerQueues(db, db.tickets[t].owner)
  }

  predicate Reopens(db: Db, t: TicketId) {
    && t in db.tickets && db.tickets[t].status in {Waiting, Failed} && db.tickets[t].workflow.None?
    && db.tickets[t].eligible && db.tickets[t].interrupted && OwnerQueues(db, db.tickets[t].owner)
  }

  predicate Sweeps(db: Db, t: TicketId, cutoff: nat) {
    Overdue(db, t, cutoff) && !HasAnswer(db, t) && OwnerQueues(db, db.tickets[t].owner)
  }

  /** The guards of the branches that set the ready time of ticket t to NULL. */
  predicate Clears(db: Db, step: Step, t: TicketId)
    requires t in db.tickets
  {
    match step
    case SessionRevoked(key, _, _, _) => db.tickets[t].owner == key && !Terminal(db.tickets[t].status)
    case RunInterrupted(u, _) => u == t && Interrupts(db, t)
    case RunSerialized(u, _) => u == t && Serializes(db, t)
    case DeadlineSwept(u, cutoff, _) => u == t && Sweeps(db, t, cutoff)
    case StartupReopen(u, _) => u == t && Reopens(db, t)
    case TicketDisposed(u, key, generation, _) =>
      u == t && t in db.recovery && db.tickets[t].owner == key && !Terminal(db.tickets[t].status) &&
      key in db.sessions && db.sessions[key].generation == generation
    case StoreWrites(u, after) =>
      u == t && StoreWrite(db.tickets[t], after) && !LaneVeto(db.tickets[t], after, t in db.recovery) && after.readyAt.None?
    case _ => false
  }

  predicate HasReady(db: Db, t: TicketId) {
    t in db.tickets && db.tickets[t].readyAt.Some?
  }

  predicate Loses(w: World, step: Step, t: TicketId) {
    HasReady(w.db, t) && !HasReady(Next(w, step).db, t)
  }

  lemma SessionStepClears(w: World, step: Step, t: TicketId)
    requires Good(w.db) && HasReady(w.db, t) && SessionStep(step)
    ensures Loses(w, step, t) <==> Clears(w.db, step, t)
  {
  }

  lemma TicketStepClears(w: World, step: Step, t: TicketId)
    requires Good(w.db) && HasReady(w.db, t) && TicketStep(step)
    ensures Loses(w, step, t) <==> Clears(w.db, step, t)
  {
  }

  lemma WorkerStepClears(w: World, step: Step, t: TicketId)
    requires Good(w.db) && HasReady(w.db, t) && WorkerStep(step)
    ensures Loses(w, step, t) <==> Clears(w.db, step, t)
  {
  }

  lemma OtherStepClears(w: World, step: Step, t: TicketId)
    requires Good(w.db) && HasReady(w.db, t) && !SessionStep(step) && !TicketStep(step) && !WorkerStep(step)
    ensures Loses(w, step, t) <==> Clears(w.db, step, t)
  {
  }

  /** A step makes a ticket lose its ready time exactly when it takes one of these branches. */
  lemma ReadyLostIff(w: World, step: Step, t: TicketId)
    requires Good(w.db) && HasReady(w.db, t)
    ensures Loses(w, step, t) <==> Clears(w.db, step, t)
  {
    if SessionStep(step) {
      SessionStepClears(w, step, t);
    } else if TicketStep(step) {
      TicketStepClears(w, step, t);
    } else if WorkerStep(step) {
      WorkerStepClears(w, step, t);
    } else {
      OtherStepClears(w, step, t);
    }
  }

  /**
   Over any run: a ticket that had a ready time and has none later lost it at a step that
   takes one of those branches, and if an answer was stored for it by then, the step is not
   the deadline sweep.
   */
  lemma {:induction false} ReadyLostBy(r: Run, i: nat, j: nat, t: TicketId) returns (k: nat)
    requires Legal(r) && i <= j <= |r.steps|
    requires HasReady(r.worlds[i].db, t) && !HasReady(r.worlds[j].db, t)
    ensures i <= k < j && HasReady(r.worlds[k].db, t) && Clears(r.worlds[k].db, r.steps[k], t)
    ensures HasAnswer(r.worlds[k].db, t) ==> !r.steps[k].DeadlineSwept?
  {
    if HasReady(r.worlds[j - 1].db, t) {
      k := j - 1;
      RunInv(r, k);
      assert Linked(r, k);
      ReadyLostIff(r.worlds[k], r.steps[k], t);
    } else {
      k := ReadyLostBy(r, i, j - 1, t);
    }
  }

  // ---------------------------------------------------------------- queueing inference

  predicate IsPending(db: Db, t: TicketId) {
    t in db.recovery && db.recovery[t].state == Pending
  }

  predicate RetriesTicket(w: World, step: Step, t: TicketId) {
    step.WorkerRetries? && step.index < |w.workers| && w.workers[step.index].ticket == t && HoldsClaim(w.db, w.workers[step.index])
  }

  /** The guards of the branches that put the recovery row of ticket t to pending. */
  predicate Requeues(w: World, step: Step, t: TicketId) {
    var db := w.db;
    match step
    case RunInterrupted(u, _) => u == t && Interrupts(db, t)
    case SessionCompacted(u, _) => u == t && Interrupts(db, t) && db.tickets[t].readyAt.None?
    case RunSerialized(u, _) => u == t && Serializes(db, t) && (t !in db.recovery || db.recovery[t].state == Withdrawn)
    case DeadlineSwept(u, cutoff, _) => u == t && Sweeps(db, t, cutoff)
    case StartupReopen(u, _) => u == t && Reopens(db, t)
    case WorkerRetries(_, _) => RetriesTicket(w, step, t)
    case StaleReset(now, staleMs) => Stale(db, t, now, staleMs)
    case StartupReset(_) =>
      t in db.recovery && db.recovery[t].state == Claimed && t in db.tickets &&
      ActiveAt(db, db.tickets[t].owner, db.recovery[t].generation)
    case _ => false
  }

  lemma TicketStepRequeues(w: World, step: Step, t: TicketId)
    requires Good(w.db) && !IsPending(w.db, t) && TicketStep(step)
    ensures IsPending(Next(w, step).db, t) <==> Requeues(w, step, t)
  {
  }

  lemma WorkerStepRequeues(w: World, step: Step, t: TicketId)
    requires Good(w.db) && !IsPending(w.db, t) && WorkerStep(step)
    ensures IsPending(Next(w, step).db, t) <==> Requeues(w, step, t)
  {
  }

  lemma OtherStepRequeues(w: World, step: Step, t: TicketId)
    requires Good(w.db) && !IsPending(w.db, t) && !TicketStep(step) && !WorkerStep(step)
    ensures IsPending(Next(w, step).db, t) <==> Requeues(w, step, t)
  {
  }

  /**
   Inference is queued for a ticket exactly by these branches. Beside a stored answer the
   deadline sweep is not among them; the others do not look at answers.
   */
  lemma RequeuedIff(w: World, step: Step, t: TicketId)
    requires Good(w.db) && !IsPending(w.db, t)
    ensures IsPending(Next(w, step).db, t) <==> Requeues(w, step, t)
    ensures HasAnswer(w.db, t) && step.DeadlineSwept? ==> !IsPending(Next(w, step).db, t)
  {
    if TicketStep(step) {
      TicketStepRequeues(w, step, t);
    } else if WorkerStep(step) {
      WorkerStepRequeues(w, step, t);
    } else {
      OtherStepRequeues(w, step, t);
    }
  }

  // ---------------------------------------------------------------- a committed answer whose ticket is interrupted

  const STAGED_DB := Db(map["S" := Session(Active, 0, None)],
                        map["T" := Ticket(Request("S", "r"), "S", Accepted, false, None, Some(1), None, false, 1)],
                        map[], map[AnswerKey("T", 0) := Answer(1, "S", "text", false)], 2, 2)

  lemma StagedRun() returns (r: Run)
    ensures Legal(r) && |r.steps| == 2 && r.worlds[2] == World(STAGED_DB, [])
  {
    var accepted := Ticket(Request("S", "r"), "S", Accepted, false, None, None, None, false, 1);
    var w1 := World(Db(map["S" := Session(Active, 0, None)], map["T" := accepted], map[], map[], 2, 1), []);
    assert Next(START, TicketAccepted("T", "S", "r")) == w1;
    assert Next(w1, AnswerStaged("T", "text", 1)) == World(STAGED_DB, []);
    r := Run([START, w1, World(STAGED_DB, [])], [TicketAccepted("T", "S", "r"), AnswerStaged("T", "text", 1)]);
    assert Linked(r, 0) && Linked(r, 1);
  }

  /**
   A legal run: an answer is committed and stays, then the run is reported interrupted; the
   ticket loses its ready time and is queued for inference.
   */
  lemma InterruptionClearsAnswered() returns (r: Run)
    ensures Legal(r) && |r.steps| == 3
    ensures HasReady(r.worlds[2].db, "T") && HasAnswer(r.worlds[2].db, "T")
    ensures !HasReady(r.worlds[3].db, "T") && HasAnswer(r.worlds[3].db, "T") && IsPending(r.worlds[3].db, "T")
  {
    var q := StagedRun();
    var w := World(STAGED_DB, []);
    var step := RunInterrupted("T", 2);
    r := Run(q.worlds + [Next(w, step)], q.steps + [step]);
    forall i | 0 <= i < |r.steps| ensures Linked(r, i) {
      if i < 2 {
        assert Linked(q, i);
      }
    }
    RunInv(r, 2);
    assert AnswerKey("T", 0) in STAGED_DB.answers && AnswerKey("T", 0) in Next(w, step).db.answers;
    ReadyLostIff(w, step, "T");
    RequeuedIff(w, step, "T");
  }
}

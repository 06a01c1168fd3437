/** What holds in every run of the Direct Recovery protocol, between any two points of it. */
module DirectRecoverySafety {
  import opened Common
  import opened DirectRecovery
  import opened DirectRecoveryProofs
  import opened TicketStatus

  // ---------------------------------------------------------------- steps and runs

  predicate SessionStep(step: Step) {
    step.SessionSeen? || step.LifecycleStart? || step.SessionRevoked? || step.DeletionFinalized?
  }

  predicate TicketStep(step: Step) {
    step.TicketAccepted? || step.OwnerRebound? || step.StoreWrites? || step.RunInterrupted? || step.SessionCompacted?
    || step.RunSerialized?
  }

  predicate WorkerStep(step: Step) {
    step.Launch? || step.WorkerCommits? || step.WorkerRetries? || step.WorkerTouches? || step.StaleReset?
  }

  lemma SessionStepEvolves(w: World, step: Step)
    requires Good(w.db) && SessionStep(step)
    ensures Evolves(w.db, NextDb(w.db, w.workers, step), true)
  {
    var db := w.db;
    match step
    case SessionSeen(key) => EnsureSessionEvolves(db, key);
    case LifecycleStart(key, id) => ReactivateEvolves(db, key, id);
    case SessionRevoked(key, deleting, id, now) => RevokeEvolves(db, key, deleting, id, now);
    case DeletionFinalized(key) => FinalizeEvolves(db, key);
  }

  lemma TicketStepEvolves(w: World, step: Step)
    requires Good(w.db) && TicketStep(step)
    ensures Evolves(w.db, NextDb(w.db, w.workers, step), !step.OwnerRebound?)
  {
    var db := w.db;
    match step
    case TicketAccepted(t, key, runId) => AcceptEvolves(db, t, key, runId);
    case OwnerRebound(source, target) => RebindEvolves(db, source, target);
    case StoreWrites(t, after) => LegacyWriteEvolves(db, t, after);
    case RunInterrupted(t, now) => MarkRecoveryEvolves(db, t, now);
    case SessionCompacted(t, now) => MarkSessionEvolves(db, t, now);
    case RunSerialized(t, now) => SerializeEvolves(db, t, now);
  }

  lemma WorkerStepEvolves(w: World, step: Step)
    requires Good(w.db) && WorkerStep(step)
    ensures Evolves(w.db, NextDb(w.db, w.workers, step), true)
  {
    var db := w.db;
    SameEvolves(db);
    match step
    case Launch(t, now) => if Due(db, t, now) { ClaimEvolves(db, Snapshot(db, t), now); }
    case WorkerCommits(i, text, now) => if i < |w.workers| { CommitEvolves(db, w.workers[i], text, now); }
    case WorkerRetries(i, now) => if i < |w.workers| { RetryEvolves(db, w.workers[i], now); }
    case WorkerTouches(i, now) => if i < |w.workers| { TouchEvolves(db, w.workers[i], now); }
    case StaleReset(now, staleMs) => ResetStaleEvolves(db, now, staleMs);
  }

  lemma OtherStepEvolves(w: World, step: Step)
    requires Good(w.db) && !SessionStep(step) && !TicketStep(step) && !WorkerStep(step)
    ensures Evolves(w.db, NextDb(w.db, w.workers, step), true)
  {
    var db := w.db;
    match step
    case StartupReset(now) => ResetAtStartupEvolves(db, now);
    case StartupWithdraw(now) => WithdrawTerminalEvolves(db, now);
    case StartupMigrate(t, now) => MigrateEvolves(db, t, now);
    case StartupReopen(t, now) => ReopenEvolves(db, t, now);
    case AnswerStaged(t, text, now) => StageEvolves(db, t, text, now);
    case AnswerSettled(key, now) => SettleEvolves(db, key, now);
    case DeadlineSwept(t, cutoff, now) => SweepEvolves(db, t, cutoff, now);
    case TicketDisposed(t, key, generation, now) => DisposeEvolves(db, t, key, generation, now);
  }

  lemma StepEvolves(w: World, step: Step)
    requires Good(w.db)
    ensures Evolves(w.db, Next(w, step).db, !step.OwnerRebound?)
  {
    if SessionStep(step) {
      SessionStepEvolves(w, step);
    } else if TicketStep(step) {
      TicketStepEvolves(w, step);
    } else if WorkerStep(step) {
      WorkerStepEvolves(w, step);
    } else {
      OtherStepEvolves(w, step);
    }
  }

  lemma KnownStays(db: Db, after: Db, w: Worker)
    requires WorkerKnown(db, w) && RowsEvolve(db, after)
    ensures WorkerKnown(after, w)
  {
    assert RowEvolves(db.recovery[w.ticket], after.recovery[w.ticket]);
  }

  lemma StepInv(w: World, step: Step)
    requires Inv(w)
    ensures Inv(Next(w, step))
  {
    StepEvolves(w, step);
    var v := Next(w, step);
    forall i | 0 <= i < |v.workers|
      ensures WorkerKnown(v.db, v.workers[i])
    {
      if i < |w.workers| {
        KnownStays(w.db, v.db, w.workers[i]);
      }
    }
    assert forall i :: 0 <= i < |w.workers| ==> WorkerKnown(w.db, w.workers[i]);
  }

  lemma {:induction false} RunInv(r: Run, i: nat)
    requires Legal(r)
    requires i <= |r.steps|
    ensures Inv(r.worlds[i])
  {
    if i > 0 {
      RunInv(r, i - 1);
      assert Linked(r, i - 1);
      StepInv(r.worlds[i - 1], r.steps[i - 1]);
    }
  }

  /** Any two neighbouring worlds of a run are related by an evolution. */
  lemma EvolvesAt(r: Run, i: nat)
    requires Legal(r)
    requires i < |r.steps|
    ensures Good(r.worlds[i].db)
    ensures Evolves(r.worlds[i].db, r.worlds[i + 1].db, !r.steps[i].OwnerRebound?)
  {
    RunInv(r, i);
    assert Linked(r, i);
    StepEvolves(r.worlds[i], r.steps[i]);
  }

  /** The generation of a session never decreases, whatever cancels, resets, deletes or reactivates it. */
  lemma {:induction false} GenerationsNeverDecrease(r: Run, i: nat, j: nat, key: Key)
    requires Legal(r)
    requires i <= j <= |r.steps|
    requires key in r.worlds[i].db.sessions
    ensures key in r.worlds[j].db.sessions
    ensures r.worlds[i].db.sessions[key].generation <= r.worlds[j].db.sessions[key].generation
    decreases j - i
  {
    if i < j {
      EvolvesAt(r, i);
      GenerationsNeverDecrease(r, i + 1, j, key);
    }
  }

  // ---------------------------------------------------------------- superseded workers

  /** The row of the worker's ticket is no longer claimed by this worker. */
  predicate Superseded(db: Db, w: Worker) {
    w.ticket in db.recovery && db.recovery[w.ticket].activeRun != Some(w.run)
  }

  /** Nothing the worker can still try changes any table. */
  ghost predicate Powerless(db: Db, w: Worker) {
    && (forall text: string, now: nat :: CommitResponse(db, w, text, now) == db)
    && (forall now: nat :: Retry(db, w, now) == db)
    && (forall now: nat :: Touch(db, w, now) == db)
  }

  lemma SupersededStep(w: World, step: Step, v: Worker)
    requires Inv(w) && WorkerKnown(w.db, v) && Superseded(w.db, v)
    ensures Superseded(Next(w, step).db, v) && WorkerKnown(Next(w, step).db, v)
  {
    StepEvolves(w, step);
    KnownStays(w.db, Next(w, step).db, v);
    assert RowEvolves(w.db.recovery[v.ticket], Next(w, step).db.recovery[v.ticket]);
  }

  /**
   Once a worker's claim is gone, by whatever step and whatever is requeued or claimed
   afterwards, the worker can never commit a response, retry or refresh its row again.
   */
  lemma {:induction false} SupersededForever(r: Run, i: nat, j: nat, n: nat)
    requires Legal(r)
    requires i <= j <= |r.steps| && n < |r.worlds[i].workers|
    requires Superseded(r.worlds[i].db, r.worlds[i].workers[n])
    ensures n < |r.worlds[j].workers| && r.worlds[j].workers[n] == r.worlds[i].workers[n]
    ensures Superseded(r.worlds[j].db, r.worlds[i].workers[n])
    ensures Powerless(r.worlds[j].db, r.worlds[i].workers[n])
    decreases j - i
  {
    RunInv(r, i);
    if i < j {
      assert Linked(r, i);
      SupersededStep(r.worlds[i], r.steps[i], r.worlds[i].workers[n]);
      SupersededForever(r, i + 1, j, n);
    }
  }

  /** A row that is not claimed at some point has superseded every worker launched for it before. */
  lemma ReleasedClaimIsFinal(r: Run, i: nat, j: nat, n: nat)
    requires Legal(r)
    requires i <= j <= |r.steps| && n < |r.worlds[i].workers|
    requires r.worlds[i].workers[n].ticket in r.worlds[i].db.recovery
    requires r.worlds[i].db.recovery[r.worlds[i].workers[n].ticket].state != Claimed
    ensures Powerless(r.worlds[j].db, r.worlds[i].workers[n])
  {
    RunInv(r, i);
    SupersededForever(r, i, j, n);
  }

  // ---------------------------------------------------------------- the generation fence

  /**
   What one cancel, reset or delete of `key` does to a worker launched before it: the
   worker is superseded exactly when it already was or its ticket belongs to `key` now.
   */
  lemma RevokeSupersedes(w: World, key: Key, deleting: bool, id: Option<string>, now: nat, n: nat)
    requires Inv(w) && n < |w.workers|
    ensures var v := w.workers[n];
            var after := Next(w, SessionRevoked(key, deleting, id, now)).db;
            Superseded(after, v) <==> Superseded(w.db, v) || OwnedBy(w.db.tickets, v.ticket, key)
  {
    var v := w.workers[n];
    assert WorkerKnown(w.db, v);
    assert RowCoherent(v.ticket, w.db.recovery[v.ticket]);
  }

  /** A worker can change a table exactly when it holds its claim or may refresh it. */
  lemma PowerlessIff(db: Db, v: Worker)
    ensures Powerless(db, v) <==> !HoldsClaim(db, v) && !TouchesClaim(db, v)
  {
    if HoldsClaim(db, v) {
      assert Retry(db, v, 0).recovery[v.ticket].state == Pending;
    } else if TouchesClaim(db, v) {
      var later := db.recovery[v.ticket].updatedAt + 1;
      assert Touch(db, v, later).recovery[v.ticket].updatedAt == later;
    }
  }

  /** A held claim is what a commit needs: it goes through exactly then, unless another text is stored. */
  lemma HeldClaimCommits(db: Db, v: Worker, text: string, now: nat)
    ensures var after, key := CommitResponse(db, v, text, now), AnswerKey(v.ticket, v.generation);
            && (after != db <==> HoldsClaim(db, v) && (key in db.answers ==> db.answers[key].text == text))
            && (after != db ==> key in after.answers && after.answers[key].text == text
                                && after.recovery[v.ticket].state == AwaitingDelivery && after.tickets[v.ticket].readyAt.Some?)
  {
    if HoldsClaim(db, v) && (AnswerKey(v.ticket, v.generation) in db.answers ==> db.answers[AnswerKey(v.ticket, v.generation)].text == text) {
      assert CommitResponse(db, v, text, now).recovery[v.ticket].state == AwaitingDelivery;
    }
  }

  /** What a cancel, reset or delete leaves of a claim, exactly: it is held afterwards if it was and its ticket is not the session's. */
  lemma RevokeKeepsClaim(w: World, key: Key, deleting: bool, id: Option<string>, now: nat, n: nat)
    requires Inv(w) && n < |w.workers|
    ensures var v := w.workers[n];
            var after := Next(w, SessionRevoked(key, deleting, id, now)).db;
            HoldsClaim(after, v) <==> HoldsClaim(w.db, v) && !OwnedBy(w.db.tickets, v.ticket, key)
  {
    var v := w.workers[n];
    assert WorkerKnown(w.db, v);
  }

  /** A worker remembers a generation its session has reached. */
  lemma {:induction false} OwnerKnown(r: Run, i: nat, n: nat)
    requires Legal(r)
    requires i <= |r.steps| && n < |r.worlds[i].workers|
    ensures var v := r.worlds[i].workers[n];
            v.owner in r.worlds[i].db.sessions && v.generation <= r.worlds[i].db.sessions[v.owner].generation
  {
    if i > 0 {
      EvolvesAt(r, i - 1);
      assert Linked(r, i - 1);
      if n < |r.worlds[i - 1].workers| {
        OwnerKnown(r, i - 1, n);
      }
    }
  }

  /** The refresh is fenced by both sessions: the one its ticket has now and the one the worker remembers. */
  lemma RevokeKeepsTouch(r: Run, i: nat, n: nat)
    requires Legal(r)
    requires i < |r.steps| && r.steps[i].SessionRevoked? && n < |r.worlds[i].workers|
    ensures var v, key := r.worlds[i].workers[n], r.steps[i].key;
            TouchesClaim(r.worlds[i + 1].db, v) <==>
              TouchesClaim(r.worlds[i].db, v) && !OwnedBy(r.worlds[i].db.tickets, v.ticket, key) && v.owner != key
  {
    RunInv(r, i);
    OwnerKnown(r, i, n);
    assert Linked(r, i);
    assert WorkerKnown(r.worlds[i].db, r.worlds[i].workers[n]);
  }

  /** The row still carries the worker's run, and its ticket is accepted. */
  predicate Claims(db: Db, v: Worker) {
    && v.ticket in db.recovery && db.recovery[v.ticket].activeRun == Some(v.run)
    && v.ticket in db.tickets && db.tickets[v.ticket].status == Accepted
  }

  /** Only a worker that has the current claim on an accepted ticket can commit or retry at any later point of a run. */
  lemma {:induction false} ActsOnlyWithClaim(r: Run, i: nat, j: nat, n: nat)
    requires Legal(r)
    requires i <= j <= |r.steps| && n < |r.worlds[i].workers|
    requires Claims(r.worlds[j].db, r.worlds[i].workers[n])
    ensures Claims(r.worlds[i].db, r.worlds[i].workers[n])
    decreases j
  {
    var v := r.worlds[i].workers[n];
    RunInv(r, i);
    if i < j {
      if Superseded(r.worlds[i].db, v) {
        SupersededForever(r, i, j, n);
      }
      WorkersStay(r, i, j - 1, n);
      RunInv(r, j - 1);
      EvolvesAt(r, j - 1);
      var before, after := r.worlds[j - 1].db, r.worlds[j].db;
      if Superseded(before, v) {
        SupersededForever(r, j - 1, j, n);
      }
      assert WorkerKnown(before, v);
      assert TicketEvolves(before.tickets[v.ticket], after.tickets[v.ticket], true, !r.steps[j - 1].OwnerRebound?);
      ActsOnlyWithClaim(r, i, j - 1, n);
    }
  }

  lemma {:induction false} WorkersStay(r: Run, i: nat, j: nat, n: nat)
    requires Legal(r)
    requires i <= j <= |r.steps| && n < |r.worlds[i].workers|
    ensures n < |r.worlds[j].workers| && r.worlds[j].workers[n] == r.worlds[i].workers[n]
    decreases j
  {
    if i < j {
      WorkersStay(r, i, j - 1, n);
      assert Linked(r, j - 1);
    }
  }

  /**
   After a revocation the only workers that ever commit or retry again are those whose claim
   was current, on a ticket still accepted that belongs to another session.
   */
  lemma ActsAfterRevoke(r: Run, i: nat, j: nat, n: nat)
    requires Legal(r)
    requires i < j <= |r.steps| && r.steps[i].SessionRevoked? && n < |r.worlds[i].workers|
    requires HoldsClaim(r.worlds[j].db, r.worlds[i].workers[n])
    ensures Claims(r.worlds[i].db, r.worlds[i].workers[n])
    ensures !OwnedBy(r.worlds[i].db.tickets, r.worlds[i].workers[n].ticket, r.steps[i].key)
  {
    ActsOnlyWithClaim(r, i, j, n);
    if OwnedBy(r.worlds[i].db.tickets, r.worlds[i].workers[n].ticket, r.steps[i].key) {
      RevokedWorkersArePowerless(r, i, j, n);
      PowerlessIff(r.worlds[j].db, r.worlds[i].workers[n]);
    }
  }

  /** Generation fence over whole runs, for every worker whose ticket the revoked session owns. */
  lemma RevokedWorkersArePowerless(r: Run, i: nat, j: nat, n: nat)
    requires Legal(r)
    requires i < j <= |r.steps| && r.steps[i].SessionRevoked?
    requires n < |r.worlds[i].workers|
    requires OwnedBy(r.worlds[i].db.tickets, r.worlds[i].workers[n].ticket, r.steps[i].key)
    ensures Powerless(r.worlds[j].db, r.worlds[i].workers[n])
  {
    RunInv(r, i);
    assert Linked(r, i);
    var SessionRevoked(key, deleting, id, now) := r.steps[i];
    RevokeSupersedes(r.worlds[i], key, deleting, id, now, n);
    SupersededForever(r, i + 1, j, n);
  }

  lemma {:induction false} OwnersStayWithoutRebind(r: Run, i: nat, n: nat)
    requires Legal(r)
    requires i <= |r.steps| && n < |r.worlds[i].workers|
    requires forall k :: 0 <= k < |r.steps| ==> !r.steps[k].OwnerRebound?
    ensures OwnedBy(r.worlds[i].db.tickets, r.worlds[i].workers[n].ticket, r.worlds[i].workers[n].owner)
  {
    if i > 0 {
      RunInv(r, i - 1);
      assert Linked(r, i - 1);
      var before := r.worlds[i - 1];
      if n < |before.workers| {
        OwnersStayWithoutRebind(r, i - 1, n);
      }
      StepEvolves(before, r.steps[i - 1]);
    }
  }

  /** Without an owner rebind, revoking a session fences every worker ever launched for it. */
  lemma SessionFence(r: Run, i: nat, j: nat, n: nat)
    requires Legal(r)
    requires i < j <= |r.steps| && r.steps[i].SessionRevoked?
    requires forall k :: 0 <= k < |r.steps| ==> !r.steps[k].OwnerRebound?
    requires n < |r.worlds[i].workers| && r.worlds[i].workers[n].owner == r.steps[i].key
    ensures Powerless(r.worlds[j].db, r.worlds[i].workers[n])
  {
    OwnersStayWithoutRebind(r, i, n);
    RevokedWorkersArePowerless(r, i, j, n);
  }
}

/** The event log determines the table, leases fence, and every outcome has one delivery channel. */
module TicketProofs {
  import opened Common
  import opened Tickets
  import opened TicketStatus

  // ---------------------------------------------------------------- one ticket

  predicate LeaseShape(row: Ticket) {
    && (row.status == Running ==> row.worker.Some? && row.token.Some? && row.expires.Some?)
    && (Claimable(Cell(row, [], None)) ==> row.worker.None? && row.token.None? && row.expires.None?)
    && (Terminal(row.status) ==> row.expires.None?)
  }

  predicate OneChannel(c: Cell) {
    && (c.outbox.Some? ==> Terminal(c.row.status) && c.outbox.value.terminal == c.row.status)
    && (c.row.status == Failed ==> c.outbox.Some?)
    && (c.row.status == Completed ==> (c.outbox.None? <==> c.row.confirmedAt.Some?))
    && (c.row.confirmedAt.Some? ==> c.row.status == Completed)
  }

  predicate CellGood(c: Cell) {
    && ViewOf(c.row) == Replay(c.log)
    && c.row.generation == c.row.attempts == ClaimCount(c.log)
    && LeaseShape(c.row)
    && c.row.status != Planned && c.row.status != Cancelled
    && (c.row.status == Accepted ==> c.row.attempts == 0)
    && 1 <= c.row.maxAttempts
    && OneChannel(c)
    && FinishCount(c.log) == (if Terminal(c.row.status) then 1 else 0)
    && (c.row.status == Waiting && c.row.maxAttempts <= c.row.attempts ==> LastStanding(c.log) == Some(LeaseExpired))
  }

  lemma Append(log: seq<Event>, e: Event)
    ensures Replay(log + [e]) == ReplayEvent(Replay(log), e)
    ensures ClaimCount(log + [e]) == ClaimCount(log) + if e.ClaimedEvent? then 1 else 0
    ensures FinishCount(log + [e]) == FinishCount(log) + if e.CompletedEvent? || e.FailedEvent? then 1 else 0
    ensures LastStanding(log + [e]) == if e.OwnerRebound? then LastStanding(log) else Some(e)
  {
    assert (log + [e])[..|log|] == log;
  }

  lemma NewCellGood(owner: SessionKey, runId: string, maxAttempts: int)
    ensures CellGood(NewCell(owner, runId, maxAttempts))
  {
    Append([], AcceptedEvent);
    assert [] + [AcceptedEvent] == [AcceptedEvent];
  }

  /** The part of CellGood that does not read the log. */
  predicate RowGood(c: Cell) {
    && c.row.generation == c.row.attempts
    && LeaseShape(c.row)
    && c.row.status != Planned && c.row.status != Cancelled
    && (c.row.status == Accepted ==> c.row.attempts == 0)
    && 1 <= c.row.maxAttempts
    && OneChannel(c)
  }

  /** A transaction that writes one event. */
  lemma LoggedGood(c: Cell, after: Cell, e: Event)
    requires CellGood(c) && RowGood(after) && after.log == c.log + [e] && !e.AcceptedEvent?
    requires ViewOf(after.row) == ReplayEvent(ViewOf(c.row), e)
    requires e.CompletedEvent? || e.FailedEvent? <==> !Terminal(c.row.status) && Terminal(after.row.status)
    requires Terminal(c.row.status) ==> Terminal(after.row.status)
    requires after.row.status == Waiting && after.row.maxAttempts <= after.row.attempts ==>
               e == LeaseExpired || (e.OwnerRebound? && c.row.status == Waiting && c.row.maxAttempts <= c.row.attempts)
    ensures CellGood(after)
  {
    Append(c.log, e);
  }

  lemma DirectStep(c: Cell, step: Step, token: nat)
    requires CellGood(c)
    requires step.Routes? || step.Confirms? || step.FailsDelivery? || step.TimesOut? || step.Promotes?
    ensures CellGood(NextCell(c, step, token))
  {
    var after := NextCell(c, step, token);
    if after != c {
      if step.Confirms? {
        var middle := c.(log := c.log + [DeliveryConfirmed]);
        LoggedGood(c, middle, DeliveryConfirmed);
        assert after.log == middle.log + [CompletedEvent];
        LoggedGood(middle, after, CompletedEvent);
      } else {
        LoggedGood(c, after, after.log[|c.log|]);
      }
    }
  }

  lemma FinalizeStep(c: Cell, success: bool, interrupted: bool, expectsDelivery: bool, now: nat)
    requires CellGood(c)
    ensures CellGood(FinalizeDirect(c, success, interrupted, expectsDelivery, now))
  {
    var after := FinalizeDirect(c, success, interrupted, expectsDelivery, now);
    if after != c {
      if success {
        var ready := c.(row := c.row.(readyAt := Some(now)), log := c.log + [ResponseReady]);
        LoggedGood(c, ready, ResponseReady);
        if !expectsDelivery {
          var confirmed := ready.(log := ready.log + [DeliveryConfirmed]);
          LoggedGood(ready, confirmed, DeliveryConfirmed);
          assert after.log == confirmed.log + [CompletedEvent];
          LoggedGood(confirmed, after, CompletedEvent);
        }
      } else {
        LoggedGood(c, after, after.log[|c.log|]);
      }
    }
  }

  lemma RebindStep(c: Cell, source: SessionKey, target: SessionKey)
    requires CellGood(c)
    ensures CellGood(RebindOwner(c, source, target))
  {
    var after := RebindOwner(c, source, target);
    if after.log != c.log {
      LoggedGood(c, after, OwnerRebound(target));
    }
  }

  lemma ClaimStep(c: Cell, worker: string, token: nat, leaseMs: int, now: nat)
    requires CellGood(c)
    ensures CellGood(Claim(c, worker, token, leaseMs, now))
  {
    if Claimable(c) {
      LoggedGood(c, Claim(c, worker, token, leaseMs, now), ClaimedEvent(c.row.generation + 1));
    }
  }

  lemma LinkStep(c: Cell, l: Lease, workflow: string, manifest: string, now: nat)
    requires CellGood(c)
    ensures CellGood(Link(c, l, workflow, manifest, now))
  {
    if Linkable(c, l, workflow, now) {
      LoggedGood(c, Link(c, l, workflow, manifest, now), WorkflowLinked(workflow));
    }
  }

  lemma CompleteStep(c: Cell, l: Lease, now: nat)
    requires CellGood(c)
    ensures CellGood(Complete(c, l, now))
  {
    if Holds(c, l, now) && c.row.owner != "" {
      LoggedGood(c, Complete(c, l, now), CompletedEvent);
    }
  }

  lemma FailAttemptStep(c: Cell, l: Lease, f: FailureClass, now: nat)
    requires CellGood(c)
    ensures CellGood(FailAttempt(c, l, f, now))
  {
    if Holds(c, l, now) {
      if Retryable(c, f) {
        LoggedGood(c, FailAttempt(c, l, f, now), WaitingEvent);
      } else if c.row.owner != "" {
        LoggedGood(c, FailAttempt(c, l, f, now), FailedEvent);
      }
    }
  }

  lemma ExpireStep(c: Cell, now: nat)
    requires CellGood(c)
    ensures CellGood(Expire(c, now))
  {
    if Expired(c, now) {
      LoggedGood(c, Expire(c, now), LeaseExpired);
    }
  }

  lemma OutboxStep(c: Cell, step: Step, token: nat)
    requires CellGood(c)
    requires step.Schedules? || step.Binds? || step.Delivers? || step.FailsOutbox? || step.Accepts? || step.Beats?
    ensures CellGood(NextCell(c, step, token))
  {
  }

  /** Every transaction keeps a good cell good. */
  lemma CellStep(c: Cell, step: Step, token: nat)
    requires CellGood(c)
    ensures CellGood(NextCell(c, step, token))
  {
    match step
    case Routes(_, _) => DirectStep(c, step, token);
    case Confirms(_, _) => DirectStep(c, step, token);
    case FailsDelivery(_) => DirectStep(c, step, token);
    case TimesOut(_, _) => DirectStep(c, step, token);
    case Promotes(_) => DirectStep(c, step, token);
    case Finalizes(_, success, interrupted, expectsDelivery, now) => FinalizeStep(c, success, interrupted, expectsDelivery, now);
    case Rebinds(_, source, target) => RebindStep(c, source, target);
    case Accepts(_, _, _, _) => OutboxStep(c, step, token);
    case Schedules(_, _, _) => OutboxStep(c, step, token);
    case Binds(_, _, _) => OutboxStep(c, step, token);
    case Delivers(_, _, _) => OutboxStep(c, step, token);
    case FailsOutbox(_, _, _) => OutboxStep(c, step, token);
    case Beats(_, _, _) => OutboxStep(c, step, token);
    case Claims(_, worker, leaseMs, now) => ClaimStep(c, worker, token, leaseMs, now);
    case Dispatches(_, worker, leaseMs, now) => ClaimStep(c, worker, token, leaseMs, now);
    case Links(l, workflow, manifest, now) => LinkStep(c, l, workflow, manifest, now);
    case Completes(l, now) => CompleteStep(c, l, now);
    case FailsAttempt(l, failure, now) => FailAttemptStep(c, l, failure, now);
    case Expires(_, now) => ExpireStep(c, now);
  }

  // ---------------------------------------------------------------- every reachable store

  ghost predicate StoreGood(s: Store) {
    forall t :: t in s.cells ==> CellGood(s.cells[t])
  }

  lemma StoreStep(s: Store, step: Step)
    requires StoreGood(s)
    ensures StoreGood(Next(s, step))
  {
    var t := Subject(step);
    if t in s.cells {
      CellStep(s.cells[t], step, s.nextToken);
    } else if step.Accepts? {
      NewCellGood(step.owner, step.runId, step.maxAttempts);
    }
  }

  lemma {:induction false} RunGood(r: Run, i: nat)
    requires Legal(r) && i <= |r.steps|
    ensures StoreGood(r.stores[i])
  {
    if i > 0 {
      RunGood(r, i - 1);
      assert Linked(r, i - 1);
      StoreStep(r.stores[i - 1], r.steps[i - 1]);
    }
  }
}

/**
 How long a lease is good for, who can end it, and what binds an outbox row or a route:
 laws about single transactions, and over any run between them.
 */
module TicketLeases {
  import opened Common
  import opened Tickets
  import opened TicketProofs
  import opened TicketSafety
  import opened TicketStatus

  // ---------------------------------------------------------------- the time of a lease

  /** The ticket is leased out under l until the given time. */
  predicate Leased(c: Cell, l: Lease, until: int) {
    && c.row.status == Running && c.row.expires == Some(until)
    && c.row.worker == Some(l.worker) && c.row.token == Some(l.token) && c.row.generation == l.generation
  }

  /** It is held exactly up to that time, can be reclaimed exactly after it, and meanwhile nobody claims the ticket. */
  lemma LeasedIsHeld(c: Cell, l: Lease, until: int, at: nat)
    requires Leased(c, l, until)
    ensures Holds(c, l, at) <==> at <= until
    ensures Expired(c, at) <==> until < at
    ensures Expire(c, at) == c <==> at <= until
    ensures forall worker: string, token: nat, leaseMs: int :: Claim(c, worker, token, leaseMs, at) == c
  {
  }

  /** Two leases that hold a ticket are one, up to the expiry the holder was told last. */
  lemma OneHolder(c: Cell, l: Lease, k: Lease, now: nat, later: nat)
    requires Holds(c, l, now) && Holds(c, k, later) && l.ticket == k.ticket
    ensures k == l.(expires := k.expires)
  {
  }

  /** A claim leases the ticket out for its time, from the moment of the claim. */
  lemma ClaimLeases(c: Cell, t: TicketId, worker: string, token: nat, leaseMs: int, now: nat)
    requires c.row.status == Accepted || c.row.status == Waiting
    ensures Leased(NextCell(c, Claims(t, worker, leaseMs, now), token), Lease(t, worker, token, c.row.generation + 1, now + leaseMs), now + leaseMs)
  {
  }

  /**
   A heartbeat moves the end of a lease that is held, and nothing else: the lease is then good
   exactly until its new end, nobody can reclaim the ticket before, and nobody can claim it.
   */
  lemma HeartbeatProlongs(c: Cell, l: Lease, leaseMs: int, now: nat, token: nat, at: nat)
    requires Holds(c, l, now)
    ensures var after := NextCell(c, Beats(l, leaseMs, now), token);
            && after == c.(row := c.row.(expires := Some(now + leaseMs)))
            && Leased(after, l, now + leaseMs)
            && (Holds(after, l, at) <==> at <= now + leaseMs)
            && (Expire(after, at) == after <==> at <= now + leaseMs)
            && Claim(after, l.worker, token, leaseMs, at) == after
  {
    LeasedIsHeld(NextCell(c, Beats(l, leaseMs, now), token), l, now + leaseMs, at);
  }

  predicate SameHolder(k: Lease, l: Lease) {
    k.worker == l.worker && k.token == l.token && k.generation == l.generation
  }

  /** The only steps on a ticket that end its lease or move its end: the holder's own, in time, and an expiry out of time. */
  predicate Ends(c: Cell, step: Step, l: Lease, until: int) {
    match step
    case Completes(k, now) => SameHolder(k, l) && now <= until && c.row.owner != ""
    case FailsAttempt(k, f, now) =>
      SameHolder(k, l) && now <= until &&
      ((f != Authorization && f != Permanent && c.row.attempts < c.row.maxAttempts) || c.row.owner != "")
    case Beats(k, leaseMs, now) => SameHolder(k, l) && now <= until && now + leaseMs != until
    case Expires(_, now) => until < now
    case _ => false
  }

  lemma LeaseEndsIff(c: Cell, step: Step, token: nat, l: Lease, until: int)
    requires Leased(c, l, until)
    ensures Leased(NextCell(c, step, token), l, until) <==> !Ends(c, step, l, until)
  {
  }

  predicate LeasedAt(r: Run, i: nat, l: Lease, until: int)
    requires i < |r.stores|
  {
    l.ticket in r.stores[i].cells && Leased(r.stores[i].cells[l.ticket], l, until)
  }

  /**
   Over any run, whatever happens to this and to other tickets: a lease good until some time
   stays so, unless its own holder ends or prolongs it in time or an expiry comes out of time.
   */
  lemma {:induction false} LeaseEndsBy(r: Run, i: nat, j: nat, l: Lease, until: int) returns (k: nat)
    requires Legal(r) && i <= j <= |r.steps| && LeasedAt(r, i, l, until)
    ensures !LeasedAt(r, j, l, until) ==>
              i <= k < j && LeasedAt(r, k, l, until) && Subject(r.steps[k]) == l.ticket &&
              Ends(r.stores[k].cells[l.ticket], r.steps[k], l, until)
  {
    k := i;
    if i < j {
      k := LeaseEndsBy(r, i, j - 1, l, until);
      if LeasedAt(r, j - 1, l, until) {
        k := j - 1;
        CellAt(r, k, l.ticket);
        LeaseEndsIff(r.stores[k].cells[l.ticket], r.steps[k], r.stores[k].nextToken, l, until);
      }
    }
  }

  /** So a lease that beat at `now` is held at every point of the run and every moment up to `now + leaseMs`, until such a step. */
  lemma BeatHolds(r: Run, i: nat, j: nat, l: Lease, leaseMs: int, now: nat, at: nat) returns (k: nat)
    requires Legal(r) && i < j <= |r.steps| && r.steps[i] == Beats(l, leaseMs, now)
    requires l.ticket in r.stores[i].cells && Holds(r.stores[i].cells[l.ticket], l, now) && at <= now + leaseMs
    ensures (l.ticket in r.stores[j].cells && Holds(r.stores[j].cells[l.ticket], l, at)) ||
            (i < k < j && Subject(r.steps[k]) == l.ticket && l.ticket in r.stores[k].cells &&
             Ends(r.stores[k].cells[l.ticket], r.steps[k], l, now + leaseMs))
  {
    CellAt(r, i, l.ticket);
    HeartbeatProlongs(r.stores[i].cells[l.ticket], l, leaseMs, now, r.stores[i].nextToken, at);
    k := LeaseEndsBy(r, i + 1, j, l, now + leaseMs);
  }

  // ---------------------------------------------------------------- the run of an outbox row

  /**
   Binding a pending row to a run: from then on the receipt of that run settles it, no other
   run can be bound to it and the receipt of no other run settles it.
   */
  lemma BindingIsExclusive(c: Cell, t: TicketId, run: string, key: SessionKey, token: nat)
    requires c.outbox.Some? && !c.outbox.value.delivered && (key == "" || c.outbox.value.owner == key)
    requires c.outbox.value.run.None? || c.outbox.value.run == Some(run)
    ensures var after := NextCell(c, Binds(t, run, key), token);
            && after == c.(outbox := Some(c.outbox.value.(run := Some(run))))
            && MarkDelivered(after, Some(run), key).outbox == Some(c.outbox.value.(run := Some(run), delivered := true, scheduledAt := None))
            && (forall other, k :: other != run ==> NextCell(after, Binds(t, other, k), token) == after)
            && (forall other, k :: other != run ==> MarkDelivered(after, Some(other), k) == after && MarkDeliveryFailed(after, Some(other), k) == after)
  {
  }

  /** A failed delivery frees the row for any run, and does not deliver it. */
  lemma FailureFreesTheRow(c: Cell, t: TicketId, run: Option<string>, key: SessionKey, token: nat, other: string)
    requires c.outbox.Some? && !c.outbox.value.delivered && (key == "" || c.outbox.value.owner == key)
    requires run.None? || c.outbox.value.run == run
    ensures var after := NextCell(c, FailsOutbox(t, run, key), token);
            && after == c.(outbox := Some(c.outbox.value.(run := None, scheduledAt := None)))
            && BoundTo(NextCell(after, Binds(t, other, key), token), other)
  {
  }

  /** Scheduling a pending row counts one more attempt and binds it to the run it names, or to none. */
  lemma SchedulingCounts(c: Cell, t: TicketId, run: Option<string>, now: nat, token: nat)
    requires c.outbox.Some?
    ensures var after := NextCell(c, Schedules(t, run, now), token);
            if c.outbox.value.delivered then after == c
            else after == c.(outbox := Some(c.outbox.value.(attempts := c.outbox.value.attempts + 1, scheduledAt := Some(now), run := run)))
  {
  }

  // ---------------------------------------------------------------- the route of a ticket

  lemma {:induction false} LastRouteIs(log: seq<Event>)
    ensures LastRoute(log).None? <==> forall i :: 0 <= i < |log| ==> !log[i].Routed?
    ensures LastRoute(log).Some? ==> exists i :: 0 <= i < |log| && log[i] == Routed(LastRoute(log).value)
  {
    if log != [] && !log[|log| - 1].Routed? {
      LastRouteIs(log[..|log| - 1]);
    }
  }

  /** One decision in the log at most; an accepted ticket is on the lane it says. */
  predicate RouteGood(c: Cell) {
    && (forall i, j :: 0 <= i < j < |c.log| ==> !(c.log[i].Routed? && c.log[j].Routed?))
    && (forall i :: 0 <= i < |c.log| && c.log[i].Routed? && c.row.status == Accepted ==> c.row.eligible == c.log[i].eligible)
    && (c.row.status == Accepted && c.row.eligible ==> exists i :: 0 <= i < |c.log| && c.log[i] == Routed(true))
  }

  /** A transaction other than a decision adds none and leaves the lane of an accepted ticket alone. */
  lemma UnroutedStep(c: Cell, step: Step, token: nat)
    requires CellGood(c) && !step.Routes?
    ensures var after := NextCell(c, step, token);
            && c.log <= after.log
            && (forall i :: |c.log| <= i < |after.log| ==> !after.log[i].Routed?)
            && (after.row.status == Accepted ==> c.row.status == Accepted && after.row.eligible == c.row.eligible)
  {
  }

  lemma RouteStep(c: Cell, step: Step, token: nat)
    requires CellGood(c) && RouteGood(c)
    ensures RouteGood(NextCell(c, step, token))
  {
    var after := NextCell(c, step, token);
    if step.Routes? {
      LastRouteIs(c.log);
      if after != c {
        assert after.log[|c.log|] == Routed(step.eligible);
      }
    } else {
      UnroutedStep(c, step, token);
      if exists i :: 0 <= i < |c.log| && c.log[i] == Routed(true) {
        var i :| 0 <= i < |c.log| && c.log[i] == Routed(true);
        assert after.log[i] == Routed(true);
      }
    }
  }

  /** In every reachable store a ticket was routed at most once, and while accepted is eligible exactly when it was routed so. */
  lemma {:induction false} RoutedOnce(r: Run, i: nat, t: TicketId)
    requires Legal(r) && i <= |r.steps| && t in r.stores[i].cells
    ensures RouteGood(r.stores[i].cells[t])
  {
    if i > 0 {
      assert Linked(r, i - 1);
      if t in r.stores[i - 1].cells {
        RoutedOnce(r, i - 1, t);
        RunGood(r, i - 1);
        RouteStep(r.stores[i - 1].cells[t], r.steps[i - 1], r.stores[i - 1].nextToken);
      }
    }
  }
}

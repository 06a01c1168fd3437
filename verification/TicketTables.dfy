/**
 The ticket store and its dispatcher as the plugin executes them: three tables
 updated in place, the event table append-only. Every method is proved to perform
 steps of module Tickets, whose runs modules TicketProofs and TicketSafety are about.
 The answer of an ordered query is a parameter; its requires say which rows it may name.
 */
module TicketTables {
  import opened Common
  import opened Tickets
  import opened TicketLoops
  import opened TicketStatus

  class TicketStore {
    var tickets: map<TicketId, Ticket>
    var events: seq<Logged>
    var outbox: map<TicketId, Outbox>
    var nextToken: nat

    constructor ()
      ensures Valid() && View() == EMPTY_STORE
    {
      tickets, events, outbox, nextToken := map[], [], map[], 0;
    }

    /** The foreign keys. */
    ghost predicate Valid()
      reads this
    {
      && (forall e :: e in events ==> e.ticket in tickets)
      && (forall t :: t in outbox ==> t in tickets)
    }

    ghost function View(): Store
      reads this
    {
      Store(CellsOf(tickets, events, outbox), nextToken)
    }

    /** Ticket t turned into `after`; no other ticket, event or outbox row changed. */
    ghost predicate Turned(before: Store, t: TicketId, after: Cell)
      reads this
    {
      View().cells == before.cells[t := after]
    }

    /** No ticket, event or outbox row changed. */
    ghost predicate Same(before: Store)
      reads this
    {
      View().cells == before.cells
    }

    function At(t: TicketId): Cell
      requires t in tickets
      reads this
    {
      CellOf(tickets, events, outbox, t)
    }

    // -------------------------------------------------------------- statements

    /** An UPDATE of one row followed by its events. */
    method Transition(t: TicketId, row: Ticket, es: seq<Event>)
      requires Valid() && t in tickets
      modifies this`tickets, this`events
      ensures Valid() && tickets == old(tickets)[t := row] && events == old(events) + Tagged(t, es)
      ensures At(t) == old(At(t)).(row := row, log := old(At(t)).log + es)
      ensures View() == old(View()).(cells := old(View()).cells[t := At(t)])
    {
      CellsWritten(tickets, events, outbox, t, row, es);
      LogOfTagged(events, t, es, t);
      tickets := tickets[t := row];
      events := events + Tagged(t, es);
    }

    /** INSERT OR IGNORE; the caller has checked that the ticket has an owner session. */
    method EnqueueTerminal(t: TicketId, terminal: Status)
      requires Valid() && t in tickets
      modifies this`outbox
      ensures Valid() && At(t) == Enqueued(old(At(t)), terminal)
      ensures View() == old(View()).(cells := old(View()).cells[t := At(t)])
    {
      if t !in outbox {
        OutboxWritten(tickets, events, outbox, t, Outbox(tickets[t].owner, terminal, false, 0, None, None));
        outbox := outbox[t := Outbox(tickets[t].owner, terminal, false, 0, None, None)];
      }
    }

    /** The end of a ticket that failed: its row, its event and its outbox row. */
    method FailTicket(t: TicketId, row: Ticket)
      requires Valid() && t in tickets && row.owner == tickets[t].owner
      modifies this`tickets, this`events, this`outbox
      ensures Valid() && t in tickets
      ensures var c := old(At(t));
              At(t) == Cell(row, c.log + [FailedEvent],
                            if c.outbox.Some? then c.outbox else Some(Outbox(row.owner, Failed, false, 0, None, None)))
      ensures View() == old(View()).(cells := old(View()).cells[t := At(t)])
    {
      Transition(t, row, [FailedEvent]);
      EnqueueTerminal(t, Failed);
    }

    method UpdateOutbox(t: TicketId, o: Outbox)
      requires Valid() && t in tickets
      modifies this`outbox
      ensures Valid() && outbox == old(outbox)[t := o] && At(t) == old(At(t)).(outbox := Some(o))
      ensures View() == old(View()).(cells := old(View()).cells[t := At(t)])
    {
      OutboxWritten(tickets, events, outbox, t, o);
      outbox := outbox[t := o];
    }

    // -------------------------------------------------------------- intake

    /** The INSERT of a ticket with its first event. */
    method Insert(id: TicketId, row: Ticket)
      requires Valid() && id !in tickets
      modifies this`tickets, this`events
      ensures Valid() && tickets == old(tickets)[id := row]
      ensures View() == old(View()).(cells := old(View()).cells[id := Cell(row, [AcceptedEvent], None)])
    {
      CellsInserted(tickets, events, outbox, id, row, AcceptedEvent);
      tickets := tickets[id := row];
      events := events + [Logged(id, AcceptedEvent)];
    }

    /** `id` is the freshly drawn ticket id; a taken request key answers with its ticket. */
    method Accept(id: TicketId, owner: SessionKey, runId: string, maxAttempts: int) returns (ticket: TicketId, duplicate: bool)
      requires Valid() && id !in tickets
      modifies this`tickets, this`events
      ensures Valid() && View() == Next(old(View()), Accepts(id, owner, runId, maxAttempts))
      ensures ticket in tickets && tickets[ticket].request == Request(owner, runId)
      ensures duplicate <==> ticket in old(tickets)
      ensures duplicate ==> Same(old(View()))
      ensures !duplicate ==>
                ticket == id &&
                var limit := if maxAttempts < 1 then 1 else if 20 < maxAttempts then 20 else maxAttempts;
                Turned(old(View()), id, Cell(
                         Ticket(Request(owner, runId), owner, Accepted, false, None, None, 0, None, 0, limit, None, None, None, None),
                         [AcceptedEvent], None))
    {
      TakenInRows(tickets, events, outbox, nextToken, Request(owner, runId));
      var taken := set u | u in tickets && tickets[u].request == Request(owner, runId);
      if taken != {} {
        ticket :| ticket in taken;
        return ticket, true;
      }
      var row := Ticket(Request(owner, runId), owner, Accepted, false, None, None, 0, None, 0, Clamp(maxAttempts, 1, 20),
                        None, None, None, None);
      Insert(id, row);
      ticket, duplicate := id, false;
    }

    /** Err: an earlier decision said otherwise. */
    method RouteTicket(t: TicketId, eligible: bool) returns (routed: Result<bool, string>)
      requires Valid()
      modifies this`tickets, this`events
      ensures Valid() && View() == Next(old(View()), Routes(t, eligible))
      ensures routed.Err? <==> t in tickets && old(tickets)[t].status == Accepted &&
                               LastRoute(LogOf(old(events), t)) == Some(!eligible)
      ensures routed.Ok? ==> (routed.value <==> View() != old(View()))
      ensures routed == Ok(true) <==>
                t in old(tickets) && old(tickets)[t].status == Accepted && LastRoute(LogOf(old(events), t)).None?
      ensures if routed == Ok(true)
              then Turned(old(View()), t, Cell(old(tickets)[t].(eligible := eligible), old(At(t)).log + [Routed(eligible)], old(At(t)).outbox))
              else Same(old(View()))
    {
      if t !in tickets || tickets[t].status != Accepted {
        return Ok(false);
      }
      var prior := LastRoute(LogOf(events, t));
      if prior.Some? {
        return if prior.value != eligible then Err("conflicting route transition") else Ok(false);
      }
      Transition(t, tickets[t].(eligible := eligible), [Routed(eligible)]);
      assert |View().cells[t].log| != |old(View()).cells[t].log|;
      routed := Ok(true);
    }

    // -------------------------------------------------------------- the direct lane

    /** Whether `found` may answer the query for a direct ticket of this run. */
    ghost predicate FindsRun(found: Option<TicketId>, runId: string, readyOnly: bool)
      reads this
    {
      match found
      case Some(t) => t in tickets && Direct(At(t)) && tickets[t].request.runId == runId && (readyOnly ==> tickets[t].readyAt.Some?)
      case None => forall t :: t in tickets && Direct(At(t)) && tickets[t].request.runId == runId ==> readyOnly && tickets[t].readyAt.None?
    }

    method FinalizeDirectRun(found: Option<TicketId>, runId: string, success: bool, interrupted: bool, expectsDelivery: bool, now: nat)
      returns (outcome: Result<Option<Status>, string>)
      requires Valid() && FindsRun(found, runId, false)
      modifies this`tickets, this`events, this`outbox
      ensures Valid()
      ensures View() == if found.None? then old(View())
                        else Next(old(View()), Finalizes(found.value, success, interrupted, expectsDelivery, now))
      ensures outcome.Err? <==> found.Some? && !success && !interrupted && old(tickets)[found.value].owner == ""
      ensures found.Some? ==> found.value in tickets
      ensures outcome.Ok? ==> outcome.value == if found.None? then None else Some(tickets[found.value].status)
      ensures if found.None? || outcome.Err? then Same(old(View()))
              else var c := old(At(found.value));
              Turned(old(View()), found.value,
                     if success && expectsDelivery then c.(row := c.row.(readyAt := Some(now)), log := c.log + [ResponseReady])
                     else if success then
                       c.(row := c.row.(status := Completed, readyAt := Some(now), confirmedAt := Some(now)),
                          log := c.log + [ResponseReady, DeliveryConfirmed, CompletedEvent])
                     else if interrupted then
                       c.(row := c.row.(status := Waiting, eligible := true), log := c.log + [PromotedToDurable])
                     else
                       Cell(c.row.(status := Failed, eligible := false), c.log + [FailedEvent],
                            if c.outbox.Some? then c.outbox else Some(Outbox(c.row.owner, Failed, false, 0, None, None))))
    {
      if found.None? {
        return Ok(None);
      }
      var t := found.value;
      if success {
        if !expectsDelivery {
          Transition(t, tickets[t].(status := Completed, readyAt := Some(now), confirmedAt := Some(now)), [ResponseReady, DeliveryConfirmed, CompletedEvent]);
          return Ok(Some(Completed));
        }
        Transition(t, tickets[t].(readyAt := Some(now)), [ResponseReady]);
        return Ok(Some(Accepted));
      }
      if interrupted {
        Transition(t, tickets[t].(status := Waiting, eligible := true), [PromotedToDurable]);
        return Ok(Some(Waiting));
      }
      if tickets[t].owner == "" {
        // enqueueTerminal throws and the transaction is rolled back
        return Err("Ticket has no owner session");
      }
      FailTicket(t, tickets[t].(status := Failed, eligible := false));
      outcome := Ok(Some(Failed));
    }

    method ConfirmDirectDelivery(found: Option<TicketId>, runId: string, now: nat) returns (completed: bool)
      requires Valid() && FindsRun(found, runId, true)
      modifies this`tickets, this`events
      ensures Valid()
      ensures View() == if found.None? then old(View()) else Next(old(View()), Confirms(found.value, now))
      ensures completed <==> found.Some?
      ensures if found.None? then Same(old(View()))
              else var c := old(At(found.value));
              Turned(old(View()), found.value,
                     c.(row := c.row.(status := Completed, confirmedAt := Some(now)), log := c.log + [DeliveryConfirmed, CompletedEvent]))
    {
      if found.None? {
        return false;
      }
      var t := found.value;
      Transition(t, tickets[t].(status := Completed, confirmedAt := Some(now)), [DeliveryConfirmed, CompletedEvent]);
      completed := true;
    }

    method FailDirectRun(found: Option<TicketId>, runId: string) returns (waiting: bool)
      requires Valid() && FindsRun(found, runId, false)
      modifies this`tickets, this`events
      ensures Valid()
      ensures View() == if found.None? then old(View()) else Next(old(View()), FailsDelivery(found.value))
      ensures waiting <==> found.Some?
      ensures if found.None? then Same(old(View()))
              else var c := old(At(found.value));
              Turned(old(View()), found.value,
                     c.(row := c.row.(status := Waiting, eligible := true), log := c.log + [DirectDeliveryFailed]))
    {
      if found.None? {
        return false;
      }
      Transition(found.value, tickets[found.value].(status := Waiting, eligible := true), [DirectDeliveryFailed]);
      waiting := true;
    }

    /** One iteration: a row that moved on meanwhile is skipped. */
    method TimeOut(t: TicketId, cutoff: nat) returns (changed: bool)
      requires Valid() && t in View().cells && (View().cells[t].row.status == Waiting || Undelivered(View().cells[t], cutoff))
      modifies this`tickets, this`events
      ensures Valid() && changed == Undelivered(old(View()).cells[t], cutoff)
      ensures View() == old(View()).(cells := old(View()).cells[t := RecoverUndelivered(old(View()).cells[t], cutoff)])
    {
      changed := tickets[t].status == Accepted && tickets[t].confirmedAt.None?;
      if changed {
        Transition(t, tickets[t].(status := Waiting, eligible := true), [DirectDeliveryTimeout]);
      } else {
        assert View().cells[t := At(t)] == View().cells;
      }
    }

    method RecoverUndeliveredDirect(rows: seq<TicketId>, cutoff: nat) returns (recovered: set<TicketId>)
      requires Valid() && AllDue(View().cells, rows, Overdue(cutoff))
      modifies this`tickets, this`events
      ensures Valid() && View() == old(View()).(cells := SweepCells(old(View()).cells, rows, Overdue(cutoff)))
      ensures recovered == Seen(rows)
      ensures View().cells == map t | t in old(View()).cells :: var c := old(View()).cells[t];
                if t in rows then c.(row := c.row.(status := Waiting, eligible := true), log := c.log + [DirectDeliveryTimeout])
                else c
    {
      recovered := {};
      ghost var cells := View().cells;
      var i := 0;
      while i < |rows|
        invariant i <= |rows| && Valid() && View() == old(View()).(cells := SweepCells(cells, rows[..i], Overdue(cutoff)))
        invariant recovered == Seen(rows[..i])
      {
        SweepIteration(cells, rows, i, Overdue(cutoff));
        var changed := TimeOut(rows[i], cutoff);
        if changed {
          recovered := recovered + {rows[i]};
        }
        i := i + 1;
      }
      assert rows[..i] == rows;
      OverdueRows(cells, rows, cutoff);
    }

    predicate Unanswered(t: TicketId, key: SessionKey)
      requires t in tickets
      reads this
    {
      Direct(At(t)) && tickets[t].readyAt.None? && tickets[t].owner == key
    }

    /** `found` answers the query for a direct ticket of the session without a response. */
    method PromotePendingDirect(found: Option<TicketId>, key: SessionKey)
      requires Valid()
      requires match found
               case Some(t) => t in tickets && Unanswered(t, key)
               case None => forall t :: t in tickets ==> !Unanswered(t, key)
      modifies this`tickets, this`events
      ensures Valid()
      ensures View() == if found.None? then old(View()) else Next(old(View()), Promotes(found.value))
      ensures found.Some? ==> found.value in View().cells && View().cells[found.value].row.status == Waiting
      ensures if found.None? then Same(old(View()))
              else var c := old(At(found.value));
              Turned(old(View()), found.value,
                     c.(row := c.row.(status := Waiting, eligible := true), log := c.log + [PostCompactionPromoted]))
    {
      if found.Some? {
        Transition(found.value, tickets[found.value].(status := Waiting, eligible := true), [PostCompactionPromoted]);
      }
    }

    /** `rows` answers the query for the open tickets of the source session. Err: a missing key. */
    method RebindSessionOwner(rows: seq<TicketId>, source: SessionKey, target: SessionKey) returns (moved: Result<nat, string>)
      requires Valid()
      requires forall i, j :: 0 <= i < j < |rows| ==> rows[i] != rows[j]
      requires forall t :: t in rows <==> t in View().cells && OpenOf(View().cells[t], source)
      modifies this`tickets, this`events, this`outbox
      ensures Valid() && View() == old(View()).(cells := Rebound(old(View()).cells, source, target))
      ensures moved.Err? <==> source == "" || target == ""
      ensures moved.Ok? ==> moved.value == if source == target then 0 else |rows|
      ensures moved.Err? || source == target ==> Same(old(View()))
      ensures moved.Ok? && source != target ==>
                View().cells.Keys == old(View()).cells.Keys &&
                forall t :: t in View().cells ==> Moved(old(View()).cells[t], View().cells[t], source, target)
    {
      ghost var cells := View().cells;
      if source == "" || target == "" {
        assert Rebound(cells, source, target) == cells;
        return Err("valid session succession keys required");
      }
      if source == target {
        assert Rebound(cells, source, target) == cells;
        return Ok(0);
      }
      var i := 0;
      assert HandedOver(cells, Seen(rows[..0]), source, target) == cells;
      while i < |rows|
        invariant i <= |rows| && Valid() && View() == old(View()).(cells := HandedOver(cells, Seen(rows[..i]), source, target))
      {
        HandOverOne(cells, rows, i, source, target);
        HandOver(rows[i], source, target);
        i := i + 1;
      }
      assert rows[..i] == rows;
      HandOverDone(cells, Seen(rows), source, target);
      OutboxesMoved(tickets, events, outbox, source, target);
      ReboundRows(cells, source, target);
      outbox := MovedOutbox(outbox, source, target);
      moved := Ok(|rows|);
    }

    method HandOver(t: TicketId, source: SessionKey, target: SessionKey)
      requires Valid() && t in View().cells && OpenOf(View().cells[t], source)
      modifies this`tickets, this`events
      ensures Valid()
      ensures View() == old(View()).(cells := old(View()).cells[t := OwnerMoved(old(View()).cells[t], source, target)])
    {
      Transition(t, tickets[t].(owner := target), [OwnerRebound(target)]);
    }

    // -------------------------------------------------------------- leases

    /** Err: no worker or a lease under a second. None: the ticket is not claimable. */
    method ClaimTicket(t: TicketId, worker: string, leaseMs: int, now: nat) returns (lease: Result<Option<Lease>, string>)
      requires Valid()
      modifies this`tickets, this`events, this`nextToken
      ensures Valid()
      ensures lease.Err? <==> worker == "" || leaseMs < 1000
      ensures View() == if lease.Err? then old(View()) else Next(old(View()), Claims(t, worker, leaseMs, now))
      ensures lease.Ok? ==> (lease.value.Some? <==> t in old(tickets) && Claimable(old(At(t))))
      ensures lease.Ok? && lease.value.Some? ==>
                lease.value.value == LeaseOf(old(At(t)), t, worker, old(nextToken), leaseMs, now) &&
                t in tickets && Holds(At(t), lease.value.value, now)
      ensures lease.Ok? && lease.value.Some? ==>
                (old(tickets)[t].status == Accepted || old(tickets)[t].status == Waiting) &&
                var c, n := old(At(t)), old(tickets)[t].generation + 1;
                && lease.value.value == Lease(t, worker, old(nextToken), n, now + leaseMs)
                && Turned(old(View()), t, c.(
                            row := c.row.(status := Running, worker := Some(worker), token := Some(old(nextToken)), generation := n,
                                          expires := Some(now + leaseMs), attempts := c.row.attempts + 1),
                            log := c.log + [ClaimedEvent(n)]))
      ensures lease.Ok? && lease.value.None? ==> t in old(tickets) ==> old(tickets)[t].status != Accepted && old(tickets)[t].status != Waiting
      ensures lease.Err? || lease.value.None? ==> Same(old(View()))
    {
      if worker == "" || leaseMs < 1000 {
        return Err("claim requires workerId and leaseMs >= 1000");
      }
      var token := nextToken;
      nextToken := nextToken + 1;
      if t !in tickets || (tickets[t].status != Accepted && tickets[t].status != Waiting) {
        assert t in tickets ==> View().cells[t := At(t)] == View().cells;
        return Ok(None);
      }
      var generation := tickets[t].generation + 1;
      Transition(t, tickets[t].(status := Running, worker := Some(worker), token := Some(token), generation := generation,
                            expires := Some(now + leaseMs), attempts := tickets[t].attempts + 1), [ClaimedEvent(generation)]);
      lease := Ok(Some(Lease(t, worker, token, generation, now + leaseMs)));
    }

    method HeartbeatLease(l: Lease, leaseMs: int, now: nat) returns (renewed: Result<Lease, string>)
      requires Valid()
      modifies this`tickets, this`events
      ensures Valid() && View() == Next(old(View()), Beats(l, leaseMs, now))
      ensures renewed.Ok? <==> l.ticket in old(tickets) && Holds(old(At(l.ticket)), l, now)
      ensures renewed.Ok? ==> renewed.value == l.(expires := now + leaseMs)
      ensures renewed.Ok? <==>
                && l.ticket in old(tickets)
                && var row := old(tickets)[l.ticket];
                && row.status == Running && row.worker == Some(l.worker) && row.token == Some(l.token)
                && row.generation == l.generation && row.expires.Some? && now <= row.expires.value
      ensures if renewed.Ok?
              then tickets == old(tickets)[l.ticket := old(tickets)[l.ticket].(expires := Some(now + leaseMs))]
              else tickets == old(tickets)
      ensures events == old(events)
    {
      if l.ticket !in tickets || !Holds(At(l.ticket), l, now) {
        assert l.ticket in tickets ==> View().cells[l.ticket := At(l.ticket)] == View().cells;
        return Err("stale or expired ticket lease");
      }
      Transition(l.ticket, tickets[l.ticket].(expires := Some(now + leaseMs)), []);
      assert events == old(events);
      renewed := Ok(l.(expires := now + leaseMs));
    }

    method LinkWorkflow(l: Lease, workflow: string, manifest: string, now: nat) returns (linked: bool)
      requires Valid()
      modifies this`tickets, this`events
      ensures Valid() && View() == Next(old(View()), Links(l, workflow, manifest, now))
      ensures linked <==> l.ticket in old(tickets) && Linkable(old(At(l.ticket)), l, workflow, now)
      ensures linked <==>
                && l.ticket in old(tickets) && Holds(old(At(l.ticket)), l, now)
                && (old(tickets)[l.ticket].workflow.None? || old(tickets)[l.ticket].workflow == Some(workflow))
      ensures if !linked then Same(old(View()))
              else var c := old(At(l.ticket));
              Turned(old(View()), l.ticket,
                     c.(row := c.row.(workflow := Some(workflow), manifest := Some(manifest)), log := c.log + [WorkflowLinked(workflow)]))
    {
      if l.ticket !in tickets || !Linkable(At(l.ticket), l, workflow, now) {
        assert l.ticket in tickets ==> View().cells[l.ticket := At(l.ticket)] == View().cells;
        return false;
      }
      Transition(l.ticket, tickets[l.ticket].(workflow := Some(workflow), manifest := Some(manifest)), [WorkflowLinked(workflow)]);
      linked := true;
    }

    /** False: the lease is stale, or the ticket has no owner session and the transaction is rolled back. */
    method CompleteTicket(l: Lease, now: nat) returns (completed: bool)
      requires Valid()
      modifies this`tickets, this`events, this`outbox
      ensures Valid() && View() == Next(old(View()), Completes(l, now))
      ensures completed <==> l.ticket in old(tickets) && Holds(old(At(l.ticket)), l, now) && old(tickets)[l.ticket].owner != ""
      ensures if !completed then Same(old(View()))
              else var c := old(At(l.ticket));
              Turned(old(View()), l.ticket, Cell(
                       c.row.(status := Completed, expires := None), c.log + [CompletedEvent],
                       if c.outbox.Some? then c.outbox else Some(Outbox(c.row.owner, Completed, false, 0, None, None))))
    {
      var t := l.ticket;
      if t !in tickets || !Holds(At(t), l, now) || tickets[t].owner == "" {
        assert t in tickets ==> View().cells[t := At(t)] == View().cells;
        return false;
      }
      Transition(t, tickets[t].(status := Completed, expires := None), [CompletedEvent]);
      EnqueueTerminal(t, Completed);
      completed := true;
    }

    method FailLease(l: Lease, classification: FailureClass, now: nat) returns (status: Result<Status, string>)
      requires Valid()
      modifies this`tickets, this`events, this`outbox
      ensures Valid() && View() == Next(old(View()), FailsAttempt(l, classification, now))
      ensures status.Ok? <==> l.ticket in old(tickets) && Holds(old(At(l.ticket)), l, now) &&
                              (Retryable(old(At(l.ticket)), classification) || old(tickets)[l.ticket].owner != "")
      ensures status.Ok? ==> l.ticket in tickets && status.value == tickets[l.ticket].status &&
                             status.value == if Retryable(old(At(l.ticket)), classification) then Waiting else Failed
      ensures status == Ok(Waiting) <==>
                && l.ticket in old(tickets) && Holds(old(At(l.ticket)), l, now)
                && classification !in {Authorization, Permanent}
                && old(tickets)[l.ticket].attempts < old(tickets)[l.ticket].maxAttempts
      ensures if status.Err? then Same(old(View()))
              else var c := old(At(l.ticket));
              var row := c.row.(status := status.value, worker := None, token := None, expires := None);
              Turned(old(View()), l.ticket,
                     if status.value == Waiting then c.(row := row, log := c.log + [WaitingEvent])
                     else Cell(row, c.log + [FailedEvent],
                               if c.outbox.Some? then c.outbox else Some(Outbox(c.row.owner, Failed, false, 0, None, None))))
    {
      var t := l.ticket;
      if t !in tickets || !Holds(At(t), l, now) {
        assert t in tickets ==> View().cells[t := At(t)] == View().cells;
        return Err("stale or expired ticket lease");
      }
      var retryable := classification != Authorization && classification != Permanent &&
                       tickets[t].attempts < tickets[t].maxAttempts;
      if !retryable && tickets[t].owner == "" {
        assert View().cells[t := At(t)] == View().cells;
        return Err("Ticket has no owner session");
      }
      var next := if retryable then Waiting else Failed;
      var row := tickets[t].(status := next, worker := None, token := None, expires := None);
      if retryable {
        Transition(t, row, [WaitingEvent]);
      } else {
        FailTicket(t, row);
      }
      status := Ok(next);
    }

    /** One iteration: a row that moved on meanwhile is skipped. */
    method ExpireOne(t: TicketId, now: nat) returns (changed: bool)
      requires Valid() && t in View().cells && (View().cells[t].row.status == Waiting || Expired(View().cells[t], now))
      modifies this`tickets, this`events
      ensures Valid() && changed == Expired(old(View()).cells[t], now)
      ensures View() == old(View()).(cells := old(View()).cells[t := Expire(old(View()).cells[t], now)])
    {
      changed := tickets[t].status == Running;
      if changed {
        Transition(t, tickets[t].(status := Waiting, worker := None, token := None, expires := None), [LeaseExpired]);
      } else {
        assert View().cells[t := At(t)] == View().cells;
      }
    }

    method RecoverExpired(rows: seq<TicketId>, now: nat) returns (recovered: set<TicketId>)
      requires Valid() && AllDue(View().cells, rows, Lapsed(now))
      modifies this`tickets, this`events
      ensures Valid() && View() == old(View()).(cells := SweepCells(old(View()).cells, rows, Lapsed(now)))
      ensures recovered == Seen(rows)
      ensures View().cells == map t | t in old(View()).cells :: var c := old(View()).cells[t];
                if t in rows then c.(row := c.row.(status := Waiting, worker := None, token := None, expires := None), log := c.log + [LeaseExpired])
                else c
    {
      recovered := {};
      ghost var cells := View().cells;
      var i := 0;
      while i < |rows|
        invariant i <= |rows| && Valid() && View() == old(View()).(cells := SweepCells(cells, rows[..i], Lapsed(now)))
        invariant recovered == Seen(rows[..i])
      {
        SweepIteration(cells, rows, i, Lapsed(now));
        var changed := ExpireOne(rows[i], now);
        if changed {
          recovered := recovered + {rows[i]};
        }
        i := i + 1;
      }
      assert rows[..i] == rows;
      LapsedRows(cells, rows, now);
    }

    // -------------------------------------------------------------- outbox

    method MarkOutboxScheduled(t: TicketId, run: Option<string>, now: nat) returns (changed: bool)
      requires Valid()
      modifies this`outbox
      ensures Valid() && View() == Next(old(View()), Schedules(t, run, now))
      ensures changed <==> t in old(outbox) && !old(outbox)[t].delivered
      ensures outbox == if changed then old(outbox)[t := old(outbox)[t].(attempts := old(outbox)[t].attempts + 1, scheduledAt := Some(now), run := run)] else old(outbox)
    {
      if t !in outbox || outbox[t].delivered {
        assert t in tickets ==> View().cells[t := At(t)] == View().cells;
        return false;
      }
      UpdateOutbox(t, outbox[t].(attempts := outbox[t].attempts + 1, scheduledAt := Some(now), run := run));
      changed := true;
    }

    method BindOutboxRun(t: TicketId, run: string, key: SessionKey) returns (changed: bool)
      requires Valid()
      modifies this`outbox
      ensures Valid() && View() == Next(old(View()), Binds(t, run, key))
      ensures changed <==> t in old(tickets) && Bindable(old(At(t)), run, key)
      ensures changed <==>
                && t in old(outbox) && !old(outbox)[t].delivered
                && (key == "" || old(outbox)[t].owner == key) && (old(outbox)[t].run.None? || old(outbox)[t].run == Some(run))
      ensures outbox == if changed then old(outbox)[t := old(outbox)[t].(run := Some(run))] else old(outbox)
    {
      if t !in outbox || !Bindable(At(t), run, key) {
        assert t in tickets ==> View().cells[t := At(t)] == View().cells;
        return false;
      }
      UpdateOutbox(t, outbox[t].(run := Some(run)));
      changed := true;
    }

    method MarkOutboxDelivered(t: TicketId, run: Option<string>, key: SessionKey) returns (changed: bool)
      requires Valid()
      modifies this`outbox
      ensures Valid() && View() == Next(old(View()), Delivers(t, run, key))
      ensures changed <==> t in old(tickets) && Settles(old(At(t)), run, key)
      ensures changed <==>
                && t in old(outbox) && !old(outbox)[t].delivered
                && (key == "" || old(outbox)[t].owner == key) && (run.None? || old(outbox)[t].run == run)
      ensures outbox == if changed then old(outbox)[t := old(outbox)[t].(delivered := true, scheduledAt := None)] else old(outbox)
    {
      if t !in outbox || !Settles(At(t), run, key) {
        assert t in tickets ==> View().cells[t := At(t)] == View().cells;
        return false;
      }
      UpdateOutbox(t, outbox[t].(delivered := true, scheduledAt := None));
      changed := true;
    }

    method MarkOutboxFailed(t: TicketId, run: Option<string>, key: SessionKey) returns (changed: bool)
      requires Valid()
      modifies this`outbox
      ensures Valid() && View() == Next(old(View()), FailsOutbox(t, run, key))
      ensures changed <==> t in old(tickets) && Settles(old(At(t)), run, key)
      ensures changed <==>
                && t in old(outbox) && !old(outbox)[t].delivered
                && (key == "" || old(outbox)[t].owner == key) && (run.None? || old(outbox)[t].run == run)
      ensures outbox == if changed then old(outbox)[t := old(outbox)[t].(scheduledAt := None, run := None)] else old(outbox)
    {
      if t !in outbox || !Settles(At(t), run, key) {
        assert t in tickets ==> View().cells[t := At(t)] == View().cells;
        return false;
      }
      UpdateOutbox(t, outbox[t].(scheduledAt := None, run := None));
      changed := true;
    }

    // -------------------------------------------------------------- dispatch

    /**
     Claim one candidate and launch its worker, which links its workflow. When the launch
     fails the attempt is given back as a transient failure; this in turn fails when the
     lease ran out meanwhile, or when the ticket is out of attempts and has no owner
     session to tell.
     */
    method LaunchOne(t: TicketId, input: Input) returns (lease: Result<Option<Lease>, string>, ghost steps: seq<Step>)
      requires Valid() && t in View().cells && Ready(View().cells[t])
      modifies this
      ensures Valid() && t in View().cells && View() == Plays(old(View()), steps)
      ensures View().cells == old(View()).cells[t := View().cells[t]]
      ensures ByDispatcher(steps)
      ensures lease.Err? <==> LaunchFails(old(View()).cells[t], t, input)
      ensures lease.Ok? ==> (lease.value.Some? <==> Launches(old(View()).cells[t], t, input))
      ensures lease.Ok? && lease.value.Some? ==>
                && lease.value.value.ticket == t && LeasedOut(View().cells[t], lease.value.value, input)
                && lease.value.value.worker == input.prefix + "-" + t && lease.value.value.expires == input.now + input.leaseMs
      ensures lease.Ok? && lease.value.None? ==> View().cells[t].row.status == GivenBack(old(View()).cells[t])
    {
      ghost var before := View();
      if input.leaseMs < 1000 {
        assert before.cells[t := before.cells[t]] == before.cells;
        return Err("claim requires workerId and leaseMs >= 1000"), [];
      }
      ghost var dispatches: Step;
      var l;
      l, dispatches := ClaimCandidate(t, input);
      ghost var claimed := View();
      ghost var more: seq<Step>;
      lease, more := Launch(l, input);
      steps := [dispatches] + more;
      LaunchedStore(before, claimed, View(), t, l, input, dispatches, more);
    }

    method ClaimCandidate(t: TicketId, input: Input) returns (l: Lease, ghost dispatches: Step)
      requires Valid() && t in View().cells && Ready(View().cells[t]) && 1000 <= input.leaseMs
      modifies this
      ensures Valid() && dispatches.Dispatches? && View() == Next(old(View()), dispatches)
      ensures l == LeaseOf(old(View()).cells[t], t, input.prefix + "-" + t, old(View()).nextToken, input.leaseMs, input.now)
      ensures View().cells == old(View()).cells[t := Claim(old(View()).cells[t], l.worker, old(View()).nextToken, input.leaseMs, input.now)]
    {
      var worker := input.prefix + "-" + t;
      dispatches := Dispatches(t, worker, input.leaseMs, input.now);
      DispatchNext(View(), t, worker, input.leaseMs, input.now);
      var claim := ClaimTicket(t, worker, input.leaseMs, input.now);
      l := claim.value.value;
    }

    /** The launch callback and, when it throws, the catch block around it. */
    method Launch(l: Lease, input: Input) returns (lease: Result<Option<Lease>, string>, ghost steps: seq<Step>)
      requires Valid() && l.ticket in View().cells
      modifies this
      ensures Valid() && l.ticket in View().cells && View() == Plays(old(View()), steps) && ByDispatcher(steps)
      ensures View().cells == old(View()).cells[l.ticket := Attempted(old(View()).cells[l.ticket], l, input)]
      ensures var c := old(View()).cells[l.ticket];
              && (lease.Ok? <==> LinksTo(c, l, input) || CanGiveBack(c, l, input))
              && (lease.Ok? ==> lease.value == if LinksTo(c, l, input) then Some(l) else None)
    {
      ghost var before := View();
      var linked;
      linked, steps := TryLink(l, input);
      if linked {
        return Ok(Some(l)), steps;
      }
      assert View() == before;
      ghost var gives: Step;
      lease, gives := GiveBack(l, input.now + input.late);
      PlaysTwo(before, gives, gives);
      steps := [gives];
    }

    method TryLink(l: Lease, input: Input) returns (linked: bool, ghost steps: seq<Step>)
      requires Valid() && l.ticket in View().cells
      modifies this
      ensures Valid() && View() == Plays(old(View()), steps) && ByDispatcher(steps)
      ensures linked <==> LinksTo(old(View()).cells[l.ticket], l, input)
      ensures linked ==> View().cells == old(View()).cells[l.ticket := Attempted(old(View()).cells[l.ticket], l, input)]
      ensures !linked ==> View() == old(View())
    {
      steps := [];
      linked := false;
      if l.ticket in input.started {
        var s := input.started[l.ticket];
        ghost var links := Links(l, s.workflow, s.manifest, input.now + input.late);
        LinkNext(View(), l, s.workflow, s.manifest, input.now + input.late);
        PlaysTwo(View(), links, links);
        linked := LinkWorkflow(l, s.workflow, s.manifest, input.now + input.late);
        steps := if linked then [links] else [];
      }
    }

    /** The catch block of a launch. */
    method GiveBack(l: Lease, now: nat) returns (lease: Result<Option<Lease>, string>, ghost gives: Step)
      requires Valid() && l.ticket in View().cells
      modifies this
      ensures Valid() && gives == FailsAttempt(l, Transient, now) && View() == Next(old(View()), gives)
      ensures View() == old(View()).(cells := old(View()).cells[l.ticket := FailAttempt(old(View()).cells[l.ticket], l, Transient, now)])
      ensures var c := old(View()).cells[l.ticket];
              lease.Err? <==> !Holds(c, l, now) || (!Retryable(c, Transient) && c.row.owner == "")
      ensures lease.Ok? ==> lease.value.None?
    {
      FailNext(View(), l, Transient, now);
      gives := FailsAttempt(l, Transient, now);
      var failed := FailLease(l, Transient, now);
      lease := if failed.Err? then Err(failed.error) else Ok(None);
    }

    /** Dispatch the candidates, which answer the query for ready tickets, until one is refused admission. */
    method Dispatch(candidates: seq<TicketId>, input: Input) returns (claimed: Result<seq<Lease>, string>, ghost steps: seq<Step>)
      requires Valid() && |candidates| <= BatchSize(input.limit) && AllReady(View().cells, candidates)
      modifies this
      ensures Valid() && View() == Plays(old(View()), steps) && ByDispatcher(steps)
      ensures claimed.Err? <==> SomeFails(old(View()).cells, AdmittedPrefix(candidates, input.admitted), input)
      ensures claimed.Ok? ==>
                var cells, tried := old(View()).cells, AdmittedPrefix(candidates, input.admitted);
                TicketsOf(claimed.value) == Chosen(cells, tried, input) && Outcomes(cells, View().cells, tried, input, claimed.value)
    {
      ghost var before := View();
      var leases: seq<Lease> := [];
      steps := [];
      DispatchStart(before, candidates, input);
      var i := 0;
      while i < |candidates| && candidates[i] in input.admitted
        invariant Valid() && Dispatching(before, View(), candidates, input, i, steps, leases)
        invariant Outcomes(before.cells, View().cells, AdmittedPrefix(candidates, input.admitted)[..i], input, leases)
      {
        var t := candidates[i];
        ghost var middle := View();
        ghost var more: seq<Step>;
        var lease;
        DispatchNextReady(before, middle, candidates, input, i, steps, leases);
        lease, more := LaunchOne(t, input);
        DispatchIteration(before, middle, View(), candidates, input, i, steps, more, leases, lease);
        if lease.Err? {
          return Err(lease.error), steps + more;
        }
        OutcomesIteration(before.cells, middle.cells, View().cells, candidates, input, i, leases, lease.value);
        steps := steps + more;
        if lease.value.Some? {
          leases := leases + [lease.value.value];
        }
        i := i + 1;
      }
      DispatchEnd(before, View(), candidates, input, i, steps, leases);
      claimed := Ok(leases);
    }
  }
}

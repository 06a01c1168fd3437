/**
 What the loops of the ticket store and of its dispatcher compute: the cells of the
 three tables, the recovery sweeps, a change of owner session and a dispatch, each
 shown to be a sequence of steps of module Tickets.
 */
module TicketLoops {
  import opened Common
  import opened Tickets
  import opened TicketStatus

  datatype Logged = Logged(ticket: TicketId, event: Event)

  function LogOf(events: seq<Logged>, t: TicketId): seq<Event> {
    if events == [] then []
    else
      var front := LogOf(events[..|events| - 1], t);
      if events[|events| - 1].ticket == t then front + [events[|events| - 1].event] else front
  }

  lemma LogOfAppend(events: seq<Logged>, e: Logged, t: TicketId)
    ensures LogOf(events + [e], t) == if e.ticket == t then LogOf(events, t) + [e.event] else LogOf(events, t)
  {
    assert (events + [e])[..|events|] == events;
  }

  /** The events of one ticket as rows of the event table. */
  function Tagged(t: TicketId, es: seq<Event>): (rows: seq<Logged>)
    ensures forall e :: e in rows ==> e.ticket == t
  {
    if es == [] then [] else Tagged(t, es[..|es| - 1]) + [Logged(t, es[|es| - 1])]
  }

  lemma {:induction false} LogOfTagged(events: seq<Logged>, t: TicketId, es: seq<Event>, u: TicketId)
    ensures LogOf(events + Tagged(t, es), u) == if t == u then LogOf(events, u) + es else LogOf(events, u)
  {
    if es == [] {
      assert events + Tagged(t, es) == events;
    } else {
      var front, e := es[..|es| - 1], es[|es| - 1];
      LogOfTagged(events, t, front, u);
      LogOfAppend(events + Tagged(t, front), Logged(t, e), u);
      Associative(events, Tagged(t, front), [Logged(t, e)]);
      Associative(LogOf(events, u), front, [e]);
      assert es == front + [e];
    }
  }

  lemma Associative<T>(a: seq<T>, b: seq<T>, c: seq<T>)
    ensures a + (b + c) == (a + b) + c
  {
  }

  lemma {:induction false} NoEvents(events: seq<Logged>, t: TicketId)
    requires forall e :: e in events ==> e.ticket != t
    ensures LogOf(events, t) == []
  {
    if events != [] {
      NoEvents(events[..|events| - 1], t);
    }
  }

  function OutboxOf(outbox: map<TicketId, Outbox>, t: TicketId): Option<Outbox> {
    if t in outbox then Some(outbox[t]) else None
  }

  function CellOf(tickets: map<TicketId, Ticket>, events: seq<Logged>, outbox: map<TicketId, Outbox>, t: TicketId): Cell
    requires t in tickets
  {
    Cell(tickets[t], LogOf(events, t), OutboxOf(outbox, t))
  }

  function CellsOf(tickets: map<TicketId, Ticket>, events: seq<Logged>, outbox: map<TicketId, Outbox>): map<TicketId, Cell> {
    map t | t in tickets :: CellOf(tickets, events, outbox, t)
  }

  /** A row written, with its events appended, changes that ticket's cell and no other. */
  lemma CellsWritten(tickets: map<TicketId, Ticket>, events: seq<Logged>, outbox: map<TicketId, Outbox>, t: TicketId,
                     row: Ticket, es: seq<Event>)
    ensures CellsOf(tickets[t := row], events + Tagged(t, es), outbox) ==
            CellsOf(tickets, events, outbox)[t := Cell(row, LogOf(events, t) + es, OutboxOf(outbox, t))]
  {
    forall u {
      LogOfTagged(events, t, es, u);
    }
  }

  /** A new row with its first event. */
  lemma CellsInserted(tickets: map<TicketId, Ticket>, events: seq<Logged>, outbox: map<TicketId, Outbox>, t: TicketId, row: Ticket, e: Event)
    requires (forall l :: l in events ==> l.ticket != t) && t !in outbox
    ensures CellsOf(tickets[t := row], events + [Logged(t, e)], outbox) == CellsOf(tickets, events, outbox)[t := Cell(row, [e], None)]
  {
    NoEvents(events, t);
    CellsWritten(tickets, events, outbox, t, row, [e]);
    assert Tagged(t, [e]) == [Logged(t, e)] && [] + [e] == [e];
  }

  lemma OutboxWritten(tickets: map<TicketId, Ticket>, events: seq<Logged>, outbox: map<TicketId, Outbox>, t: TicketId, o: Outbox)
    requires t in tickets
    ensures CellsOf(tickets, events, outbox[t := o]) ==
            CellsOf(tickets, events, outbox)[t := CellOf(tickets, events, outbox, t).(outbox := Some(o))]
  {
  }

  lemma TakenInRows(tickets: map<TicketId, Ticket>, events: seq<Logged>, outbox: map<TicketId, Outbox>, n: nat, request: Request)
    ensures RequestTaken(Store(CellsOf(tickets, events, outbox), n), request) <==>
            (set u | u in tickets && tickets[u].request == request) != {}
  {
    var cells := CellsOf(tickets, events, outbox);
    var taken := set u | u in tickets && tickets[u].request == request;
    if taken != {} {
      var u :| u in taken;
      assert cells[u].row.request == request;
    } else {
      forall u | u in cells ensures cells[u].row.request != request {
        assert u !in taken;
      }
    }
  }

  /** The two recovery loops: over overdue direct replies, and over expired leases. */
  datatype Sweep = Overdue(cutoff: nat) | Lapsed(now: nat)

  predicate Due(c: Cell, sweep: Sweep) {
    match sweep
    case Overdue(cutoff) => Undelivered(c, cutoff)
    case Lapsed(now) => Expired(c, now)
  }

  function SweepStep(t: TicketId, sweep: Sweep): Step {
    match sweep
    case Overdue(cutoff) => TimesOut(t, cutoff)
    case Lapsed(now) => Expires(t, now)
  }

  function SweepSteps(rows: seq<TicketId>, sweep: Sweep): seq<Step> {
    if rows == [] then [] else SweepSteps(rows[..|rows| - 1], sweep) + [SweepStep(rows[|rows| - 1], sweep)]
  }

  function Swept(c: Cell, sweep: Sweep): Cell {
    match sweep
    case Overdue(cutoff) => RecoverUndelivered(c, cutoff)
    case Lapsed(now) => Expire(c, now)
  }

  /** The cells after the rows were handled in order. */
  function SweepCells(cells: map<TicketId, Cell>, rows: seq<TicketId>, sweep: Sweep): (after: map<TicketId, Cell>)
    requires forall t :: t in rows ==> t in cells
    ensures after.Keys == cells.Keys
  {
    if rows == [] then cells
    else
      var front := SweepCells(cells, rows[..|rows| - 1], sweep);
      var t := rows[|rows| - 1];
      front[t := Swept(front[t], sweep)]
  }

  predicate AllDue(cells: map<TicketId, Cell>, rows: seq<TicketId>, sweep: Sweep) {
    forall t :: t in rows ==> t in cells && Due(cells[t], sweep)
  }

  /** The rows handled are waiting, every other ticket is as it was. */
  lemma {:induction false} SweepResult(cells: map<TicketId, Cell>, rows: seq<TicketId>, sweep: Sweep, t: TicketId)
    requires t in cells && forall u :: u in rows ==> u in cells
    ensures t !in rows ==> SweepCells(cells, rows, sweep)[t] == cells[t]
    ensures t in rows && Due(cells[t], sweep) ==> SweepCells(cells, rows, sweep)[t] == Swept(cells[t], sweep)
    ensures t in rows && Due(cells[t], sweep) ==> SweepCells(cells, rows, sweep)[t].row.status == Waiting
  {
    if rows != [] {
      SweepResult(cells, rows[..|rows| - 1], sweep, t);
      assert t in rows <==> t in rows[..|rows| - 1] || t == rows[|rows| - 1];
    }
  }

  function Seen(rows: seq<TicketId>): set<TicketId> {
    set t | t in rows
  }

  /** One iteration of a sweep. */
  lemma SweepIteration(cells: map<TicketId, Cell>, rows: seq<TicketId>, i: nat, sweep: Sweep)
    requires i < |rows| && AllDue(cells, rows, sweep)
    ensures var now := SweepCells(cells, rows[..i], sweep);
            && (if rows[i] in Seen(rows[..i]) then now[rows[i]].row.status == Waiting else Due(now[rows[i]], sweep))
            && SweepCells(cells, rows[..i + 1], sweep) == now[rows[i] := Swept(now[rows[i]], sweep)]
    ensures Seen(rows[..i + 1]) == Seen(rows[..i]) + {rows[i]}
  {
    SweepResult(cells, rows[..i], sweep, rows[i]);
    assert rows[..i + 1] == rows[..i] + [rows[i]] && rows[..i + 1][..i] == rows[..i];
  }

  lemma SweepNext(s: Store, t: TicketId, sweep: Sweep)
    requires t in s.cells
    ensures Next(s, SweepStep(t, sweep)) == s.(cells := s.cells[t := Swept(s.cells[t], sweep)])
  {
  }

  /** A sweep is a sequence of steps of the store. */
  lemma {:induction false} SweepIsSteps(s: Store, rows: seq<TicketId>, sweep: Sweep)
    requires forall u :: u in rows ==> u in s.cells
    ensures Plays(s, SweepSteps(rows, sweep)) == s.(cells := SweepCells(s.cells, rows, sweep))
  {
    if rows != [] {
      var n := |rows| - 1;
      SweepIsSteps(s, rows[..n], sweep);
      PlaysOne(s, SweepSteps(rows[..n], sweep), SweepStep(rows[n], sweep));
      SweepNext(s.(cells := SweepCells(s.cells, rows[..n], sweep)), rows[n], sweep);
    }
  }

  /** The recovery of lapsed leases, row by row. */
  lemma LapsedRows(cells: map<TicketId, Cell>, rows: seq<TicketId>, now: nat)
    requires AllDue(cells, rows, Lapsed(now))
    ensures SweepCells(cells, rows, Lapsed(now)) == map t | t in cells :: var c := cells[t];
              if t in rows then c.(row := c.row.(status := Waiting, worker := None, token := None, expires := None), log := c.log + [LeaseExpired])
              else c
  {
    forall t | t in cells {
      SweepResult(cells, rows, Lapsed(now), t);
    }
  }

  /** The recovery of overdue replies, row by row. */
  lemma OverdueRows(cells: map<TicketId, Cell>, rows: seq<TicketId>, cutoff: nat)
    requires AllDue(cells, rows, Overdue(cutoff))
    ensures SweepCells(cells, rows, Overdue(cutoff)) == map t | t in cells :: var c := cells[t];
              if t in rows then c.(row := c.row.(status := Waiting, eligible := true), log := c.log + [DirectDeliveryTimeout])
              else c
  {
    forall t | t in cells {
      SweepResult(cells, rows, Overdue(cutoff), t);
    }
  }

  // ---------------------------------------------------------------- a change of owner session

  predicate OpenOf(c: Cell, source: SessionKey) {
    c.row.owner == source && !Terminal(c.row.status)
  }

  /** The cells once the open tickets in `seen` were handed over. */
  function HandedOver(cells: map<TicketId, Cell>, seen: set<TicketId>, source: SessionKey, target: SessionKey): map<TicketId, Cell> {
    map t | t in cells :: if t in seen then OwnerMoved(cells[t], source, target) else cells[t]
  }

  function Outboxes(cells: map<TicketId, Cell>, source: SessionKey, target: SessionKey): map<TicketId, Cell> {
    map t | t in cells :: OutboxMoved(cells[t], source, target)
  }

  function Rebound(cells: map<TicketId, Cell>, source: SessionKey, target: SessionKey): map<TicketId, Cell> {
    map t | t in cells :: RebindOwner(cells[t], source, target)
  }

  lemma HandOverOne(cells: map<TicketId, Cell>, rows: seq<TicketId>, i: nat, source: SessionKey, target: SessionKey)
    requires i < |rows| && rows[i] in cells && rows[i] !in rows[..i] && OpenOf(cells[rows[i]], source)
    ensures HandedOver(cells, Seen(rows[..i]), source, target)[rows[i]] == cells[rows[i]]
    ensures HandedOver(cells, Seen(rows[..i + 1]), source, target) ==
            HandedOver(cells, Seen(rows[..i]), source, target)[rows[i] := OwnerMoved(cells[rows[i]], source, target)]
  {
    assert rows[..i + 1] == rows[..i] + [rows[i]];
  }

  lemma HandOverDone(cells: map<TicketId, Cell>, seen: set<TicketId>, source: SessionKey, target: SessionKey)
    requires Rebindable(source, target)
    requires forall t :: t in cells && OpenOf(cells[t], source) ==> t in seen
    ensures Outboxes(HandedOver(cells, seen, source, target), source, target) == Rebound(cells, source, target)
  {
  }

  lemma OutboxesMoved(tickets: map<TicketId, Ticket>, events: seq<Logged>, outbox: map<TicketId, Outbox>, source: SessionKey,
                      target: SessionKey)
    ensures CellsOf(tickets, events, MovedOutbox(outbox, source, target)) ==
            Outboxes(CellsOf(tickets, events, outbox), source, target)
  {
  }

  /** The owner of a row and the owner of its undelivered outbox row move, each when it is the source session. */
  predicate Moved(c: Cell, after: Cell, source: SessionKey, target: SessionKey) {
    var open := c.row.owner == source && c.row.status !in {Completed, Failed, Cancelled};
    && after.row == (if open then c.row.(owner := target) else c.row)
    && after.log == (if open then c.log + [OwnerRebound(target)] else c.log)
    && after.outbox == match c.outbox
                       case None => None
                       case Some(o) => if o.owner == source && !o.delivered then Some(o.(owner := target)) else c.outbox
  }

  lemma ReboundRows(cells: map<TicketId, Cell>, source: SessionKey, target: SessionKey)
    ensures Rebound(cells, source, target).Keys == cells.Keys
    ensures source != "" && target != "" && source != target ==>
              forall t :: t in cells ==> Moved(cells[t], Rebound(cells, source, target)[t], source, target)
  {
  }

  function MovedOutbox(outbox: map<TicketId, Outbox>, source: SessionKey, target: SessionKey): map<TicketId, Outbox> {
    map t | t in outbox :: if outbox[t].owner == source && !outbox[t].delivered then outbox[t].(owner := target) else outbox[t]
  }

  function RebindSteps(ts: seq<TicketId>, source: SessionKey, target: SessionKey): seq<Step> {
    if ts == [] then [] else RebindSteps(ts[..|ts| - 1], source, target) + [Rebinds(ts[|ts| - 1], source, target)]
  }

  lemma RebindNext(s: Store, t: TicketId, source: SessionKey, target: SessionKey)
    ensures Next(s, Rebinds(t, source, target)) ==
            if t in s.cells then s.(cells := s.cells[t := RebindOwner(s.cells[t], source, target)]) else s
  {
  }

  function ReboundIn(cells: map<TicketId, Cell>, seen: set<TicketId>, source: SessionKey, target: SessionKey): map<TicketId, Cell> {
    map t | t in cells :: if t in seen then RebindOwner(cells[t], source, target) else cells[t]
  }

  lemma ReboundInOne(cells: map<TicketId, Cell>, seen: set<TicketId>, t: TicketId, source: SessionKey, target: SessionKey)
    requires t in cells && t !in seen
    ensures ReboundIn(cells, seen, source, target)[t] == cells[t]
    ensures ReboundIn(cells, seen + {t}, source, target) ==
            ReboundIn(cells, seen, source, target)[t := RebindOwner(cells[t], source, target)]
  {
  }

  lemma {:induction false} RebindPrefix(s: Store, ts: seq<TicketId>, source: SessionKey, target: SessionKey)
    requires forall t :: t in ts ==> t in s.cells
    requires forall i, j :: 0 <= i < j < |ts| ==> ts[i] != ts[j]
    ensures Plays(s, RebindSteps(ts, source, target)) == s.(cells := ReboundIn(s.cells, Seen(ts), source, target))
  {
    if ts == [] {
      assert ReboundIn(s.cells, Seen(ts), source, target) == s.cells;
    } else {
      var front, t := ts[..|ts| - 1], ts[|ts| - 1];
      RebindPrefix(s, front, source, target);
      PlaysOne(s, RebindSteps(front, source, target), Rebinds(t, source, target));
      assert ts == front + [t] && Seen(ts) == Seen(front) + {t};
      ReboundInOne(s.cells, Seen(front), t, source, target);
      RebindNext(s.(cells := ReboundIn(s.cells, Seen(front), source, target)), t, source, target);
    }
  }

  /** Handing a session over is one step for every ticket, in whichever order they are listed. */
  lemma RebindIsSteps(s: Store, ts: seq<TicketId>, source: SessionKey, target: SessionKey)
    requires forall t :: t in ts <==> t in s.cells
    requires forall i, j :: 0 <= i < j < |ts| ==> ts[i] != ts[j]
    ensures Plays(s, RebindSteps(ts, source, target)) == s.(cells := Rebound(s.cells, source, target))
  {
    RebindPrefix(s, ts, source, target);
    assert ReboundIn(s.cells, Seen(ts), source, target) == Rebound(s.cells, source, target);
  }

  // ---------------------------------------------------------------- dispatch

  /** The workflow a launch callback started, or found running, for a ticket. */
  datatype Started = Started(workflow: string, manifest: string)

  /**
   A call of the dispatcher. `admitted` are the tickets its admission callback accepts,
   `started` the workflows its launch callback gets going; that callback then links the
   workflow, and it ends, well or not, `late` milliseconds after the claim.
   */
  datatype Input = Input(limit: int, prefix: string, leaseMs: int, admitted: set<TicketId>, started: map<TicketId, Started>, now: nat, late: nat)

  /** The callback starts a workflow, the lease is still good then, and the ticket has no other workflow. */
  predicate Launches(c: Cell, t: TicketId, input: Input) {
    t in input.started && input.late <= input.leaseMs && (c.row.workflow.None? || c.row.workflow == Some(input.started[t].workflow))
  }

  predicate ByDispatcher(steps: seq<Step>) {
    forall i :: 0 <= i < |steps| ==> steps[i].Dispatches? || steps[i].Links? || steps[i].FailsAttempt?
  }

  /** Dispatching the ready ticket throws. */
  predicate LaunchFails(c: Cell, t: TicketId, input: Input) {
    || input.leaseMs < 1000
    || (!Launches(c, t, input) && input.leaseMs < input.late)
    || (!Launches(c, t, input) && c.row.owner == "" && c.row.maxAttempts <= c.row.attempts + 1)
  }

  predicate AllReady(cells: map<TicketId, Cell>, candidates: seq<TicketId>) {
    && (forall i, j :: 0 <= i < j < |candidates| ==> candidates[i] != candidates[j])
    && (forall t :: t in candidates ==> t in cells && Ready(cells[t]))
  }

  /** The candidates from `i` on are as the query found them. */
  predicate Untouched(before: map<TicketId, Cell>, cells: map<TicketId, Cell>, candidates: seq<TicketId>, i: nat)
    requires i <= |candidates|
  {
    forall t :: t in candidates[i..] ==> t in cells && t in before && cells[t] == before[t]
  }

  /** One of the candidates tried makes the dispatcher throw. */
  predicate SomeFails(before: map<TicketId, Cell>, tried: seq<TicketId>, input: Input)
    requires forall t :: t in tried ==> t in before
  {
    exists i :: 0 <= i < |tried| && LaunchFails(before[tried[i]], tried[i], input)
  }

  /** The candidates before the first one refused. */
  function AdmittedPrefix(candidates: seq<TicketId>, admitted: set<TicketId>): (tried: seq<TicketId>)
    ensures tried <= candidates && forall t :: t in tried ==> t in admitted
    ensures |tried| < |candidates| ==> candidates[|tried|] !in admitted
  {
    if candidates == [] || candidates[0] !in admitted then []
    else [candidates[0]] + AdmittedPrefix(candidates[1..], admitted)
  }

  lemma AdmittedOne(candidates: seq<TicketId>, admitted: set<TicketId>, i: nat)
    requires i < |candidates| && candidates[i] in admitted && i <= |AdmittedPrefix(candidates, admitted)|
    ensures i < |AdmittedPrefix(candidates, admitted)|
  {
  }

  lemma AdmittedAll(candidates: seq<TicketId>, admitted: set<TicketId>, i: nat)
    requires i <= |AdmittedPrefix(candidates, admitted)| && (i == |candidates| || (i < |candidates| && candidates[i] !in admitted))
    ensures i == |AdmittedPrefix(candidates, admitted)|
  {
  }

  /** The launched ones, in order. */
  function Chosen(before: map<TicketId, Cell>, tried: seq<TicketId>, input: Input): (chosen: seq<TicketId>)
    requires forall t :: t in tried ==> t in before
    ensures forall t :: t in chosen <==> t in tried && Launches(before[t], t, input)
  {
    if tried == [] then []
    else
      var front, t := Chosen(before, tried[..|tried| - 1], input), tried[|tried| - 1];
      if Launches(before[t], t, input) then front + [t] else front
  }

  function TicketsOf(leases: seq<Lease>): seq<TicketId> {
    seq(|leases|, i requires 0 <= i < |leases| => leases[i].ticket)
  }

  lemma {:induction false} PlaysConcat(s: Store, a: seq<Step>, b: seq<Step>)
    ensures Plays(s, a + b) == Plays(Plays(s, a), b)
  {
    if b == [] {
      assert a + b == a;
    } else {
      var n := |b| - 1;
      PlaysConcat(s, a, b[..n]);
      assert a + b == (a + b[..n]) + [b[n]];
      PlaysOne(s, a + b[..n], b[n]);
    }
  }

  /** The state of the dispatcher's loop before candidate i. */
  ghost predicate Dispatching(before: Store, current: Store, candidates: seq<TicketId>, input: Input, i: nat, steps: seq<Step>,
                              leases: seq<Lease>)
  {
    var tried := AdmittedPrefix(candidates, input.admitted);
    && AllReady(before.cells, candidates)
    && i <= |tried|
    && current == Plays(before, steps)
    && ByDispatcher(steps)
    && Untouched(before.cells, current.cells, candidates, i)
    && !SomeFails(before.cells, tried[..i], input)
    && TicketsOf(leases) == Chosen(before.cells, tried[..i], input)
  }

  /**
   What dispatching left of the tickets: each lease returned is held and its workflow linked,
   a ticket that was tried without success gave its attempt back, and no other ticket changed.
   */
  ghost predicate Outcomes(before: map<TicketId, Cell>, cells: map<TicketId, Cell>, tried: seq<TicketId>, input: Input, leases: seq<Lease>)
    requires forall t :: t in tried ==> t in before
  {
    && cells.Keys == before.Keys
    && (forall t :: t in before && t !in tried ==> cells[t] == before[t])
    && (forall l :: l in leases ==> l.ticket in tried && LeasedOut(cells[l.ticket], l, input))
    && (forall t :: t in tried && !Launches(before[t], t, input) ==> cells[t].row.status == GivenBack(before[t]))
  }

  predicate LeasedOut(c: Cell, l: Lease, input: Input) {
    Holds(c, l, input.now) && l.ticket in input.started && c.row.workflow == Some(input.started[l.ticket].workflow)
  }

  lemma OutcomesNext(before: map<TicketId, Cell>, cells: map<TicketId, Cell>, after: map<TicketId, Cell>, tried: seq<TicketId>, t: TicketId,
                     input: Input, leases: seq<Lease>, more: seq<Lease>)
    requires (forall u :: u in tried ==> u in before) && t in before && t !in tried && t in cells && t in after
    requires Outcomes(before, cells, tried, input, leases) && cells[t] == before[t] && after == cells[t := after[t]]
    requires forall l :: l in more ==> l.ticket == t && LeasedOut(after[t], l, input)
    requires !Launches(before[t], t, input) ==> after[t].row.status == GivenBack(before[t])
    ensures Outcomes(before, after, tried + [t], input, leases + more)
  {
  }

  lemma DispatchStart(before: Store, candidates: seq<TicketId>, input: Input)
    requires AllReady(before.cells, candidates)
    ensures Dispatching(before, before, candidates, input, 0, [], [])
  {
    assert AdmittedPrefix(candidates, input.admitted)[..0] == [];
  }

  lemma DispatchEnd(before: Store, current: Store, candidates: seq<TicketId>, input: Input, i: nat, steps: seq<Step>,
                    leases: seq<Lease>)
    requires Dispatching(before, current, candidates, input, i, steps, leases)
    requires Outcomes(before.cells, current.cells, AdmittedPrefix(candidates, input.admitted)[..i], input, leases)
    requires i == |candidates| || (i < |candidates| && candidates[i] !in input.admitted)
    ensures current == Plays(before, steps) && ByDispatcher(steps)
    ensures !SomeFails(before.cells, AdmittedPrefix(candidates, input.admitted), input)
    ensures TicketsOf(leases) == Chosen(before.cells, AdmittedPrefix(candidates, input.admitted), input)
    ensures Outcomes(before.cells, current.cells, AdmittedPrefix(candidates, input.admitted), input, leases)
  {
    AdmittedAll(candidates, input.admitted, i);
    assert AdmittedPrefix(candidates, input.admitted)[..i] == AdmittedPrefix(candidates, input.admitted);
  }

  lemma DispatchNextReady(before: Store, current: Store, candidates: seq<TicketId>, input: Input, i: nat, steps: seq<Step>,
                          leases: seq<Lease>)
    requires Dispatching(before, current, candidates, input, i, steps, leases) && i < |candidates|
    ensures candidates[i] in before.cells && candidates[i] in current.cells
    ensures current.cells[candidates[i]] == before.cells[candidates[i]] && Ready(current.cells[candidates[i]])
  {
    assert candidates[i..][0] == candidates[i];
  }

  lemma DispatchIteration(before: Store, current: Store, after: Store, candidates: seq<TicketId>, input: Input, i: nat,
                          steps: seq<Step>, more: seq<Step>, leases: seq<Lease>, lease: Result<Option<Lease>, string>)
    requires Dispatching(before, current, candidates, input, i, steps, leases)
    requires i < |candidates| && candidates[i] in input.admitted && candidates[i] in current.cells
    requires candidates[i] in after.cells && after.cells == current.cells[candidates[i] := after.cells[candidates[i]]]
    requires after == Plays(current, more) && ByDispatcher(more)
    requires lease.Err? <==> LaunchFails(current.cells[candidates[i]], candidates[i], input)
    requires lease.Ok? ==> (lease.value.Some? <==> Launches(current.cells[candidates[i]], candidates[i], input))
    requires lease.Ok? && lease.value.Some? ==> lease.value.value.ticket == candidates[i]
    ensures after == Plays(before, steps + more) && ByDispatcher(steps + more)
    ensures lease.Err? ==> SomeFails(before.cells, AdmittedPrefix(candidates, input.admitted), input)
    ensures lease.Ok? ==> Dispatching(before, after, candidates, input, i + 1, steps + more,
                                      leases + if lease.value.Some? then [lease.value.value] else [])
  {
    DispatchNextReady(before, current, candidates, input, i, steps, leases);
    AdmittedOne(candidates, input.admitted, i);
    PlaysConcat(before, steps, more);
    var tried := AdmittedPrefix(candidates, input.admitted);
    assert tried[i] == candidates[i];
    if lease.Ok? {
      UntouchedNext(before.cells, current.cells, after.cells, candidates, i);
      FailsNext(before.cells, tried, i, input);
      ChosenNext(before.cells, tried, i, input, leases);
    }
  }

  lemma TriedNext(candidates: seq<TicketId>, admitted: set<TicketId>, i: nat)
    requires forall j, k :: 0 <= j < k < |candidates| ==> candidates[j] != candidates[k]
    requires i < |candidates| && candidates[i] in admitted && i <= |AdmittedPrefix(candidates, admitted)|
    ensures var tried := AdmittedPrefix(candidates, admitted);
            i < |tried| && candidates[i] !in tried[..i] && tried[..i + 1] == tried[..i] + [candidates[i]]
  {
    AdmittedOne(candidates, admitted, i);
    NextOfPrefix(candidates, AdmittedPrefix(candidates, admitted), i);
  }

  lemma NextOfPrefix(all: seq<TicketId>, front: seq<TicketId>, i: nat)
    requires front <= all && i < |front| && forall j, k :: 0 <= j < k < |all| ==> all[j] != all[k]
    ensures all[i] !in front[..i] && front[..i + 1] == front[..i] + [all[i]]
  {
    assert front[i] == all[i];
  }

  lemma OutcomesIteration(before: map<TicketId, Cell>, cells: map<TicketId, Cell>, after: map<TicketId, Cell>, candidates: seq<TicketId>,
                          input: Input, i: nat, leases: seq<Lease>, lease: Option<Lease>)
    requires AllReady(before, candidates) && i <= |AdmittedPrefix(candidates, input.admitted)|
    requires Outcomes(before, cells, AdmittedPrefix(candidates, input.admitted)[..i], input, leases)
    requires i < |candidates| && candidates[i] in input.admitted && candidates[i] in cells && candidates[i] in after
    requires cells[candidates[i]] == before[candidates[i]] && after == cells[candidates[i] := after[candidates[i]]]
    requires lease.Some? <==> Launches(cells[candidates[i]], candidates[i], input)
    requires lease.Some? ==> lease.value.ticket == candidates[i] && LeasedOut(after[candidates[i]], lease.value, input)
    requires lease.None? ==> after[candidates[i]].row.status == GivenBack(cells[candidates[i]])
    ensures var tried := AdmittedPrefix(candidates, input.admitted);
            i < |tried| && Outcomes(before, after, tried[..i + 1], input, leases + if lease.Some? then [lease.value] else [])
  {
    TriedNext(candidates, input.admitted, i);
    OutcomesNext(before, cells, after, AdmittedPrefix(candidates, input.admitted)[..i], candidates[i], input, leases,
                 if lease.Some? then [lease.value] else []);
  }

  lemma UntouchedNext(before: map<TicketId, Cell>, cells: map<TicketId, Cell>, after: map<TicketId, Cell>,
                      candidates: seq<TicketId>, i: nat)
    requires i < |candidates| && Untouched(before, cells, candidates, i)
    requires forall j, k :: 0 <= j < k < |candidates| ==> candidates[j] != candidates[k]
    requires candidates[i] in after && after == cells[candidates[i] := after[candidates[i]]]
    ensures Untouched(before, after, candidates, i + 1)
  {
    forall t | t in candidates[i + 1..] ensures t in candidates[i..] && t != candidates[i] {
      var k :| 0 <= k < |candidates[i + 1..]| && candidates[i + 1..][k] == t;
      assert candidates[i..][k + 1] == t == candidates[i + 1 + k];
    }
  }

  lemma FailsNext(before: map<TicketId, Cell>, tried: seq<TicketId>, i: nat, input: Input)
    requires i < |tried| && forall t :: t in tried ==> t in before
    ensures SomeFails(before, tried[..i + 1], input) <==>
              SomeFails(before, tried[..i], input) ||
              LaunchFails(before[tried[i]], tried[i], input)
  {
    assert tried[..i + 1] == tried[..i] + [tried[i]];
    if SomeFails(before, tried[..i], input) {
      var k :| 0 <= k < i && LaunchFails(before[tried[..i][k]], tried[..i][k], input);
      assert tried[..i + 1][k] == tried[..i][k];
    }
    assert tried[..i + 1][i] == tried[i];
  }

  lemma ChosenNext(before: map<TicketId, Cell>, tried: seq<TicketId>, i: nat, input: Input, leases: seq<Lease>)
    requires i < |tried| && (forall t :: t in tried ==> t in before) && TicketsOf(leases) == Chosen(before, tried[..i], input)
    ensures !Launches(before[tried[i]], tried[i], input) ==> TicketsOf(leases + []) == Chosen(before, tried[..i + 1], input)
    ensures forall l: Lease :: Launches(before[tried[i]], tried[i], input) && l.ticket == tried[i] ==>
              TicketsOf(leases + [l]) == Chosen(before, tried[..i + 1], input)
  {
    assert tried[..i + 1][..i] == tried[..i];
    assert leases + [] == leases;
    forall l: Lease | Launches(before[tried[i]], tried[i], input) && l.ticket == tried[i]
      ensures TicketsOf(leases + [l]) == Chosen(before, tried[..i + 1], input)
    {
      assert TicketsOf(leases + [l]) == TicketsOf(leases) + [l.ticket];
    }
  }

  lemma PlaysTwo(s: Store, a: Step, b: Step)
    ensures Plays(s, [a]) == Next(s, a) && Plays(s, [a, b]) == Next(Next(s, a), b)
  {
    PlaysOne(s, [], a);
    PlaysOne(s, [a], b);
    assert [] + [a] == [a] && [a] + [b] == [a, b];
  }

  lemma DispatchNext(s: Store, t: TicketId, worker: string, leaseMs: int, now: nat)
    requires t in s.cells && Ready(s.cells[t])
    ensures Next(s, Claims(t, worker, leaseMs, now)) == Next(s, Dispatches(t, worker, leaseMs, now)) ==
            Store(s.cells[t := Claim(s.cells[t], worker, s.nextToken, leaseMs, now)], s.nextToken + 1)
  {
  }

  lemma FailNext(s: Store, l: Lease, f: FailureClass, now: nat)
    requires l.ticket in s.cells
    ensures Next(s, FailsAttempt(l, f, now)) == s.(cells := s.cells[l.ticket := FailAttempt(s.cells[l.ticket], l, f, now)])
  {
  }

  function GivenBack(c: Cell): Status {
    if c.row.attempts + 1 < c.row.maxAttempts then Waiting else Failed
  }

  /** What a claim, a link and a failed launch make of a ready ticket. */
  lemma LaunchCell(c: Cell, t: TicketId, worker: string, token: nat, input: Input)
    requires Ready(c)
    ensures var claimed, l := Claim(c, worker, token, input.leaseMs, input.now), LeaseOf(c, t, worker, token, input.leaseMs, input.now);
            && claimed.row.owner == c.row.owner
            && (Holds(claimed, l, input.now + input.late) <==> input.late <= input.leaseMs)
            && (t in input.started ==>
                  (Launches(c, t, input) <==> Linkable(claimed, l, input.started[t].workflow, input.now + input.late)))
            && (Retryable(claimed, Transient) <==> c.row.attempts + 1 < c.row.maxAttempts)
  {
  }

  /** The callback started a workflow and could link it under the lease. */
  predicate LinksTo(c: Cell, l: Lease, input: Input) {
    l.ticket in input.started && Linkable(c, l, input.started[l.ticket].workflow, input.now + input.late)
  }

  function Attempted(c: Cell, l: Lease, input: Input): Cell {
    if LinksTo(c, l, input)
    then Link(c, l, input.started[l.ticket].workflow, input.started[l.ticket].manifest, input.now + input.late)
    else FailAttempt(c, l, Transient, input.now + input.late)
  }

  predicate CanGiveBack(c: Cell, l: Lease, input: Input) {
    Holds(c, l, input.now + input.late) && (Retryable(c, Transient) || c.row.owner != "")
  }

  /** A claim and the launch after it, in terms of the ready ticket. */
  lemma AttemptedCell(c: Cell, t: TicketId, worker: string, token: nat, input: Input)
    requires Ready(c) && 1000 <= input.leaseMs
    ensures var claimed, l := Claim(c, worker, token, input.leaseMs, input.now), LeaseOf(c, t, worker, token, input.leaseMs, input.now);
            var after := Attempted(claimed, l, input);
            && (LinksTo(claimed, l, input) <==> Launches(c, t, input))
            && (LinksTo(claimed, l, input) || CanGiveBack(claimed, l, input) <==> !LaunchFails(c, t, input))
            && (Launches(c, t, input) ==> Holds(after, l, input.now) && after.row.workflow == Some(input.started[t].workflow))
            && (!Launches(c, t, input) && !LaunchFails(c, t, input) ==> after.row.status == GivenBack(c))
  {
    LaunchCell(c, t, worker, token, input);
  }

  /** Claim and launch together, on the store. */
  lemma LaunchedStore(before: Store, claimed: Store, after: Store, t: TicketId, l: Lease, input: Input, dispatches: Step, more: seq<Step>)
    requires t in before.cells && Ready(before.cells[t]) && 1000 <= input.leaseMs
    requires l == LeaseOf(before.cells[t], t, l.worker, before.nextToken, input.leaseMs, input.now)
    requires claimed == Next(before, dispatches) && after == Plays(claimed, more)
    requires claimed.cells == before.cells[t := Claim(before.cells[t], l.worker, before.nextToken, input.leaseMs, input.now)]
    requires after.cells == claimed.cells[t := Attempted(claimed.cells[t], l, input)]
    ensures after == Plays(before, [dispatches] + more)
    ensures t in after.cells && after.cells == before.cells[t := after.cells[t]]
    ensures LinksTo(claimed.cells[t], l, input) <==> Launches(before.cells[t], t, input)
    ensures LinksTo(claimed.cells[t], l, input) || CanGiveBack(claimed.cells[t], l, input) <==> !LaunchFails(before.cells[t], t, input)
    ensures Launches(before.cells[t], t, input) ==>
              Holds(after.cells[t], l, input.now) && after.cells[t].row.workflow == Some(input.started[t].workflow)
    ensures !Launches(before.cells[t], t, input) && !LaunchFails(before.cells[t], t, input) ==>
              after.cells[t].row.status == GivenBack(before.cells[t])
  {
    AttemptedCell(before.cells[t], t, l.worker, before.nextToken, input);
    PlaysAfter(before, claimed, dispatches, more);
  }

  lemma PlaysAfter(before: Store, middle: Store, first: Step, more: seq<Step>)
    requires middle == Next(before, first)
    ensures Plays(before, [first] + more) == Plays(middle, more)
  {
    PlaysTwo(before, first, first);
    PlaysConcat(before, [first], more);
  }

  lemma LinkNext(s: Store, l: Lease, workflow: string, manifest: string, now: nat)
    requires l.ticket in s.cells
    ensures Next(s, Links(l, workflow, manifest, now)) == s.(cells := s.cells[l.ticket := Link(s.cells[l.ticket], l, workflow, manifest, now)])
    ensures !Linkable(s.cells[l.ticket], l, workflow, now) ==> Next(s, Links(l, workflow, manifest, now)) == s
  {
    assert s.cells[l.ticket := s.cells[l.ticket]] == s.cells;
  }

  /** The clamped batch size of the dispatcher. */
  function BatchSize(limit: int): nat {
    Clamp(limit, 0, 32)
  }
}

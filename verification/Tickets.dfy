/**
 The base ticket store: leases, retries, the direct lane, the terminal outbox and
 the append-only event log. A transaction of the store works on one ticket (or on
 several, one after the other), so each is a function on one ticket's cell: its
 row, its events in order, and its outbox row.
 */
module Tickets {
  import opened Common
  import opened TicketStatus

  type TicketId = string
  type SessionKey = string

  /** What the unique request key is hashed from; a later owner change does not touch it. */
  datatype Request = Request(owner: SessionKey, runId: string)

  /** A row of the tickets table; times are milliseconds, a lease token is a fresh number. */
  datatype Ticket = Ticket(
    request: Request,
    owner: SessionKey,
    status: Status,
    eligible: bool,
    worker: Option<string>,
    token: Option<nat>,
    generation: nat,
    expires: Option<int>,
    attempts: nat,
    maxAttempts: nat,
    workflow: Option<string>,
    manifest: Option<string>,
    readyAt: Option<nat>,
    confirmedAt: Option<nat>)

  datatype Event =
    | AcceptedEvent
    | Routed(eligible: bool)
    | ResponseReady
    | DeliveryConfirmed
    | CompletedEvent
    | PromotedToDurable
    | FailedEvent
    | DirectDeliveryFailed
    | DirectDeliveryTimeout
    | PostCompactionPromoted
    | OwnerRebound(target: SessionKey)
    | WorkflowLinked(workflow: string)
    | ClaimedEvent(generation: nat)
    | WaitingEvent
    | LeaseExpired

  /** At most one outbox row per ticket. */
  datatype Outbox = Outbox(
    owner: SessionKey,
    terminal: Status,
    delivered: bool,
    attempts: nat,
    scheduledAt: Option<nat>,
    run: Option<string>)

  datatype Cell = Cell(row: Ticket, log: seq<Event>, outbox: Option<Outbox>)

  datatype Lease = Lease(ticket: TicketId, worker: string, token: nat, generation: nat, expires: int)

  datatype FailureClass = Transient | Timeout | Validation | Capability | Authorization | Interrupted | Permanent

  // ---------------------------------------------------------------- intake and routing

  function Clamp(n: int, low: int, high: int): int {
    if n < low then low else if high < n then high else n
  }

  function NewCell(owner: SessionKey, runId: string, maxAttempts: int): Cell {
    var row := Ticket(Request(owner, runId), owner, Accepted, false, None, None, 0, None, 0, Clamp(maxAttempts, 1, 20),
                      None, None, None, None);
    Cell(row, [AcceptedEvent], None)
  }

  /** The decision of the last `routed` event. */
  function LastRoute(log: seq<Event>): Option<bool> {
    if log == [] then None
    else if log[|log| - 1].Routed? then Some(log[|log| - 1].eligible)
    else LastRoute(log[..|log| - 1])
  }

  function Route(c: Cell, eligible: bool): Cell {
    if c.row.status != Accepted || LastRoute(c.log).Some? then c
    else c.(row := c.row.(eligible := eligible), log := c.log + [Routed(eligible)])
  }

  // ---------------------------------------------------------------- the direct lane

  predicate Direct(c: Cell) {
    c.row.status == Accepted && !c.row.eligible
  }

  /** enqueueTerminal: ignored when the ticket already has an outbox row. */
  function Enqueued(c: Cell, terminal: Status): Cell {
    if c.outbox.Some? then c else c.(outbox := Some(Outbox(c.row.owner, terminal, false, 0, None, None)))
  }

  /** A ticket without an owner session cannot be given an outbox row; the transaction then fails. */
  function FinalizeDirect(c: Cell, success: bool, interrupted: bool, expectsDelivery: bool, now: nat): Cell {
    if !Direct(c) then c
    else if success && expectsDelivery then
      c.(row := c.row.(readyAt := Some(now)), log := c.log + [ResponseReady])
    else if success then
      c.(row := c.row.(status := Completed, readyAt := Some(now), confirmedAt := Some(now)),
         log := c.log + [ResponseReady, DeliveryConfirmed, CompletedEvent])
    else if interrupted then
      c.(row := c.row.(status := Waiting, eligible := true), log := c.log + [PromotedToDurable])
    else if c.row.owner == "" then c
    else Enqueued(c.(row := c.row.(status := Failed, eligible := false), log := c.log + [FailedEvent]), Failed)
  }

  function ConfirmDirect(c: Cell, now: nat): Cell {
    if !Direct(c) || c.row.readyAt.None? then c
    else c.(row := c.row.(status := Completed, confirmedAt := Some(now)), log := c.log + [DeliveryConfirmed, CompletedEvent])
  }

  function Promoted(c: Cell, e: Event): Cell {
    c.(row := c.row.(status := Waiting, eligible := true), log := c.log + [e])
  }

  function FailDirectDelivery(c: Cell): Cell {
    if !Direct(c) then c else Promoted(c, DirectDeliveryFailed)
  }

  predicate Undelivered(c: Cell, cutoff: nat) {
    Direct(c) && c.row.readyAt.Some? && c.row.confirmedAt.None? && c.row.readyAt.value <= cutoff
  }

  function RecoverUndelivered(c: Cell, cutoff: nat): Cell {
    if !Undelivered(c, cutoff) then c else Promoted(c, DirectDeliveryTimeout)
  }

  function PromotePending(c: Cell): Cell {
    if !Direct(c) || c.row.readyAt.Some? then c else Promoted(c, PostCompactionPromoted)
  }

  function OwnerMoved(c: Cell, source: SessionKey, target: SessionKey): Cell {
    if c.row.owner != source || Terminal(c.row.status) then c
    else c.(row := c.row.(owner := target), log := c.log + [OwnerRebound(target)])
  }

  function OutboxMoved(c: Cell, source: SessionKey, target: SessionKey): Cell {
    if c.outbox.None? || c.outbox.value.owner != source || c.outbox.value.delivered then c
    else c.(outbox := Some(c.outbox.value.(owner := target)))
  }

  predicate Rebindable(source: SessionKey, target: SessionKey) {
    source != "" && target != "" && source != target
  }

  function RebindOwner(c: Cell, source: SessionKey, target: SessionKey): Cell {
    if !Rebindable(source, target) then c else OutboxMoved(OwnerMoved(c, source, target), source, target)
  }

  // ---------------------------------------------------------------- leases

  predicate Claimable(c: Cell) {
    c.row.status == Accepted || c.row.status == Waiting
  }

  function Claim(c: Cell, worker: string, token: nat, leaseMs: int, now: nat): Cell {
    if !Claimable(c) then c
    else
      var generation := c.row.generation + 1;
      c.(row := c.row.(status := Running, worker := Some(worker), token := Some(token), generation := generation,
                       expires := Some(now + leaseMs), attempts := c.row.attempts + 1),
         log := c.log + [ClaimedEvent(generation)])
  }

  function LeaseOf(c: Cell, t: TicketId, worker: string, token: nat, leaseMs: int, now: nat): Lease {
    Lease(t, worker, token, c.row.generation + 1, now + leaseMs)
  }

  /** The WHERE clause every lease operation carries. */
  predicate Holds(c: Cell, l: Lease, now: nat) {
    && c.row.status == Running
    && c.row.worker == Some(l.worker)
    && c.row.token == Some(l.token)
    && c.row.generation == l.generation
    && c.row.expires.Some? && now <= c.row.expires.value
  }

  predicate Linkable(c: Cell, l: Lease, workflow: string, now: nat) {
    Holds(c, l, now) && (c.row.workflow.None? || c.row.workflow == Some(workflow))
  }

  function Link(c: Cell, l: Lease, workflow: string, manifest: string, now: nat): Cell {
    if !Linkable(c, l, workflow, now) then c
    else c.(row := c.row.(workflow := Some(workflow), manifest := Some(manifest)), log := c.log + [WorkflowLinked(workflow)])
  }

  function Heartbeat(c: Cell, l: Lease, leaseMs: int, now: nat): Cell {
    if !Holds(c, l, now) then c else c.(row := c.row.(expires := Some(now + leaseMs)))
  }

  function Complete(c: Cell, l: Lease, now: nat): Cell {
    if !Holds(c, l, now) || c.row.owner == "" then c
    else Enqueued(c.(row := c.row.(status := Completed, expires := None), log := c.log + [CompletedEvent]), Completed)
  }

  predicate Retryable(c: Cell, f: FailureClass) {
    f != Authorization && f != Permanent && c.row.attempts < c.row.maxAttempts
  }

  function Released(row: Ticket, status: Status): Ticket {
    row.(status := status, worker := None, token := None, expires := None)
  }

  function FailAttempt(c: Cell, l: Lease, f: FailureClass, now: nat): Cell {
    if !Holds(c, l, now) then c
    else if Retryable(c, f) then c.(row := Released(c.row, Waiting), log := c.log + [WaitingEvent])
    else if c.row.owner == "" then c
    else Enqueued(c.(row := Released(c.row, Failed), log := c.log + [FailedEvent]), Failed)
  }

  predicate Expired(c: Cell, now: nat) {
    c.row.status == Running && c.row.expires.Some? && c.row.expires.value < now
  }

  function Expire(c: Cell, now: nat): Cell {
    if !Expired(c, now) then c else c.(row := Released(c.row, Waiting), log := c.log + [LeaseExpired])
  }

  /** The dispatcher's candidates. */
  predicate Ready(c: Cell) {
    Claimable(c) && c.row.eligible && c.row.attempts < c.row.maxAttempts
  }

  // ---------------------------------------------------------------- outbox

  predicate PendingRow(c: Cell) {
    c.outbox.Some? && !c.outbox.value.delivered
  }

  /** `key` is the caller's session, if it names one (an empty one counts as none). */
  predicate OwnerMatches(o: Outbox, key: SessionKey) {
    key == "" || o.owner == key
  }

  function MarkScheduled(c: Cell, run: Option<string>, now: nat): Cell {
    if !PendingRow(c) then c
    else c.(outbox := Some(c.outbox.value.(attempts := c.outbox.value.attempts + 1, scheduledAt := Some(now), run := run)))
  }

  predicate Bindable(c: Cell, run: string, key: SessionKey) {
    PendingRow(c) && OwnerMatches(c.outbox.value, key) && (c.outbox.value.run.None? || c.outbox.value.run == Some(run))
  }

  function BindRun(c: Cell, run: string, key: SessionKey): Cell {
    if !Bindable(c, run, key) then c else c.(outbox := Some(c.outbox.value.(run := Some(run))))
  }

  /** Whether a receipt naming `run` (or naming none) may settle the row. */
  predicate Settles(c: Cell, run: Option<string>, key: SessionKey) {
    PendingRow(c) && OwnerMatches(c.outbox.value, key) && (run.None? || c.outbox.value.run == run)
  }

  function MarkDelivered(c: Cell, run: Option<string>, key: SessionKey): Cell {
    if !Settles(c, run, key) then c else c.(outbox := Some(c.outbox.value.(delivered := true, scheduledAt := None)))
  }

  function MarkDeliveryFailed(c: Cell, run: Option<string>, key: SessionKey): Cell {
    if !Settles(c, run, key) then c else c.(outbox := Some(c.outbox.value.(scheduledAt := None, run := None)))
  }

  // ---------------------------------------------------------------- replaying the log

  /** The part of a row that the event log determines. */
  datatype View = View(status: Status, eligible: bool, attempts: nat, generation: nat, workflow: Option<string>, ready: bool)

  function ViewOf(row: Ticket): View {
    View(row.status, row.eligible, row.attempts, row.generation, row.workflow, row.readyAt.Some?)
  }

  const BLANK := View(Planned, false, 0, 0, None, false)

  function ReplayEvent(v: View, e: Event): View {
    match e
    case AcceptedEvent => View(Accepted, false, 0, 0, None, false)
    case Routed(eligible) => v.(eligible := eligible)
    case ResponseReady => v.(ready := true)
    case DeliveryConfirmed => v
    case CompletedEvent => v.(status := Completed)
    case PromotedToDurable => v.(status := Waiting, eligible := true)
    case FailedEvent => v.(status := Failed)
    case DirectDeliveryFailed => v.(status := Waiting, eligible := true)
    case DirectDeliveryTimeout => v.(status := Waiting, eligible := true)
    case PostCompactionPromoted => v.(status := Waiting, eligible := true)
    case OwnerRebound(_) => v
    case WorkflowLinked(workflow) => v.(workflow := Some(workflow))
    case ClaimedEvent(generation) => v.(status := Running, attempts := v.attempts + 1, generation := generation)
    case WaitingEvent => v.(status := Waiting)
    case LeaseExpired => v.(status := Waiting)
  }

  function Replay(log: seq<Event>): View {
    if log == [] then BLANK else ReplayEvent(Replay(log[..|log| - 1]), log[|log| - 1])
  }

  /** How often the ticket was claimed. */
  function ClaimCount(log: seq<Event>): nat {
    if log == [] then 0
    else ClaimCount(log[..|log| - 1]) + if log[|log| - 1].ClaimedEvent? then 1 else 0
  }

  /** How often the ticket was finished. */
  function FinishCount(log: seq<Event>): nat {
    if log == [] then 0
    else FinishCount(log[..|log| - 1]) + if log[|log| - 1].CompletedEvent? || log[|log| - 1].FailedEvent? then 1 else 0
  }

  /** The last event that says where the ticket stands; an owner change does not. */
  function LastStanding(log: seq<Event>): Option<Event> {
    if log == [] then None
    else if log[|log| - 1].OwnerRebound? then LastStanding(log[..|log| - 1])
    else Some(log[|log| - 1])
  }

  // ---------------------------------------------------------------- the whole store

  datatype Store = Store(cells: map<TicketId, Cell>, nextToken: nat)

  const EMPTY_STORE := Store(map[], 0)

  datatype Step =
    | Accepts(ticket: TicketId, owner: SessionKey, runId: string, maxAttempts: int)
    | Routes(ticket: TicketId, eligible: bool)
    | Finalizes(ticket: TicketId, success: bool, interrupted: bool, expectsDelivery: bool, now: nat)
    | Confirms(ticket: TicketId, now: nat)
    | FailsDelivery(ticket: TicketId)
    | TimesOut(ticket: TicketId, cutoff: nat)
    | Promotes(ticket: TicketId)
    | Rebinds(ticket: TicketId, source: SessionKey, target: SessionKey)
    | Claims(ticket: TicketId, worker: string, leaseMs: int, now: nat)
    | Dispatches(ticket: TicketId, worker: string, leaseMs: int, now: nat)
    | Links(lease: Lease, workflow: string, manifest: string, now: nat)
    | Beats(lease: Lease, leaseMs: int, now: nat)
    | Completes(lease: Lease, now: nat)
    | FailsAttempt(lease: Lease, failure: FailureClass, now: nat)
    | Expires(ticket: TicketId, now: nat)
    | Schedules(ticket: TicketId, run: Option<string>, now: nat)
    | Binds(ticket: TicketId, bound: string, key: SessionKey)
    | Delivers(ticket: TicketId, run: Option<string>, key: SessionKey)
    | FailsOutbox(ticket: TicketId, run: Option<string>, key: SessionKey)

  /** The ticket a step works on. */
  function Subject(step: Step): TicketId {
    match step
    case Links(l, _, _, _) => l.ticket
    case Beats(l, _, _) => l.ticket
    case Completes(l, _) => l.ticket
    case FailsAttempt(l, _, _) => l.ticket
    case _ => step.ticket
  }

  function NextCell(c: Cell, step: Step, token: nat): Cell {
    match step
    case Accepts(_, _, _, _) => c
    case Routes(_, eligible) => Route(c, eligible)
    case Finalizes(_, success, interrupted, expectsDelivery, now) => FinalizeDirect(c, success, interrupted, expectsDelivery, now)
    case Confirms(_, now) => ConfirmDirect(c, now)
    case FailsDelivery(_) => FailDirectDelivery(c)
    case TimesOut(_, cutoff) => RecoverUndelivered(c, cutoff)
    case Promotes(_) => PromotePending(c)
    case Rebinds(_, source, target) => RebindOwner(c, source, target)
    case Claims(_, worker, leaseMs, now) => Claim(c, worker, token, leaseMs, now)
    case Dispatches(_, worker, leaseMs, now) => if Ready(c) then Claim(c, worker, token, leaseMs, now) else c
    case Links(l, workflow, manifest, now) => Link(c, l, workflow, manifest, now)
    case Beats(l, leaseMs, now) => Heartbeat(c, l, leaseMs, now)
    case Completes(l, now) => Complete(c, l, now)
    case FailsAttempt(l, failure, now) => FailAttempt(c, l, failure, now)
    case Expires(_, now) => Expire(c, now)
    case Schedules(_, run, now) => MarkScheduled(c, run, now)
    case Binds(_, bound, key) => BindRun(c, bound, key)
    case Delivers(_, run, key) => MarkDelivered(c, run, key)
    case FailsOutbox(_, run, key) => MarkDeliveryFailed(c, run, key)
  }

  predicate RequestTaken(s: Store, request: Request) {
    exists u :: u in s.cells && s.cells[u].row.request == request
  }

  /** A claim draws a fresh token, whether or not it then finds a claimable row. */
  function TokensDrawn(step: Step): nat {
    if step.Claims? || step.Dispatches? then 1 else 0
  }

  /** An accepted request whose key is taken, and a step on an unknown ticket, change nothing. */
  function Next(s: Store, step: Step): Store {
    var t := Subject(step);
    var cells :=
      if t in s.cells then s.cells[t := NextCell(s.cells[t], step, s.nextToken)]
      else if step.Accepts? && !RequestTaken(s, Request(step.owner, step.runId))
      then s.cells[t := NewCell(step.owner, step.runId, step.maxAttempts)]
      else s.cells;
    Store(cells, s.nextToken + TokensDrawn(step))
  }

  /** A sequence of steps, as the loops of the store perform them inside one transaction. */
  function Plays(s: Store, steps: seq<Step>): Store {
    if steps == [] then s else Next(Plays(s, steps[..|steps| - 1]), steps[|steps| - 1])
  }

  lemma PlaysOne(s: Store, steps: seq<Step>, step: Step)
    ensures Plays(s, steps + [step]) == Next(Plays(s, steps), step)
  {
    assert (steps + [step])[..|steps|] == steps;
  }

  datatype Run = Run(stores: seq<Store>, steps: seq<Step>)

  predicate Linked(r: Run, i: nat)
    requires i < |r.steps| < |r.stores|
  {
    r.stores[i + 1] == Next(r.stores[i], r.steps[i])
  }

  ghost predicate Legal(r: Run) {
    && |r.stores| == |r.steps| + 1
    && r.stores[0] == EMPTY_STORE
    && forall i {:trigger Linked(r, i)} :: 0 <= i < |r.steps| ==> Linked(r, i)
  }

  /** The store a run ends in. */
  function Last(r: Run): Store
    requires r.stores != []
  {
    r.stores[|r.stores| - 1]
  }

  /** A run can go on with any step. */
  lemma Extend(r: Run, step: Step) returns (longer: Run)
    requires Legal(r)
    ensures Legal(longer) && longer.steps == r.steps + [step] && Last(longer) == Next(Last(r), step)
  {
    longer := Run(r.stores + [Next(Last(r), step)], r.steps + [step]);
    forall i | 0 <= i < |longer.steps| ensures Linked(longer, i) {
      if i < |r.steps| {
        assert Linked(r, i);
      }
    }
  }

  /** Any steps make a run, which ends where playing them ends. */
  lemma {:induction false} RunOf(steps: seq<Step>) returns (r: Run)
    ensures Legal(r) && r.steps == steps && r.stores[|steps|] == Plays(EMPTY_STORE, steps)
  {
    if steps == [] {
      r := Run([EMPTY_STORE], []);
    } else {
      var n := |steps| - 1;
      r := RunOf(steps[..n]);
      r := Extend(r, steps[n]);
    }
  }
}

/** What the ticket store promises over whole runs, from the empty store on. */
module TicketSafety {
  import opened Common
  import opened Tickets
  import opened TicketProofs
  import opened TicketStatus

  /** A step changes no ticket but its subject, and never removes one. */
  lemma CellAt(r: Run, i: nat, t: TicketId)
    requires Legal(r) && i < |r.steps| && t in r.stores[i].cells
    ensures t in r.stores[i + 1].cells
    ensures r.stores[i + 1].cells[t] ==
              if Subject(r.steps[i]) == t then NextCell(r.stores[i].cells[t], r.steps[i], r.stores[i].nextToken)
              else r.stores[i].cells[t]
  {
    assert Linked(r, i);
  }

  // ---------------------------------------------------------------- the log against the table

  /** In every reachable store the events of a ticket reproduce what its row says. */
  lemma LogRefinesTable(r: Run, i: nat, t: TicketId)
    requires Legal(r) && i <= |r.steps| && t in r.stores[i].cells
    ensures ViewOf(r.stores[i].cells[t].row) == Replay(r.stores[i].cells[t].log)
  {
    RunGood(r, i);
  }

  /** Generation, attempts and logged claims are one number, and the lease columns follow the status. */
  lemma LeaseColumns(r: Run, i: nat, t: TicketId)
    requires Legal(r) && i <= |r.steps| && t in r.stores[i].cells
    ensures var c := r.stores[i].cells[t];
            && c.row.generation == c.row.attempts == ClaimCount(c.log)
            && (c.row.status == Running ==> c.row.worker.Some? && c.row.token.Some? && c.row.expires.Some?)
            && (c.row.status == Accepted || c.row.status == Waiting ==>
                  c.row.worker.None? && c.row.token.None? && c.row.expires.None?)
  {
    RunGood(r, i);
  }

  /** An outbox row or a confirmed direct reply, never both, and one of them for every outcome. */
  lemma OneDeliveryChannel(r: Run, i: nat, t: TicketId)
    requires Legal(r) && i <= |r.steps| && t in r.stores[i].cells
    ensures var c := r.stores[i].cells[t];
            && (c.outbox.Some? ==> Terminal(c.row.status) && c.outbox.value.terminal == c.row.status)
            && (c.row.status == Failed ==> c.outbox.Some? && c.row.confirmedAt.None?)
            && (c.row.status == Completed ==> (c.outbox.Some? <==> c.row.confirmedAt.None?))
            && (!Terminal(c.row.status) ==> c.outbox.None? && c.row.confirmedAt.None?)
  {
    RunGood(r, i);
  }

  // ---------------------------------------------------------------- the end of a ticket

  lemma TerminalStep(c: Cell, step: Step, token: nat)
    requires CellGood(c) && Terminal(c.row.status)
    ensures NextCell(c, step, token).row == c.row && NextCell(c, step, token).log == c.log
  {
  }

  /** A finished ticket keeps its row and its log forever, and was finished exactly once. */
  lemma {:induction false} TerminalForever(r: Run, i: nat, j: nat, t: TicketId)
    requires Legal(r) && i <= j <= |r.steps| && t in r.stores[i].cells
    requires Terminal(r.stores[i].cells[t].row.status)
    ensures t in r.stores[j].cells
    ensures r.stores[j].cells[t].row == r.stores[i].cells[t].row
    ensures r.stores[j].cells[t].log == r.stores[i].cells[t].log
    ensures FinishCount(r.stores[j].cells[t].log) == 1
  {
    RunGood(r, j);
    if i < j {
      TerminalForever(r, i, j - 1, t);
      RunGood(r, j - 1);
      CellAt(r, j - 1, t);
      TerminalStep(r.stores[j - 1].cells[t], r.steps[j - 1], r.stores[j - 1].nextToken);
    }
  }

  // ---------------------------------------------------------------- lease fencing

  /** The lease is superseded, or its generation is no longer running. */
  predicate Dead(c: Cell, l: Lease) {
    l.generation < c.row.generation || (l.generation == c.row.generation && c.row.status != Running)
  }

  predicate Uses(step: Step, l: Lease) {
    && (step.Links? || step.Beats? || step.Completes? || step.FailsAttempt?)
    && step.lease == l
  }

  lemma DeadStep(c: Cell, l: Lease, step: Step, token: nat)
    requires Dead(c, l)
    ensures Dead(NextCell(c, step, token), l)
    ensures Uses(step, l) ==> NextCell(c, step, token) == c
  {
  }

  /** A dead lease can never again link, heartbeat, complete or fail its ticket. */
  lemma {:induction false} DeadForever(r: Run, i: nat, j: nat, t: TicketId, l: Lease)
    requires Legal(r) && i <= j <= |r.steps| && t in r.stores[i].cells
    requires Dead(r.stores[i].cells[t], l)
    ensures t in r.stores[j].cells && Dead(r.stores[j].cells[t], l)
    ensures l.ticket == t && j < |r.steps| && Uses(r.steps[j], l) ==>
              t in r.stores[j + 1].cells && r.stores[j + 1].cells[t] == r.stores[j].cells[t]
  {
    if i < j {
      DeadForever(r, i, j - 1, t, l);
      CellAt(r, j - 1, t);
      DeadStep(r.stores[j - 1].cells[t], l, r.steps[j - 1], r.stores[j - 1].nextToken);
    }
    if j < |r.steps| {
      CellAt(r, j, t);
      DeadStep(r.stores[j].cells[t], l, r.steps[j], r.stores[j].nextToken);
    }
  }

  /** A claim kills every earlier lease; the end of a running generation kills its own. */
  lemma LeaseDies(c: Cell, step: Step, token: nat, l: Lease)
    requires l.generation <= c.row.generation
    ensures NextCell(c, step, token).row.generation > c.row.generation ==> Dead(NextCell(c, step, token), l)
    ensures c.row.status == Running && NextCell(c, step, token).row.status != Running ==>
              Dead(NextCell(c, step, token), l)
  {
  }

  /** Step i leased ticket t out. */
  predicate ClaimsAt(r: Run, i: nat, t: TicketId)
    requires Legal(r) && i < |r.steps|
  {
    t in r.stores[i].cells && t in r.stores[i + 1].cells &&
    r.stores[i + 1].cells[t].row.generation > r.stores[i].cells[t].row.generation
  }

  lemma {:induction false} GenerationsClimb(r: Run, i: nat, j: nat, t: TicketId)
    requires Legal(r) && i <= j <= |r.steps| && t in r.stores[i].cells
    ensures t in r.stores[j].cells
    ensures r.stores[i].cells[t].row.generation <= r.stores[j].cells[t].row.generation
  {
    if i < j {
      GenerationsClimb(r, i, j - 1, t);
      CellAt(r, j - 1, t);
    }
  }

  /**
   Of two claims of a ticket the later one gets the larger generation, and from then
   on the earlier lease changes nothing, whatever else happens.
   */
  lemma LaterClaimWins(r: Run, i: nat, j: nat, k: nat, t: TicketId, l: Lease)
    requires Legal(r) && i < j < k < |r.steps|
    requires ClaimsAt(r, i, t) && ClaimsAt(r, j, t)
    requires l.ticket == t && l.generation == r.stores[i + 1].cells[t].row.generation
    ensures r.stores[i + 1].cells[t].row.generation < r.stores[j + 1].cells[t].row.generation
    ensures t in r.stores[k].cells && t in r.stores[k + 1].cells
    ensures Uses(r.steps[k], l) ==> r.stores[k + 1].cells[t] == r.stores[k].cells[t]
  {
    GenerationsClimb(r, i + 1, j, t);
    DeadForever(r, j + 1, k, t, l);
    CellAt(r, k, t);
  }

  /** Once an expired lease was reclaimed it changes nothing, even before anybody claims again. */
  lemma ReclaimedLeaseIsDead(r: Run, i: nat, k: nat, t: TicketId, l: Lease)
    requires Legal(r) && i < k < |r.steps| && t in r.stores[i].cells
    requires r.steps[i].Expires? && r.steps[i].ticket == t && Expired(r.stores[i].cells[t], r.steps[i].now)
    requires l.ticket == t && l.generation <= r.stores[i].cells[t].row.generation
    ensures t in r.stores[k].cells && t in r.stores[k + 1].cells
    ensures Uses(r.steps[k], l) ==> r.stores[k + 1].cells[t] == r.stores[k].cells[t]
  {
    CellAt(r, i, t);
    LeaseDies(r.stores[i].cells[t], r.steps[i], r.stores[i].nextToken, l);
    DeadForever(r, i + 1, k, t, l);
    CellAt(r, k, t);
  }

  // ---------------------------------------------------------------- the outbox

  /** A delivered outbox row is frozen, so a row is delivered at most once. */
  lemma {:induction false} DeliveredForever(r: Run, i: nat, j: nat, t: TicketId)
    requires Legal(r) && i <= j <= |r.steps| && t in r.stores[i].cells
    requires r.stores[i].cells[t].outbox.Some? && r.stores[i].cells[t].outbox.value.delivered
    ensures t in r.stores[j].cells && r.stores[j].cells[t].outbox == r.stores[i].cells[t].outbox
  {
    if i < j {
      DeliveredForever(r, i, j - 1, t);
      CellAt(r, j - 1, t);
    }
  }

  predicate BoundTo(c: Cell, run: string) {
    c.outbox.Some? && c.outbox.value.run == Some(run)
  }

  predicate BindsRun(step: Step, t: TicketId, run: string) {
    || (step.Schedules? && step.ticket == t && step.run == Some(run))
    || (step.Binds? && step.ticket == t && step.bound == run)
  }

  predicate BoundAt(r: Run, i: nat, t: TicketId, run: string)
    requires i < |r.stores|
  {
    t in r.stores[i].cells && BoundTo(r.stores[i].cells[t], run)
  }

  /** A bound row was scheduled with, or bound to, that run, and has been bound to it ever since. */
  lemma {:induction false} BindingHasACause(r: Run, j: nat, t: TicketId, run: string) returns (i: nat)
    requires Legal(r) && j <= |r.steps| && BoundAt(r, j, t, run)
    ensures i < j && BindsRun(r.steps[i], t, run)
    ensures forall k :: i < k <= j ==> BoundAt(r, k, t, run)
  {
    if j == 0 {
      assert false;
    } else {
      assert Linked(r, j - 1);
      if BoundAt(r, j - 1, t, run) {
        i := BindingHasACause(r, j - 1, t, run);
      } else {
        i := j - 1;
      }
    }
  }

  /** A receipt that names a run settles a row exactly when the row is pending, its owner fits and that run is bound. */
  lemma ReceiptNeedsItsRun(c: Cell, run: string, key: SessionKey)
    ensures MarkDelivered(c, Some(run), key) != c <==>
              PendingRow(c) && OwnerMatches(c.outbox.value, key) && BoundTo(c, run)
    ensures MarkDelivered(c, Some(run), key) != c ==>
              MarkDelivered(c, Some(run), key).outbox.value.delivered && MarkDelivered(c, Some(run), key).row == c.row
  {
  }

  // ---------------------------------------------------------------- bounded retry

  /** Every claim goes through the dispatcher. */
  predicate OneDispatcher(r: Run) {
    forall i :: 0 <= i < |r.steps| ==> !r.steps[i].Claims?
  }

  lemma {:induction false} AttemptsBounded(r: Run, i: nat, t: TicketId)
    requires Legal(r) && OneDispatcher(r) && i <= |r.steps| && t in r.stores[i].cells
    ensures r.stores[i].cells[t].row.attempts <= r.stores[i].cells[t].row.maxAttempts <= 20
  {
    if i > 0 {
      assert Linked(r, i - 1);
      if t in r.stores[i - 1].cells {
        AttemptsBounded(r, i - 1, t);
      }
    }
  }

  /** With one dispatcher a ticket is leased out at most maxAttempts times. */
  lemma ClaimsBounded(r: Run, i: nat, t: TicketId)
    requires Legal(r) && OneDispatcher(r) && i <= |r.steps| && t in r.stores[i].cells
    ensures ClaimCount(r.stores[i].cells[t].log) <= r.stores[i].cells[t].row.maxAttempts <= 20
  {
    RunGood(r, i);
    AttemptsBounded(r, i, t);
  }

  /** All attempts are used and the last of them ended in an expired lease. */
  predicate Stranded(c: Cell) {
    c.row.status == Waiting && c.row.attempts == c.row.maxAttempts && LastStanding(c.log) == Some(LeaseExpired)
  }

  /** With one dispatcher, an open workflow ticket is in exactly one of three classes. */
  lemma ThreeClasses(r: Run, i: nat, t: TicketId)
    requires Legal(r) && OneDispatcher(r) && i <= |r.steps| && t in r.stores[i].cells
    requires r.stores[i].cells[t].row.eligible && !Terminal(r.stores[i].cells[t].row.status)
    ensures var c := r.stores[i].cells[t];
            && (c.row.status == Running || Ready(c) || Stranded(c))
            && !(c.row.status == Running && Ready(c))
            && !(c.row.status == Running && Stranded(c))
            && !(Ready(c) && Stranded(c))
  {
    RunGood(r, i);
    AttemptsBounded(r, i, t);
  }

  lemma StrandedStep(c: Cell, step: Step, token: nat)
    requires Stranded(c) && !step.Claims?
    ensures Stranded(NextCell(c, step, token))
    ensures NextCell(c, step, token).row == c.row.(owner := NextCell(c, step, token).row.owner)
  {
    if step.Rebinds? {
      Append(c.log, OwnerRebound(step.target));
    }
  }

  /** The third class never moves again: only its owner session can still change. */
  lemma {:induction false} StrandedForever(r: Run, i: nat, j: nat, t: TicketId)
    requires Legal(r) && OneDispatcher(r) && i <= j <= |r.steps| && t in r.stores[i].cells
    requires Stranded(r.stores[i].cells[t])
    ensures t in r.stores[j].cells && Stranded(r.stores[j].cells[t])
    ensures r.stores[j].cells[t].row == r.stores[i].cells[t].row.(owner := r.stores[j].cells[t].row.owner)
  {
    if i < j {
      StrandedForever(r, i, j - 1, t);
      CellAt(r, j - 1, t);
      StrandedStep(r.stores[j - 1].cells[t], r.steps[j - 1], r.stores[j - 1].nextToken);
    }
  }

  /** A step other than an expiry strands no ticket that has attempts left or is not waiting. */
  lemma OnlyExpiryStrands(c: Cell, step: Step, token: nat)
    requires CellGood(c) && c.row.attempts <= c.row.maxAttempts && !Stranded(c) && !step.Expires?
    ensures !Stranded(NextCell(c, step, token))
  {
  }

  lemma ExpiryStrands(c: Cell, now: nat)
    requires !Stranded(c)
    ensures Stranded(Expire(c, now)) <==> Expired(c, now) && c.row.attempts == c.row.maxAttempts
  {
    if Expired(c, now) {
      Append(c.log, LeaseExpired);
    }
  }

  /** A ticket becomes stranded exactly when its last permitted lease expires. */
  lemma StrandedExactlyWhen(r: Run, i: nat, t: TicketId)
    requires Legal(r) && OneDispatcher(r) && i < |r.steps| && t in r.stores[i].cells
    requires !Stranded(r.stores[i].cells[t])
    ensures t in r.stores[i + 1].cells
    ensures var c, step := r.stores[i].cells[t], r.steps[i];
            Stranded(r.stores[i + 1].cells[t]) <==>
              step.Expires? && step.ticket == t && Expired(c, step.now) && c.row.attempts == c.row.maxAttempts
  {
    RunGood(r, i);
    AttemptsBounded(r, i, t);
    CellAt(r, i, t);
    if r.steps[i].Expires? {
      ExpiryStrands(r.stores[i].cells[t], r.steps[i].now);
    } else {
      OnlyExpiryStrands(r.stores[i].cells[t], r.steps[i], r.stores[i].nextToken);
    }
  }

  // A ticket with one attempt: accepted, routed to the workflow lane, claimed, and left to expire.

  const FRESH := NewCell("S", "run", 1)
  const QUEUED := FRESH.(row := FRESH.row.(eligible := true), log := [AcceptedEvent, Routed(true)])
  const LEASED := Claim(QUEUED, "w", 0, 1000, 0)
  const EXPIRED := Expire(LEASED, 2000)

  lemma QueuedThenLeased()
    ensures NextCell(FRESH, Routes("T", true), 0) == QUEUED
    ensures NextCell(QUEUED, Dispatches("T", "w", 1000, 0), 0) == LEASED
  {
    assert LastRoute([AcceptedEvent]) == LastRoute([AcceptedEvent][..0]) == None;
  }

  lemma ExpiredIsStranded()
    ensures NextCell(LEASED, Expires("T", 2000), 1) == EXPIRED
    ensures EXPIRED.row.eligible && Stranded(EXPIRED)
  {
    assert LEASED.row.expires == Some(1000) && LEASED.row.attempts == 1 == LEASED.row.maxAttempts;
    Append(LEASED.log, LeaseExpired);
  }

  /** A run with one dispatcher that ends with this one ticket. */
  predicate EndsWith(r: Run, c: Cell, tokens: nat) {
    r.stores != [] && Last(r) == Store(map["T" := c], tokens)
  }

  lemma OneTicketGoesOn(r: Run, c: Cell, tokens: nat, step: Step, after: Cell) returns (longer: Run)
    requires Legal(r) && OneDispatcher(r) && EndsWith(r, c, tokens)
    requires Subject(step) == "T" && !step.Claims? && NextCell(c, step, tokens) == after
    ensures Legal(longer) && OneDispatcher(longer) && EndsWith(longer, after, tokens + TokensDrawn(step))
  {
    longer := Extend(r, step);
    assert map["T" := c]["T" := after] == map["T" := after];
  }

  lemma AcceptedRun() returns (r: Run)
    ensures Legal(r) && OneDispatcher(r) && EndsWith(r, FRESH, 0)
  {
    r := Extend(Run([EMPTY_STORE], []), Accepts("T", "S", "run", 1));
    assert EMPTY_STORE.cells["T" := FRESH] == map["T" := FRESH];
  }

  /** The third class is not empty: a legal run with one dispatcher strands the ticket. */
  lemma StrandingHappens() returns (r: Run)
    ensures Legal(r) && OneDispatcher(r)
    ensures EndsWith(r, EXPIRED, 1) && EXPIRED.row.eligible && Stranded(EXPIRED)
  {
    QueuedThenLeased();
    ExpiredIsStranded();
    r := AcceptedRun();
    r := OneTicketGoesOn(r, FRESH, 0, Routes("T", true), QUEUED);
    r := OneTicketGoesOn(r, QUEUED, 0, Dispatches("T", "w", 1000, 0), LEASED);
    r := OneTicketGoesOn(r, LEASED, 1, Expires("T", 2000), EXPIRED);
  }
}

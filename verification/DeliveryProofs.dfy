/** What delivery keeps over every run: rows climb, nothing about them changes, a ticket completes once. */
module DeliveryProofs {
  import opened Common
  import Decimal
  import Text
  import opened DeliveryCore
  import opened TicketStatus

  // ---------------------------------------------------------------- the invariant

  predicate RowGood(d: Delivery) {
    && d.attempts == Rank(d.state)
    && (d.delivered <==> d.state == Confirmed)
    && (d.deliveredAt.Some? <==> d.state == Confirmed)
    && (d.evidence.Some? <==> d.state != Prepared)
    && d.id.payload == Sha256(d.text)
    && d.text != "" && Trimmed(d.text) == d.text
  }

  function CompletedCount(events: seq<Event>, t: TicketId): nat {
    if events == [] then 0
    else CompletedCount(events[..|events| - 1], t) + if events[|events| - 1] == CompletedEvent(t) then 1 else 0
  }

  predicate TicketGood(db: Db, t: TicketId) {
    CompletedCount(db.events, t) == (if t in db.tickets && db.tickets[t].status == Completed then 1 else 0)
  }

  /** A row belongs to a known ticket and session; once confirmed, its ticket is no longer open. */
  predicate RowPlaced(db: Db, d: Delivery) {
    && d.id.ticket in db.tickets
    && (d.state == Confirmed ==> db.tickets[d.id.ticket].status != Accepted)
    && d.id.owner in db.sessions
    && 0 <= d.id.generation <= db.sessions[d.id.owner].generation
  }

  ghost predicate Good(db: Db) {
    && (forall k :: k in db.deliveries ==> RowGood(db.deliveries[k]) && RowPlaced(db, db.deliveries[k]))
    && (forall t :: TicketGood(db, t))
  }

  lemma CountOne(events: seq<Event>, e: Event, t: TicketId)
    ensures CompletedCount(events + [e], t) == CompletedCount(events, t) + if e == CompletedEvent(t) then 1 else 0
  {
    assert (events + [e])[..|events|] == events;
  }

  lemma PrepareGood(db: Db, input: Input)
    requires Good(db)
    ensures Good(Prepare(db, input).db)
  {
    Text.TrimTwice(input.text, IsSpace);
    forall t ensures TicketGood(Prepare(db, input).db, t) {
      assert TicketGood(db, t);
    }
  }

  lemma ClimbGood(db: Db, key: string, from: State, to: State, evidence: string)
    requires Good(db) && Rank(to) == Rank(from) + 1 && to != Confirmed
    ensures Good(Climb(db, key, from, to, evidence).db)
  {
    forall t ensures TicketGood(Climb(db, key, from, to, evidence).db, t) {
      assert TicketGood(db, t);
    }
  }

  lemma CompleteGood(db: Db, t: TicketId, now: nat)
    requires Good(db)
    ensures Good(CompleteTicket(db, t, now))
  {
    var after := CompleteTicket(db, t, now);
    forall u ensures TicketGood(after, u) {
      assert TicketGood(db, u);
      if after != db {
        CountOne(db.events, DeliveryConfirmed(t), u);
        CountOne(db.events + [DeliveryConfirmed(t)], CompletedEvent(t), u);
        assert after.events == db.events + [DeliveryConfirmed(t)] + [CompletedEvent(t)];
      }
    }
  }

  lemma ConfirmGood(db: Db, key: string, evidence: string, now: nat)
    requires Good(db)
    ensures Good(Confirm(db, key, evidence, now).db)
  {
    var o := Confirm(db, key, evidence, now);
    if o.db != db {
      var d := db.deliveries[key];
      assert RowGood(d) && RowPlaced(db, d);
      var completed := CompleteTicket(db, d.id.ticket, now);
      CompleteGood(db, d.id.ticket, now);
      assert o.db == completed.(deliveries := db.deliveries[key := Settled(d, evidence, now)]);
      forall k | k in o.db.deliveries ensures RowGood(o.db.deliveries[k]) && RowPlaced(o.db, o.db.deliveries[k]) {
        if k != key {
          assert RowGood(completed.deliveries[k]) && RowPlaced(completed, completed.deliveries[k]);
        }
      }
      forall t ensures TicketGood(o.db, t) {
        assert TicketGood(completed, t);
      }
    }
  }

  lemma MoveGood(db: Db, t: TicketId, owner: SessionKey, status: Status)
    requires Good(db)
    ensures Good(Surroundings(db, MovesTicket(t, owner, status)))
  {
    var after := Surroundings(db, MovesTicket(t, owner, status));
    forall u ensures TicketGood(after, u) {
      assert TicketGood(db, u);
      CountOne(db.events, CompletedEvent(t), u);
    }
  }

  lemma SurroundingsGood(db: Db, step: Step)
    requires Good(db) && (step.OpensTicket? || step.StartsCall? || step.SetsSession? || step.Disposes?)
    ensures Good(Surroundings(db, step))
  {
    forall t ensures TicketGood(Surroundings(db, step), t) {
      assert TicketGood(db, t);
    }
  }

  lemma StepGood(db: Db, step: Step)
    requires Good(db)
    ensures Good(Next(db, step))
  {
    match step
    case Prepares(input) => PrepareGood(db, input);
    case Stages(key, evidence) => ClimbGood(db, key, Prepared, Staged, evidence);
    case Accepts(key, evidence) => ClimbGood(db, key, Staged, TransportAccepted, evidence);
    case Confirms(key, evidence, now) => ConfirmGood(db, key, evidence, now);
    case MovesTicket(t, owner, status) => MoveGood(db, t, owner, status);
    case _ => SurroundingsGood(db, step);
  }

  lemma {:induction false} RunGood(r: Run, i: nat)
    requires Legal(r) && i <= |r.steps|
    ensures Good(r.states[i])
  {
    if i > 0 {
      RunGood(r, i - 1);
      assert Linked(r, i - 1);
      StepGood(r.states[i - 1], r.steps[i - 1]);
    }
  }

  /**
   In every reachable database a row's attempts are its rank, delivered means confirmed, and
   its digest is its text's. The writers are those of `Step`: the Dashboard settlement and the
   Host delivery process, which mark direct results delivered on their own, are not among them.
   */
  lemma RowsAreConsistent(r: Run, i: nat, key: string)
    requires Legal(r) && i <= |r.steps| && key in r.states[i].deliveries
    ensures var d := r.states[i].deliveries[key];
            && d.attempts == Rank(d.state)
            && (d.delivered <==> d.state == Confirmed) && (d.deliveredAt.Some? <==> d.state == Confirmed)
            && d.id.payload == Sha256(d.text) && d.text == Trimmed(d.text) != ""
  {
    RunGood(r, i);
  }

  /** However many rows a ticket has, it is completed at most once, and exactly when its status says so. */
  lemma CompletesOnce(r: Run, i: nat, t: TicketId)
    requires Legal(r) && i <= |r.steps|
    ensures CompletedCount(r.states[i].events, t) <= 1
    ensures CompletedCount(r.states[i].events, t) == 1 <==> t in r.states[i].tickets && r.states[i].tickets[t].status == Completed
    ensures forall k :: k in r.states[i].deliveries && r.states[i].deliveries[k].id.ticket == t && r.states[i].deliveries[k].delivered ==>
              t in r.states[i].tickets && r.states[i].tickets[t].status != Accepted
  {
    RunGood(r, i);
    assert TicketGood(r.states[i], t);
  }

  // ---------------------------------------------------------------- rows only climb

  predicate Climbs(d: Delivery, after: Delivery) {
    && after.id == d.id && after.text == d.text
    && Rank(d.state) <= Rank(after.state)
    && (d.state == Confirmed ==> after == d)
  }

  /** The row keeps what it is and moves by at most one rung. */
  predicate Steps(d: Delivery, rows: map<string, Delivery>, key: string) {
    key in rows && Climbs(d, rows[key]) && Rank(rows[key].state) <= Rank(d.state) + 1
  }

  lemma ClimbSteps(db: Db, at: string, from: State, to: State, evidence: string, key: string)
    requires key in db.deliveries && Rank(to) == Rank(from) + 1
    ensures Steps(db.deliveries[key], Climb(db, at, from, to, evidence).db.deliveries, key)
  {
  }

  lemma ConfirmSteps(db: Db, at: string, evidence: string, now: nat, key: string)
    requires key in db.deliveries
    ensures Steps(db.deliveries[key], Confirm(db, at, evidence, now).db.deliveries, key)
  {
  }

  /** One step moves a row by at most one rung; only a disposal of its ticket removes it, and never once delivered. */
  lemma StepClimbs(db: Db, step: Step, key: string)
    requires key in db.deliveries
    ensures Steps(db.deliveries[key], Next(db, step).deliveries, key) ||
            (step == Disposes(db.deliveries[key].id.ticket) && !db.deliveries[key].delivered)
  {
    match step
    case Prepares(input) =>
    case Stages(at, evidence) => ClimbSteps(db, at, Prepared, Staged, evidence, key);
    case Accepts(at, evidence) => ClimbSteps(db, at, Staged, TransportAccepted, evidence, key);
    case Confirms(at, evidence, now) => ConfirmSteps(db, at, evidence, now, key);
    case _ =>
  }

  predicate Undisposed(r: Run, i: nat, j: nat, t: TicketId) {
    forall k {:trigger r.steps[k]} :: i <= k < j && k < |r.steps| ==> r.steps[k] != Disposes(t)
  }

  /** Over any run a row keeps its identity and text and never climbs down, and is there until its ticket is disposed of. */
  lemma {:induction false} RowClimbs(r: Run, i: nat, j: nat, key: string)
    requires Legal(r) && i <= j <= |r.steps| && key in r.states[i].deliveries
    requires Undisposed(r, i, j, r.states[i].deliveries[key].id.ticket)
    ensures key in r.states[j].deliveries && Climbs(r.states[i].deliveries[key], r.states[j].deliveries[key])
  {
    if i < j {
      RowClimbs(r, i, j - 1, key);
      assert Linked(r, j - 1);
      StepClimbs(r.states[j - 1], r.steps[j - 1], key);
    }
  }

  /** A confirmed row is final, disposals included. */
  lemma {:induction false} ConfirmedForever(r: Run, i: nat, j: nat, key: string)
    requires Legal(r) && i <= j <= |r.steps| && key in r.states[i].deliveries
    requires r.states[i].deliveries[key].state == Confirmed
    ensures key in r.states[j].deliveries && r.states[j].deliveries[key] == r.states[i].deliveries[key]
  {
    RunGood(r, i);
    if i < j {
      ConfirmedForever(r, i, j - 1, key);
      RunGood(r, j - 1);
      assert Linked(r, j - 1);
      StepClimbs(r.states[j - 1], r.steps[j - 1], key);
      assert RowGood(r.states[i].deliveries[key]);
    }
  }

  // ---------------------------------------------------------------- the generation fence

  predicate Superseded(db: Db, d: Delivery) {
    d.id.owner in db.sessions && d.id.generation < db.sessions[d.id.owner].generation
  }

  lemma SupersededClimb(db: Db, at: string, from: State, to: State, evidence: string, key: string)
    requires key in db.deliveries && Superseded(db, db.deliveries[key])
    ensures Superseded(Climb(db, at, from, to, evidence).db, db.deliveries[key])
    ensures Climb(db, at, from, to, evidence).db.deliveries[key] == db.deliveries[key]
  {
  }

  lemma SupersededConfirm(db: Db, at: string, evidence: string, now: nat, key: string)
    requires key in db.deliveries && Superseded(db, db.deliveries[key])
    ensures Superseded(Confirm(db, at, evidence, now).db, db.deliveries[key])
    ensures Confirm(db, at, evidence, now).db.deliveries[key] == db.deliveries[key]
  {
  }

  lemma SupersededStep(db: Db, step: Step, key: string)
    requires key in db.deliveries && Superseded(db, db.deliveries[key])
    ensures Superseded(Next(db, step), db.deliveries[key])
    ensures key in Next(db, step).deliveries ==> Next(db, step).deliveries[key] == db.deliveries[key]
  {
    match step
    case Prepares(input) =>
    case Stages(at, evidence) => SupersededClimb(db, at, Prepared, Staged, evidence, key);
    case Accepts(at, evidence) => SupersededClimb(db, at, Staged, TransportAccepted, evidence, key);
    case Confirms(at, evidence, now) => SupersededConfirm(db, at, evidence, now, key);
    case _ =>
  }

  predicate Present(r: Run, i: nat, key: string)
    requires i < |r.states|
  {
    key in r.states[i].deliveries
  }

  /** Once the session's generation moved on, the row never climbs again. */
  lemma {:induction false} SupersededForever(r: Run, i: nat, j: nat, key: string)
    requires Legal(r) && i <= j <= |r.steps|
    requires forall k :: i <= k <= j ==> Present(r, k, key)
    requires Present(r, i, key) && Superseded(r.states[i], r.states[i].deliveries[key])
    ensures Present(r, j, key) && r.states[j].deliveries[key] == r.states[i].deliveries[key]
    ensures Superseded(r.states[j], r.states[j].deliveries[key])
  {
    if i < j {
      SupersededForever(r, i, j - 1, key);
      assert Linked(r, j - 1);
      assert Present(r, j, key);
      SupersededStep(r.states[j - 1], r.steps[j - 1], key);
    }
  }

  // ---------------------------------------------------------------- preparing again

  /** The second lookup of prepareDelivery can only refuse: what it finds differs from what was asked for. */
  lemma SecondLookupRefuses(d: Delivery, input: Input)
    requires !Matches(d, input.id)
    ensures Asserted(d, input) == Err(IdentityConflict)
  {
  }

  /**
   Preparing the same input again. It should answer with the row of the first call; it does
   so exactly when the text has no white space at its ends, since the stored text is trimmed
   and the repeated text is compared as given.
   */
  lemma PreparedAgain(db: Db, input: Input)
    requires Prepare(db, input).answer.Ok? && input.key !in db.deliveries
    ensures var first := Prepare(db, input);
            var second := Prepare(first.db, input);
            && second.db == first.db
            && (second.answer.Ok? <==> !IsSpace(input.text[0]) && !IsSpace(input.text[|input.text| - 1]))
            && (second.answer.Ok? ==> second.answer == first.answer)
            && (second.answer.Err? ==> second.answer == Err(IdentityConflict))
  {
    Text.TrimmedIff(input.text, IsSpace);
  }

  /** Such an input exists. */
  lemma PaddedTextIsRefused() returns (db: Db, input: Input)
    ensures Prepare(db, input).answer.Ok? && input.key !in db.deliveries
    ensures Prepare(Prepare(db, input).db, input).answer == Err(IdentityConflict)
  {
    assert Text.TrimLeft("hi ", IsSpace) == "hi ";
    assert "hi "[..2] == "hi";
    assert Trimmed("hi ") == "hi";
    input := Input(Identity("T", None, None, "S", 0, Webchat, Sha256("hi")), "k", "hi ");
    db := Db(map["S" := Session(true, 0)], map["T" := Ticket("S", "r", Accepted, None)], map[], map[], []);
    PreparedAgain(db, input);
  }

  // ---------------------------------------------------------------- confirmation through the adapter

  predicate CurrentOwner(db: Db, d: Delivery) {
    OwnerError(db, d.id.owner, d.id.generation).None?
  }

  /** A step that changes a row, disposals aside, finds its session active at the row's generation. */
  lemma OnlyCurrentOwnersMove(db: Db, step: Step, key: string)
    requires key in db.deliveries && key in Next(db, step).deliveries
    ensures Next(db, step).deliveries[key] != db.deliveries[key] ==> CurrentOwner(db, db.deliveries[key])
  {
    match step
    case Prepares(input) =>
    case Stages(at, evidence) => ClimbNeedsOwner(db, at, Prepared, Staged, evidence, key);
    case Accepts(at, evidence) => ClimbNeedsOwner(db, at, Staged, TransportAccepted, evidence, key);
    case Confirms(at, evidence, now) => ConfirmNeedsOwner(db, at, evidence, now, key);
    case _ =>
  }

  /** No climb and no confirmation changes anything. */
  ghost predicate Stuck(db: Db, key: string) {
    && (forall from, to, evidence :: Climb(db, key, from, to, evidence).db == db)
    && (forall evidence, now :: Confirm(db, key, evidence, now).db == db)
  }

  lemma StuckWithoutOwner(db: Db, key: string)
    requires key in db.deliveries && !CurrentOwner(db, db.deliveries[key])
    ensures Stuck(db, key)
  {
  }

  lemma ClimbNeedsOwner(db: Db, at: string, from: State, to: State, evidence: string, key: string)
    requires key in db.deliveries
    ensures Climb(db, at, from, to, evidence).db.deliveries[key] != db.deliveries[key] ==> CurrentOwner(db, db.deliveries[key])
  {
  }

  lemma ConfirmNeedsOwner(db: Db, at: string, evidence: string, now: nat, key: string)
    requires key in db.deliveries
    ensures Confirm(db, at, evidence, now).db.deliveries[key] != db.deliveries[key] ==> CurrentOwner(db, db.deliveries[key])
  {
  }

  lemma ConfirmKeySucceeds(db: Db, key: string, now: nat)
    requires key in db.deliveries && RowGood(db.deliveries[key]) && !db.deliveries[key].delivered
    ensures ConfirmKey(db, key, now).receipt.Done? <==>
              key != "" && CurrentOwner(db, db.deliveries[key]) && db.deliveries[key].state != Prepared
    ensures ConfirmKey(db, key, now).receipt.Done? ==>
              ConfirmKey(db, key, now).db.deliveries == db.deliveries[key := db.deliveries[key].(
                  state := Confirmed, delivered := true, attempts := 3, evidence := Some("webchat-message-receipt"), deliveredAt := Some(now))]
  {
  }

  lemma ConfirmKeyCompletes(db: Db, key: string, now: nat)
    requires Good(db) && key in db.deliveries && !db.deliveries[key].delivered && ConfirmKey(db, key, now).receipt.Done?
    ensures var t, after := db.deliveries[key].id.ticket, ConfirmKey(db, key, now).db;
            t in db.tickets && t in after.tickets &&
            after.tickets[t] == if db.tickets[t].status == Accepted
                                then db.tickets[t].(status := Completed, confirmedAt := Some(now)) else db.tickets[t]
  {
    assert RowGood(db.deliveries[key]) && RowPlaced(db, db.deliveries[key]);
  }

  /** Row k is the only pending one of the run and session, was staged, and its session is current. */
  predicate Confirmable(db: Db, run: string, owner: SessionKey, k: string) {
    && k != "" && k in db.deliveries
    && ReceivableKeys(db, run, owner) == {k}
    && CurrentOwner(db, db.deliveries[k])
    && db.deliveries[k].state != Prepared
  }

  /** The lookup finds a row exactly when there is one pending row; the rest of the adapter works on it. */
  lemma AdapterPicksTheRow(db: Db, run: string, owner: SessionKey, now: nat)
    ensures forall k :: run != "" && IsWebchatSession(owner) && ReceivableKeys(db, run, owner) == {k} ==>
              AcceptWebchat(db, run, owner) == AcceptKey(db, k) && ConfirmWebchat(db, run, owner, now) == ConfirmKey(db, k, now)
    ensures (forall k :: ReceivableKeys(db, run, owner) != {k}) ==> ConfirmWebchat(db, run, owner, now).receipt in {MissingIdentity, Ambiguous}
  {
    if |ReceivableKeys(db, run, owner)| == 1 {
      var k := OnlyKey(ReceivableKeys(db, run, owner));
    }
  }

  /**
   A receipt confirms exactly when it names a webchat run, one row of that run and session
   is pending, and that row was staged under a session still current. The row is then
   delivered and its ticket completed, unless that had already moved on.
   */
  lemma ConfirmWebchatSucceeds(db: Db, run: string, owner: SessionKey, now: nat)
    requires Good(db)
    ensures ConfirmWebchat(db, run, owner, now).receipt.Done? <==>
              run != "" && IsWebchatSession(owner) && exists k :: Confirmable(db, run, owner, k)
    ensures forall k :: run != "" && IsWebchatSession(owner) && Confirmable(db, run, owner, k) ==>
              ConfirmedBy(db, ConfirmWebchat(db, run, owner, now).db, k, now)
  {
    AdapterPicksTheRow(db, run, owner, now);
    if |ReceivableKeys(db, run, owner)| == 1 {
      var k := OnlyKey(ReceivableKeys(db, run, owner));
      assert k in ReceivableKeys(db, run, owner);
      ConfirmKeySucceeds(db, k, now);
      if ConfirmKey(db, k, now).receipt.Done? {
        ConfirmKeyCompletes(db, k, now);
        assert run != "" && IsWebchatSession(owner) ==> Confirmable(db, run, owner, k);
      }
    }
  }

  predicate ConfirmedBy(db: Db, after: Db, k: string, now: nat)
    requires k in db.deliveries
  {
    var t := db.deliveries[k].id.ticket;
    && after.deliveries == db.deliveries[k := db.deliveries[k].(
           state := Confirmed, delivered := true, attempts := 3, evidence := Some("webchat-message-receipt"), deliveredAt := Some(now))]
    && t in db.tickets && t in after.tickets
    && after.tickets[t] == if db.tickets[t].status == Accepted
                           then db.tickets[t].(status := Completed, confirmedAt := Some(now)) else db.tickets[t]
  }

  /** No other row of the run and session of row `key` is pending. */
  predicate OnlyPending(db: Db, key: string, run: string)
    requires key in db.deliveries
  {
    forall k :: k in db.deliveries && Receivable(db.deliveries[k], run, db.deliveries[key].id.owner) ==> k == key
  }

  lemma OnlyPendingIff(db: Db, key: string, run: string)
    requires key in db.deliveries && Receivable(db.deliveries[key], run, db.deliveries[key].id.owner)
    ensures key in ReceivableKeys(db, run, db.deliveries[key].id.owner)
    ensures OnlyPending(db, key, run) <==> ReceivableKeys(db, run, db.deliveries[key].id.owner) == {key}
  {
    var keys := ReceivableKeys(db, run, db.deliveries[key].id.owner);
    if keys == {key} {
      forall k | k in db.deliveries && Receivable(db.deliveries[k], run, db.deliveries[key].id.owner) ensures k == key {
        assert k in keys;
      }
    }
  }

  lemma AcceptKeepsPending(db: Db, key: string, run: string, owner: SessionKey)
    requires key in db.deliveries
    ensures ReceivableKeys(AcceptKey(db, key).db, run, owner) == ReceivableKeys(db, run, owner)
    ensures key in AcceptKey(db, key).db.deliveries
  {
  }

  lemma ConfirmKeyAgain(db: Db, key: string, now: nat)
    requires key in db.deliveries && AcceptKey(db, key).receipt.Done?
    ensures key in AcceptKey(db, key).db.deliveries
    ensures ConfirmKey(AcceptKey(db, key).db, key, now) == ConfirmKey(db, key, now)
  {
  }

  /** When the process dies between the two transactions, the same receipt handled again gives what an undisturbed call gives. */
  lemma CrashIsRepaired(db: Db, run: string, owner: SessionKey, now: nat)
    requires AcceptWebchat(db, run, owner).receipt.Done?
    ensures ConfirmWebchat(AcceptWebchat(db, run, owner).db, run, owner, now) == ConfirmWebchat(db, run, owner, now)
  {
    var key := OnlyKey(ReceivableKeys(db, run, owner));
    assert key in ReceivableKeys(db, run, owner);
    AcceptKeepsPending(db, key, run, owner);
    ConfirmKeyAgain(db, key, now);
  }

  /**
   A crash after the transport accepted a webchat row, then anything but a disposal of its
   ticket: the row is confirmed already, or the receipt confirms it exactly when its session
   is current and no second row of its run and session is pending.
   */
  lemma RepairedExactlyWhen(r: Run, i: nat, j: nat, key: string, run: string, now: nat)
    requires Legal(r) && i <= j <= |r.steps| && key != "" && key in r.states[i].deliveries
    requires r.states[i].deliveries[key].state == TransportAccepted
    requires var id := r.states[i].deliveries[key].id; id.surface == Webchat && id.run == Some(run) && run != "" && IsWebchatSession(id.owner)
    requires Undisposed(r, i, j, r.states[i].deliveries[key].id.ticket)
    ensures key in r.states[j].deliveries && r.states[j].deliveries[key].id == r.states[i].deliveries[key].id
    ensures var db, d := r.states[j], r.states[j].deliveries[key];
            d.state == Confirmed ||
            (ConfirmWebchat(db, run, d.id.owner, now).receipt.Done? <==>
               CurrentOwner(db, d) && OnlyPending(db, key, run))
    ensures var db, d := r.states[j], r.states[j].deliveries[key];
            d.state != Confirmed && ConfirmWebchat(db, run, d.id.owner, now).receipt.Done? ==>
              ConfirmedBy(db, ConfirmWebchat(db, run, d.id.owner, now).db, key, now)
  {
    RunGood(r, j);
    RowClimbs(r, i, j, key);
    if r.states[j].deliveries[key].state != Confirmed {
      AcceptedRowRepaired(r.states[j], key, run, now);
    }
  }

  lemma AcceptedRowRepaired(db: Db, key: string, run: string, now: nat)
    requires Good(db) && key != "" && key in db.deliveries && db.deliveries[key].state == TransportAccepted
    requires var id := db.deliveries[key].id; id.surface == Webchat && id.run == Some(run) && run != "" && IsWebchatSession(id.owner)
    ensures ConfirmWebchat(db, run, db.deliveries[key].id.owner, now).receipt.Done? <==>
              CurrentOwner(db, db.deliveries[key]) && OnlyPending(db, key, run)
    ensures ConfirmWebchat(db, run, db.deliveries[key].id.owner, now).receipt.Done? ==>
              ConfirmedBy(db, ConfirmWebchat(db, run, db.deliveries[key].id.owner, now).db, key, now)
  {
    var owner := db.deliveries[key].id.owner;
    assert RowGood(db.deliveries[key]);
    OnlyPendingIff(db, key, run);
    ConfirmWebchatSucceeds(db, run, owner, now);
    if exists k :: Confirmable(db, run, owner, k) {
      var k :| Confirmable(db, run, owner, k);
      assert key in {k};
    }
    if CurrentOwner(db, db.deliveries[key]) && OnlyPending(db, key, run) {
      assert Confirmable(db, run, owner, key);
    }
  }

  /** Confirming a confirmed row changes nothing. */
  lemma ConfirmTwice(db: Db, key: string, evidence: string, now: nat, again: string, later: nat)
    requires Confirm(db, key, evidence, now).answer.Ok?
    ensures Confirm(Confirm(db, key, evidence, now).db, key, again, later) == Confirm(db, key, evidence, now)
  {
  }

  // ---------------------------------------------------------------- two calls of one run

  /** One session, one accepted ticket of the run, its first call delivered as far as the transport. */
  lemma FirstCallAccepted(t: TicketId, owner: SessionKey, run: string, a1: string, payload: string) returns (r: Run)
    requires t != "" && owner != "" && payload != "" && Trimmed(payload) == payload
    ensures var input := WebchatInput(t, a1, run, owner, 0, payload);
            && Legal(r) && |r.steps| == 5
            && Last(r) == Db(map[owner := Session(true, 0)], map[t := Ticket(owner, run, Accepted, None)], map[],
                             map[input.key := AcceptedRow(input)], [])
  {
    var input := WebchatInput(t, a1, run, owner, 0, payload);
    r := Extend(NO_STEPS, SetsSession(owner, Session(true, 0)));
    r := Extend(r, OpensTicket(t, owner, run));
    r := Extend(r, Prepares(input));
    assert Last(r).deliveries == map[input.key := Fresh(input)];
    r := Extend(r, Stages(input.key, STAGED));
    assert Last(r).deliveries == map[input.key := Advance(Fresh(input), Staged, STAGED)];
    r := Extend(r, Accepts(input.key, SENT));
    assert Last(r).deliveries == map[input.key := AcceptedRow(input)];
  }

  function AcceptedRow(input: Input): Delivery {
    Advance(Advance(Fresh(input), Staged, STAGED), TransportAccepted, SENT)
  }

  lemma KeysDiffer(t: TicketId, generation: nat, a1: string, a2: string)
    requires a1 != a2
    ensures WebchatKey(t, generation, a1) != WebchatKey(t, generation, a2)
  {
    var prefix := "cnx-webchat:" + t + ":g" + Decimal.Print(generation) + ":";
    assert (prefix + a1)[|prefix|..] == a1 && (prefix + a2)[|prefix|..] == a2;
  }

  /**
   A second model call of the same run prepares a second row. From then on the receipt of
   the run is ambiguous, although the first row was accepted by the transport under a session
   still current, and confirming it by its key would succeed.
   */
  lemma SecondCallBlocksReceipt(t: TicketId, owner: SessionKey, run: string, a1: string, a2: string, payload: string, now: nat)
    returns (r: Run)
    requires t != "" && run != "" && a1 != a2 && payload != "" && Trimmed(payload) == payload && IsWebchatSession(owner)
    ensures var k1 := WebchatKey(t, 0, a1);
            && Legal(r) && k1 in Last(r).deliveries
            && Last(r).deliveries[k1].state == TransportAccepted && CurrentOwner(Last(r), Last(r).deliveries[k1])
            && ConfirmKey(Last(r), k1, now).receipt.Done?
            && ConfirmWebchat(Last(r), run, owner, now).receipt == Ambiguous
  {
    assert owner != "" by {
      assert IsWebchatSession("") ==> |Fields("")| == 5;
    }
    r := FirstCallAccepted(t, owner, run, a1, payload);
    var db1, k1 := Last(r), WebchatKey(t, 0, a1);
    var second := WebchatInput(t, a2, run, owner, 0, payload);
    KeysDiffer(t, 0, a1, a2);
    r := Extend(r, Prepares(second));
    var db := Last(r);
    assert db.deliveries == db1.deliveries[second.key := Fresh(second)];
    var keys := ReceivableKeys(db, run, owner);
    assert k1 in keys && second.key in keys;
    if |keys| == 1 {
      TheOnlyKey(keys, k1);
    }
    RunGood(r, |r.steps|);
    assert RowGood(db.deliveries[k1]);
    assert k1 != "" by {
      assert k1[0] == 'c';
    }
    ConfirmKeySucceeds(db, k1, now);
  }

  /** Such a run exists. */
  lemma SecondCallHappens(now: nat) returns (r: Run, key: string, owner: SessionKey)
    ensures Legal(r) && key in Last(r).deliveries
    ensures Last(r).deliveries[key].state == TransportAccepted && CurrentOwner(Last(r), Last(r).deliveries[key])
    ensures ConfirmKey(Last(r), key, now).receipt.Done? && ConfirmWebchat(Last(r), "run", owner, now).receipt == Ambiguous
  {
    WebchatSessions("a", "c");
    owner := "agent" + ":" + ("a" + ":" + ("webchat" + ":" + ("channel" + ":" + "c")));
    Text.TrimmedIff("x", IsSpace);
    r := SecondCallBlocksReceipt("T", owner, "run", "call1", "call2", "x", now);
    key := WebchatKey("T", 0, "call1");
  }

  lemma {:induction false} FieldsSplit(a: string, rest: string)
    requires ':' !in a
    ensures Fields(a + ":" + rest) == [a] + Fields(rest)
  {
    var s := a + ":" + rest;
    if a == "" {
      assert s[0] == ':' && s[1..] == rest;
    } else {
      assert s[0] == a[0] && s[1..] == a[1..] + ":" + rest;
      FieldsSplit(a[1..], rest);
      assert [a[0]] + a[1..] == a;
      assert ([a[1..]] + Fields(rest))[1..] == Fields(rest);
    }
  }

  lemma {:induction false} FieldsOne(a: string)
    requires ':' !in a
    ensures Fields(a) == [a]
  {
    if a != "" {
      FieldsOne(a[1..]);
      assert [a[0]] + a[1..] == a;
    }
  }

  /** The session keys the adapter serves. */
  lemma WebchatSessions(agent: string, channel: string)
    requires ':' !in agent && ':' !in channel && agent != "" && channel != ""
    ensures IsWebchatSession("agent" + ":" + (agent + ":" + ("webchat" + ":" + ("channel" + ":" + channel))))
  {
    FieldsOne(channel);
    FieldsSplit("channel", channel);
    FieldsSplit("webchat", "channel" + ":" + channel);
    FieldsSplit(agent, "webchat" + ":" + ("channel" + ":" + channel));
    FieldsSplit("agent", agent + ":" + ("webchat" + ":" + ("channel" + ":" + channel)));
  }

  // ---------------------------------------------------------------- staging again

  /**
   Staging what has a row already: it succeeds exactly while the ticket is still accepted,
   and then answers with the row as it stands; a confirmed row, whose ticket is accepted no
   more, is refused. A refusal changes nothing.
   */
  lemma StagedAgain(db: Db, t: TicketId, attempt: string, run: string, owner: SessionKey, payload: string)
    requires Good(db) && run != "" && IsWebchatSession(owner) && t != "" && attempt != ""
    requires Trimmed(payload) == payload != "" && RunTickets(db, run, owner) == {t}
    requires attempt in db.inferences && ActiveAt(db, owner, db.inferences[attempt].generation)
    requires var input := WebchatInput(t, attempt, run, owner, db.sessions[owner].generation, payload);
             input.key in db.deliveries && db.deliveries[input.key].id == input.id && db.deliveries[input.key].state != Prepared &&
             db.sessions[owner].generation <= MAX_SAFE_INTEGER
    ensures var d := db.deliveries[WebchatKey(t, db.sessions[owner].generation, attempt)];
            var again := StageWebchat(db, Some(attempt), run, owner, payload);
            && again.db == db
            && (again.receipt.Done? <==> db.tickets[t].status == Accepted)
            && (again.receipt.Done? ==> again.receipt == Done(d))
            && (d.state == Confirmed ==> !again.receipt.Done?)
  {
    var input := WebchatInput(t, attempt, run, owner, db.sessions[owner].generation, payload);
    assert t in RunTickets(db, run, owner);
    assert input.key != "" by {
      assert input.key[0] == 'c';
    }
    assert RowGood(db.deliveries[input.key]) && RowPlaced(db, db.deliveries[input.key]);
  }

  /** What staging answers with is staged at least, never confirmed, and its ticket is the accepted one of the run. */
  lemma StagedRow(db: Db, attempt: string, run: string, owner: SessionKey, payload: string)
    requires Good(db) && attempt in db.inferences && Trimmed(payload) == payload
    requires StageWebchat(db, Some(attempt), run, owner, payload).receipt.Done?
    ensures var o := StageWebchat(db, Some(attempt), run, owner, payload);
            var d := o.receipt.delivery;
            && d.id.ticket in db.tickets && db.tickets[d.id.ticket].status == Accepted
            && RunTickets(db, run, owner) == {d.id.ticket}
            && 1 <= Rank(d.state) < 3 && d.text == payload
            && WebchatKey(d.id.ticket, db.sessions[owner].generation, attempt) in o.db.deliveries
            && o.db.deliveries[WebchatKey(d.id.ticket, db.sessions[owner].generation, attempt)] == d
  {
    var t := OnlyKey(RunTickets(db, run, owner));
    assert t in RunTickets(db, run, owner);
    var input := WebchatInput(t, attempt, run, owner, db.sessions[owner].generation, payload);
    if input.key in db.deliveries {
      assert RowGood(db.deliveries[input.key]) && RowPlaced(db, db.deliveries[input.key]);
    }
  }

  /** Staging twice in a row is staging once. */
  lemma StageWebchatTwice(db: Db, attempt: string, run: string, owner: SessionKey, payload: string)
    requires attempt in db.inferences && Trimmed(payload) == payload
    requires StageWebchat(db, Some(attempt), run, owner, payload).receipt.Done?
    ensures var first := StageWebchat(db, Some(attempt), run, owner, payload);
            attempt in first.db.inferences && StageWebchat(first.db, Some(attempt), run, owner, payload) == first
  {
    var t := OnlyKey(RunTickets(db, run, owner));
    var input := WebchatInput(t, attempt, run, owner, db.sessions[owner].generation, payload);
    StageInputTwice(db, input);
    assert RunTickets(StageInput(db, input).db, run, owner) == RunTickets(db, run, owner);
  }

  lemma StageInputTwice(db: Db, input: Input)
    requires StageInput(db, input).receipt.Done? && Trimmed(input.text) == input.text
    ensures var o := StageInput(db, input);
            StageInput(o.db, input) == o && o.db == db.(deliveries := o.db.deliveries)
  {
  }
}

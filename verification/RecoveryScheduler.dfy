/**
 When the recovery service sleeps and for how long: the wake-up time it computes
 against the predicates that say what is due. Times are milliseconds.
 */
module RecoveryScheduler {
  import opened Common

  const RETRY_MS := 30000
  const LIVENESS_MS := 15 * 60000
  const BATCH := 32

  datatype Session = Session(active: bool, generation: nat, updatedAt: int, lifecycle: bool)

  datatype State = Pending | Running | Other

  /** A recovery row joined with its ticket and session; `open` is an accepted ticket of the direct lane without a workflow. */
  datatype Recovery = Recovery(
    state: State,
    open: bool,
    generation: nat,
    session: Session,
    nextAt: Option<int>,
    updatedAt: int,
    calling: bool)

  /** An assistant delivery joined with its owner session. */
  datatype Delivery = Delivery(
    pending: bool,
    generation: nat,
    session: Session,
    attempts: nat,
    updatedAt: int,
    token: Option<string>,
    expiresAt: Option<int>)

  /** `deliveries` in the order of owner session and delivery id; `leased` when the claim columns exist. */
  datatype Db = Db(recoveries: seq<Recovery>, deliveries: seq<Delivery>, leased: bool)

  function Max(a: int, b: int): int {
    if a < b then b else a
  }

  function Min(a: int, b: int): int {
    if a < b then a else b
  }

  function StaleMs(timeoutSeconds: int): int {
    Max(15 * 60000, Min(timeoutSeconds * 1000 + 60000, 4 * 60 * 60000))
  }

  predicate Live(s: Session, now: int) {
    s.updatedAt >= now - LIVENESS_MS
  }

  // ---------------------------------------------------------------- what is due

  predicate Owned(r: Recovery) {
    r.open && r.session.active && r.session.generation == r.generation
  }

  predicate Waiting(r: Recovery, now: int) {
    r.state == Pending && Owned(r) && Live(r.session, now) && !r.calling
  }

  predicate RecoveryDue(r: Recovery, now: int) {
    Waiting(r, now) && (r.nextAt.None? || r.nextAt.value <= now)
  }

  predicate Stale(r: Recovery, timeoutSeconds: int, now: int) {
    r.state == Running && Owned(r) && r.updatedAt <= now - StaleMs(timeoutSeconds)
  }

  predicate Authorised(d: Delivery, now: int) {
    d.pending && d.session.active && d.session.generation == d.generation && d.session.lifecycle && Live(d.session, now)
  }

  predicate DeliveryDue(d: Delivery, leased: bool, now: int) {
    && Authorised(d, now)
    && (leased ==> d.token.None? || d.expiresAt.None? || d.expiresAt.value <= now)
    && (d.attempts == 0 || d.updatedAt <= now - RETRY_MS)
  }

  // ---------------------------------------------------------------- queries

  /** ORDER BY ... LIMIT 1 over the rows a filter keeps: a row of least rank, if there is one. */
  ghost predicate Heads<T(!new)>(head: Option<T>, rows: seq<T>, keep: T -> bool, rank: T -> int) {
    match head
    case Some(h) => h in rows && keep(h) && forall r :: r in rows && keep(r) ==> rank(h) <= rank(r)
    case None => forall r :: r in rows ==> !keep(r)
  }

  function Head<T>(rows: seq<T>, keep: T -> bool, rank: T -> int): Option<T> {
    if rows == [] then None
    else
      var rest := Head(rows[1..], keep, rank);
      if !keep(rows[0]) then rest
      else if rest.Some? && rank(rest.value) < rank(rows[0]) then rest
      else Some(rows[0])
  }

  lemma {:induction false} HeadHeads<T(!new)>(rows: seq<T>, keep: T -> bool, rank: T -> int)
    ensures Heads(Head(rows, keep, rank), rows, keep, rank)
  {
    if rows != [] {
      HeadHeads(rows[1..], keep, rank);
      assert forall r :: r in rows <==> r == rows[0] || r in rows[1..];
    }
  }

  function AuthorisedRows(rows: seq<Delivery>, now: int): (kept: seq<Delivery>)
    ensures forall d :: d in kept <==> d in rows && Authorised(d, now)
  {
    if rows == [] then []
    else
      var rest := AuthorisedRows(rows[1..], now);
      if Authorised(rows[0], now) then [rows[0]] + rest else rest
  }

  function Batch(rows: seq<Delivery>): seq<Delivery> {
    if |rows| <= BATCH then rows else rows[..BATCH]
  }

  // ---------------------------------------------------------------- the wake-up time

  /** How long until the row should be looked at again. */
  function DelayOf(d: Delivery, now: int): int {
    var due :=
      if d.token.Some? && d.token.value != "" && d.expiresAt.Some? then d.expiresAt.value
      else if d.attempts > 0 then d.updatedAt + RETRY_MS
      else now;
    Max(25, due - now)
  }

  /** The least delay of the rows, if there is a row. */
  predicate IsEarliest(wake: Option<int>, rows: seq<Delivery>, now: int) {
    match wake
    case Some(w) => (exists i :: 0 <= i < |rows| && DelayOf(rows[i], now) == w) && forall i :: 0 <= i < |rows| ==> w <= DelayOf(rows[i], now)
    case None => rows == []
  }

  /** Without the claim columns only the delivery touched longest ago is looked at. */
  function LegacyDelay(oldest: Option<Delivery>, now: int): Option<int> {
    if oldest.None? then None
    else if oldest.value.attempts == 0 then Some(25)
    else Some(Max(25, oldest.value.updatedAt + RETRY_MS - now))
  }

  function OldestDelivery(db: Db, now: int): Option<Delivery> {
    Head(db.deliveries, (d: Delivery) => Authorised(d, now), (d: Delivery) => d.updatedAt)
  }

  method NextAssistantDeliveryWakeMs(db: Db, now: int) returns (wake: Option<int>)
    ensures DeliveryWake(wake, db, now)
  {
    if !db.leased {
      var row := OldestDelivery(db, now);
      if row.None? {
        return None;
      }
      if row.value.attempts == 0 {
        return Some(25);
      }
      return Some(Max(25, row.value.updatedAt + RETRY_MS - now));
    }
    var rows := Batch(AuthorisedRows(db.deliveries, now));
    var best: Option<int> := None;
    for i := 0 to |rows|
      invariant IsEarliest(best, rows[..i], now)
    {
      var row := rows[i];
      var dueMs := now;
      if row.token.Some? && row.token.value != "" && row.expiresAt.Some? {
        dueMs := row.expiresAt.value;
      } else if row.attempts > 0 {
        dueMs := row.updatedAt + RETRY_MS;
      }
      var delay := Max(25, dueMs - now);
      ghost var before := best;
      best := if best.None? then Some(delay) else Some(Min(best.value, delay));
      assert rows[..i + 1] == rows[..i] + [row];
      assert rows[..i + 1][i] == row;
      EarliestGrows(before, rows[..i], row, now);
    }
    assert rows[..|rows|] == rows;
    wake := best;
  }

  lemma EarliestGrows(best: Option<int>, rows: seq<Delivery>, row: Delivery, now: int)
    requires IsEarliest(best, rows, now)
    ensures IsEarliest(Some(if best.None? then DelayOf(row, now) else Min(best.value, DelayOf(row, now))), rows + [row], now)
  {
    var more := rows + [row];
    assert more[|rows|] == row;
    if best.Some? {
      var i :| 0 <= i < |rows| && DelayOf(rows[i], now) == best.value;
      assert more[i] == rows[i];
    }
  }

  /** Rows without a next attempt come first, the others by their next attempt. */
  function FirstPending(db: Db, now: int): Option<Recovery> {
    var unset := Head(db.recoveries, (r: Recovery) => Waiting(r, now) && r.nextAt.None?, (r: Recovery) => 0);
    if unset.Some? then unset
    else Head(db.recoveries, (r: Recovery) => Waiting(r, now), (r: Recovery) => if r.nextAt.Some? then r.nextAt.value else 0)
  }

  function PendingDelay(r: Recovery, now: int): int {
    if r.nextAt.None? then 0 else Max(0, r.nextAt.value - now)
  }

  function OldestRunning(db: Db): Option<Recovery> {
    Head(db.recoveries, (r: Recovery) => r.state == Running && Owned(r), (r: Recovery) => r.updatedAt)
  }

  function StaleDelay(r: Recovery, timeoutSeconds: int, now: int): int {
    Max(0, r.updatedAt + StaleMs(timeoutSeconds) - now)
  }

  /** A wake-up no later than the moment `at`, or 25 milliseconds from now. */
  predicate InTime(wake: Option<int>, now: int, at: int) {
    wake.Some? && wake.value <= Max(25, at - now)
  }

  /**
   A moment some row asks for: the next attempt of a waiting recovery, the end of a claim's
   time, the end of a delivery's lease or its retry, or now for what was never tried.
   */
  predicate AsksFor(db: Db, timeoutSeconds: int, now: int, at: int) {
    || (exists r :: r in db.recoveries && Waiting(r, now) && at == if r.nextAt.Some? then r.nextAt.value else now)
    || (exists r :: r in db.recoveries && r.state == Running && Owned(r) && at == r.updatedAt + StaleMs(timeoutSeconds))
    || (exists d :: d in db.deliveries && Authorised(d, now) && at == MomentOf(d, db.leased, now))
  }

  function MomentOf(d: Delivery, leased: bool, now: int): int {
    if leased && d.token.Some? && d.token.value != "" && d.expiresAt.Some? then d.expiresAt.value
    else if d.attempts == 0 then now
    else d.updatedAt + 30_000
  }

  /** The wake-up time; None lets the service sleep until it is pulsed. */
  method NextDirectRecoveryWakeMs(db: Db, timeoutSeconds: int, now: int) returns (wake: Option<int>)
    ensures wake.Some? ==> 25 <= wake.value
    ensures forall at :: now <= at && RecoveriesDue(db, timeoutSeconds, at) ==> InTime(wake, now, at)
    ensures SleepsSafely(db, now) ==> forall at :: now <= at && DeliveriesDue(db, at) ==> InTime(wake, now, at)
    ensures wake.None? <==> NothingPending(db, now)
    ensures wake.Some? ==> exists at :: AsksFor(db, timeoutSeconds, now, at) && wake.value == if now + 25 < at then at - now else 25
  {
    var delays: seq<int> := [];
    var pending := FirstPending(db, now);
    if pending.Some? {
      delays := delays + [PendingDelay(pending.value, now)];
    }
    var running := OldestRunning(db);
    if running.Some? {
      delays := delays + [StaleDelay(running.value, timeoutSeconds, now)];
    }
    var delivery := NextAssistantDeliveryWakeMs(db, now);
    if delivery.Some? {
      delays := delays + [delivery.value];
    }
    RecoveriesCovered(db, timeoutSeconds, now);
    if SleepsSafely(db, now) {
      DeliveriesCovered(db, now, delivery);
    }
    NothingIsPending(db, now, delivery);
    if delays == [] {
      return None;
    }
    var least := LeastOf(delays);
    wake := Some(Max(25, least));
    ghost var at := SomebodyAsks(db, timeoutSeconds, now, delivery, least);
    assert pending.Some? ==> PendingDelay(pending.value, now) in delays;
    assert running.Some? ==> StaleDelay(running.value, timeoutSeconds, now) in delays;
    assert delivery.Some? ==> delivery.value in delays;
  }

  method LeastOf(s: seq<int>) returns (m: int)
    requires s != []
    ensures m in s && forall x :: x in s ==> m <= x
  {
    m := s[0];
    for i := 1 to |s|
      invariant m in s && forall k :: 0 <= k < i ==> m <= s[k]
    {
      m := Min(m, s[i]);
    }
    assert s[..] == s;
  }

  // ---------------------------------------------------------------- never oversleeping

  predicate RecoveriesDue(db: Db, timeoutSeconds: int, now: int) {
    exists i :: 0 <= i < |db.recoveries| && (RecoveryDue(db.recoveries[i], now) || Stale(db.recoveries[i], timeoutSeconds, now))
  }

  predicate DeliveriesDue(db: Db, now: int) {
    exists i :: 0 <= i < |db.deliveries| && DeliveryDue(db.deliveries[i], db.leased, now)
  }

  /** The claim columns exist and the batch holds every authorised delivery; or, without them, the oldest decides rightly. */
  predicate SleepsSafely(db: Db, now: int) {
    if db.leased then |AuthorisedRows(db.deliveries, now)| <= BATCH
    else OldestDecides(db, now)
  }

  /** The oldest delivery was never tried or is due for its retry at once, or every authorised one was tried. */
  predicate OldestDecides(db: Db, now: int) {
    var oldest := OldestDelivery(db, now);
    || oldest.None?
    || oldest.value.attempts == 0
    || oldest.value.updatedAt + RETRY_MS <= now + 25
    || forall d :: d in db.deliveries && Authorised(d, now) ==> d.attempts > 0
  }

  predicate NothingPending(db: Db, now: int) {
    && (forall r :: r in db.recoveries ==> !Waiting(r, now) && !(r.state == Running && Owned(r)))
    && (forall d :: d in db.deliveries ==> !Authorised(d, now))
  }

  /** A session counts as live for a quarter of an hour after its last sign of life. */
  lemma LiveUntil(s: Session, now: int)
    ensures Live(s, now) <==> now <= s.updatedAt + 900_000
  {
  }

  /** A session live at a later moment is live now. */
  lemma LiveBefore(s: Session, now: int, at: int)
    requires now <= at && Live(s, at)
    ensures Live(s, now)
  {
  }

  lemma PendingHead(db: Db, now: int)
    ensures match FirstPending(db, now)
            case None => forall r :: r in db.recoveries ==> !Waiting(r, now)
            case Some(h) => h in db.recoveries && Waiting(h, now) &&
                            forall r :: r in db.recoveries && Waiting(r, now) ==> PendingDelay(h, now) <= PendingDelay(r, now)
  {
    HeadHeads(db.recoveries, (r: Recovery) => Waiting(r, now) && r.nextAt.None?, (r: Recovery) => 0);
    HeadHeads(db.recoveries, (r: Recovery) => Waiting(r, now), (r: Recovery) => if r.nextAt.Some? then r.nextAt.value else 0);
  }

  lemma RunningHead(db: Db)
    ensures match OldestRunning(db)
            case None => forall r :: r in db.recoveries ==> !(r.state == Running && Owned(r))
            case Some(h) => h in db.recoveries && h.state == Running && Owned(h) &&
                            forall r :: r in db.recoveries && r.state == Running && Owned(r) ==> h.updatedAt <= r.updatedAt
  {
    HeadHeads(db.recoveries, (r: Recovery) => r.state == Running && Owned(r), (r: Recovery) => r.updatedAt);
  }

  lemma OldestHead(db: Db, now: int)
    ensures match OldestDelivery(db, now)
            case None => forall d :: d in db.deliveries ==> !Authorised(d, now)
            case Some(h) => h in db.deliveries && Authorised(h, now) &&
                            forall d :: d in db.deliveries && Authorised(d, now) ==> h.updatedAt <= d.updatedAt
  {
    HeadHeads(db.deliveries, (d: Delivery) => Authorised(d, now), (d: Delivery) => d.updatedAt);
  }

  /** One of the two delays ends by the moment `at`. */
  predicate RecoveryCovered(db: Db, timeoutSeconds: int, now: int, at: int) {
    || (FirstPending(db, now).Some? && PendingDelay(FirstPending(db, now).value, now) <= at - now)
    || (OldestRunning(db).Some? && StaleDelay(OldestRunning(db).value, timeoutSeconds, now) <= at - now)
  }

  lemma RecoveriesCovered(db: Db, timeoutSeconds: int, now: int)
    ensures forall at :: now <= at && RecoveriesDue(db, timeoutSeconds, at) ==> RecoveryCovered(db, timeoutSeconds, now, at)
  {
    PendingHead(db, now);
    RunningHead(db);
    forall at | now <= at && RecoveriesDue(db, timeoutSeconds, at) ensures RecoveryCovered(db, timeoutSeconds, now, at) {
      var i :| 0 <= i < |db.recoveries| && (RecoveryDue(db.recoveries[i], at) || Stale(db.recoveries[i], timeoutSeconds, at));
      var r := db.recoveries[i];
      if RecoveryDue(r, at) {
        LiveBefore(r.session, now, at);
        assert Waiting(r, now) && PendingDelay(r, now) <= at - now;
      }
    }
  }

  /** The answer of the delivery part of the computation. */
  predicate DeliveryWake(wake: Option<int>, db: Db, now: int) {
    if db.leased then IsEarliest(wake, Batch(AuthorisedRows(db.deliveries, now)), now)
    else wake == LegacyDelay(OldestDelivery(db, now), now)
  }

  /** A row due at a later moment has a delay that ends by then. */
  lemma DueWithinDelay(r: Delivery, leased: bool, now: int, at: int)
    requires now <= at && DeliveryDue(r, leased, at)
    ensures Authorised(r, now) && (leased ==> DelayOf(r, now) <= Max(25, at - now))
  {
    LiveBefore(r.session, now, at);
  }

  lemma DeliveriesCovered(db: Db, now: int, wake: Option<int>)
    requires DeliveryWake(wake, db, now) && SleepsSafely(db, now)
    ensures forall at :: now <= at && DeliveriesDue(db, at) ==> InTime(wake, now, at)
  {
    forall at | now <= at && DeliveriesDue(db, at) ensures InTime(wake, now, at) {
      var i :| 0 <= i < |db.deliveries| && DeliveryDue(db.deliveries[i], db.leased, at);
      var r := db.deliveries[i];
      DueWithinDelay(r, db.leased, now, at);
      if db.leased {
        assert r in AuthorisedRows(db.deliveries, now);
      } else {
        OldestHead(db, now);
        assert r in db.deliveries;
      }
    }
  }

  lemma NothingIsPending(db: Db, now: int, wake: Option<int>)
    requires DeliveryWake(wake, db, now)
    ensures NothingPending(db, now) <==> FirstPending(db, now).None? && OldestRunning(db).None? && wake.None?
  {
    PendingHead(db, now);
    RunningHead(db);
    OldestHead(db, now);
    if db.leased {
      var rows := AuthorisedRows(db.deliveries, now);
      assert rows == [] <==> Batch(rows) == [];
      if rows != [] {
        assert rows[0] in rows;
      }
    }
  }

  /** Each of the three delays is the time to a moment that a row asks for. */
  lemma SomebodyAsks(db: Db, timeoutSeconds: int, now: int, wake: Option<int>, least: int) returns (at: int)
    requires DeliveryWake(wake, db, now)
    requires || (FirstPending(db, now).Some? && least == PendingDelay(FirstPending(db, now).value, now))
             || (OldestRunning(db).Some? && least == StaleDelay(OldestRunning(db).value, timeoutSeconds, now))
             || wake == Some(least)
    ensures AsksFor(db, timeoutSeconds, now, at) && Max(25, least) == if now + 25 < at then at - now else 25
  {
    PendingHead(db, now);
    RunningHead(db);
    if FirstPending(db, now).Some? && least == PendingDelay(FirstPending(db, now).value, now) {
      var r := FirstPending(db, now).value;
      at := if r.nextAt.Some? then r.nextAt.value else now;
    } else if OldestRunning(db).Some? && least == StaleDelay(OldestRunning(db).value, timeoutSeconds, now) {
      at := OldestRunning(db).value.updatedAt + StaleMs(timeoutSeconds);
    } else {
      var d := AskingDelivery(db, now, least);
      at := MomentOf(d, db.leased, now);
    }
  }

  lemma AskingDelivery(db: Db, now: int, delay: int) returns (d: Delivery)
    requires DeliveryWake(Some(delay), db, now)
    ensures d in db.deliveries && Authorised(d, now) && delay == Max(25, MomentOf(d, db.leased, now) - now)
  {
    if db.leased {
      var rows := Batch(AuthorisedRows(db.deliveries, now));
      var i :| 0 <= i < |rows| && DelayOf(rows[i], now) == delay;
      d := rows[i];
      assert d in AuthorisedRows(db.deliveries, now);
    } else {
      OldestHead(db, now);
      d := OldestDelivery(db, now).value;
    }
  }

  /** A claim is stale a minute after its time-out, but not before a quarter of an hour and not later than four hours. */
  lemma StaleAfter(r: Recovery, timeoutSeconds: int, now: int)
    requires r.state == Running && Owned(r)
    ensures Stale(r, timeoutSeconds, now) <==>
              && r.updatedAt + 900_000 <= now
              && (r.updatedAt + 1000 * timeoutSeconds + 60_000 <= now || r.updatedAt + 14_400_000 <= now)
  {
  }

  // ---------------------------------------------------------------- when it does oversleep

  /** Without the claim columns the service wakes in time for every delivery exactly when the oldest one decides rightly. */
  lemma LegacySafeIff(db: Db, now: int, wake: Option<int>)
    requires !db.leased && DeliveryWake(wake, db, now)
    ensures OldestDecides(db, now) <==> forall at :: now <= at && DeliveriesDue(db, at) ==> InTime(wake, now, at)
  {
    if OldestDecides(db, now) {
      DeliveriesCovered(db, now, wake);
    } else {
      OldestHead(db, now);
      var r :| r in db.deliveries && Authorised(r, now) && r.attempts == 0;
      var i :| 0 <= i < |db.deliveries| && db.deliveries[i] == r;
      assert DeliveriesDue(db, now);
      assert !InTime(wake, now, now);
    }
  }

  /** The first moment from now on at which the row is due, as long as its session lives. */
  function ReadyAt(r: Delivery, now: int): int {
    var free := if r.token.Some? && r.expiresAt.Some? then r.expiresAt.value else now;
    var retry := if r.attempts > 0 then r.updatedAt + RETRY_MS else now;
    Max(now, Max(free, retry))
  }

  lemma DueFromReady(r: Delivery, now: int, at: int)
    requires now <= at
    ensures DeliveryDue(r, true, at) <==> Authorised(r, at) && ReadyAt(r, now) <= at
  {
  }

  predicate Oversleeps(db: Db, now: int, wake: Option<int>, at: int) {
    now <= at && DeliveriesDue(db, at) && !InTime(wake, now, at)
  }

  lemma OverlookedRow(db: Db, now: int, wake: Option<int>, at: int)
    requires db.leased && DeliveryWake(wake, db, now) && Oversleeps(db, now, wake, at)
    ensures exists i :: BATCH <= i < |AuthorisedRows(db.deliveries, now)| && Overlooked(AuthorisedRows(db.deliveries, now), i, now)
  {
    var rows := AuthorisedRows(db.deliveries, now);
    var k :| 0 <= k < |db.deliveries| && DeliveryDue(db.deliveries[k], true, at);
    var r := db.deliveries[k];
    DueWithinDelay(r, true, now, at);
    DueFromReady(r, now, at);
    var i :| 0 <= i < |rows| && rows[i] == r;
    InBatch(rows, i, now, wake);
    assert Overlooked(rows, i, now);
  }

  /** The wake-up is in time for every row of the batch. */
  lemma InBatch(rows: seq<Delivery>, i: nat, now: int, wake: Option<int>)
    requires i < |rows| && IsEarliest(wake, Batch(rows), now)
    ensures wake.Some?
    ensures i < BATCH ==> wake.value <= DelayOf(rows[i], now)
    ensures BATCH <= i ==> forall k :: 0 <= k < BATCH ==> wake.value <= DelayOf(rows[k], now)
  {
    if i < BATCH {
      assert i < |Batch(rows)| && DelayOf(Batch(rows)[i], now) == DelayOf(rows[i], now);
    } else {
      assert forall k :: 0 <= k < BATCH ==> Batch(rows)[k] == rows[k];
    }
  }

  lemma OverlookedIsLate(db: Db, now: int, wake: Option<int>, i: nat)
    requires db.leased && DeliveryWake(wake, db, now)
    requires BATCH <= i < |AuthorisedRows(db.deliveries, now)| && Overlooked(AuthorisedRows(db.deliveries, now), i, now)
    ensures Oversleeps(db, now, wake, ReadyAt(AuthorisedRows(db.deliveries, now)[i], now))
  {
    var rows := AuthorisedRows(db.deliveries, now);
    var at := ReadyAt(rows[i], now);
    DueFromReady(rows[i], now, at);
    assert rows[i] in db.deliveries;
    assert DeliveriesDue(db, at);
    var k :| 0 <= k < |Batch(rows)| && DelayOf(Batch(rows)[k], now) == wake.value;
    assert Batch(rows)[k] == rows[k];
  }

  /**
   With the claim columns the service oversleeps a delivery exactly when some row past the
   batch comes due, its session still live, before every row of the batch is looked at.
   */
  lemma OversleepsIff(db: Db, now: int, wake: Option<int>)
    requires db.leased && DeliveryWake(wake, db, now)
    ensures (exists at :: Oversleeps(db, now, wake, at)) <==>
            exists i :: BATCH <= i < |AuthorisedRows(db.deliveries, now)| && Overlooked(AuthorisedRows(db.deliveries, now), i, now)
  {
    if exists at :: Oversleeps(db, now, wake, at) {
      var at :| Oversleeps(db, now, wake, at);
      OverlookedRow(db, now, wake, at);
    }
    if exists i :: BATCH <= i < |AuthorisedRows(db.deliveries, now)| && Overlooked(AuthorisedRows(db.deliveries, now), i, now) {
      var i :| BATCH <= i < |AuthorisedRows(db.deliveries, now)| && Overlooked(AuthorisedRows(db.deliveries, now), i, now);
      OverlookedIsLate(db, now, wake, i);
    }
  }

  /** Row i comes due while its session lives, earlier than any row of the batch is looked at. */
  predicate Overlooked(rows: seq<Delivery>, i: nat, now: int)
    requires BATCH <= |rows| && i < |rows|
  {
    && Authorised(rows[i], ReadyAt(rows[i], now))
    && forall k :: 0 <= k < BATCH ==> DelayOf(rows[k], now) > Max(25, ReadyAt(rows[i], now) - now)
  }

  /** Thirty-two deliveries tried just now and a thirty-third never tried: it is due at once, the service sleeps 30 seconds. */
  lemma ThirtyThirdIsOverlooked(now: int) returns (db: Db)
    ensures db.leased && |db.deliveries| == 33 && DeliveriesDue(db, now)
    ensures forall wake :: DeliveryWake(wake, db, now) ==> wake == Some(30_000)
  {
    var session := Session(true, 0, now, true);
    var tried := Delivery(true, 0, session, 1, now, None, None);
    var untried := Delivery(true, 0, session, 0, now, None, None);
    var rows := seq(BATCH, _ => tried) + [untried];
    db := Db([], rows, true);
    AllAuthorised(rows, now);
    assert DeliveryDue(rows[BATCH], true, now);
    forall wake | DeliveryWake(wake, db, now) ensures wake == Some(RETRY_MS) {
      assert Batch(rows) == rows[..BATCH];
      assert DelayOf(rows[..BATCH][0], now) == RETRY_MS;
    }
  }

  lemma {:induction false} AllAuthorised(rows: seq<Delivery>, now: int)
    requires forall i :: 0 <= i < |rows| ==> Authorised(rows[i], now)
    ensures AuthorisedRows(rows, now) == rows
  {
    if rows != [] {
      AllAuthorised(rows[1..], now);
    }
  }

  /** Without the claim columns: a delivery tried just now hides a newer one that is due, and the service sleeps 30 seconds. */
  lemma OldestHidesTheNewer(now: int) returns (db: Db)
    ensures !db.leased && !OldestDecides(db, now) && DeliveriesDue(db, now)
    ensures forall wake :: DeliveryWake(wake, db, now) ==> wake == Some(30_000)
  {
    var session := Session(true, 0, now, true);
    var tried := Delivery(true, 0, session, 1, now, None, None);
    var untried := Delivery(true, 0, session, 0, now + 1, None, None);
    db := Db([], [tried, untried], false);
    OldestHead(db, now);
    assert tried in db.deliveries && untried in db.deliveries;
    assert OldestDelivery(db, now) == Some(tried);
    assert DeliveryDue(db.deliveries[1], false, now);
  }
}

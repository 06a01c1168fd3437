/**
 The Direct Recovery statements as the plugin executes them, on tables updated in
 place. Each method is one transaction and is proved to be the table function of
 module DirectRecovery whose behaviour over whole runs is proved there.
 */
module DirectRecoveryTables {
  import opened Common
  import opened DirectRecovery
  import opened DirectRecoveryProofs
  import opened DirectRecoverySafety
  import opened TicketStatus

  /** How an embedded recovery run ended, as the launcher's race observed it. */
  datatype Inference =
    | ClaimRevoked
    | Rejected
    | Aborted
    | NoText
    | Answered(text: string)

  /** A ticket startup looks at: an abort of an older release, or one its classifier puts on the direct lane, or neither. */
  datatype StartupRow = StartupRow(ticket: TicketId, aborted: bool, direct: bool)

  function Restored(db: Db, row: StartupRow, now: nat): Db {
    if row.aborted then MigrateAbort(db, row.ticket, now)
    else if row.direct then Reopen(db, row.ticket, now)
    else db
  }

  function RestoredAll(db: Db, rows: seq<StartupRow>, now: nat): Db {
    if rows == [] then db else Restored(RestoredAll(db, rows[..|rows| - 1], now), rows[|rows| - 1], now)
  }

  /** prepareV090RecoveryState, as far as the four tables are concerned. */
  function Prepared(db: Db, rows: seq<StartupRow>, now: nat): Db {
    ResetAtStartup(RestoredAll(WithdrawTerminal(db, now), rows, now), now)
  }

  // What the statements that touch many rows mean for workers and for the recovery order.

  /** A withdrawn row has no claim left to act on. */
  lemma WithdrawnIsPowerless(db: Db, w: Worker)
    requires Good(db) && w.ticket in db.recovery && db.recovery[w.ticket].state == Withdrawn
    ensures Powerless(db, w)
  {
    assert RowCoherent(w.ticket, db.recovery[w.ticket]);
    PowerlessIff(db, w);
  }

  lemma StaleResetFences(db: Db, now: nat, staleMs: nat, w: Worker)
    ensures HoldsClaim(ResetStale(db, now, staleMs), w) <==> HoldsClaim(db, w) && !Stale(db, w.ticket, now, staleMs)
    ensures Stale(db, w.ticket, now, staleMs) ==> Powerless(ResetStale(db, now, staleMs), w)
  {
    PowerlessIff(ResetStale(db, now, staleMs), w);
  }

  lemma StaleResetRow(db: Db, now: nat, staleMs: nat, t: TicketId)
    requires t in db.recovery
    ensures var before, after := db.recovery[t], ResetStale(db, now, staleMs).recovery[t];
            && (after.state == Pending <==> before.state == Pending || Stale(db, t, now, staleMs))
            && (Stale(db, t, now, staleMs) ==> Due(ResetStale(db, now, staleMs), t, now))
            && after.attempts == before.attempts && after.generation == before.generation
            && (!Stale(db, t, now, staleMs) ==> after == before)
  {
  }

  lemma TerminalRowsDoNotWait(db: Db, now: nat, t: TicketId, owner: Key, generation: nat)
    ensures ActiveRecovery(WithdrawTerminal(db, now), t, owner, generation) <==> ActiveRecovery(db, t, owner, generation)
  {
  }

  lemma NobodyHoldsAtStartup(db: Db, now: nat, w: Worker)
    ensures !HoldsClaim(ResetAtStartup(db, now), w)
    ensures w.ticket in db.recovery ==>
              ResetAtStartup(db, now).recovery[w.ticket].attempts == db.recovery[w.ticket].attempts &&
              ResetAtStartup(db, now).recovery[w.ticket].generation == db.recovery[w.ticket].generation
  {
  }

  class Tables {
    var sessions: map<Key, Session>
    var tickets: map<TicketId, Ticket>
    var recovery: map<TicketId, Row>
    var answers: map<AnswerKey, Answer>
    var nextEvent: nat
    var nextAnswer: nat

    constructor ()
      ensures Rows() == EMPTY_DB
    {
      sessions, tickets, recovery, answers, nextEvent, nextAnswer := map[], map[], map[], map[], 1, 1;
    }

    function Rows(): Db
      reads this
    {
      Db(sessions, tickets, recovery, answers, nextEvent, nextAnswer)
    }

    // -------------------------------------------------------------- sessions

    method SessionAuthority(key: Key) returns (session: Session)
      modifies this`sessions
      ensures Rows() == EnsureSession(old(Rows()), key)
      ensures key in sessions && session == sessions[key]
      ensures sessions == if key in old(sessions) then old(sessions) else old(sessions)[key := Session(Active, 0, None)]
    {
      if key !in sessions {
        sessions := sessions[key := Session(Active, 0, None)];
      }
      session := sessions[key];
    }

    /** Reports whether the lifecycle identity is the current one. */
    method ReactivateSessionForLifecycle(key: Key, id: string) returns (accepted: bool)
      requires key != "" && id != ""
      modifies this`sessions
      ensures Rows() == Reactivate(old(Rows()), key, id)
      ensures key in sessions
      ensures accepted <==> sessions[key].state == Active && sessions[key].sessionId == Some(id)
      ensures accepted <==>
                || key !in old(sessions)
                || (old(sessions)[key].state == Active && (old(sessions)[key].sessionId.None? || old(sessions)[key].sessionId == Some(id)))
                || (old(sessions)[key].state == Deleted && old(sessions)[key].sessionId != Some(id))
      ensures !accepted ==> sessions == old(sessions)
      ensures accepted ==>
                sessions == old(sessions)[key := Session(Active, if key in old(sessions) then old(sessions)[key].generation else 0, Some(id))]
    {
      if key !in sessions {
        sessions := sessions[key := Session(Active, 0, Some(id))];
        return true;
      }
      var s := sessions[key];
      if s.state == Active {
        if s.sessionId.None? {
          sessions := sessions[key := s.(sessionId := Some(id))];
          return true;
        }
        return s.sessionId == Some(id);
      }
      if s.state == Deleted && s.sessionId == Some(id) {
        return false;
      }
      if s.state != Deleted {
        return false;
      }
      sessions := sessions[key := s.(state := Active, sessionId := Some(id))];
      return true;
    }

    /** The loop of a revocation over the open tickets of the session. */
    method CancelOpenTickets(key: Key) returns (cancelled: set<TicketId>)
      modifies this`tickets
      ensures forall t :: t in cancelled <==>
                t in old(tickets) && old(tickets)[t].owner == key && !Terminal(old(tickets)[t].status)
      ensures tickets == CancelOwned(old(tickets), key)
      ensures tickets.Keys == old(tickets).Keys
      ensures forall t :: t in tickets ==>
                tickets[t] == if t in cancelled then old(tickets)[t].(status := Cancelled, readyAt := None) else old(tickets)[t]
    {
      var rows := set t | t in tickets && tickets[t].owner == key && !Terminal(tickets[t].status);
      cancelled := {};
      ghost var all := rows;
      while rows != {}
        invariant rows + cancelled == all && rows !! cancelled
        invariant tickets == map t | t in old(tickets) ::
            if t in cancelled then CancelTicket(old(tickets)[t]) else old(tickets)[t]
        decreases rows
      {
        var t :| t in rows;
        rows := rows - {t};
        cancelled := cancelled + {t};
        tickets := tickets[t := tickets[t].(status := Cancelled, readyAt := None)];
      }
    }

    /** The session row of a revocation: the next generation, active again or being deleted. */
    method AdvanceSession(key: Key, deleting: bool, id: Option<string>) returns (generation: nat)
      modifies this`sessions
      ensures generation == if key in old(sessions) then old(sessions)[key].generation + 1 else 1
      ensures sessions == old(sessions)[key := Session(
                  if deleting then Deleting else Active,
                  generation,
                  if id.Some? then id else if key in old(sessions) then old(sessions)[key].sessionId else None)]
    {
      var prior := SessionAuthority(key);
      generation := prior.generation + 1;
      sessions := sessions[key := Session(if deleting then Deleting else Active, generation,
                                          if id.Some? then id else prior.sessionId)];
    }

    /** Cancel, reset or delete; returns the new generation and the tickets it cancelled. */
    method RevokeSession(key: Key, deleting: bool, id: Option<string>, now: nat)
      returns (generation: nat, cancelled: set<TicketId>)
      modifies this
      ensures Rows() == Revoke(old(Rows()), key, deleting, id, now)
      ensures forall t :: t in cancelled <==>
                t in old(tickets) && old(tickets)[t].owner == key && !Terminal(old(tickets)[t].status)
      ensures generation == if key in old(sessions) then old(sessions)[key].generation + 1 else 1
      ensures sessions == old(sessions)[key := Session(
                  if deleting then Deleting else Active,
                  generation,
                  if id.Some? then id else if key in old(sessions) then old(sessions)[key].sessionId else None)]
      ensures tickets.Keys == old(tickets).Keys && recovery.Keys == old(recovery).Keys && answers == old(answers)
      ensures forall t :: t in tickets ==>
                tickets[t] == if t in cancelled then old(tickets)[t].(status := Cancelled, readyAt := None) else old(tickets)[t]
      ensures forall t :: t in recovery ==>
                recovery[t] == if t in tickets && tickets[t].owner == key && old(recovery)[t].state != Withdrawn
                               then old(recovery)[t].(state := Withdrawn, activeRun := None, nextAt := None, updatedAt := now)
                               else old(recovery)[t]
    {
      generation := AdvanceSession(key, deleting, id);
      cancelled := CancelOpenTickets(key);
      WithdrawRecoveryRows(key, now);
      SameOwners(old(recovery), old(tickets), key, now);
    }

    /** After this no worker launched for a ticket of the session can change anything. */
    method WithdrawRecoveryRows(key: Key, now: nat)
      modifies this`recovery
      ensures recovery == WithdrawOwned(old(recovery), tickets, key, now)
      ensures forall t :: t in recovery && OwnedBy(tickets, t, key) ==>
                recovery[t].state == Withdrawn && recovery[t].attempts == old(recovery)[t].attempts &&
                recovery[t].generation == old(recovery)[t].generation
      ensures Good(old(Rows())) ==>
                Good(Rows()) && forall w: Worker :: w.ticket in recovery && OwnedBy(tickets, w.ticket, key) ==> Powerless(Rows(), w)
      ensures recovery.Keys == old(recovery).Keys
      ensures forall t :: t in recovery ==>
                recovery[t] == if t in tickets && tickets[t].owner == key && old(recovery)[t].state != Withdrawn
                               then old(recovery)[t].(state := Withdrawn, activeRun := None, nextAt := None, updatedAt := now)
                               else old(recovery)[t]
    {
      recovery := map t | t in recovery ::
        if t in tickets && tickets[t].owner == key && recovery[t].state != Withdrawn
        then recovery[t].(state := Withdrawn, activeRun := None, nextAt := None, updatedAt := now)
        else recovery[t];
      if Good(Rows()) {
        forall w: Worker | w.ticket in recovery && OwnedBy(tickets, w.ticket, key) ensures Powerless(Rows(), w) {
          WithdrawnIsPowerless(Rows(), w);
        }
      }
    }

    /**
     A deleted session authorises no worker, keeps its generation, and can be brought back
     only under another lifecycle id.
     */
    method FinalizeSessionDeletion(key: Key)
      modifies this`sessions
      ensures Rows() == FinalizeDeletion(old(Rows()), key)
      ensures forall w: Worker :: OwnedBy(tickets, w.ticket, key) ==> !HoldsClaim(Rows(), w)
      ensures key in sessions ==> sessions[key].generation == old(sessions)[key].generation
      ensures key in sessions && key != "" ==> forall id :: id != "" ==>
                (Reactivate(Rows(), key, id).sessions[key].state == Active <==> sessions[key].sessionId != Some(id))
      ensures sessions == if key in old(sessions) then old(sessions)[key := old(sessions)[key].(state := Deleted)] else old(sessions)
    {
      if key in sessions {
        sessions := sessions[key := sessions[key].(state := Deleted)];
      }
    }

    // -------------------------------------------------------------- queueing

    /** False, and nothing queued, when the owner session is not active. */
    method QueueRecovery(t: TicketId, owner: Key, now: nat) returns (queued: bool)
      modifies this`sessions, this`recovery
      ensures sessions == EnsureSession(old(Rows()), owner).sessions
      ensures queued <==> sessions[owner].state == Active
      ensures recovery == if queued
                          then old(recovery)[t := Requeued(RowOf(old(Rows()), t), sessions[owner].generation, now)]
                          else old(recovery)
      ensures queued <==> owner !in old(sessions) || old(sessions)[owner].state == Active
      ensures queued ==>
                recovery == old(recovery)[t := Row(Pending, if t in old(recovery) then old(recovery)[t].attempts else 0, None, Some(now),
                                                   if owner in old(sessions) then old(sessions)[owner].generation else 0, now)]
    {
      var authority := SessionAuthority(owner);
      if authority.state != Active {
        return false;
      }
      if t in recovery {
        recovery := recovery[t := recovery[t].(state := Pending, activeRun := None, nextAt := Some(now),
                                               generation := authority.generation, updatedAt := now)];
      } else {
        recovery := recovery[t := Row(Pending, 0, None, Some(now), authority.generation, now)];
      }
      return true;
    }

    /** `aborted` is the owner session of the run when the message is an explicit user abort: that cancels the session instead. */
    method MarkDirectRecovery(t: TicketId, aborted: Option<Key>, now: nat) returns (marked: bool)
      modifies this
      ensures Rows() == if aborted.Some? then Revoke(old(Rows()), aborted.value, false, None, now) else MarkRecovery(old(Rows()), t, now)
      ensures marked ==> aborted.None? && t in recovery && recovery[t].state == Pending
      ensures marked <==>
                && aborted.None? && t in old(tickets) && old(tickets)[t].status == Accepted && !old(tickets)[t].eligible
                && (old(tickets)[t].owner in old(sessions) ==> old(sessions)[old(tickets)[t].owner].state == Active)
      ensures marked ==>
                && tickets == old(tickets)[t := old(tickets)[t].(interrupted := true, readyAt := None, confirmedAt := None)]
                && old(tickets)[t].owner in sessions
                && recovery == old(recovery)[t := Row(Pending, if t in old(recovery) then old(recovery)[t].attempts else 0, None, Some(now),
                                                      sessions[old(tickets)[t].owner].generation, now)]
      ensures !marked && aborted.None? ==> tickets == old(tickets) && recovery == old(recovery)
      ensures aborted.Some? ==>
                && aborted.value in sessions && sessions[aborted.value].state == Active
                && forall u :: u in tickets && tickets[u].owner == aborted.value ==> Terminal(tickets[u].status)
    {
      if aborted.Some? {
        var _, _ := RevokeSession(aborted.value, false, None, now);
        return false;
      }
      if t !in tickets || tickets[t].status != Accepted || tickets[t].eligible {
        return false;
      }
      marked := QueueRecovery(t, tickets[t].owner, now);
      if marked {
        tickets := tickets[t := tickets[t].(interrupted := true, readyAt := None, confirmedAt := None)];
      }
    }

    method QueueBehindOlderRecovery(t: TicketId, now: nat) returns (queued: bool)
      modifies this`recovery, this`tickets
      ensures Rows() == QueueBehindOlder(old(Rows()), t, now)
      ensures queued <==> Direct(old(Rows()), t) && old(tickets)[t].owner in sessions
                          && sessions[old(tickets)[t].owner].state == Active
                          && HasPredecessor(old(Rows()), t, sessions[old(tickets)[t].owner].generation)
      ensures !queued ==> Rows() == old(Rows())
      ensures queued ==>
                && tickets == old(tickets)[t := old(tickets)[t].(interrupted := true, readyAt := None, confirmedAt := None)]
                && var generation, known := sessions[old(tickets)[t].owner].generation, t in old(recovery);
                   recovery == old(recovery)[t :=
                       if known && old(recovery)[t].state == Claimed then old(recovery)[t].(generation := generation, updatedAt := now)
                       else if known && old(recovery)[t].state == AwaitingDelivery
                       then old(recovery)[t].(activeRun := None, generation := generation, updatedAt := now)
                       else Row(Pending, if known then old(recovery)[t].attempts else 0, None, Some(now), generation, now)]
    {
      if !Direct(Rows(), t) || tickets[t].owner !in sessions || sessions[tickets[t].owner].state != Active {
        return false;
      }
      var generation := sessions[tickets[t].owner].generation;
      if !HasPredecessor(Rows(), t, generation) {
        return false;
      }
      if t !in recovery {
        recovery := recovery[t := Row(Pending, 0, None, Some(now), generation, now)];
      } else {
        var r := recovery[t];
        var busy := r.state == Claimed || r.state == AwaitingDelivery;
        recovery := recovery[t := r.(
          state := if busy then r.state else Pending,
          activeRun := if r.state == Claimed then r.activeRun else None,
          nextAt := if busy then r.nextAt else Some(now),
          generation := generation,
          updatedAt := now)];
      }
      tickets := tickets[t := tickets[t].(interrupted := true, readyAt := None, confirmedAt := None)];
      return true;
    }

    /** The deadline sweep over the rows its query returned. */
    method RecoverUndeliveredDirect(rows: seq<TicketId>, cutoff: nat, now: nat)
      modifies this`sessions, this`recovery, this`tickets
      ensures Rows() == SweepAll(old(Rows()), rows, cutoff, now)
      ensures OnlyNewSessions(old(Rows()), Rows())
      ensures forall t :: t in tickets ==> SweptRow(old(Rows()), Rows(), Requeues(old(Rows()), rows, t, cutoff), t, now)
    {
      var i := 0;
      while i < |rows|
        invariant 0 <= i <= |rows|
        invariant Rows() == SweepAll(old(Rows()), rows[..i], cutoff, now)
      {
        SweepAllNext(old(Rows()), rows, i, cutoff, now);
        var t := rows[i];
        i := i + 1;
        if !Overdue(Rows(), t, cutoff) || HasAnswer(Rows(), t) {
          continue;
        }
        var queued := QueueRecovery(t, tickets[t].owner, now);
        if !queued {
          continue;
        }
        tickets := tickets[t := tickets[t].(interrupted := true, readyAt := None)];
      }
      assert rows[..i] == rows;
      SweepAllRows(old(Rows()), rows, cutoff, now);
    }

    // -------------------------------------------------------------- workers

    method ClaimIdentity(w: Worker) returns (authorised: bool)
      ensures authorised == HoldsClaim(Rows(), w)
      ensures authorised <==>
                && w.ticket in tickets && w.ticket in recovery
                && var t, r := tickets[w.ticket], recovery[w.ticket];
                && t.status == Accepted && !t.eligible && t.workflow.None?
                && t.owner in sessions && sessions[t.owner].state == Active && sessions[t.owner].generation == w.generation
                && r.generation == w.generation && r.state == Claimed && r.activeRun == Some(w.run)
    {
      if w.ticket !in tickets || w.ticket !in recovery || tickets[w.ticket].owner !in sessions {
        return false;
      }
      var t, r, s := tickets[w.ticket], recovery[w.ticket], sessions[tickets[w.ticket].owner];
      if t.status != Accepted || t.eligible || t.workflow.Some? {
        return false;
      }
      if s.state != Active || s.generation != w.generation || r.generation != w.generation {
        return false;
      }
      return r.state == Claimed && r.activeRun == Some(w.run);
    }

    method ClaimRow(w: Worker, now: nat) returns (won: bool)
      modifies this`recovery
      ensures Rows() == Claim(old(Rows()), w, now)
      ensures won == Claimable(old(Rows()), w)
      ensures won ==> HoldsClaim(Rows(), w)
      ensures won <==>
                && w.ticket in tickets && w.ticket in old(recovery)
                && var t, r := tickets[w.ticket], old(recovery)[w.ticket];
                && t.status == Accepted && !t.eligible && t.workflow.None?
                && t.owner in sessions && sessions[t.owner].state == Active && sessions[t.owner].generation == w.generation
                && r.generation == w.generation && r.state == Pending
      ensures recovery == if won then old(recovery)[w.ticket := Row(Claimed, old(recovery)[w.ticket].attempts + 1, Some(w.run), None, w.generation, now)]
                          else old(recovery)
    {
      won := Claimable(Rows(), w);
      if won {
        var r := recovery[w.ticket];
        recovery := recovery[w.ticket := Row(Claimed, r.attempts + 1, Some(w.run), None, r.generation, now)];
      }
    }

    method RetryClaim(w: Worker, now: nat) returns (requeued: bool)
      modifies this`recovery, this`tickets
      ensures Rows() == Retry(old(Rows()), w, now)
      ensures requeued == HoldsClaim(old(Rows()), w)
      ensures !requeued ==> Rows() == old(Rows())
      ensures requeued ==>
                && tickets == old(tickets)[w.ticket := old(tickets)[w.ticket].(interrupted := true)]
                && var n := old(recovery)[w.ticket].attempts;
                   recovery == old(recovery)[w.ticket := Row(Pending, n, None, Some(now + BackoffMs(n)), w.generation, now)]
    {
      requeued := ClaimIdentity(w);
      if requeued {
        var r := recovery[w.ticket];
        recovery := recovery[w.ticket := Row(Pending, r.attempts, None, Some(now + BackoffMs(r.attempts)), r.generation, now)];
        tickets := tickets[w.ticket := tickets[w.ticket].(interrupted := true)];
      }
    }

    /** False once the claim is gone: the launcher then stops polling. */
    method TouchClaim(w: Worker, now: nat) returns (touched: bool)
      modifies this`recovery
      ensures Rows() == Touch(old(Rows()), w, now)
      ensures touched ==> w.ticket in recovery && recovery[w.ticket].activeRun == Some(w.run) && recovery[w.ticket].updatedAt == now
      ensures !touched ==> Rows() == old(Rows())
      ensures touched <==>
                && w.ticket in old(recovery)
                && var r := old(recovery)[w.ticket];
                && r.state == Claimed && r.activeRun == Some(w.run) && r.generation == w.generation
                && w.owner in sessions && sessions[w.owner].state == Active && sessions[w.owner].generation == w.generation
      ensures touched ==> recovery == old(recovery)[w.ticket := old(recovery)[w.ticket].(updatedAt := now)]
    {
      touched := w.ticket in recovery && recovery[w.ticket].state == Claimed && recovery[w.ticket].activeRun == Some(w.run) &&
                 recovery[w.ticket].generation == w.generation && ActiveAt(Rows(), w.owner, w.generation);
      if touched {
        recovery := recovery[w.ticket := recovery[w.ticket].(updatedAt := now)];
      }
    }

    /** `Err` is the exception for a changed result; the transaction is rolled back then. */
    method MarkResponseReady(w: Worker, text: string, now: nat) returns (committed: Result<bool, string>)
      modifies this
      ensures Rows() == CommitResponse(old(Rows()), w, text, now)
      ensures committed == Ok(false) <==> !HoldsClaim(old(Rows()), w)
      ensures committed.Err? <==> HoldsClaim(old(Rows()), w) && AnswerKey(w.ticket, w.generation) in old(answers)
                                  && old(answers)[AnswerKey(w.ticket, w.generation)].text != text
      ensures committed == Ok(true) ==>
                && recovery[w.ticket].state == AwaitingDelivery
                && tickets[w.ticket].readyAt.Some?
                && answers[AnswerKey(w.ticket, w.generation)].text == text
      ensures committed != Ok(true) ==> Rows() == old(Rows())
      ensures committed == Ok(true) ==>
                var key, t := AnswerKey(w.ticket, w.generation), old(tickets)[w.ticket];
                && tickets == old(tickets)[w.ticket := t.(readyAt := if t.readyAt.Some? then t.readyAt else Some(now))]
                && recovery == old(recovery)[w.ticket :=
                       old(recovery)[w.ticket].(state := AwaitingDelivery, activeRun := None, nextAt := None, updatedAt := now)]
                && answers == (if key in old(answers) then old(answers)
                               else old(answers)[key := Answer(old(nextAnswer), w.owner, text, false)])
                && nextAnswer == if key in old(answers) then old(nextAnswer) else old(nextAnswer) + 1
    {
      var held := ClaimIdentity(w);
      if !held {
        return Ok(false);
      }
      var key := AnswerKey(w.ticket, w.generation);
      if key in answers {
        if answers[key].text != text {
          return Err("durable Direct recovery result changed");
        }
      } else {
        answers := answers[key := Answer(nextAnswer, w.owner, text, false)];
        nextAnswer := nextAnswer + 1;
      }
      if tickets[w.ticket].readyAt.None? {
        tickets := tickets[w.ticket := tickets[w.ticket].(readyAt := Some(now))];
      }
      recovery := recovery[w.ticket := recovery[w.ticket].(state := AwaitingDelivery, activeRun := None, nextAt := None, updatedAt := now)];
      return Ok(true);
    }

    /**
     The end of launchV094DirectRecovery: with the claim lost nothing changes, whatever the
     run produced; with the claim held the row is either answered or put back to pending.
     */
    method FinishLaunch(w: Worker, outcome: Inference, now: nat)
      modifies this
      ensures !HoldsClaim(old(Rows()), w) ==> Rows() == old(Rows())
      ensures outcome.ClaimRevoked? ==> Rows() == old(Rows())
      ensures HoldsClaim(old(Rows()), w) && !outcome.ClaimRevoked? ==>
                if outcome.Answered? && !(AnswerKey(w.ticket, w.generation) in old(answers)
                                          && old(answers)[AnswerKey(w.ticket, w.generation)].text != outcome.text)
                then Rows() == CommitResponse(old(Rows()), w, outcome.text, now) && recovery[w.ticket].state == AwaitingDelivery
                else Rows() == Retry(old(Rows()), w, now) && recovery[w.ticket].state == Pending
    {
      if outcome.ClaimRevoked? {
        return;
      }
      var held := ClaimIdentity(w);
      if !held {
        return;
      }
      if outcome.Answered? {
        var committed := MarkResponseReady(w, outcome.text, now);
        if committed.Ok? {
          return;
        }
        held := ClaimIdentity(w);
        if !held {
          return;
        }
      }
      var _ := RetryClaim(w, now);
    }

    /**
     A row is pending afterwards if it was or was stale, keeps its attempts and generation,
     and is due at once when reset; its former worker can change nothing any more, while
     every other claim is still held.
     */
    method ResetStaleDirectRecovery(now: nat, staleMs: nat)
      modifies this`recovery
      ensures Rows() == ResetStale(old(Rows()), now, staleMs) && recovery.Keys == old(recovery).Keys
      ensures forall t :: t in recovery ==>
                (recovery[t].state == Pending <==> old(recovery)[t].state == Pending || Stale(old(Rows()), t, now, staleMs)) &&
                recovery[t].attempts == old(recovery)[t].attempts && recovery[t].generation == old(recovery)[t].generation
      ensures forall t :: Stale(old(Rows()), t, now, staleMs) ==> Due(Rows(), t, now)
      ensures forall w: Worker :: Stale(old(Rows()), w.ticket, now, staleMs) ==> Powerless(Rows(), w)
      ensures forall w: Worker :: !Stale(old(Rows()), w.ticket, now, staleMs) ==> (HoldsClaim(Rows(), w) <==> HoldsClaim(old(Rows()), w))
      ensures forall t :: t in recovery ==>
                recovery[t] == if && old(recovery)[t].state == Claimed && old(recovery)[t].updatedAt + staleMs <= now
                                  && Authorised(old(Rows()), t, old(recovery)[t].generation)
                               then old(recovery)[t].(state := Pending, activeRun := None, nextAt := Some(now), updatedAt := now)
                               else old(recovery)[t]
    {
      ghost var before := Rows();
      recovery := map t | t in recovery ::
        if Stale(Rows(), t, now, staleMs)
        then recovery[t].(state := Pending, activeRun := None, nextAt := Some(now), updatedAt := now)
        else recovery[t];
      forall t | t in before.recovery {
        StaleResetRow(before, now, staleMs, t);
      }
      forall w: Worker {
        StaleResetFences(before, now, staleMs, w);
      }
    }

    // -------------------------------------------------------------- startup

    method RestoreRow(row: StartupRow, now: nat)
      modifies this`sessions, this`recovery, this`tickets
      ensures Rows() == Restored(old(Rows()), row, now)
      ensures row.aborted || !row.direct ==> sessions == old(sessions)
      ensures var t, known := row.ticket, row.ticket in old(tickets) && old(tickets)[row.ticket].workflow.None?;
              if known && row.aborted && old(tickets)[t].status == Failed && !old(tickets)[t].eligible then
                && tickets == old(tickets)[t := old(tickets)[t].(status := Cancelled)]
                && recovery == (if t in old(recovery)
                                then old(recovery)[t := old(recovery)[t].(state := Withdrawn, activeRun := None, nextAt := None, updatedAt := now)]
                                else old(recovery))
              else if && known && !row.aborted && row.direct && old(tickets)[t].eligible && old(tickets)[t].interrupted
                      && (old(tickets)[t].status == Waiting || old(tickets)[t].status == Failed)
                      && (old(tickets)[t].owner in old(sessions) ==> old(sessions)[old(tickets)[t].owner].state == Active) then
                && tickets == old(tickets)[t := old(tickets)[t].(status := Accepted, eligible := false, readyAt := None, confirmedAt := None)]
                && old(tickets)[t].owner in sessions
                && recovery == old(recovery)[t := Row(Pending, if t in old(recovery) then old(recovery)[t].attempts else 0, None, Some(now),
                                                      sessions[old(tickets)[t].owner].generation, now)]
              else
                tickets == old(tickets) && recovery == old(recovery)
    {
      var t := row.ticket;
      if t !in tickets || tickets[t].workflow.Some? {
        return;
      }
      if row.aborted {
        if tickets[t].status == Failed && !tickets[t].eligible {
          tickets := tickets[t := tickets[t].(status := Cancelled)];
          if t in recovery {
            recovery := recovery[t := recovery[t].(state := Withdrawn, activeRun := None, nextAt := None, updatedAt := now)];
          }
        }
        return;
      }
      if !row.direct || !tickets[t].eligible || !tickets[t].interrupted || tickets[t].status !in {Waiting, Failed} {
        return;
      }
      var queued := QueueRecovery(t, tickets[t].owner, now);
      if queued {
        tickets := tickets[t := tickets[t].(status := Accepted, eligible := false, readyAt := None, confirmedAt := None)];
      }
    }

    /** No row of a terminal ticket stays open, and no recovery gains or loses an active predecessor. */
    method WithdrawTerminalRows(now: nat)
      modifies this`recovery
      ensures Rows() == WithdrawTerminal(old(Rows()), now)
      ensures forall t :: t in recovery && t in tickets && Terminal(tickets[t].status) ==> recovery[t].state == Withdrawn
      ensures forall t, owner, generation ::
                ActiveRecovery(Rows(), t, owner, generation) <==> ActiveRecovery(old(Rows()), t, owner, generation)
      ensures recovery.Keys == old(recovery).Keys
      ensures forall t :: t in recovery ==>
                recovery[t] == if t in tickets && tickets[t].status in {Completed, Failed, Cancelled} && old(recovery)[t].state != Withdrawn
                               then old(recovery)[t].(state := Withdrawn, activeRun := None, nextAt := None, updatedAt := now)
                               else old(recovery)[t]
    {
      ghost var before := Rows();
      recovery := map t | t in recovery ::
        if t in tickets && Terminal(tickets[t].status) && recovery[t].state != Withdrawn
        then recovery[t].(state := Withdrawn, activeRun := None, nextAt := None, updatedAt := now)
        else recovery[t];
      forall t, owner, generation: nat {
        TerminalRowsDoNotWait(before, now, t, owner, generation);
      }
    }

    /** After a restart no worker of the process before it holds a claim, and attempts go on counting. */
    method ResetClaims(now: nat)
      modifies this`recovery
      ensures Rows() == ResetAtStartup(old(Rows()), now)
      ensures forall w: Worker :: !HoldsClaim(Rows(), w)
      ensures recovery.Keys == old(recovery).Keys
      ensures forall t :: t in recovery ==>
                recovery[t] == if && old(recovery)[t].state == Claimed && t in tickets && tickets[t].owner in sessions
                                  && sessions[tickets[t].owner].state == Active
                                  && sessions[tickets[t].owner].generation == old(recovery)[t].generation
                               then old(recovery)[t].(state := Pending, activeRun := None, nextAt := Some(now), updatedAt := now)
                               else old(recovery)[t]
    {
      ghost var before := Rows();
      recovery := map t | t in recovery ::
        if recovery[t].state == Claimed && t in tickets && tickets[t].owner in sessions && sessions[tickets[t].owner].state == Active
           && sessions[tickets[t].owner].generation == recovery[t].generation
        then recovery[t].(state := Pending, activeRun := None, nextAt := Some(now), updatedAt := now)
        else recovery[t];
      forall w: Worker {
        NobodyHoldsAtStartup(before, now, w);
      }
    }

    /** One transaction at startup; `rows` answers its query over tickets of older releases. */
    method PrepareRecoveryState(rows: seq<StartupRow>, now: nat)
      modifies this`sessions, this`recovery, this`tickets
      ensures Rows() == Prepared(old(Rows()), rows, now)
      ensures forall w: Worker :: !HoldsClaim(Rows(), w)
      ensures forall t :: t in recovery && t in tickets && Terminal(tickets[t].status) ==> recovery[t].state == Withdrawn
    {
      WithdrawTerminalRows(now);
      var i := 0;
      while i < |rows|
        invariant forall t :: t in recovery && t in tickets && Terminal(tickets[t].status) ==> recovery[t].state == Withdrawn
        invariant i <= |rows| && Rows() == RestoredAll(WithdrawTerminal(old(Rows()), now), rows[..i], now)
      {
        assert rows[..i + 1][..i] == rows[..i];
        RestoreRow(rows[i], now);
        i := i + 1;
      }
      assert rows[..i] == rows;
      ResetClaims(now);
    }

    // -------------------------------------------------------------- answers

    /** False when the ticket or session no longer allows staging, an error when the result changed. */
    method StageDashboardDirectResult(t: TicketId, text: string, now: nat) returns (staged: Result<bool, string>)
      modifies this
      ensures Rows() == Stage(old(Rows()), t, text, now)
      ensures staged == Ok(true) ==>
                && t in tickets && tickets[t].readyAt.Some? && tickets[t].owner in sessions
                && AnswerKey(t, sessions[tickets[t].owner].generation) in answers
                && answers[AnswerKey(t, sessions[tickets[t].owner].generation)].text == text
      ensures staged != Ok(true) ==> Rows() == old(Rows())
      ensures staged == Ok(false) <==>
                || t !in old(tickets) || old(tickets)[t].status != Accepted || old(tickets)[t].eligible || old(tickets)[t].workflow.Some?
                || old(tickets)[t].owner !in sessions || sessions[old(tickets)[t].owner].state != Active
      ensures staged.Err? ==>
                var key := AnswerKey(t, sessions[old(tickets)[t].owner].generation); key in answers && answers[key].text != text
      ensures staged == Ok(true) ==>
                var before := old(tickets)[t];
                var key := AnswerKey(t, sessions[before.owner].generation);
                && tickets == old(tickets)[t := before.(readyAt := if before.readyAt.Some? then before.readyAt else Some(now))]
                && recovery == old(recovery)
                && answers == (if key in old(answers) then old(answers)
                               else old(answers)[key := Answer(old(nextAnswer), before.owner, text, false)])
                && nextAnswer == if key in old(answers) then old(nextAnswer) else old(nextAnswer) + 1
    {
      if !Direct(Rows(), t) {
        return Ok(false);
      }
      var owner := tickets[t].owner;
      if owner !in sessions || sessions[owner].state != Active {
        return Ok(false);
      }
      var key := AnswerKey(t, sessions[owner].generation);
      if key in answers && answers[key].text != text {
        return Err("durable Dashboard result changed");
      }
      if key !in answers {
        answers := answers[key := Answer(nextAnswer, owner, text, false)];
        nextAnswer := nextAnswer + 1;
      }
      if tickets[t].readyAt.None? {
        tickets := tickets[t := tickets[t].(readyAt := Some(now))];
      }
      return Ok(true);
    }

    method SettleDashboardNativeDelivery(key: AnswerKey, now: nat) returns (settled: bool)
      modifies this`tickets, this`answers
      ensures Rows() == Settle(old(Rows()), key, now)
      ensures settled ==> key.ticket in tickets && tickets[key.ticket].status == Completed
      ensures settled <==>
                && key.ticket in old(tickets) && key in old(answers)
                && var t, a := old(tickets)[key.ticket], old(answers)[key];
                && t.status == Accepted && !t.eligible && t.workflow.None? && t.readyAt.Some? && !a.delivered
                && forall other :: other in old(answers) && other.ticket == key.ticket && !old(answers)[other].delivered ==>
                     old(answers)[other].id <= a.id
      ensures !settled ==> tickets == old(tickets) && answers == old(answers)
      ensures settled ==>
                && tickets == old(tickets)[key.ticket := old(tickets)[key.ticket].(status := Completed, confirmedAt := Some(now), interrupted := false)]
                && answers == old(answers)[key := old(answers)[key].(delivered := true)]
    {
      if !Direct(Rows(), key.ticket) || tickets[key.ticket].readyAt.None? || !LatestPending(Rows(), key) {
        return false;
      }
      tickets := tickets[key.ticket := tickets[key.ticket].(status := Completed, confirmedAt := Some(now), interrupted := false)];
      answers := answers[key := answers[key].(delivered := true)];
      return true;
    }

    /** Afterwards nothing of the ticket is left to deliver; delivered answers and other tickets keep theirs. */
    method DropPendingAnswers(t: TicketId)
      modifies this`answers
      ensures answers == WithoutPending(old(answers), t)
      ensures forall key :: key in old(answers) ==>
                (key in answers <==> key.ticket != t || old(answers)[key].delivered) && (key in answers ==> answers[key] == old(answers)[key])
      ensures forall key: AnswerKey, now: nat :: key.ticket == t ==> Settle(Rows(), key, now) == Rows()
    {
      answers := map key | key in answers && !(key.ticket == t && !answers[key].delivered) :: answers[key];
    }

    /** False when the owner generation fence failed (an exception in the source). */
    method DisposeDirectRecoveryTicket(t: TicketId, owner: Key, generation: nat, now: nat) returns (ok: bool)
      modifies this`tickets, this`recovery, this`answers
      ensures Rows() == Dispose(old(Rows()), t, owner, generation, now)
      ensures !ok ==> Rows() == old(Rows())
      ensures ok ==> t in tickets && Terminal(tickets[t].status)
      ensures ok <==>
                && t in old(tickets) && t in old(recovery) && old(tickets)[t].owner == owner
                && owner in sessions && sessions[owner].generation == generation
      ensures ok && !(old(recovery)[t].state == Withdrawn && old(tickets)[t].status == Cancelled) ==>
                var before, r := old(tickets)[t], old(recovery)[t];
                && tickets == old(tickets)[t := if Terminal(before.status) then before else before.(status := Cancelled, readyAt := None)]
                && recovery == old(recovery)[t :=
                       if r.generation == generation && r.state != Withdrawn
                       then r.(state := Withdrawn, activeRun := None, nextAt := None, updatedAt := now) else r]
                && forall key :: key in old(answers) ==>
                     (key in answers <==> key.ticket != t || old(answers)[key].delivered) && (key in answers ==> answers[key] == old(answers)[key])
    {
      if t !in tickets || t !in recovery || tickets[t].owner != owner || owner !in sessions || sessions[owner].generation != generation {
        return false;
      }
      if recovery[t].state == Withdrawn && tickets[t].status == Cancelled {
        return true;
      }
      if !Terminal(tickets[t].status) {
        tickets := tickets[t := tickets[t].(status := Cancelled, readyAt := None)];
      }
      if recovery[t].generation == generation && recovery[t].state != Withdrawn {
        recovery := recovery[t := recovery[t].(state := Withdrawn, activeRun := None, nextAt := None, updatedAt := now)];
      }
      DropPendingAnswers(t);
      return true;
    }
  }

  lemma SameOwners(rows: map<TicketId, Row>, tickets: map<TicketId, Ticket>, key: Key, now: nat)
    ensures WithdrawOwned(rows, CancelOwned(tickets, key), key, now) == WithdrawOwned(rows, tickets, key, now)
  {
    assert forall t :: OwnedBy(CancelOwned(tickets, key), t, key) == OwnedBy(tickets, t, key);
  }

  /** The sweep of several rows, one after the other in one transaction. */
  function SweepAll(db: Db, rows: seq<TicketId>, cutoff: nat, now: nat): Db
    decreases |rows|
  {
    if rows == [] then db
    else SweepOne(SweepAll(db, rows[..|rows| - 1], cutoff, now), rows[|rows| - 1], cutoff, now)
  }

  lemma SweepAllNext(db: Db, rows: seq<TicketId>, i: nat, cutoff: nat, now: nat)
    requires i < |rows|
    ensures SweepAll(db, rows[..i + 1], cutoff, now) == SweepOne(SweepAll(db, rows[..i], cutoff, now), rows[i], cutoff, now)
  {
    assert rows[..i + 1][..i] == rows[..i];
  }

  /** Sessions are only added, active and at generation 0; answers stay. */
  predicate OnlyNewSessions(db: Db, after: Db) {
    && (forall key :: key in db.sessions ==> key in after.sessions && after.sessions[key] == db.sessions[key])
    && (forall key :: key in after.sessions && key !in db.sessions ==> after.sessions[key] == Session(Active, 0, None))
    && after.answers == db.answers && after.tickets.Keys == db.tickets.Keys
  }

  /** An overdue ticket of the rows without an answer, whose owner session is active or not known yet. */
  predicate Requeues(db: Db, rows: seq<TicketId>, t: TicketId, cutoff: nat) {
    && t in rows && t in db.tickets
    && db.tickets[t].status == Accepted && !db.tickets[t].eligible && db.tickets[t].confirmedAt.None?
    && db.tickets[t].readyAt.Some? && db.tickets[t].readyAt.value <= cutoff
    && (forall key :: key in db.answers ==> key.ticket != t)
    && (db.tickets[t].owner in db.sessions ==> db.sessions[db.tickets[t].owner].state == Active)
  }

  /** The sweep, row by row: inference is queued again for exactly these tickets, and no other ticket or row changes. */
  predicate SweptRow(db: Db, after: Db, queued: bool, t: TicketId, now: nat)
    requires t in db.tickets && t in after.tickets
  {
    if queued then
      && after.tickets[t] == db.tickets[t].(interrupted := true, readyAt := None)
      && t in after.recovery
      && after.recovery[t] == Row(Pending, if t in db.recovery then db.recovery[t].attempts else 0, None, Some(now),
                                  if db.tickets[t].owner in db.sessions then db.sessions[db.tickets[t].owner].generation else 0, now)
    else
      && after.tickets[t] == db.tickets[t]
      && RowOf(after, t) == RowOf(db, t)
  }

  lemma {:induction false} SweepAllRows(db: Db, rows: seq<TicketId>, cutoff: nat, now: nat)
    ensures OnlyNewSessions(db, SweepAll(db, rows, cutoff, now))
    ensures forall t :: t in db.tickets ==> SweptRow(db, SweepAll(db, rows, cutoff, now), Requeues(db, rows, t, cutoff), t, now)
    decreases |rows|
  {
    if rows != [] {
      var front, last := rows[..|rows| - 1], rows[|rows| - 1];
      SweepAllRows(db, front, cutoff, now);
      SweepOneMore(db, SweepAll(db, front, cutoff, now), front, last, cutoff, now);
      assert rows == front + [last];
    }
  }

  lemma SweepOneMore(db: Db, middle: Db, front: seq<TicketId>, last: TicketId, cutoff: nat, now: nat)
    requires OnlyNewSessions(db, middle)
    requires forall t :: t in db.tickets ==> SweptRow(db, middle, Requeues(db, front, t, cutoff), t, now)
    ensures var after := SweepOne(middle, last, cutoff, now);
            && OnlyNewSessions(db, after)
            && forall t :: t in db.tickets ==> SweptRow(db, after, Requeues(db, front + [last], t, cutoff), t, now)
  {
    SweepAddsSessions(db, middle, last, cutoff, now);
    forall t | t in db.tickets
      ensures SweptRow(db, SweepOne(middle, last, cutoff, now), Requeues(db, front + [last], t, cutoff), t, now)
    {
      if t == last {
        SweepItself(db, middle, front, t, cutoff, now);
      } else {
        SweepOthers(middle, last, cutoff, now, t);
      }
    }
  }

  lemma SweepAddsSessions(db: Db, middle: Db, t: TicketId, cutoff: nat, now: nat)
    requires OnlyNewSessions(db, middle)
    ensures OnlyNewSessions(db, SweepOne(middle, t, cutoff, now))
  {
  }

  lemma SweepOthers(db: Db, u: TicketId, cutoff: nat, now: nat, t: TicketId)
    requires t != u && t in db.tickets
    ensures t in SweepOne(db, u, cutoff, now).tickets && SweepOne(db, u, cutoff, now).tickets[t] == db.tickets[t]
    ensures RowOf(SweepOne(db, u, cutoff, now), t) == RowOf(db, t)
  {
  }

  lemma SweepItself(db: Db, middle: Db, front: seq<TicketId>, t: TicketId, cutoff: nat, now: nat)
    requires t in db.tickets && OnlyNewSessions(db, middle) && SweptRow(db, middle, Requeues(db, front, t, cutoff), t, now)
    ensures t in SweepOne(middle, t, cutoff, now).tickets
    ensures SweptRow(db, SweepOne(middle, t, cutoff, now), Requeues(db, front + [t], t, cutoff), t, now)
  {
    if Requeues(db, front, t, cutoff) {
      assert !Overdue(middle, t, cutoff);
    }
  }

  // ---------------------------------------------------------------- transactions as steps of a run

  /** Several steps, one after the other, with the same workers around. */
  function Played(db: Db, workers: seq<Worker>, steps: seq<Step>): Db {
    if steps == [] then db else NextDb(Played(db, workers, steps[..|steps| - 1]), workers, steps[|steps| - 1])
  }

  lemma PlayedOne(db: Db, workers: seq<Worker>, steps: seq<Step>, step: Step)
    ensures Played(db, workers, steps + [step]) == NextDb(Played(db, workers, steps), workers, step)
  {
    assert (steps + [step])[..|steps|] == steps;
  }

  /** The deadline sweep is a sequence of the steps that the runs are made of. */
  lemma {:induction false} SweepIsSteps(db: Db, workers: seq<Worker>, rows: seq<TicketId>, cutoff: nat, now: nat) returns (steps: seq<Step>)
    ensures Played(db, workers, steps) == SweepAll(db, rows, cutoff, now)
  {
    if rows == [] {
      steps := [];
    } else {
      var front := SweepIsSteps(db, workers, rows[..|rows| - 1], cutoff, now);
      var step := DeadlineSwept(rows[|rows| - 1], cutoff, now);
      PlayedOne(db, workers, front, step);
      steps := front + [step];
    }
  }

  function RestoreStep(row: StartupRow, now: nat): Step {
    if row.aborted then StartupMigrate(row.ticket, now) else StartupReopen(row.ticket, now)
  }

  lemma RestoredIsStep(db: Db, workers: seq<Worker>, row: StartupRow, now: nat)
    ensures Restored(db, row, now) == if row.aborted || row.direct then NextDb(db, workers, RestoreStep(row, now)) else db
  {
  }

  lemma WithdrawIsStep(db: Db, workers: seq<Worker>, now: nat)
    ensures Played(db, workers, [StartupWithdraw(now)]) == WithdrawTerminal(db, now)
  {
    PlayedOne(db, workers, [], StartupWithdraw(now));
    assert [] + [StartupWithdraw(now)] == [StartupWithdraw(now)];
  }

  lemma {:induction false} RestoreIsSteps(db: Db, workers: seq<Worker>, rows: seq<StartupRow>, now: nat) returns (steps: seq<Step>)
    ensures Played(db, workers, steps) == RestoredAll(WithdrawTerminal(db, now), rows, now)
  {
    if rows == [] {
      WithdrawIsStep(db, workers, now);
      steps := [StartupWithdraw(now)];
    } else {
      var row := rows[|rows| - 1];
      steps := RestoreIsSteps(db, workers, rows[..|rows| - 1], now);
      RestoredIsStep(Played(db, workers, steps), workers, row, now);
      if row.aborted || row.direct {
        PlayedOne(db, workers, steps, RestoreStep(row, now));
        steps := steps + [RestoreStep(row, now)];
      }
    }
  }

  /** So is the preparation at startup. */
  lemma PrepareIsSteps(db: Db, workers: seq<Worker>, rows: seq<StartupRow>, now: nat) returns (steps: seq<Step>)
    ensures Played(db, workers, steps) == Prepared(db, rows, now)
  {
    var front := RestoreIsSteps(db, workers, rows, now);
    PlayedOne(db, workers, front, StartupReset(now));
    steps := front + [StartupReset(now)];
  }
}

/**
 The delivery functions as the plugin executes them, on tables updated in place. Each
 method is one transaction (the adapter's are compositions of two) and is proved to
 be the function of module DeliveryCore of the same name.
 */
module DeliveryTables {
  import opened Common
  import opened DeliveryCore
  import opened DeliveryFence
  import opened DeliveryProofs
  import opened TicketStatus

  class Deliveries {
    var sessions: map<SessionKey, Session>
    var tickets: map<TicketId, Ticket>
    var inferences: map<string, Inference>
    var deliveries: map<string, Delivery>
    var events: seq<Event>

    constructor ()
      ensures Rows() == EMPTY_DB
    {
      sessions, tickets, inferences, deliveries, events := map[], map[], map[], map[], [];
    }

    function Rows(): Db
      reads this
    {
      Db(sessions, tickets, inferences, deliveries, events)
    }

    function RowsOf(owner: SessionKey, generation: int): set<string>
      reads this
    {
      set key | key in deliveries && deliveries[key].id.owner == owner && deliveries[key].id.generation == generation
    }

    /** assertCurrentOwner: an error means that no row of this owner and generation can climb. */
    method AssertCurrentOwner(owner: SessionKey, generation: int) returns (error: Option<Error>)
      ensures error == OwnerError(Rows(), owner, generation)
      ensures error.Some? ==> forall key :: key in RowsOf(owner, generation) ==> Stuck(Rows(), key)
    {
      forall key | key in deliveries && !CurrentOwner(Rows(), deliveries[key]) ensures Stuck(Rows(), key) {
        StuckWithoutOwner(Rows(), key);
      }
      if owner !in sessions || !sessions[owner].active {
        return Some(SessionNotActive);
      }
      if sessions[owner].generation != generation {
        return Some(StaleGeneration);
      }
      error := None;
    }

    method AssertIdentity(existing: Delivery, input: Input) returns (answer: Result<Delivery, Error>)
      ensures answer == Asserted(existing, input)
    {
      if existing.id.ticket != input.id.ticket || existing.id.inference != input.id.inference || existing.id.run != input.id.run ||
         existing.id.owner != input.id.owner || existing.id.generation != input.id.generation ||
         existing.id.surface != input.id.surface || existing.id.payload != input.id.payload || existing.text != input.text
      {
        return Err(IdentityConflict);
      }
      answer := Ok(existing);
    }

    method PrepareDelivery(input: Input) returns (answer: Result<Delivery, Error>)
      modifies this`deliveries
      ensures Outcome(Rows(), answer) == Prepare(old(Rows()), input)
    {
      var text := Trimmed(input.text);
      if text == "" {
        return Err(TextRequired);
      }
      if input.id.ticket == "" || input.id.owner == "" || input.key == "" || input.id.payload == NoDigest {
        return Err(IncompleteIdentity);
      }
      if input.id.generation < 0 || MAX_SAFE_INTEGER < input.id.generation {
        return Err(InvalidGeneration);
      }
      if input.id.payload != Sha256(text) {
        return Err(WrongDigest);
      }
      if input.key in deliveries && Matches(deliveries[input.key], input.id) {
        answer := AssertIdentity(deliveries[input.key], input);
        return;
      }
      if input.key in deliveries {
        answer := AssertIdentity(deliveries[input.key], input);
        return;
      }
      if input.id.ticket !in tickets {
        return Err(TicketNotFound);
      }
      if tickets[input.id.ticket].owner != input.id.owner {
        return Err(OwnerMismatch);
      }
      if tickets[input.id.ticket].status != Accepted {
        return Err(TicketNotAccepted);
      }
      var error := AssertCurrentOwner(input.id.owner, input.id.generation);
      if error.Some? {
        return Err(error.value);
      }
      deliveries := deliveries[input.key := Delivery(input.id, text, Prepared, false, 0, None, None)];
      answer := Ok(deliveries[input.key]);
    }

    /** At most one rung up, with one more attempt; the row keeps what it is, and no other row moves. */
    method Transition(key: string, from: State, to: State, evidence: string) returns (answer: Result<Delivery, Error>)
      requires key in deliveries && Rank(to) == Rank(from) + 1
      modifies this`deliveries
      ensures answer.Ok? <==> old(deliveries)[key].state in {from, to}
      ensures answer.Err? ==> answer.error == IllegalTransition(old(deliveries)[key].state, to) && deliveries == old(deliveries)
      ensures answer.Ok? ==>
                var d, after := old(deliveries)[key], answer.value;
                && deliveries == old(deliveries)[key := after]
                && Climbs(d, after) && after.state == to
                && after.attempts - d.attempts == Rank(to) - Rank(d.state)
                && after.delivered == d.delivered && after.deliveredAt == d.deliveredAt
                && after.evidence == if d.state == to then d.evidence else Some(evidence)
    {
      var d := deliveries[key];
      if d.state == to {
        return Ok(d);
      }
      if d.state != from {
        return Err(IllegalTransition(d.state, to));
      }
      deliveries := deliveries[key := d.(state := to, evidence := Some(evidence), attempts := d.attempts + 1)];
      answer := Ok(deliveries[key]);
    }

    method StageDelivery(key: string, evidence: string) returns (answer: Result<Delivery, Error>)
      modifies this`deliveries
      ensures Outcome(Rows(), answer) == Stage(old(Rows()), key, evidence)
    {
      answer := ClimbDelivery(key, Prepared, Staged, evidence);
    }

    method AcceptTransportOf(key: string, evidence: string) returns (answer: Result<Delivery, Error>)
      modifies this`deliveries
      ensures Outcome(Rows(), answer) == AcceptTransport(old(Rows()), key, evidence)
    {
      answer := ClimbDelivery(key, Staged, TransportAccepted, evidence);
    }

    method ClimbDelivery(key: string, from: State, to: State, evidence: string) returns (answer: Result<Delivery, Error>)
      requires Rank(to) == Rank(from) + 1 && to != Confirmed
      modifies this`deliveries
      ensures Outcome(Rows(), answer) == Climb(old(Rows()), key, from, to, evidence)
    {
      if key == "" {
        return Err(KeyRequired);
      }
      if key !in deliveries {
        return Err(AttemptNotFound);
      }
      var current := deliveries[key];
      var error := AssertCurrentOwner(current.id.owner, current.id.generation);
      if error.Some? {
        return Err(error.value);
      }
      answer := Transition(key, from, to, evidence);
    }

    method ConfirmDelivery(key: string, evidence: string, now: nat) returns (answer: Result<Delivery, Error>)
      modifies this
      ensures Outcome(Rows(), answer) == Confirm(old(Rows()), key, evidence, now)
    {
      if key == "" {
        return Err(KeyRequired);
      }
      if key !in deliveries {
        return Err(AttemptNotFound);
      }
      var d := deliveries[key];
      if d.state != Confirmed && d.state != TransportAccepted {
        return Err(IllegalTransition(d.state, Confirmed));
      }
      var error := AssertCurrentOwner(d.id.owner, d.id.generation);
      if error.Some? {
        return Err(error.value);
      }
      if d.state == Confirmed {
        return Ok(d);
      }
      deliveries := deliveries[key := d.(state := Confirmed, delivered := true, evidence := Some(evidence),
                                         attempts := d.attempts + 1, deliveredAt := Some(now))];
      var t := d.id.ticket;
      if t in tickets && tickets[t].status == Accepted {
        tickets := tickets[t := tickets[t].(status := Completed, confirmedAt := Some(now))];
        events := events + [DeliveryConfirmed(t)];
        events := events + [CompletedEvent(t)];
        assert events == old(events) + [DeliveryConfirmed(t), CompletedEvent(t)];
      }
      answer := Ok(deliveries[key]);
    }

    // -------------------------------------------------------------- the webchat adapter

    /** `found` answers the query for the inference attempt of this run, session and call. */
    method StageWebchatDelivery(found: Option<string>, runId: string, sessionKey: string, callId: Option<string>, payload: string)
      returns (receipt: Receipt)
      requires FindsInference(Rows(), Trimmed(runId), Trimmed(sessionKey), callId, found)
      modifies this`deliveries
      ensures Settlement(Rows(), receipt) == StageWebchat(old(Rows()), found, Trimmed(runId), Trimmed(sessionKey), Trimmed(payload))
      ensures receipt.Done? ==> found.Some? && Current(old(Rows()), Trimmed(sessionKey), inferences[found.value].generation)
    {
      var run, owner, value := Trimmed(runId), Trimmed(sessionKey), Trimmed(payload);
      if run == "" || !IsWebchatSession(owner) || value == "" {
        return MissingIdentity;
      }
      var rows := RunTickets(Rows(), run, owner);
      if |rows| > 1 {
        return AmbiguousRun;
      }
      if |rows| != 1 || found.None? || found.value == "" {
        return NotFound;
      }
      var t :| t in rows;
      TheOnlyKey(rows, t);
      if t == "" || tickets[t].status != Accepted {
        return NotFound;
      }
      if owner !in sessions || !sessions[owner].active {
        return StaleWebchatGeneration;
      }
      var generation := sessions[owner].generation;
      if generation != inferences[found.value].generation {
        return StaleWebchatGeneration;
      }
      var input := WebchatInput(t, found.value, run, owner, generation, value);
      receipt := PrepareAndStage(input);
    }

    method PrepareAndStage(input: Input) returns (receipt: Receipt)
      modifies this`deliveries
      ensures Settlement(Rows(), receipt) == StageInput(old(Rows()), input)
    {
      var prepared := PrepareDelivery(input);
      if prepared.Err? {
        return Thrown(prepared.error);
      }
      if prepared.value.state == Prepared {
        prepared := StageDelivery(input.key, STAGED);
      }
      receipt := if prepared.Ok? then Done(prepared.value) else Thrown(prepared.error);
    }

    /** Also returns the key of the row it accepted. */
    method AcceptWebchatTransport(runId: string, sessionKey: string) returns (receipt: Receipt, key: string)
      modifies this`deliveries
      ensures Settlement(Rows(), receipt) == AcceptWebchat(old(Rows()), Trimmed(runId), Trimmed(sessionKey))
      ensures receipt.Done? ==> ReceivableKeys(old(Rows()), Trimmed(runId), Trimmed(sessionKey)) == {key}
    {
      key := "";
      var run, owner := Trimmed(runId), Trimmed(sessionKey);
      if run == "" || !IsWebchatSession(owner) {
        return MissingIdentity, key;
      }
      var rows := ReceivableKeys(Rows(), run, owner);
      if |rows| != 1 {
        return Ambiguous, key;
      }
      key :| key in rows;
      TheOnlyKey(rows, key);
      if key == "" {
        return Ambiguous, key;
      }
      var d := deliveries[key];
      var error := AssertCurrentOwner(owner, d.id.generation);
      if error.Some? {
        return StaleWebchatGeneration, key;
      }
      var accepted := AcceptTransportOf(key, SENT);
      receipt := if accepted.Ok? then Done(accepted.value) else Thrown(accepted.error);
    }

    method ConfirmWebchatDelivery(runId: string, sessionKey: string, now: nat) returns (receipt: Receipt)
      modifies this
      ensures Settlement(Rows(), receipt) == ConfirmWebchat(old(Rows()), Trimmed(runId), Trimmed(sessionKey), now)
    {
      var key;
      receipt, key := AcceptWebchatTransport(runId, sessionKey);
      if !receipt.Done? {
        return;
      }
      var confirmed := ConfirmDelivery(key, RECEIVED, now);
      receipt := if confirmed.Ok? then Done(confirmed.value) else Thrown(confirmed.error);
    }
  }
}

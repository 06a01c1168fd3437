/**
 What the delivery functions answer, in terms of the rows alone: when each succeeds, what
 it then leaves, that a refusal names a true reason, and that an answer computed before a
 reset of its session is never staged after it.
 */
module DeliveryFence {
  import opened Common
  import Decimal
  import opened DeliveryCore
  import opened DeliveryProofs
  import Text
  import opened TicketStatus

  /** The session is active at this generation. */
  predicate Current(db: Db, owner: SessionKey, generation: int) {
    owner in db.sessions && db.sessions[owner].active && db.sessions[owner].generation == generation
  }

  // ---------------------------------------------------------------- preparing

  predicate WellFormed(input: Input) {
    && Trimmed(input.text) != "" && input.key != "" && input.id.ticket != "" && input.id.owner != ""
    && 0 <= input.id.generation <= 9007199254740991
    && input.id.payload == Sha256(Trimmed(input.text))
  }

  /** What the ticket and its session must be for a new row. */
  predicate Open(db: Db, input: Input) {
    && input.id.ticket in db.tickets && db.tickets[input.id.ticket].owner == input.id.owner
    && db.tickets[input.id.ticket].status == Accepted
    && Current(db, input.id.owner, input.id.generation)
  }

  /**
   Preparing succeeds exactly for well-formed input whose key holds this very row, or holds
   none while the ticket is open; only then a row is written, prepared and undelivered.
   */
  lemma PrepareSucceeds(db: Db, input: Input)
    ensures var o := Prepare(db, input);
            && (o.answer.Ok? <==> WellFormed(input) &&
                                  if input.key in db.deliveries
                                  then db.deliveries[input.key].id == input.id && db.deliveries[input.key].text == input.text
                                  else Open(db, input))
            && (o.answer.Ok? && input.key in db.deliveries ==> o.db == db && o.answer.value == db.deliveries[input.key])
            && (o.answer.Ok? && input.key !in db.deliveries ==>
                  && o.answer.value == Delivery(input.id, Trimmed(input.text), Prepared, false, 0, None, None)
                  && o.db == db.(deliveries := db.deliveries[input.key := o.answer.value]))
            && (o.answer.Err? ==> o.db == db)
  {
  }

  /** The reason an error gives is true of the input or of the rows. */
  predicate Reason(db: Db, input: Input, e: Error) {
    match e
    case TextRequired => Text.Blank(input.text, IsSpace)
    case IncompleteIdentity => input.id.ticket == "" || input.id.owner == "" || input.key == "" || input.id.payload == NoDigest
    case InvalidGeneration => input.id.generation < 0 || 9007199254740991 < input.id.generation
    case WrongDigest => input.id.payload != Sha256(Trimmed(input.text))
    case IdentityConflict => input.key in db.deliveries && (db.deliveries[input.key].id != input.id || db.deliveries[input.key].text != input.text)
    case TicketNotFound => input.id.ticket !in db.tickets
    case OwnerMismatch => input.id.ticket in db.tickets && db.tickets[input.id.ticket].owner != input.id.owner
    case TicketNotAccepted => input.id.ticket in db.tickets && db.tickets[input.id.ticket].status != Accepted
    case SessionNotActive => input.id.owner !in db.sessions || !db.sessions[input.id.owner].active
    case StaleGeneration => input.id.owner in db.sessions && db.sessions[input.id.owner].generation != input.id.generation
    case _ => false
  }

  lemma BlankIsTrimmedAway(s: string)
    ensures Trimmed(s) == "" ==> Text.Blank(s, IsSpace)
  {
    var front, back := Text.TrimKeeps(s, IsSpace);
  }

  lemma PrepareRefusesTruly(db: Db, input: Input)
    ensures Prepare(db, input).answer.Err? ==> Reason(db, input, Prepare(db, input).answer.error)
  {
    BlankIsTrimmedAway(input.text);
  }

  // ---------------------------------------------------------------- climbing and confirming

  /** Staging succeeds exactly on a prepared or staged row of a current owner, and writes only the first. */
  lemma StageSucceeds(db: Db, key: string, evidence: string)
    ensures var o := Stage(db, key, evidence);
            && (o.answer.Ok? <==> && key != "" && key in db.deliveries
                                  && Current(db, db.deliveries[key].id.owner, db.deliveries[key].id.generation)
                                  && db.deliveries[key].state in {Prepared, Staged})
            && (o.answer.Ok? ==>
                  var d := db.deliveries[key];
                  var after := if d.state == Staged then d else d.(state := Staged, evidence := Some(evidence), attempts := d.attempts + 1);
                  o.answer.value == after && o.db == db.(deliveries := db.deliveries[key := after]))
            && (o.answer.Err? ==> o.db == db)
  {
    assert key in db.deliveries ==> db.deliveries[key := db.deliveries[key]] == db.deliveries;
  }

  lemma AcceptSucceeds(db: Db, key: string, evidence: string)
    ensures var o := AcceptTransport(db, key, evidence);
            && (o.answer.Ok? <==> && key != "" && key in db.deliveries
                                  && Current(db, db.deliveries[key].id.owner, db.deliveries[key].id.generation)
                                  && db.deliveries[key].state in {Staged, TransportAccepted})
            && (o.answer.Ok? ==>
                  var d := db.deliveries[key];
                  var after := if d.state == TransportAccepted then d
                               else d.(state := TransportAccepted, evidence := Some(evidence), attempts := d.attempts + 1);
                  o.answer.value == after && o.db == db.(deliveries := db.deliveries[key := after]))
            && (o.answer.Err? ==> o.db == db)
  {
    assert key in db.deliveries ==> db.deliveries[key := db.deliveries[key]] == db.deliveries;
  }

  /**
   Confirming succeeds exactly on a row the transport accepted, or confirmed before, of a
   current owner. The first time the row is delivered at this moment, and its ticket, if
   still accepted, is completed at this moment with one event for each.
   */
  lemma ConfirmSucceeds(db: Db, key: string, evidence: string, now: nat)
    ensures var o := Confirm(db, key, evidence, now);
            && (o.answer.Ok? <==> && key != "" && key in db.deliveries
                                  && Current(db, db.deliveries[key].id.owner, db.deliveries[key].id.generation)
                                  && db.deliveries[key].state in {TransportAccepted, Confirmed})
            && (o.answer.Ok? && db.deliveries[key].state == Confirmed ==> o.db == db && o.answer.value == db.deliveries[key])
            && (o.answer.Ok? && db.deliveries[key].state == TransportAccepted ==>
                  var d := db.deliveries[key];
                  var open := d.id.ticket in db.tickets && db.tickets[d.id.ticket].status == Accepted;
                  && o.answer.value == Delivery(d.id, d.text, Confirmed, true, d.attempts + 1, Some(evidence), Some(now))
                  && o.db.deliveries == db.deliveries[key := o.answer.value]
                  && o.db.tickets == (if open
                                      then db.tickets[d.id.ticket := db.tickets[d.id.ticket].(status := Completed, confirmedAt := Some(now))]
                                      else db.tickets)
                  && o.db.events == db.events + (if open then [DeliveryConfirmed(d.id.ticket), CompletedEvent(d.id.ticket)] else [])
                  && o.db.sessions == db.sessions && o.db.inferences == db.inferences)
            && (o.answer.Err? ==> o.db == db)
  {
  }

  /** The reason a climb to `to` is refused for is true of the row. */
  predicate RowReason(db: Db, key: string, to: State, e: Error) {
    match e
    case KeyRequired => key == ""
    case AttemptNotFound => key !in db.deliveries
    case SessionNotActive =>
      key in db.deliveries && var owner := db.deliveries[key].id.owner; owner !in db.sessions || !db.sessions[owner].active
    case StaleGeneration =>
      key in db.deliveries && var id := db.deliveries[key].id; id.owner in db.sessions && db.sessions[id.owner].generation != id.generation
    case IllegalTransition(at, goal) =>
      key in db.deliveries && at == db.deliveries[key].state && goal == to && Rank(at) != Rank(to) && Rank(at) + 1 != Rank(to)
    case _ => false
  }

  lemma ClimbsRefuseTruly(db: Db, key: string, evidence: string, now: nat)
    ensures Stage(db, key, evidence).answer.Err? ==> RowReason(db, key, Staged, Stage(db, key, evidence).answer.error)
    ensures AcceptTransport(db, key, evidence).answer.Err? ==>
              RowReason(db, key, TransportAccepted, AcceptTransport(db, key, evidence).answer.error)
    ensures Confirm(db, key, evidence, now).answer.Err? ==> RowReason(db, key, Confirmed, Confirm(db, key, evidence, now).answer.error)
  {
  }

  // ---------------------------------------------------------------- staging through the adapter

  /**
   What staging asks of the rows: one ticket of the run and session, accepted, and a model call
   of the generation at which the session is active now; the row of ticket, generation and
   call, if there is one, is for this very answer.
   */
  predicate Stageable(db: Db, attempt: string, run: string, owner: SessionKey, payload: string, t: TicketId) {
    && t != "" && t in db.tickets && db.tickets[t].run == run && db.tickets[t].owner == owner && db.tickets[t].status == Accepted
    && (forall u :: u in db.tickets && db.tickets[u].run == run && db.tickets[u].owner == owner ==> u == t)
    && attempt != "" && attempt in db.inferences
    && owner in db.sessions && db.sessions[owner].active
    && db.sessions[owner].generation == db.inferences[attempt].generation <= 9007199254740991
    && var key := WebchatKey(t, db.inferences[attempt].generation, attempt);
       key in db.deliveries ==> db.deliveries[key].id == WebchatIdentity(db, attempt, run, owner, payload, t)
  }

  function WebchatIdentity(db: Db, attempt: string, run: string, owner: SessionKey, payload: string, t: TicketId): Identity
    requires attempt in db.inferences
  {
    Identity(t, Some(attempt), Some(run), owner, db.inferences[attempt].generation, Webchat, Sha256(payload))
  }

  /** Staging leaves this row, and writes it only when the key was free or its row was prepared. */
  predicate StagedAs(db: Db, o: Settlement, key: string, id: Identity, payload: string) {
    && o.receipt.Done?
    && var d := o.receipt.delivery;
    && d.id == id && d.text == payload && d.state in {Staged, TransportAccepted}
    && o.db == db.(deliveries := db.deliveries[key := d])
    && (key in db.deliveries && db.deliveries[key].state != Prepared ==> d == db.deliveries[key])
    && (key !in db.deliveries || db.deliveries[key].state == Prepared ==>
          d == Delivery(id, payload, Staged, false, 1, Some("webchat-final-staged"), None))
  }

  lemma StageInputSucceeds(db: Db, input: Input)
    requires Good(db) && Trimmed(input.text) == input.text
    requires input.id.ticket in db.tickets && db.tickets[input.id.ticket].status == Accepted
    requires db.tickets[input.id.ticket].owner == input.id.owner && Current(db, input.id.owner, input.id.generation)
    ensures var o := StageInput(db, input);
            && (o.receipt.Done? <==> WellFormed(input) && (input.key in db.deliveries ==> db.deliveries[input.key].id == input.id))
            && (o.receipt.Done? ==> StagedAs(db, o, input.key, input.id, input.text))
            && (!o.receipt.Done? ==> o.db == db)
  {
    PrepareSucceeds(db, input);
    var prepared := Prepare(db, input);
    StageSucceeds(prepared.db, input.key, STAGED);
    if input.key in db.deliveries {
      assert RowGood(db.deliveries[input.key]) && RowPlaced(db, db.deliveries[input.key]);
      assert db.deliveries[input.key := db.deliveries[input.key]] == db.deliveries;
    }
  }

  /** The tickets of the run and session are one ticket. */
  lemma OneTicket(db: Db, run: string, owner: SessionKey, t: TicketId)
    ensures RunTickets(db, run, owner) == {t} <==>
              && t in db.tickets && db.tickets[t].run == run && db.tickets[t].owner == owner
              && forall u :: u in db.tickets && db.tickets[u].run == run && db.tickets[u].owner == owner ==> u == t
  {
    if RunTickets(db, run, owner) == {t} {
      assert t in RunTickets(db, run, owner);
      forall u | u in db.tickets && db.tickets[u].run == run && db.tickets[u].owner == owner ensures u == t {
        assert u in RunTickets(db, run, owner);
      }
    }
  }

  /** The part of staging that follows once the one ticket is known. */
  lemma StageOnTicket(db: Db, attempt: string, run: string, owner: SessionKey, payload: string, t: TicketId)
    requires Good(db) && attempt in db.inferences && Trimmed(payload) == payload
    requires run != "" && IsWebchatSession(owner) && payload != "" && RunTickets(db, run, owner) == {t}
    ensures var o := StageWebchat(db, Some(attempt), run, owner, payload);
            && (o.receipt.Done? <==> Stageable(db, attempt, run, owner, payload, t))
            && (o.receipt.Done? ==>
                  StagedAs(db, o, WebchatKey(t, db.inferences[attempt].generation, attempt),
                           WebchatIdentity(db, attempt, run, owner, payload, t), payload))
            && (!o.receipt.Done? ==> o.db == db)
  {
    OneTicket(db, run, owner, t);
    if t != "" && attempt != "" && db.tickets[t].status == Accepted && ActiveAt(db, owner, db.inferences[attempt].generation) {
      var input := WebchatInput(t, attempt, run, owner, db.sessions[owner].generation, payload);
      StageInputSucceeds(db, input);
      KeyIsSet(t, db.sessions[owner].generation, attempt);
      OwnerIsSet(owner);
    }
  }

  lemma KeyIsSet(t: TicketId, generation: nat, attempt: string)
    ensures WebchatKey(t, generation, attempt) != ""
  {
    assert WebchatKey(t, generation, attempt)[0] == 'c';
  }

  /** Of one ticket, another generation or another model call is another key. */
  lemma KeysAreExact(t: TicketId, g: nat, a: string, h: nat, b: string)
    ensures WebchatKey(t, g, a) == WebchatKey(t, h, b) <==> g == h && a == b
  {
    var prefix := "cnx-webchat:" + t + ":g";
    var s, u := Decimal.Print(g) + (":" + a), Decimal.Print(h) + (":" + b);
    assert WebchatKey(t, g, a) == prefix + s && WebchatKey(t, h, b) == prefix + u;
    if WebchatKey(t, g, a) == WebchatKey(t, h, b) {
      assert s == (prefix + s)[|prefix|..] == (prefix + u)[|prefix|..] == u;
      Decimal.DigitsOfNumeral(Decimal.Print(g), ":" + a);
      Decimal.DigitsOfNumeral(Decimal.Print(h), ":" + b);
      Decimal.ReadPrint(g);
      Decimal.ReadPrint(h);
      assert (":" + a)[1..] == a && (":" + b)[1..] == b;
      assert s[|Decimal.Print(g)|..] == ":" + a && u[|Decimal.Print(h)|..] == ":" + b;
    }
  }

  lemma OwnerIsSet(owner: SessionKey)
    requires IsWebchatSession(owner)
    ensures owner != ""
  {
    assert |Fields("")| == 1;
  }

  /**
   Staging a web chat answer succeeds exactly when the rows allow it (`Stageable`), above all
   when the session is active at the generation at which the answer's model call was recorded;
   a refusal changes nothing.
   */
  lemma StageWebchatSucceeds(db: Db, attempt: string, run: string, owner: SessionKey, payload: string)
    requires Good(db) && attempt in db.inferences && Trimmed(payload) == payload
    ensures var o := StageWebchat(db, Some(attempt), run, owner, payload);
            && (o.receipt.Done? <==>
                  run != "" && IsWebchatSession(owner) && payload != "" && exists t :: Stageable(db, attempt, run, owner, payload, t))
            && (!o.receipt.Done? ==> o.db == db)
    ensures forall t :: run != "" && IsWebchatSession(owner) && payload != "" && Stageable(db, attempt, run, owner, payload, t) ==>
              StagedAs(db, StageWebchat(db, Some(attempt), run, owner, payload), WebchatKey(t, db.inferences[attempt].generation, attempt),
                       WebchatIdentity(db, attempt, run, owner, payload, t), payload)
  {
    if run != "" && IsWebchatSession(owner) && payload != "" {
      forall t | Stageable(db, attempt, run, owner, payload, t)
        ensures RunTickets(db, run, owner) == {t}
      {
        OneTicket(db, run, owner, t);
      }
      if |RunTickets(db, run, owner)| == 1 {
        var t := OnlyKey(RunTickets(db, run, owner));
        StageOnTicket(db, attempt, run, owner, payload, t);
        forall u | Stageable(db, attempt, run, owner, payload, u) ensures u == t {
          assert u in RunTickets(db, run, owner);
        }
      }
    }
  }

  /** Without a model call found nothing is staged. */
  lemma StageNeedsInference(db: Db, run: string, owner: SessionKey, payload: string)
    ensures var o := StageWebchat(db, None, run, owner, payload); o.db == db && o.receipt in {MissingIdentity, AmbiguousRun, NotFound}
  {
  }

  /** The reason staging gives is true of the rows; the core itself refuses only a generation out of range or a key taken. */
  lemma StageRefusesTruly(db: Db, attempt: string, run: string, owner: SessionKey, payload: string)
    requires attempt in db.inferences && Trimmed(payload) == payload
    ensures match StageWebchat(db, Some(attempt), run, owner, payload).receipt
            case MissingIdentity => run == "" || !IsWebchatSession(owner) || payload == ""
            case AmbiguousRun =>
              exists t, u :: t != u && t in RunTickets(db, run, owner) && u in RunTickets(db, run, owner)
            case NotFound => attempt == "" || forall t :: t in RunTickets(db, run, owner) ==> t == "" || db.tickets[t].status != Accepted
            case StaleWebchatGeneration => !Current(db, owner, db.inferences[attempt].generation)
            case Thrown(e) => e == IdentityConflict || (e == InvalidGeneration && 9007199254740991 < db.inferences[attempt].generation)
            case Done(_) => true
            case Ambiguous => false
  {
    var ts := RunTickets(db, run, owner);
    if |ts| > 1 {
      var t :| t in ts;
      assert |ts - {t}| == |ts| - 1;
      var u :| u in ts - {t};
      assert t != u && t in RunTickets(db, run, owner) && u in RunTickets(db, run, owner);
    } else if |ts| == 1 {
      var t := OnlyKey(ts);
      assert t in ts;
      KeyIsSet(t, db.inferences[attempt].generation, attempt);
      if IsWebchatSession(owner) {
        OwnerIsSet(owner);
      }
    }
  }

  // ---------------------------------------------------------------- what the adapter looks up

  /** Without a call id the model call is the only one of the run and session; with one, any of that call. */
  lemma InferenceFound(db: Db, run: string, owner: SessionKey, call: Option<string>, a: string)
    ensures FindsInference(db, run, owner, call, Some(a)) <==>
              && a in db.inferences && db.inferences[a].run == run && db.inferences[a].session == owner
              && (call.Some? ==> db.inferences[a].call == call.value)
              && (call.None? ==> forall b :: b in db.inferences && db.inferences[b].run == run && db.inferences[b].session == owner ==> b == a)
  {
    var calls := CallsOf(db, run, owner, call);
    if call.None? && calls == {a} {
      forall b | b in db.inferences && db.inferences[b].run == run && db.inferences[b].session == owner ensures b == a {
        assert b in calls;
      }
    }
  }

  /** The rows a receipt may mean are the undelivered web chat rows of its run and session. */
  lemma ReceiptMeans(db: Db, run: string, owner: SessionKey, k: string)
    ensures ReceivableKeys(db, run, owner) == {k} <==>
              && k in db.deliveries && ForReceipt(db.deliveries[k], run, owner)
              && forall u :: u in db.deliveries && ForReceipt(db.deliveries[u], run, owner) ==> u == k
  {
    var keys := ReceivableKeys(db, run, owner);
    if keys == {k} {
      assert k in keys;
      forall u | u in db.deliveries && ForReceipt(db.deliveries[u], run, owner) ensures u == k {
        assert u in keys;
      }
    }
  }

  predicate ForReceipt(d: Delivery, run: string, owner: SessionKey) {
    d.id.run == Some(run) && d.id.owner == owner && d.id.surface == Webchat && !d.delivered
  }

  function JoinedByColons(fields: seq<string>): string
    requires fields != []
  {
    if |fields| == 1 then fields[0] else fields[0] + ":" + JoinedByColons(fields[1..])
  }

  predicate NoColons(fields: seq<string>) {
    forall i :: 0 <= i < |fields| ==> ':' !in fields[i]
  }

  lemma {:induction false} FieldsJoin(s: string)
    ensures JoinedByColons(Fields(s)) == s && NoColons(Fields(s))
  {
    if s != [] {
      FieldsJoin(s[1..]);
      if s[0] == ':' {
        ColonAdded(Fields(s[1..]));
      } else {
        var rest := Fields(s[1..]);
        assert rest == [rest[0]] + rest[1..];
        CharAdded(s[0], rest[0], rest[1..]);
      }
      assert s == [s[0]] + s[1..];
    }
  }

  lemma ColonAdded(rest: seq<string>)
    requires rest != [] && NoColons(rest)
    ensures JoinedByColons([""] + rest) == [':'] + JoinedByColons(rest)
    ensures NoColons([""] + rest)
  {
    assert ([""] + rest)[1..] == rest;
    assert "" + ":" + JoinedByColons(rest) == [':'] + JoinedByColons(rest);
  }

  lemma JoinedCons(a: string, more: seq<string>)
    ensures JoinedByColons([a] + more) == if more == [] then a else a + ":" + JoinedByColons(more)
  {
    assert ([a] + more)[1..] == more;
  }

  lemma CharAdded(c: char, a: string, more: seq<string>)
    requires NoColons([a] + more) && c != ':'
    ensures JoinedByColons([[c] + a] + more) == [c] + JoinedByColons([a] + more)
    ensures NoColons([[c] + a] + more)
  {
    JoinedCons([c] + a, more);
    JoinedCons(a, more);
    assert [c] + a + ":" == [c] + (a + ":");
    NoColonsFront(c, a, more);
  }

  lemma NoColonsFront(c: char, a: string, more: seq<string>)
    requires NoColons([a] + more) && c != ':'
    ensures NoColons([[c] + a] + more)
  {
    assert ([a] + more)[0] == a;
    forall i | 0 <= i < |[[c] + a] + more| ensures ':' !in ([[c] + a] + more)[i] {
      if i > 0 {
        assert ([[c] + a] + more)[i] == ([a] + more)[i];
      }
    }
  }

  /** The session keys the adapter serves are exactly those of five parts: an agent's web chat channels. */
  lemma WebchatSessionsOnly(key: SessionKey) returns (agent: string, channel: string)
    requires IsWebchatSession(key)
    ensures key == "agent" + ":" + (agent + ":" + ("webchat" + ":" + ("channel" + ":" + channel)))
    ensures ':' !in agent && ':' !in channel && agent != "" && channel != ""
  {
    var f := Fields(key);
    FieldsJoin(key);
    agent, channel := f[1], f[4];
    assert f[1..][0] == f[1] && f[1..][1..] == f[2..] && f[2..][1..] == f[3..] && f[3..][1..] == f[4..];
    assert JoinedByColons(f[4..]) == channel;
    assert JoinedByColons(f[3..]) == "channel" + ":" + channel;
    assert JoinedByColons(f[2..]) == "webchat" + ":" + ("channel" + ":" + channel);
    assert JoinedByColons(f[1..]) == agent + ":" + ("webchat" + ":" + ("channel" + ":" + channel));
  }

  // ---------------------------------------------------------------- accepting through the adapter

  /** The transport's acceptance is noted exactly when a receipt would confirm: on the one pending row, staged under a current session. */
  lemma AcceptWebchatSucceeds(db: Db, run: string, owner: SessionKey)
    requires Good(db)
    ensures var o := AcceptWebchat(db, run, owner);
            && (o.receipt.Done? <==> run != "" && IsWebchatSession(owner) && exists k :: Confirmable(db, run, owner, k))
            && (!o.receipt.Done? ==> o.db == db)
    ensures forall k :: run != "" && IsWebchatSession(owner) && Confirmable(db, run, owner, k) ==>
              var o, d := AcceptWebchat(db, run, owner), db.deliveries[k];
              && o.receipt.Done? && o.db == db.(deliveries := db.deliveries[k := o.receipt.delivery])
              && o.receipt.delivery == if d.state == TransportAccepted then d
                                       else d.(state := TransportAccepted, evidence := Some("webchat-message-sent"), attempts := 2)
  {
    AdapterPicksTheRow(db, run, owner, 0);
    if |ReceivableKeys(db, run, owner)| == 1 {
      var k := OnlyKey(ReceivableKeys(db, run, owner));
      assert k in ReceivableKeys(db, run, owner);
      assert RowGood(db.deliveries[k]);
      AcceptSucceeds(db, k, SENT);
      assert AcceptKey(db, k).receipt.Done? && run != "" && IsWebchatSession(owner) ==> Confirmable(db, run, owner, k);
    }
  }

  /** Key k holds the one pending row of the run and session. */
  predicate OnlyRow(db: Db, run: string, owner: SessionKey, k: string) {
    k in db.deliveries && ReceivableKeys(db, run, owner) == {k}
  }

  /** The reason of a refusal is true of the rows, and a refused receipt changes nothing. */
  lemma AcceptRefusesTruly(db: Db, run: string, owner: SessionKey, now: nat)
    requires Good(db)
    ensures match AcceptWebchat(db, run, owner).receipt
            case MissingIdentity => run == "" || !IsWebchatSession(owner)
            case Ambiguous => forall k :: OnlyRow(db, run, owner, k) ==> k == ""
            case StaleWebchatGeneration => exists k :: OnlyRow(db, run, owner, k) && !CurrentOwner(db, db.deliveries[k])
            case Thrown(e) =>
              e == IllegalTransition(Prepared, TransportAccepted) &&
              exists k :: OnlyRow(db, run, owner, k) && CurrentOwner(db, db.deliveries[k]) && db.deliveries[k].state == Prepared
            case Done(_) => true
            case _ => false
    ensures !AcceptWebchat(db, run, owner).receipt.Done? ==>
              ConfirmWebchat(db, run, owner, now) == AcceptWebchat(db, run, owner) && AcceptWebchat(db, run, owner).db == db
  {
    AdapterPicksTheRow(db, run, owner, now);
    var keys := ReceivableKeys(db, run, owner);
    if |keys| == 1 {
      var k := OnlyKey(keys);
      assert k in keys && RowGood(db.deliveries[k]) && OnlyRow(db, run, owner, k);
      AcceptSucceeds(db, k, SENT);
    }
  }

  // ---------------------------------------------------------------- the fence over runs

  /** The session moved on since the model call was recorded. */
  predicate Outdated(db: Db, attempt: string, owner: SessionKey) {
    attempt in db.inferences && owner in db.sessions && db.inferences[attempt].generation < db.sessions[owner].generation
  }

  lemma OutdatedStep(db: Db, step: Step, attempt: string, owner: SessionKey)
    requires Outdated(db, attempt, owner)
    ensures Outdated(Next(db, step), attempt, owner)
  {
  }

  lemma OutdatedIsRefused(db: Db, attempt: string, run: string, owner: SessionKey, payload: string)
    requires Outdated(db, attempt, owner)
    ensures var o := StageWebchat(db, Some(attempt), run, owner, payload); o.db == db && !o.receipt.Done?
  {
  }

  /**
   An answer from before a reset is never delivered after it: once the generation of the
   session passed that of a model call, staging the call's answer changes nothing, for any
   run id and text, at this and at every later point of a run.
   */
  lemma {:induction false} OutdatedForever(r: Run, i: nat, j: nat, attempt: string, owner: SessionKey)
    requires Legal(r) && i <= j <= |r.steps| && Outdated(r.states[i], attempt, owner)
    ensures Outdated(r.states[j], attempt, owner)
    ensures forall run: string, payload: string ::
              var o := StageWebchat(r.states[j], Some(attempt), run, owner, payload);
              o.db == r.states[j] && !o.receipt.Done?
  {
    if i < j {
      OutdatedForever(r, i, j - 1, attempt, owner);
      assert Linked(r, j - 1);
      OutdatedStep(r.states[j - 1], r.steps[j - 1], attempt, owner);
    }
    forall run: string, payload: string {
      OutdatedIsRefused(r.states[j], attempt, run, owner, payload);
    }
  }
}

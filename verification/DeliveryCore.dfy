/**
 Delivery of a direct result: a row per idempotency key climbs from prepared over
 staged and transport-accepted to confirmed, and its confirmation completes the
 ticket. Every function below is one transaction; an error rolls it back.
 */
module DeliveryCore {
  import opened Common
  import Decimal
  import Text
  import opened TicketStatus

  type TicketId = string
  type SessionKey = string

  /** SHA-256 as an injective tag. */
  datatype Digest = Sha256(text: string) | NoDigest

  datatype Surface = Webchat | Discord

  datatype State = Prepared | Staged | TransportAccepted | Confirmed

  function Rank(s: State): nat {
    match s
    case Prepared => 0
    case Staged => 1
    case TransportAccepted => 2
    case Confirmed => 3
  }

  /** What never changes about a row. */
  datatype Identity = Identity(
    ticket: TicketId,
    inference: Option<string>,
    run: Option<string>,
    owner: SessionKey,
    generation: int,
    surface: Surface,
    payload: Digest)

  datatype Delivery = Delivery(
    id: Identity,
    text: string,
    state: State,
    delivered: bool,
    attempts: nat,
    evidence: Option<string>,
    deliveredAt: Option<nat>)

  datatype Session = Session(active: bool, generation: nat)

  datatype Ticket = Ticket(owner: SessionKey, run: string, status: Status, confirmedAt: Option<nat>)

  /** A model call of a run, under its attempt id; one run may make several calls. */
  datatype Inference = Inference(run: string, session: SessionKey, call: string, generation: nat)

  datatype Event = DeliveryConfirmed(ticket: TicketId) | CompletedEvent(ticket: TicketId)

  datatype Db = Db(
    sessions: map<SessionKey, Session>,
    tickets: map<TicketId, Ticket>,
    inferences: map<string, Inference>,
    deliveries: map<string, Delivery>,
    events: seq<Event>)

  const EMPTY_DB := Db(map[], map[], map[], map[], [])

  datatype Error =
    | TextRequired
    | IncompleteIdentity
    | InvalidGeneration
    | WrongDigest
    | IdentityConflict
    | TicketNotFound
    | OwnerMismatch
    | TicketNotAccepted
    | SessionNotActive
    | StaleGeneration
    | KeyRequired
    | AttemptNotFound
    | IllegalTransition(from: State, to: State)

  datatype Outcome = Outcome(db: Db, answer: Result<Delivery, Error>)

  const MAX_SAFE_INTEGER := 9007199254740991

  /** The white space and line terminators of ECMAScript. */
  predicate IsSpace(c: char) {
    '\t' <= c <= '\r' || c == ' ' || c == '\U{00A0}' || c == '\U{1680}' || '\U{2000}' <= c <= '\U{200A}' || c == '\U{2028}' ||
    c == '\U{2029}' || c == '\U{202F}' || c == '\U{205F}' || c == '\U{3000}' || c == '\U{FEFF}'
  }

  function Trimmed(s: string): string {
    Text.Trim(s, IsSpace)
  }

  // ---------------------------------------------------------------- preparing

  datatype Input = Input(id: Identity, key: string, text: string)

  function Blank(o: Option<string>): string {
    match o
    case Some(s) => s
    case None => ""
  }

  /** The WHERE clause of findExactDelivery: a missing id equals an empty one. */
  predicate Matches(d: Delivery, id: Identity) {
    d.id.(inference := None, run := None) == id.(inference := None, run := None) &&
    Blank(d.id.inference) == Blank(id.inference) && Blank(d.id.run) == Blank(id.run)
  }

  /** assertIdentity: the ids and the text must be equal as given. */
  predicate SameIdentity(d: Delivery, input: Input) {
    d.id == input.id && d.text == input.text
  }

  function Asserted(existing: Delivery, input: Input): Result<Delivery, Error> {
    if SameIdentity(existing, input) then Ok(existing) else Err(IdentityConflict)
  }

  function InputError(input: Input): Option<Error> {
    if Trimmed(input.text) == "" then Some(TextRequired)
    else if input.id.ticket == "" || input.id.owner == "" || input.key == "" || input.id.payload == NoDigest then Some(IncompleteIdentity)
    else if input.id.generation < 0 || MAX_SAFE_INTEGER < input.id.generation then Some(InvalidGeneration)
    else if input.id.payload != Sha256(Trimmed(input.text)) then Some(WrongDigest)
    else None
  }

  function OwnerError(db: Db, owner: SessionKey, generation: int): Option<Error> {
    if owner !in db.sessions || !db.sessions[owner].active then Some(SessionNotActive)
    else if db.sessions[owner].generation != generation then Some(StaleGeneration)
    else None
  }

  function TicketError(db: Db, input: Input): Option<Error> {
    if input.id.ticket !in db.tickets then Some(TicketNotFound)
    else if db.tickets[input.id.ticket].owner != input.id.owner then Some(OwnerMismatch)
    else if db.tickets[input.id.ticket].status != Accepted then Some(TicketNotAccepted)
    else OwnerError(db, input.id.owner, input.id.generation)
  }

  function Fresh(input: Input): Delivery {
    Delivery(input.id, Trimmed(input.text), Prepared, false, 0, None, None)
  }

  function Prepare(db: Db, input: Input): Outcome {
    if InputError(input).Some? then Outcome(db, Err(InputError(input).value))
    else if input.key in db.deliveries && Matches(db.deliveries[input.key], input.id) then Outcome(db, Asserted(db.deliveries[input.key], input))
    else if input.key in db.deliveries then Outcome(db, Asserted(db.deliveries[input.key], input))
    else if TicketError(db, input).Some? then Outcome(db, Err(TicketError(db, input).value))
    else Outcome(db.(deliveries := db.deliveries[input.key := Fresh(input)]), Ok(Fresh(input)))
  }

  // ---------------------------------------------------------------- climbing

  function Advance(d: Delivery, to: State, evidence: string): Delivery {
    d.(state := to, evidence := Some(evidence), attempts := d.attempts + 1)
  }

  function RowError(db: Db, key: string): Option<Error> {
    if key == "" then Some(KeyRequired)
    else if key !in db.deliveries then Some(AttemptNotFound)
    else None
  }

  /** stageDelivery and acceptTransport: one rung up, or nothing when already there. */
  function Climb(db: Db, key: string, from: State, to: State, evidence: string): Outcome {
    if RowError(db, key).Some? then Outcome(db, Err(RowError(db, key).value))
    else
      var d := db.deliveries[key];
      if OwnerError(db, d.id.owner, d.id.generation).Some? then Outcome(db, Err(OwnerError(db, d.id.owner, d.id.generation).value))
      else if d.state == to then Outcome(db, Ok(d))
      else if d.state != from then Outcome(db, Err(IllegalTransition(d.state, to)))
      else Outcome(db.(deliveries := db.deliveries[key := Advance(d, to, evidence)]), Ok(Advance(d, to, evidence)))
  }

  function Stage(db: Db, key: string, evidence: string): Outcome {
    Climb(db, key, Prepared, Staged, evidence)
  }

  function AcceptTransport(db: Db, key: string, evidence: string): Outcome {
    Climb(db, key, Staged, TransportAccepted, evidence)
  }

  function Settled(d: Delivery, evidence: string, now: nat): Delivery {
    Advance(d, Confirmed, evidence).(delivered := true, deliveredAt := Some(now))
  }

  /** The ticket completes only if it is still accepted; only then are the two events written. */
  function CompleteTicket(db: Db, t: TicketId, now: nat): Db {
    if t !in db.tickets || db.tickets[t].status != Accepted then db
    else db.(tickets := db.tickets[t := db.tickets[t].(status := Completed, confirmedAt := Some(now))],
             events := db.events + [DeliveryConfirmed(t), CompletedEvent(t)])
  }

  function Confirm(db: Db, key: string, evidence: string, now: nat): Outcome {
    if RowError(db, key).Some? then Outcome(db, Err(RowError(db, key).value))
    else
      var d := db.deliveries[key];
      if d.state != Confirmed && d.state != TransportAccepted then Outcome(db, Err(IllegalTransition(d.state, Confirmed)))
      else if OwnerError(db, d.id.owner, d.id.generation).Some? then Outcome(db, Err(OwnerError(db, d.id.owner, d.id.generation).value))
      else if d.state == Confirmed then Outcome(db, Ok(d))
      else Outcome(CompleteTicket(db.(deliveries := db.deliveries[key := Settled(d, evidence, now)]), d.id.ticket, now),
                   Ok(Settled(d, evidence, now)))
  }

  // ---------------------------------------------------------------- the webchat adapter

  datatype Receipt =
    | Done(delivery: Delivery)
    | MissingIdentity
    | AmbiguousRun
    | NotFound
    | Ambiguous
    | StaleWebchatGeneration
    | Thrown(error: Error)

  datatype Settlement = Settlement(db: Db, receipt: Receipt)

  const STAGED := "webchat-final-staged"
  const SENT := "webchat-message-sent"
  const RECEIVED := "webchat-message-receipt"

  function Fields(s: string): (fields: seq<string>)
    ensures fields != []
  {
    if s == [] then [""]
    else
      var rest := Fields(s[1..]);
      if s[0] == ':' then [""] + rest else [[s[0]] + rest[0]] + rest[1..]
  }

  /** agent:<id>:webchat:channel:<id> */
  predicate IsWebchatSession(key: SessionKey) {
    var f := Fields(key);
    |f| == 5 && f[0] == "agent" && f[1] != "" && f[2] == "webchat" && f[3] == "channel" && f[4] != ""
  }

  function AnswerOf(o: Outcome): Settlement {
    Settlement(o.db, if o.answer.Ok? then Done(o.answer.value) else Thrown(o.answer.error))
  }

  function WebchatKey(t: TicketId, generation: nat, attempt: string): string {
    "cnx-webchat:" + t + ":g" + Decimal.Print(generation) + ":" + attempt
  }

  function WebchatInput(t: TicketId, attempt: string, run: string, owner: SessionKey, generation: nat, payload: string): Input {
    Input(Identity(t, Some(attempt), Some(run), owner, generation, Webchat, Sha256(payload)),
          WebchatKey(t, generation, attempt), payload)
  }

  function RunTickets(db: Db, run: string, owner: SessionKey): set<TicketId> {
    set t | t in db.tickets && db.tickets[t].run == run && db.tickets[t].owner == owner
  }

  lemma TheOnlyKey(keys: set<string>, k: string)
    requires |keys| == 1 && k in keys
    ensures keys == {k}
  {
    assert |keys - {k}| == 0;
  }

  ghost function OnlyKey(keys: set<string>): (key: string)
    requires |keys| == 1
    ensures keys == {key}
  {
    var key :| key in keys;
    TheOnlyKey(keys, key);
    key
  }

  /** exactRun: the one ticket of the run and session, if it is accepted. */
  ghost function ExactTicket(db: Db, run: string, owner: SessionKey): Option<TicketId> {
    if |RunTickets(db, run, owner)| != 1 then None
    else
      var t := OnlyKey(RunTickets(db, run, owner));
      if t != "" && db.tickets[t].status == Accepted then Some(t) else None
  }

  function CallsOf(db: Db, run: string, owner: SessionKey, call: Option<string>): set<string> {
    set a | a in db.inferences && db.inferences[a].run == run && db.inferences[a].session == owner &&
            (call.Some? ==> db.inferences[a].call == call.value)
  }

  /** Whether `found` may answer exactInference: with a call id any attempt of that call, without one the only attempt of the run. */
  predicate FindsInference(db: Db, run: string, owner: SessionKey, call: Option<string>, found: Option<string>) {
    var calls := CallsOf(db, run, owner, call);
    match found
    case Some(a) => a in calls && (call.None? ==> calls == {a})
    case None => calls == {} || (call.None? && |calls| != 1)
  }

  /** `attempt` is the inference attempt found; run, owner and payload are trimmed. */
  ghost function StageWebchat(db: Db, attempt: Option<string>, run: string, owner: SessionKey, payload: string): Settlement
    requires attempt.Some? ==> attempt.value in db.inferences
  {
    var ticket := ExactTicket(db, run, owner);
    if run == "" || !IsWebchatSession(owner) || payload == "" then Settlement(db, MissingIdentity)
    else if |RunTickets(db, run, owner)| > 1 then Settlement(db, AmbiguousRun)
    else if ticket.None? || attempt.None? || attempt.value == "" then Settlement(db, NotFound)
    else if !ActiveAt(db, owner, db.inferences[attempt.value].generation) then Settlement(db, StaleWebchatGeneration)
    else StageInput(db, WebchatInput(ticket.value, attempt.value, run, owner, db.sessions[owner].generation, payload))
  }

  predicate ActiveAt(db: Db, owner: SessionKey, generation: nat) {
    owner in db.sessions && db.sessions[owner].active && db.sessions[owner].generation == generation
  }

  /** Prepare and, when freshly prepared, stage: two transactions. */
  function StageInput(db: Db, input: Input): Settlement {
    var prepared := Prepare(db, input);
    if prepared.answer.Ok? && prepared.answer.value.state == Prepared then AnswerOf(Stage(prepared.db, input.key, STAGED))
    else AnswerOf(prepared)
  }

  /** The rows a receipt for this run and session may mean. */
  predicate Receivable(d: Delivery, run: string, owner: SessionKey) {
    d.id.run == Some(run) && d.id.owner == owner && d.id.surface == Webchat && !d.delivered
  }

  function ReceivableKeys(db: Db, run: string, owner: SessionKey): set<string> {
    set k | k in db.deliveries && Receivable(db.deliveries[k], run, owner)
  }

  /** The transport accepted the one pending row of this run and session. */
  ghost function AcceptWebchat(db: Db, run: string, owner: SessionKey): Settlement {
    if run == "" || !IsWebchatSession(owner) then Settlement(db, MissingIdentity)
    else if |ReceivableKeys(db, run, owner)| != 1 then Settlement(db, Ambiguous)
    else
      AcceptKey(db, OnlyKey(ReceivableKeys(db, run, owner)))
  }

  function AcceptKey(db: Db, key: string): Settlement
    requires key in db.deliveries
  {
    var d := db.deliveries[key];
    if key == "" then Settlement(db, Ambiguous)
    else if OwnerError(db, d.id.owner, d.id.generation).Some? then Settlement(db, StaleWebchatGeneration)
    else AnswerOf(AcceptTransport(db, key, SENT))
  }

  /** Two transactions; the process may die between them. */
  function ConfirmKey(db: Db, key: string, now: nat): Settlement
    requires key in db.deliveries
  {
    var accepted := AcceptKey(db, key);
    if accepted.receipt.Done? then AnswerOf(Confirm(accepted.db, key, RECEIVED, now)) else accepted
  }

  ghost function ConfirmWebchat(db: Db, run: string, owner: SessionKey, now: nat): Settlement {
    if run == "" || !IsWebchatSession(owner) then Settlement(db, MissingIdentity)
    else if |ReceivableKeys(db, run, owner)| != 1 then Settlement(db, Ambiguous)
    else
      ConfirmKey(db, OnlyKey(ReceivableKeys(db, run, owner)), now)
  }

  // ---------------------------------------------------------------- runs

  datatype Step =
    | Prepares(input: Input)
    | Stages(key: string, evidence: string)
    | Accepts(key: string, evidence: string)
    | Confirms(key: string, evidence: string, now: nat)
    // the rest of the plugin
    | OpensTicket(ticket: TicketId, owner: SessionKey, run: string)
    | StartsCall(attempt: string, inference: Inference)
    | MovesTicket(ticket: TicketId, owner: SessionKey, status: Status)
    | SetsSession(owner: SessionKey, session: Session)
    | Disposes(ticket: TicketId)

  /**
   What the rest of the plugin may do meanwhile: open tickets, record model calls, move a ticket on, though
   not out of `completed` and not back to `accepted`, set a session without lowering its
   generation, and delete the pending rows of a ticket.
   */
  function Surroundings(db: Db, step: Step): Db {
    match step
    case OpensTicket(t, owner, run) =>
      if t in db.tickets then db else db.(tickets := db.tickets[t := Ticket(owner, run, Accepted, None)])
    case StartsCall(attempt, inference) =>
      if attempt in db.inferences then db else db.(inferences := db.inferences[attempt := inference])
    case MovesTicket(t, owner, status) =>
      if t !in db.tickets || db.tickets[t].status == Completed || (status == Accepted && db.tickets[t].status != Accepted) then db
      else db.(tickets := db.tickets[t := db.tickets[t].(owner := owner, status := status)],
               events := if status == Completed then db.events + [CompletedEvent(t)] else db.events)
    case SetsSession(owner, session) =>
      if owner in db.sessions && session.generation < db.sessions[owner].generation then db
      else db.(sessions := db.sessions[owner := session])
    case Disposes(t) =>
      db.(deliveries := map k | k in db.deliveries && (db.deliveries[k].id.ticket != t || db.deliveries[k].delivered) :: db.deliveries[k])
    case _ => db
  }

  function Next(db: Db, step: Step): Db {
    match step
    case Prepares(input) => Prepare(db, input).db
    case Stages(key, evidence) => Stage(db, key, evidence).db
    case Accepts(key, evidence) => AcceptTransport(db, key, evidence).db
    case Confirms(key, evidence, now) => Confirm(db, key, evidence, now).db
    case _ => Surroundings(db, step)
  }

  datatype Run = Run(states: seq<Db>, steps: seq<Step>)

  predicate Linked(r: Run, i: nat)
    requires i < |r.steps| < |r.states|
  {
    r.states[i + 1] == Next(r.states[i], r.steps[i])
  }

  ghost predicate Legal(r: Run) {
    && |r.states| == |r.steps| + 1
    && r.states[0] == EMPTY_DB
    && forall i {:trigger Linked(r, i)} :: 0 <= i < |r.steps| ==> Linked(r, i)
  }

  const NO_STEPS := Run([EMPTY_DB], [])

  /** The state a run ends in. */
  function Last(r: Run): Db
    requires r.states != []
  {
    r.states[|r.states| - 1]
  }

  /** A run can go on with any step. */
  lemma Extend(r: Run, step: Step) returns (longer: Run)
    requires Legal(r)
    ensures Legal(longer) && longer.steps == r.steps + [step] && Last(longer) == Next(Last(r), step)
    ensures longer.states[..|r.states|] == r.states
  {
    longer := Run(r.states + [Next(Last(r), step)], r.steps + [step]);
    forall i | 0 <= i < |longer.steps| ensures Linked(longer, i) {
      if i < |r.steps| {
        assert Linked(r, i);
      }
    }
  }
}

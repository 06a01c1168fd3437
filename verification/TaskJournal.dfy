/**
 The write-ahead task journal of cogent.py: four durable files, the order in
 which an operation writes them, and what a crash between two writes leaves.

 A file update (an fsynced line append, a rename, an unlink) is one atomic
 durable write; the writer lock is exclusive, so operations do not interleave,
 but a process may die after any durable write, also while it is recovering.
 */
module TaskJournal {
  import opened Common

  datatype Kind = Intent | Action | Observation | Decision | Verification | Commit | Rollback | Failure | Recovery

  /** The kinds of record that come with a new state revision. */
  predicate ChangesState(kind: Kind) {
    kind in {Intent, Commit, Rollback, Recovery}
  }

  type Positive = n: nat | 0 < n witness 1

  datatype Detail = Note(text: string) | NewRevision(number: nat) | Restored(source: int, number: nat)
  datatype Event = Event(sequence: Positive, timestamp: nat, kind: Kind, detail: Detail)

  /** `content` stands for every field a rollback copies from the old revision. */
  datatype TaskState = TaskState(schemaVersion: nat, revision: nat, ledgerSequence: nat, updatedAt: nat, content: string)

  datatype Txn = Txn(event: Event, state: TaskState)

  datatype Disk = Disk(txn: Option<Txn>, ledger: seq<Event>, revisions: map<nat, TaskState>, state: Option<TaskState>)

  const EMPTY := Disk(None, [], map[], None)

  datatype Exit =
    | TransactionConflict
    | RevisionConflict
    | AlreadyExists
    | NotInitialized
    | MissingState
    | MissingRevision
    | Refused

  datatype End = Done | Exited(reason: Exit) | Crashed

  // ---------------------------------------------------------------- durable writes

  datatype Write =
    | PutTxn(txn: Txn)
    | AppendLine(event: Event)
    | PutRevision(state: TaskState)
    | PutState(state: TaskState)
    | DropTxn

  function Apply(d: Disk, w: Write): Disk {
    match w
    case PutTxn(t) => d.(txn := Some(t))
    case AppendLine(e) => d.(ledger := d.ledger + [e])
    case PutRevision(s) => d.(revisions := d.revisions[s.revision := s])
    case PutState(s) => d.(state := Some(s))
    case DropTxn => d.(txn := None)
  }

  function ApplyAll(d: Disk, ws: seq<Write>): Disk
    decreases |ws|
  {
    if ws == [] then d else Apply(ApplyAll(d, ws[..|ws| - 1]), ws[|ws| - 1])
  }

  /** What an operation does: its durable writes in order, then an early exit if it refuses. */
  datatype Program = Program(writes: seq<Write>, exit: Option<Exit>)

  datatype Outcome = Outcome(disk: Disk, end: End)

  /** Run a program in a process that survives `budget` more durable writes. */
  function Execute(d: Disk, p: Program, budget: nat): Outcome {
    if budget < |p.writes| then Outcome(ApplyAll(d, p.writes[..budget]), Crashed)
    else Outcome(ApplyAll(d, p.writes), if p.exit.None? then Done else Exited(p.exit.value))
  }

  // ---------------------------------------------------------------- programs

  function RevisionProgram(d: Disk, s: TaskState): Program {
    if s.revision in d.revisions && d.revisions[s.revision] != s then Program([], Some(RevisionConflict))
    else
      var file := if s.revision in d.revisions then [] else [PutRevision(s)];
      var current := if d.state.None? || d.state.value.revision <= s.revision then [PutState(s)] else [];
      Program(file + current, None)
  }

  /** The revision, then the end of the transaction. */
  function FinishProgram(d: Disk, s: TaskState): Program {
    var rest := RevisionProgram(d, s);
    if rest.exit.Some? then rest else Program(rest.writes + [DropTxn], None)
  }

  function RecoverProgram(d: Disk): Program {
    if d.txn.None? then Program([], None)
    else
      var Txn(event, state) := d.txn.value;
      if event.sequence <= |d.ledger| && d.ledger[event.sequence - 1] != event then
        Program([], Some(TransactionConflict))
      else
        var line := if |d.ledger| < event.sequence then [AppendLine(event)] else [];
        var rest := FinishProgram(d, state);
        Program(line + rest.writes, rest.exit)
  }

  function TransactionProgram(d: Disk, t: Txn): Program {
    var rest := FinishProgram(d, t.state);
    Program([PutTxn(t), AppendLine(t.event)] + rest.writes, rest.exit)
  }

  function NextEvent(d: Disk, kind: Kind, detail: Detail, now: nat): Event {
    Event(|d.ledger| + 1, now, kind, detail)
  }

  /** The commands that take the writer lock; `admitted` is the verdict of checks made outside the journal. */
  datatype Op =
    | Load
    | Init(content: string, now: nat)
    | Append(kind: Kind, text: string, now: nat)
    | CommitState(content: string, admitted: bool, now: nat)
    | RollbackTo(source: int, now: nat)
    | ApplyRecovery(content: string, admitted: bool, now: nat)

  /** A record added without a transaction never comes with a state revision. */
  predicate WellKinded(op: Op) {
    op.Append? ==> !ChangesState(op.kind)
  }

  /** The transaction a command writes on a disk with nothing pending, or why it refuses. */
  function TxnOf(d: Disk, op: Op): Result<Txn, Exit>
    requires op.Init? || op.CommitState? || op.RollbackTo? || op.ApplyRecovery?
  {
    var line := |d.ledger| + 1;
    match op
    case Init(content, now) =>
      if d.state.Some? || d.ledger != [] then Err(AlreadyExists)
      else Ok(Txn(NextEvent(d, Intent, Note("Task initialized"), now), TaskState(2, 1, 1, now, content)))
    case CommitState(content, admitted, now) =>
      if d.state.None? then Err(MissingState)
      else if !admitted then Err(Refused)
      else
        var n := d.state.value.revision + 1;
        Ok(Txn(NextEvent(d, Commit, NewRevision(n), now), TaskState(2, n, line, now, content)))
    case RollbackTo(source, now) =>
      if source < 0 || source !in d.revisions then Err(MissingRevision)
      else if d.state.None? then Err(MissingState)
      else
        var n := d.state.value.revision + 1;
        Ok(Txn(NextEvent(d, Rollback, Restored(source, n), now), TaskState(2, n, line, now, d.revisions[source].content)))
    case ApplyRecovery(content, admitted, now) =>
      if d.state.None? then Err(MissingState)
      else if !admitted then Err(Refused)
      else
        var n := d.state.value.revision + 1;
        Ok(Txn(NextEvent(d, Recovery, NewRevision(n), now), TaskState(3, n, line, now, content)))
  }

  function BodyProgram(d: Disk, op: Op): Program {
    match op
    case Load => Program([], None)
    case Append(kind, text, now) =>
      if d.state.None? then Program([], Some(NotInitialized))
      else Program([AppendLine(NextEvent(d, kind, Note(text), now))], None)
    case _ =>
      match TxnOf(d, op)
      case Err(e) => Program([], Some(e))
      case Ok(t) => TransactionProgram(d, t)
  }

  /** One command in a process that survives `budget` durable writes: finish any pending transaction, then its own work. */
  function Attempt(d: Disk, op: Op, budget: nat): Outcome {
    var p := RecoverProgram(d);
    var recovered := Execute(d, p, budget);
    if recovered.end != Done then recovered
    else Execute(recovered.disk, BodyProgram(recovered.disk, op), budget - |p.writes|)
  }

  // ---------------------------------------------------------------- the atomic specification

  /** The disk with one more record and one more revision, and nothing pending. */
  function Committed(d: Disk, t: Txn): Disk {
    Disk(None, d.ledger + [t.event], d.revisions[t.state.revision := t.state], Some(t.state))
  }

  /** What a command means when nothing ever crashes: all of it or, when refused, none of it. */
  function SpecStep(d: Disk, op: Op): Disk {
    match op
    case Load => d
    case Append(kind, text, now) =>
      if d.state.None? then d else d.(ledger := d.ledger + [NextEvent(d, kind, Note(text), now)])
    case _ =>
      match TxnOf(d, op)
      case Err(_) => d
      case Ok(t) => Committed(d, t)
  }

  // ---------------------------------------------------------------- consistency

  /** How many records of the ledger came with a state revision. */
  function StateChanges(ledger: seq<Event>): nat {
    if ledger == [] then 0
    else StateChanges(ledger[..|ledger| - 1]) + if ChangesState(ledger[|ledger| - 1].kind) then 1 else 0
  }

  /** Revision `k` was made by the k-th state-changing record, and its state names that record. */
  predicate RevisionMatches(ledger: seq<Event>, k: nat, s: TaskState) {
    && s.revision == k
    && 1 <= s.ledgerSequence <= |ledger|
    && ChangesState(ledger[s.ledgerSequence - 1].kind)
    && StateChanges(ledger[..s.ledgerSequence]) == k
  }

  predicate LedgerNumbered(ledger: seq<Event>) {
    forall i :: 0 <= i < |ledger| ==> ledger[i].sequence == i + 1
  }

  /** The revision files are exactly those the ledger speaks of. */
  ghost predicate RevisionsFit(ledger: seq<Event>, revisions: map<nat, TaskState>) {
    && (forall k: nat :: k in revisions <==> 1 <= k <= StateChanges(ledger))
    && (forall k: nat :: k in revisions ==> RevisionMatches(ledger, k, revisions[k]))
  }

  /** A disk with no transaction pending on which ledger, revisions and state agree. */
  ghost predicate Consistent(d: Disk) {
    var n := StateChanges(d.ledger);
    && d.txn.None?
    && LedgerNumbered(d.ledger)
    && RevisionsFit(d.ledger, d.revisions)
    && (if n == 0 then d.state == None && d.ledger == [] else d.state == Some(d.revisions[n]))
  }

  /** A transaction that a command may start on `base`. */
  predicate Admissible(base: Disk, t: Txn) {
    && t.event.sequence == |base.ledger| + 1
    && ChangesState(t.event.kind)
    && t.state.revision == StateChanges(base.ledger) + 1
    && t.state.ledgerSequence == |base.ledger| + 1
  }

  function TxnWrites(t: Txn): (ws: seq<Write>)
    ensures |ws| == 5
  {
    [PutTxn(t), AppendLine(t.event), PutRevision(t.state), PutState(t.state), DropTxn]
  }

  /** The disk after the first `k` of the five writes of transaction `t`. */
  function Stage(base: Disk, t: Txn, k: nat): Disk
    requires k <= 5
  {
    ApplyAll(base, TxnWrites(t)[..k])
  }

  ghost predicate IsStage(d: Disk, base: Disk, k: nat) {
    && d.txn.Some?
    && Consistent(base)
    && Admissible(base, d.txn.value)
    && 1 <= k <= 4
    && d == Stage(base, d.txn.value, k)
  }

  /** Every disk a crash can leave: a consistent one, or one inside exactly one transaction. */
  ghost predicate Sound(d: Disk) {
    Consistent(d) || exists base: Disk, k: nat :: IsStage(d, base, k)
  }

  /** What recovery, once it completes, makes of the disk. */
  function Settled(d: Disk): Disk {
    ApplyAll(d, RecoverProgram(d).writes)
  }
}

/**
 What each command of the task journal leaves on disk, column by column, whatever a crash
 left before it: the record and the revision it adds, the content it was given, and why
 it refuses.
 */
module TaskJournalEffects {
  import opened Common
  import opened TaskJournal
  import opened TaskJournalProofs

  /** One more record, one more revision under a number not used before, and nothing pending. */
  predicate Gains(before: Disk, after: Disk, e: Event, s: TaskState) {
    && after.txn.None?
    && after.ledger == before.ledger + [e]
    && s.revision !in before.revisions
    && after.revisions == before.revisions[s.revision := s]
    && after.state == Some(s)
  }

  /** How a command ends, by its own program on the recovered disk. */
  lemma Ends(d: Disk, op: Op, budget: nat)
    requires Sound(d) && WellKinded(op)
    ensures var r := Attempt(d, op, budget);
            && Consistent(Settled(d))
            && (r.end == Done ==> BodyProgram(Settled(d), op).exit.None? && r.disk == SpecStep(Settled(d), op))
            && (r.end.Exited? ==> BodyProgram(Settled(d), op).exit == Some(r.end.reason) && r.disk == Settled(d))
  {
    RecoveryCrash(d, budget);
    SettledIs(d);
    CrashAtomicity(d, op, budget);
    var p := RecoverProgram(d);
    if |p.writes| <= budget && !op.Load? && !op.Append? && TxnOf(Settled(d), op).Ok? {
      TxnAdmissible(Settled(d), op);
    }
  }

  /** The transaction of a command that is not refused. */
  lemma Admitted(d: Disk, op: Op)
    requires Consistent(d) && (op.Init? || op.CommitState? || op.RollbackTo? || op.ApplyRecovery?)
    ensures TxnOf(d, op).Ok? <==> BodyProgram(d, op).exit.None?
    ensures TxnOf(d, op).Err? ==> BodyProgram(d, op).exit == Some(TxnOf(d, op).error)
    ensures d.state.Some? ==> d.state.value.revision + 1 !in d.revisions
    ensures d.state.None? ==> d.ledger == [] && d.revisions == map[]
  {
    if TxnOf(d, op).Ok? {
      TxnAdmissible(d, op);
    }
    assert d.state.None? ==> forall k: nat :: k !in d.revisions;
  }

  /** Initialisation makes revision 1 with the content given and one INTENT record, exactly on an empty task. */
  predicate Initialises(before: Disk, r: Outcome, content: string, now: nat) {
    && (r.end == Done ==>
          && before.state.None? && before.ledger == []
          && Gains(before, r.disk, Event(1, now, Intent, Note("Task initialized")), TaskState(2, 1, 1, now, content)))
    && (r.end.Exited? ==> r.end.reason == AlreadyExists && r.disk == before && before.state.Some?)
  }

  /**
   A new content becomes the next revision under the next number of the ledger, with one record
   that says so; it is refused, and nothing changes, without a state or a verdict.
   */
  predicate Writes(before: Disk, r: Outcome, kind: Kind, schema: nat, content: string, admitted: bool, now: nat) {
    && (r.end == Done ==>
          && before.state.Some? && admitted
          && var n, line := before.state.value.revision + 1, |before.ledger| + 1;
             Gains(before, r.disk, Event(line, now, kind, NewRevision(n)), TaskState(schema, n, line, now, content)))
    && (r.end.Exited? ==> r.disk == before && r.end.reason == if before.state.None? then MissingState else Refused)
    && (r.end == Exited(Refused) ==> !admitted)
  }

  /** A rollback makes the content of an existing revision the next one, with one ROLLBACK record that names both. */
  predicate RollsBack(before: Disk, r: Outcome, source: int, now: nat) {
    && (r.end == Done ==>
          && 1 <= source && source in before.revisions && before.state.Some?
          && var n, line := before.state.value.revision + 1, |before.ledger| + 1;
             Gains(before, r.disk, Event(line, now, Rollback, Restored(source, n)),
                   TaskState(2, n, line, now, before.revisions[source].content)))
    && (r.end.Exited? ==> r.end.reason == MissingRevision && r.disk == before && !(0 <= source && source in before.revisions))
  }

  /** An event appended is one more line with this kind and text, numbered by its place; nothing else changes. */
  predicate Appends(before: Disk, r: Outcome, kind: Kind, text: string, now: nat) {
    && (r.end == Done ==>
          && before.state.Some?
          && r.disk == before.(ledger := before.ledger + [Event(|before.ledger| + 1, now, kind, Note(text))]))
    && (r.end.Exited? ==> r.end.reason == NotInitialized && r.disk == before && before.state.None?)
  }

  lemma InitWrites(d: Disk, content: string, now: nat, budget: nat)
    ensures Sound(d) ==>
              Initialises(Settled(d), Attempt(d, Init(content, now), budget), content, now)
  {
    if Sound(d) {
      var op := Init(content, now);
      Ends(d, op, budget);
      Admitted(Settled(d), op);
    }
  }

  lemma CommitWrites(d: Disk, content: string, admitted: bool, now: nat, budget: nat)
    ensures Sound(d) ==>
              Writes(Settled(d), Attempt(d, CommitState(content, admitted, now), budget), Commit, 2, content, admitted, now)
  {
    if Sound(d) {
      var op := CommitState(content, admitted, now);
      Ends(d, op, budget);
      Admitted(Settled(d), op);
    }
  }

  lemma RecoveryWrites(d: Disk, content: string, admitted: bool, now: nat, budget: nat)
    ensures Sound(d) ==>
              Writes(Settled(d), Attempt(d, ApplyRecovery(content, admitted, now), budget), Recovery, 3, content, admitted, now)
  {
    if Sound(d) {
      var op := ApplyRecovery(content, admitted, now);
      Ends(d, op, budget);
      Admitted(Settled(d), op);
    }
  }

  lemma RollbackWrites(d: Disk, source: int, now: nat, budget: nat)
    ensures Sound(d) ==>
              RollsBack(Settled(d), Attempt(d, RollbackTo(source, now), budget), source, now)
  {
    if Sound(d) {
      var op := RollbackTo(source, now);
      Ends(d, op, budget);
      Admitted(Settled(d), op);
    }
  }

  lemma AppendWrites(d: Disk, kind: Kind, text: string, now: nat, budget: nat)
    ensures Sound(d) && !ChangesState(kind) ==>
              Appends(Settled(d), Attempt(d, Append(kind, text, now), budget), kind, text, now)
  {
    if Sound(d) && !ChangesState(kind) {
      Ends(d, Append(kind, text, now), budget);
    }
  }

  // ---------------------------------------------------------------- disks a crash cannot leave

  /** Writes that put no revision under a number the disk has. */
  predicate PutsNew(d: Disk, ws: seq<Write>) {
    forall i :: 0 <= i < |ws| && ws[i].PutRevision? ==> ws[i].state.revision !in d.revisions
  }

  lemma {:induction false} NewWritesKeep(d: Disk, ws: seq<Write>)
    requires PutsNew(d, ws)
    ensures var after := ApplyAll(d, ws);
            && d.ledger <= after.ledger
            && forall k: nat :: k in d.revisions ==> k in after.revisions && after.revisions[k] == d.revisions[k]
    decreases |ws|
  {
    if ws != [] {
      NewWritesKeep(d, ws[..|ws| - 1]);
    }
  }

  lemma ExecuteKeeps(d: Disk, p: Program, budget: nat)
    requires PutsNew(d, p.writes)
    ensures Keeps(d, Execute(d, p, budget).disk)
  {
    NewWritesKeep(d, p.writes);
    if budget < |p.writes| {
      NewWritesKeep(d, p.writes[..budget]);
    }
  }

  /** No ledger line and no revision of the earlier disk is lost or rewritten. */
  ghost predicate Keeps(d: Disk, after: Disk) {
    && d.ledger <= after.ledger
    && forall k: nat :: k in d.revisions ==> k in after.revisions && after.revisions[k] == d.revisions[k]
  }

  lemma RecoveryPutsNew(d: Disk)
    ensures PutsNew(d, RecoverProgram(d).writes)
  {
  }

  lemma BodyPutsNew(d: Disk, op: Op)
    ensures PutsNew(d, BodyProgram(d, op).writes)
  {
  }

  /** Whatever is on the disk, sound or not, no command and no crash rewrites a ledger line or a revision. */
  lemma NothingIsRewritten(d: Disk, op: Op, budget: nat)
    ensures Keeps(d, Attempt(d, op, budget).disk)
  {
    RecoveryPutsNew(d);
    ExecuteKeeps(d, RecoverProgram(d), budget);
    var recovered := Execute(d, RecoverProgram(d), budget);
    if recovered.end == Done {
      BodyPutsNew(recovered.disk, op);
      ExecuteKeeps(recovered.disk, BodyProgram(recovered.disk, op), budget - |RecoverProgram(d).writes|);
    }
  }

  /** A pending record that the ledger contradicts stops every command before its first write. */
  lemma ForeignLedgerRefused(d: Disk, op: Op, budget: nat)
    requires d.txn.Some? && d.txn.value.event.sequence <= |d.ledger|
    requires d.ledger[d.txn.value.event.sequence - 1] != d.txn.value.event
    ensures Attempt(d, op, budget) == Outcome(d, Exited(TransactionConflict))
  {
  }

  /** A pending state that differs from its own revision file is never put in force. */
  lemma ForeignRevisionRefused(d: Disk, op: Op, budget: nat)
    requires d.txn.Some?
    requires d.txn.value.state.revision in d.revisions && d.revisions[d.txn.value.state.revision] != d.txn.value.state
    ensures var r := Attempt(d, op, budget);
            && r.end != Done && r.disk.txn == d.txn && r.disk.revisions == d.revisions && r.disk.state == d.state
            && (r.end.Exited? ==> r.end.reason in {TransactionConflict, RevisionConflict})
  {
    assert forall e: Event :: ApplyAll(d, [AppendLine(e)]) == Apply(ApplyAll(d, [AppendLine(e)][..0]), AppendLine(e));
    assert forall e: Event :: [AppendLine(e)][..0] == [];
  }

  // ---------------------------------------------------------------- how it ends

  /** A process that survives long enough carries the command out or refuses it: it ends by itself. */
  lemma SurvivorsEnd(d: Disk, op: Op, budget: nat)
    requires Sound(d) && WellKinded(op) && |RecoverProgram(d).writes| + 5 <= budget
    ensures Attempt(d, op, budget).end != Crashed
  {
    RecoveryCrash(d, budget);
    SettledIs(d);
    if !op.Load? && !op.Append? && TxnOf(Settled(d), op).Ok? {
      TxnAdmissible(Settled(d), op);
    }
  }

  // ---------------------------------------------------------------- what was written stays

  /** The command writes this content, unless it refuses. */
  predicate Carries(op: Op, content: string) {
    || (op.Init? && op.content == content)
    || (op.CommitState? && op.admitted && op.content == content)
    || (op.ApplyRecovery? && op.admitted && op.content == content)
  }

  /** A task that is there takes commits and recoveries, one that is not takes an initialisation. */
  predicate Takes(before: Disk, op: Op) {
    op.Init? <==> before.state.None?
  }

  function NextRevision(before: Disk): nat {
    if before.state.None? then 1 else before.state.value.revision + 1
  }

  lemma CarriedContent(before: Disk, op: Op, content: string)
    requires Consistent(before) && Carries(op, content) && Takes(before, op)
    ensures var after := SpecStep(before, op);
            && after.state.Some? && after.state.value.content == content && after.state.value.revision == NextRevision(before)
            && NextRevision(before) in after.revisions && after.revisions[NextRevision(before)] == after.state.value
  {
  }

  /**
   The content of a command that took effect is the content of its revision for ever, through
   every later command, every crash in one and every crash in a recovery.
   */
  lemma ContentSurvives(script: seq<Invocation>, i: nat, content: string)
    requires WellKindedScript(script) && i < |script| && Carries(script[i].op, content)
    requires TakesEffect(Play(EMPTY, script[..i]), script[i].budget)
    requires Takes(Settled(Play(EMPTY, script[..i])), script[i].op)
    ensures var n, final := NextRevision(Settled(Play(EMPTY, script[..i]))), Settled(Play(EMPTY, script));
            n in final.revisions && final.revisions[n].content == content && final.revisions[n].revision == n
  {
    var before := Settled(Play(EMPTY, script[..i]));
    AfterEffect(script, i);
    CarriedContent(before, script[i].op, content);
    HistoryExtends(script, i + 1);
  }
}

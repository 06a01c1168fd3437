/** Crash atomicity, conservation and rollback for the task journal. */
module TaskJournalProofs {
  import opened Common
  import opened TaskJournal

  // ---------------------------------------------------------------- stages of one transaction

  lemma StageNext(base: Disk, t: Txn, k: nat)
    requires k < 5
    ensures Stage(base, t, k + 1) == Apply(Stage(base, t, k), TxnWrites(t)[k])
  {
    var ws := TxnWrites(t);
    assert ws[..k + 1][..k] == ws[..k];
  }

  lemma StageExplicit(base: Disk, t: Txn)
    ensures Stage(base, t, 1) == base.(txn := Some(t))
    ensures Stage(base, t, 2) == base.(txn := Some(t), ledger := base.ledger + [t.event])
    ensures Stage(base, t, 3) ==
            Disk(Some(t), base.ledger + [t.event], base.revisions[t.state.revision := t.state], base.state)
    ensures Stage(base, t, 4) ==
            Disk(Some(t), base.ledger + [t.event], base.revisions[t.state.revision := t.state], Some(t.state))
    ensures Stage(base, t, 5) == Committed(base, t)
  {
    assert Stage(base, t, 0) == base;
    StageNext(base, t, 0);
    StageNext(base, t, 1);
    StageNext(base, t, 2);
    StageNext(base, t, 3);
    StageNext(base, t, 4);
  }

  lemma StageTxn(base: Disk, t: Txn, k: nat)
    requires 1 <= k <= 4
    ensures Stage(base, t, k).txn == Some(t)
  {
    StageExplicit(base, t);
  }

  /** Going on from stage `k` with the next `j` writes leads to stage `k + j`. */
  lemma {:induction false} StageOn(base: Disk, t: Txn, k: nat, j: nat)
    requires k + j <= 5
    ensures ApplyAll(Stage(base, t, k), TxnWrites(t)[k..][..j]) == Stage(base, t, k + j)
  {
    if j > 0 {
      StageOn(base, t, k, j - 1);
      assert TxnWrites(t)[k..][..j][..j - 1] == TxnWrites(t)[k..][..j - 1];
      StageNext(base, t, k + j - 1);
    }
  }

  /** The writes a recovery still has to make at stage `k`. */
  function Remaining(t: Txn, k: nat): seq<Write>
    requires 1 <= k <= 4
  {
    if k == 4 then [PutState(t.state), DropTxn] else TxnWrites(t)[k..]
  }

  lemma RecoverEarly(d: Disk, base: Disk, k: nat)
    requires IsStage(d, base, k) && k < 3
    ensures RecoverProgram(d) == Program(Remaining(d.txn.value, k), None)
  {
    StageExplicit(base, d.txn.value);
    assert base.state.Some? ==> base.state.value.revision == StateChanges(base.ledger);
  }

  lemma RecoverLate(d: Disk, base: Disk, k: nat)
    requires IsStage(d, base, k) && 3 <= k
    ensures RecoverProgram(d) == Program(Remaining(d.txn.value, k), None)
  {
    StageExplicit(base, d.txn.value);
    assert base.state.Some? ==> base.state.value.revision == StateChanges(base.ledger);
  }

  lemma RecoverAtStage(d: Disk, base: Disk, k: nat)
    requires IsStage(d, base, k)
    ensures RecoverProgram(d) == Program(Remaining(d.txn.value, k), None)
  {
    if k < 3 {
      RecoverEarly(d, base, k);
    } else {
      RecoverLate(d, base, k);
    }
  }

  /** At the last stage the state is written once more. */
  lemma LastStageAgain(base: Disk, t: Txn)
    ensures var d, ws := Stage(base, t, 4), [PutState(t.state), DropTxn];
            ApplyAll(d, ws[..0]) == d && ApplyAll(d, ws[..1]) == d && ApplyAll(d, ws) == Committed(base, t)
  {
    StageExplicit(base, t);
    var d, ws := Stage(base, t, 4), [PutState(t.state), DropTxn];
    assert ws[..1] == [PutState(t.state)] && ws[..1][..0] == [];
    assert ApplyAll(d, ws[..1]) == Apply(ApplyAll(d, []), PutState(t.state)) == d;
  }

  /** A recovery crashing after `j` of its writes leaves a later stage of the same transaction. */
  lemma PartialRecovery(d: Disk, base: Disk, k: nat, j: nat)
    requires IsStage(d, base, k)
    requires j <= |Remaining(d.txn.value, k)|
    ensures var r := ApplyAll(d, Remaining(d.txn.value, k)[..j]);
            if j == |Remaining(d.txn.value, k)| then r == Committed(base, d.txn.value)
            else IsStage(r, base, if k == 4 then 4 else k + j) && r.txn == d.txn
  {
    var t := d.txn.value;
    if k == 4 {
      LastStageAgain(base, t);
      assert j == 2 ==> Remaining(t, k)[..j] == Remaining(t, k);
    } else {
      StageOn(base, t, k, j);
      if k + j == 5 {
        StageExplicit(base, t);
      } else {
        StageTxn(base, t, k + j);
      }
    }
  }

  // ---------------------------------------------------------------- committing keeps consistency

  lemma ChangesOfPrefix(ledger: seq<Event>, e: Event)
    ensures StateChanges(ledger + [e]) == StateChanges(ledger) + if ChangesState(e.kind) then 1 else 0
    ensures forall k :: 0 <= k <= |ledger| ==> (ledger + [e])[..k] == ledger[..k]
  {
    assert (ledger + [e])[..|ledger|] == ledger;
  }

  lemma StillMatches(ledger: seq<Event>, e: Event, k: nat, s: TaskState)
    requires RevisionMatches(ledger, k, s)
    ensures RevisionMatches(ledger + [e], k, s)
  {
    ChangesOfPrefix(ledger, e);
  }

  lemma FitsCommit(ledger: seq<Event>, revisions: map<nat, TaskState>, e: Event, s: TaskState)
    requires RevisionsFit(ledger, revisions) && ChangesState(e.kind)
    requires s.revision == StateChanges(ledger) + 1 && s.ledgerSequence == |ledger| + 1
    ensures RevisionsFit(ledger + [e], revisions[s.revision := s])
  {
    ChangesOfPrefix(ledger, e);
    var after := revisions[s.revision := s];
    assert (ledger + [e])[..s.ledgerSequence] == ledger + [e];
    forall k: nat | k in after ensures RevisionMatches(ledger + [e], k, after[k]) {
      if k != s.revision {
        StillMatches(ledger, e, k, revisions[k]);
      }
    }
  }

  lemma FitsAppend(ledger: seq<Event>, revisions: map<nat, TaskState>, e: Event)
    requires RevisionsFit(ledger, revisions) && !ChangesState(e.kind)
    ensures RevisionsFit(ledger + [e], revisions)
  {
    ChangesOfPrefix(ledger, e);
    forall k: nat | k in revisions ensures RevisionMatches(ledger + [e], k, revisions[k]) {
      StillMatches(ledger, e, k, revisions[k]);
    }
  }

  lemma CommitConsistent(base: Disk, t: Txn)
    requires Consistent(base) && Admissible(base, t)
    ensures Consistent(Committed(base, t))
    ensures StateChanges(Committed(base, t).ledger) == StateChanges(base.ledger) + 1
  {
    ChangesOfPrefix(base.ledger, t.event);
    FitsCommit(base.ledger, base.revisions, t.event, t.state);
  }

  lemma AppendConsistent(base: Disk, e: Event)
    requires Consistent(base) && base.state.Some?
    requires e.sequence == |base.ledger| + 1 && !ChangesState(e.kind)
    ensures Consistent(base.(ledger := base.ledger + [e]))
  {
    ChangesOfPrefix(base.ledger, e);
    FitsAppend(base.ledger, base.revisions, e);
  }

  lemma TxnAdmissible(d: Disk, op: Op)
    requires Consistent(d)
    requires op.Init? || op.CommitState? || op.RollbackTo? || op.ApplyRecovery?
    requires TxnOf(d, op).Ok?
    ensures Admissible(d, TxnOf(d, op).value)
    ensures BodyProgram(d, op) == Program(TxnWrites(TxnOf(d, op).value), None)
  {
  }

  /** The atomic specification keeps the four files consistent. */
  lemma SpecConsistent(d: Disk, op: Op)
    requires Consistent(d) && WellKinded(op)
    ensures Consistent(SpecStep(d, op))
  {
    match op
    case Load =>
    case Append(kind, text, now) =>
      if d.state.Some? {
        AppendConsistent(d, NextEvent(d, kind, Note(text), now));
      }
    case _ =>
      if TxnOf(d, op).Ok? {
        TxnAdmissible(d, op);
        CommitConsistent(d, TxnOf(d, op).value);
      }
  }

  // ---------------------------------------------------------------- one command, any crash point

  /**
   A command takes effect exactly when its process outlives the recovery it starts with
   by at least one durable write: from then on only completion is possible.
   */
  predicate TakesEffect(d: Disk, budget: nat) {
    |RecoverProgram(d).writes| < budget
  }

  lemma SettledAtStage(d: Disk, base: Disk, k: nat)
    requires IsStage(d, base, k)
    ensures RecoverProgram(d).exit.None? && Settled(d) == Committed(base, d.txn.value)
  {
    RecoverAtStage(d, base, k);
    var ws := Remaining(d.txn.value, k);
    PartialRecovery(d, base, k, |ws|);
    assert ws[..|ws|] == ws;
  }

  lemma SettledIs(d: Disk)
    requires Sound(d)
    ensures RecoverProgram(d).exit.None?
    ensures Consistent(Settled(d))
    ensures Consistent(d) ==> Settled(d) == d && RecoverProgram(d).writes == []
    ensures forall base: Disk, k: nat :: IsStage(d, base, k) ==> Settled(d) == Committed(base, d.txn.value)
  {
    if !Consistent(d) {
      var base: Disk, k: nat :| IsStage(d, base, k);
      SettledAtStage(d, base, k);
      CommitConsistent(base, d.txn.value);
    }
    forall base: Disk, k: nat | IsStage(d, base, k)
      ensures Settled(d) == Committed(base, d.txn.value)
    {
      SettledAtStage(d, base, k);
    }
  }

  /** Recovery that dies part-way changes nothing a later recovery could notice. */
  lemma RecoveryCrash(d: Disk, budget: nat)
    requires Sound(d)
    ensures var r := Execute(d, RecoverProgram(d), budget);
            && Sound(r.disk)
            && Settled(r.disk) == Settled(d)
            && (r.end == Done <==> |RecoverProgram(d).writes| <= budget)
            && (r.end == Done ==> r.disk == Settled(d))
            && (r.end != Done ==> r.end == Crashed)
  {
    SettledIs(d);
    var p := RecoverProgram(d);
    if |p.writes| <= budget {
      SettledIs(Settled(d));
    } else {
      var base: Disk, k: nat :| IsStage(d, base, k);
      RecoverAtStage(d, base, k);
      PartialRecovery(d, base, k, budget);
      var r := ApplyAll(d, p.writes[..budget]);
      assert IsStage(r, base, if k == 4 then 4 else k + budget);
      SettledIs(r);
    }
  }

  /** A transaction that dies after `budget` of its five writes. */
  lemma TransactionCrash(d: Disk, t: Txn, budget: nat)
    requires Consistent(d) && Admissible(d, t)
    ensures var r := Execute(d, Program(TxnWrites(t), None), budget);
            && Sound(r.disk)
            && Settled(r.disk) == (if 0 < budget then Committed(d, t) else d)
            && !r.end.Exited?
            && (r.end == Done ==> r.disk == Committed(d, t))
  {
    StageExplicit(d, t);
    assert TxnWrites(t)[..5] == TxnWrites(t);
    var r := Execute(d, Program(TxnWrites(t), None), budget);
    if 5 <= budget {
      CommitConsistent(d, t);
      SettledIs(Committed(d, t));
    } else {
      assert r.disk == Stage(d, t, budget);
      if budget == 0 {
        SettledIs(d);
      } else {
        assert IsStage(r.disk, d, budget);
        SettledIs(r.disk);
      }
    }
  }

  /** The same for any command's own writes, started with nothing pending. */
  lemma BodyCrash(d: Disk, op: Op, budget: nat)
    requires Consistent(d) && WellKinded(op)
    ensures var r := Execute(d, BodyProgram(d, op), budget);
            && Sound(r.disk)
            && Settled(r.disk) == (if 0 < budget then SpecStep(d, op) else d)
            && (r.end == Done ==> r.disk == SpecStep(d, op))
            && (r.end.Exited? ==> r.disk == d == SpecStep(d, op)
                                  && r.end.reason != TransactionConflict && r.end.reason != RevisionConflict)
  {
    SettledIs(d);
    if op.Load? {
    } else if op.Append? {
      var p := BodyProgram(d, op);
      SpecConsistent(d, op);
      SettledIs(SpecStep(d, op));
      assert d.state.Some? ==> p.writes[..0] == [];
    } else if TxnOf(d, op).Ok? {
      TxnAdmissible(d, op);
      TransactionCrash(d, TxnOf(d, op).value, budget);
    }
  }

  /**
   Crash atomicity. Whatever a crash left behind and wherever the next one falls,
   the disk means either the state before the command or the state after the whole
   of it; the two conflict exits cannot be taken; a command that reports success is
   on disk completely, and one that refuses has changed nothing.
   */
  lemma CrashAtomicity(d: Disk, op: Op, budget: nat)
    requires Sound(d) && WellKinded(op)
    ensures var r := Attempt(d, op, budget);
            && Sound(r.disk)
            && Settled(r.disk) == (if TakesEffect(d, budget) then SpecStep(Settled(d), op) else Settled(d))
            && (r.end == Done ==> r.disk == SpecStep(Settled(d), op) && Consistent(r.disk))
            && (r.end.Exited? ==> r.disk == Settled(d) == SpecStep(Settled(d), op)
                                  && r.end.reason != TransactionConflict && r.end.reason != RevisionConflict)
  {
    RecoveryCrash(d, budget);
    SettledIs(d);
    var p := RecoverProgram(d);
    if |p.writes| <= budget {
      BodyCrash(Settled(d), op, budget - |p.writes|);
      SpecConsistent(Settled(d), op);
    }
  }

  // ---------------------------------------------------------------- whole histories

  /** One invocation: the command, and how many durable writes its process lives through. */
  datatype Invocation = Invocation(op: Op, budget: nat)

  function Play(d: Disk, script: seq<Invocation>): Disk
    decreases |script|
  {
    if script == [] then d
    else
      var last := script[|script| - 1];
      Attempt(Play(d, script[..|script| - 1]), last.op, last.budget).disk
  }

  /** The commands of a history that took effect, in order. */
  function Effective(d: Disk, script: seq<Invocation>): seq<Op>
    decreases |script|
  {
    if script == [] then []
    else
      var before := script[..|script| - 1];
      var last := script[|script| - 1];
      Effective(d, before) + if TakesEffect(Play(d, before), last.budget) then [last.op] else []
  }

  function SpecPlay(d: Disk, ops: seq<Op>): Disk
    decreases |ops|
  {
    if ops == [] then d else SpecStep(SpecPlay(d, ops[..|ops| - 1]), ops[|ops| - 1])
  }

  ghost predicate WellKindedScript(script: seq<Invocation>) {
    forall i :: 0 <= i < |script| ==> WellKinded(script[i].op)
  }

  lemma SpecPlayNext(ops: seq<Op>, op: Op)
    ensures SpecPlay(EMPTY, ops + [op]) == SpecStep(SpecPlay(EMPTY, ops), op)
  {
    assert (ops + [op])[..|ops|] == ops;
  }

  /** A task directory with any history of crashes is, after recovery, the crash-free run of the effective commands. */
  lemma {:induction false} HistoryRefinesSpec(script: seq<Invocation>)
    requires WellKindedScript(script)
    ensures Sound(Play(EMPTY, script))
    ensures Settled(Play(EMPTY, script)) == SpecPlay(EMPTY, Effective(EMPTY, script))
    ensures Consistent(SpecPlay(EMPTY, Effective(EMPTY, script)))
  {
    if script == [] {
      assert Consistent(EMPTY);
      SettledIs(EMPTY);
    } else {
      var before := script[..|script| - 1];
      var last := script[|script| - 1];
      HistoryRefinesSpec(before);
      CrashAtomicity(Play(EMPTY, before), last.op, last.budget);
      SpecPlayNext(Effective(EMPTY, before), last.op);
      SpecConsistent(SpecPlay(EMPTY, Effective(EMPTY, before)), last.op);
      if !TakesEffect(Play(EMPTY, before), last.budget) {
        assert Effective(EMPTY, script) == Effective(EMPTY, before);
      }
    }
  }

  /** A command that reported success is among the effective ones, so no later crash can lose it. */
  lemma SuccessIsEffective(script: seq<Invocation>, last: Invocation)
    requires WellKindedScript(script + [last])
    requires Attempt(Play(EMPTY, script), last.op, last.budget).end == Done
    ensures Settled(Play(EMPTY, script + [last])) == SpecStep(SpecPlay(EMPTY, Effective(EMPTY, script)), last.op)
  {
    assert (script + [last])[..|script|] == script;
    assert WellKinded((script + [last])[|script|].op);
    assert forall i :: 0 <= i < |script| ==> script[i] == (script + [last])[i];
    HistoryRefinesSpec(script);
    CrashAtomicity(Play(EMPTY, script), last.op, last.budget);
    SettledIs(Play(EMPTY, script + [last]));
  }

  // ---------------------------------------------------------------- conservation

  /** `later` keeps every record and every revision file of `earlier`. */
  ghost predicate Extends(earlier: Disk, later: Disk) {
    && |earlier.ledger| <= |later.ledger|
    && later.ledger[..|earlier.ledger|] == earlier.ledger
    && forall k: nat :: k in earlier.revisions ==> k in later.revisions && later.revisions[k] == earlier.revisions[k]
  }

  lemma SpecExtends(d: Disk, op: Op)
    requires Consistent(d)
    ensures Extends(d, SpecStep(d, op))
  {
  }

  /** Over any history and any crashes, recovered records and revisions are never lost or rewritten. */
  lemma {:induction false} HistoryExtends(script: seq<Invocation>, upTo: nat)
    requires WellKindedScript(script) && upTo <= |script|
    ensures Extends(Settled(Play(EMPTY, script[..upTo])), Settled(Play(EMPTY, script)))
    decreases |script|
  {
    if upTo == |script| {
      assert script[..upTo] == script;
    } else {
      var before := script[..|script| - 1];
      var last := script[|script| - 1];
      HistoryExtends(before, upTo);
      assert before[..upTo] == script[..upTo];
      HistoryRefinesSpec(before);
      CrashAtomicity(Play(EMPTY, before), last.op, last.budget);
      SettledIs(Play(EMPTY, before));
      SpecExtends(Settled(Play(EMPTY, before)), last.op);
    }
  }

  /** A rollback writes the old content under a new number, after every revision that existed. */
  lemma RollbackRestores(d: Disk, source: int, now: nat)
    requires Consistent(d)
    ensures var n := StateChanges(d.ledger);
            var after := SpecStep(d, RollbackTo(source, now));
            if 1 <= source <= n then
              && after.state.Some?
              && after.state.value.content == d.revisions[source].content
              && after.state.value.revision == n + 1
              && after.revisions == d.revisions[n + 1 := after.state.value]
              && after.ledger == d.ledger + [Event(|d.ledger| + 1, now, Rollback, Restored(source, n + 1))]
            else after == d
  {
  }

  lemma {:induction false} AfterEffect(script: seq<Invocation>, i: nat)
    requires WellKindedScript(script) && i < |script|
    requires TakesEffect(Play(EMPTY, script[..i]), script[i].budget)
    ensures Consistent(Settled(Play(EMPTY, script[..i])))
    ensures Settled(Play(EMPTY, script[..i + 1])) == SpecStep(Settled(Play(EMPTY, script[..i])), script[i].op)
  {
    HistoryRefinesSpec(script[..i]);
    CrashAtomicity(Play(EMPTY, script[..i]), script[i].op, script[i].budget);
    assert script[..i + 1][..i] == script[..i];
  }

  /** `final` holds revision `source` and, with the same content, the revision after the n of `before`. */
  ghost predicate KeepsRestored(before: Disk, source: nat, final: Disk)
    requires source in before.revisions
  {
    var n := StateChanges(before.ledger) + 1;
    && n in final.revisions && source in final.revisions
    && final.revisions[n].content == final.revisions[source].content == before.revisions[source].content
    && final.revisions[n].revision == n
  }

  lemma RestoredKept(before: Disk, source: nat, now: nat, final: Disk)
    requires Consistent(before) && source in before.revisions
    requires Extends(SpecStep(before, RollbackTo(source, now)), final)
    ensures KeepsRestored(before, source, final)
  {
    RollbackRestores(before, source, now);
    var restored := SpecStep(before, RollbackTo(source, now));
    var n := StateChanges(before.ledger) + 1;
    assert n in restored.revisions && source in restored.revisions;
  }

  /** Whatever happens later, the revision a rollback made keeps the content it restored. */
  lemma {:induction false} RollbackSurvives(script: seq<Invocation>, i: nat, source: nat, now: nat)
    requires WellKindedScript(script) && i < |script| && script[i].op == RollbackTo(source, now)
    requires TakesEffect(Play(EMPTY, script[..i]), script[i].budget)
    requires source in Settled(Play(EMPTY, script[..i])).revisions
    ensures KeepsRestored(Settled(Play(EMPTY, script[..i])), source, Settled(Play(EMPTY, script)))
  {
    AfterEffect(script, i);
    HistoryExtends(script, i + 1);
    RestoredKept(Settled(Play(EMPTY, script[..i])), source, now, Settled(Play(EMPTY, script)));
  }
}

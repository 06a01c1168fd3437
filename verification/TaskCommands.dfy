/**
 The journal commands as cogent.py runs them: statement by statement on the four
 files, in a process that dies after `survives` more durable writes. Every method
 is proved to do exactly what its program in module TaskJournal says.
 */
module TaskCommands {
  import opened Common
  import opened TaskJournal
  import opened TaskJournalEffects

  lemma ApplyOne(d: Disk, w: Write)
    ensures ApplyAll(d, [w]) == Apply(d, w)
  {
    assert [w][..0] == [];
  }

  lemma {:induction false} ApplyConcat(d: Disk, first: seq<Write>, second: seq<Write>)
    ensures ApplyAll(d, first + second) == ApplyAll(ApplyAll(d, first), second)
    decreases |second|
  {
    if second == [] {
      assert first + second == first;
    } else {
      ApplyConcat(d, first, second[..|second| - 1]);
      assert (first + second)[..|first + second| - 1] == first + second[..|second| - 1];
    }
  }

  /** Running two programs one after the other is running their concatenation. */
  lemma ExecuteConcat(d: Disk, first: seq<Write>, second: Program, budget: nat)
    ensures var whole := Execute(d, Program(first + second.writes, second.exit), budget);
            var head := Execute(d, Program(first, None), budget);
            if |first| <= budget
            then head.end == Done && whole == Execute(head.disk, second, budget - |first|)
            else whole == head && head.end == Crashed
  {
    ApplyConcat(d, first, second.writes);
    if |first| <= budget < |first| + |second.writes| {
      assert (first + second.writes)[..budget] == first + second.writes[..budget - |first|];
      ApplyConcat(d, first, second.writes[..budget - |first|]);
    } else if budget < |first| {
      assert (first + second.writes)[..budget] == first[..budget];
    }
  }

  /** A record appended or a transaction noted does not change how a transaction ends. */
  lemma SameFinish(d: Disk, after: Disk, next: TaskState)
    requires after.revisions == d.revisions && after.state == d.state
    ensures FinishProgram(after, next) == FinishProgram(d, next)
  {
  }

  function Left(budget: nat, p: Program): nat {
    if |p.writes| <= budget then budget - |p.writes| else 0
  }

  class TaskFiles {
    var transaction: Option<Txn>
    var ledger: seq<Event>
    var revisions: map<nat, TaskState>
    var state: Option<TaskState>
    var survives: nat

    constructor (survives: nat)
      ensures Files() == EMPTY && this.survives == survives
    {
      transaction, ledger, revisions, state := None, [], map[], None;
      this.survives := survives;
    }

    function Files(): Disk
      reads this
    {
      Disk(transaction, ledger, revisions, state)
    }

    /** One durable write, or the end of the process. */
    method Persist(w: Write) returns (end: End)
      modifies this
      ensures var o := Execute(old(Files()), Program([w], None), old(survives));
              Files() == o.disk && end == o.end && survives == Left(old(survives), Program([w], None))
    {
      ApplyOne(Files(), w);
      assert [w][..0] == [];
      if survives == 0 {
        return Crashed;
      }
      survives := survives - 1;
      match w {
        case PutTxn(t) => transaction := Some(t);
        case AppendLine(e) => ledger := ledger + [e];
        case PutRevision(s) => revisions := revisions[s.revision := s];
        case PutState(s) => state := Some(s);
        case DropTxn => transaction := None;
      }
      return Done;
    }

    method WriteRevision(s: TaskState) returns (end: End)
      modifies this
      ensures var p := RevisionProgram(old(Files()), s);
              var o := Execute(old(Files()), p, old(survives));
              Files() == o.disk && end == o.end && survives == Left(old(survives), p)
    {
      ghost var d, budget := Files(), survives;
      ghost var current := if d.state.None? || d.state.value.revision <= s.revision then [PutState(s)] else [];
      if s.revision in revisions {
        if revisions[s.revision] != s {
          return Exited(RevisionConflict);
        }
        assert [] + current == current;
      } else {
        ExecuteConcat(d, [PutRevision(s)], Program(current, None), budget);
        ApplyOne(d, PutRevision(s));
        assert RevisionProgram(d, s) == Program([PutRevision(s)] + current, None);
        end := Persist(PutRevision(s));
        if end != Done {
          return;
        }
      }
      end := Done;
      if state.None? || state.value.revision <= s.revision {
        end := Persist(PutState(s));
      }
    }

    /** write_revision and the unlink that end a transaction. */
    method FinishPending(next: TaskState) returns (end: End)
      modifies this
      ensures var p := FinishProgram(old(Files()), next);
              var o := Execute(old(Files()), p, old(survives));
              Files() == o.disk && end == o.end && survives == Left(old(survives), p)
    {
      ghost var d, budget := Files(), survives;
      ghost var rest := RevisionProgram(d, next);
      if rest.exit.None? {
        ExecuteConcat(d, rest.writes, Program([DropTxn], None), budget);
      }
      end := WriteRevision(next);
      if end != Done {
        return;
      }
      end := Persist(DropTxn);
    }

    method RecoverPending() returns (end: End)
      modifies this
      ensures var p := RecoverProgram(old(Files()));
              var o := Execute(old(Files()), p, old(survives));
              Files() == o.disk && end == o.end && survives == Left(old(survives), p)
    {
      if transaction.None? {
        return Done;
      }
      ghost var d, budget := Files(), survives;
      var Txn(event, next) := transaction.value;
      if |ledger| < event.sequence {
        ExecuteConcat(d, [AppendLine(event)], FinishProgram(d, next), budget);
        ApplyOne(d, AppendLine(event));
        end := Persist(AppendLine(event));
        if end != Done {
          return;
        }
        SameFinish(d, Files(), next);
      } else if ledger[event.sequence - 1] != event {
        return Exited(TransactionConflict);
      } else {
        assert [] + FinishProgram(d, next).writes == FinishProgram(d, next).writes;
      }
      end := FinishPending(next);
    }

    method TransactionalState(event: Event, next: TaskState) returns (end: End)
      modifies this
      ensures var p := TransactionProgram(old(Files()), Txn(event, next));
              var o := Execute(old(Files()), p, old(survives));
              Files() == o.disk && end == o.end && survives == Left(old(survives), p)
    {
      ghost var d, budget := Files(), survives;
      var t := Txn(event, next);
      ghost var tail := FinishProgram(d, next);
      ghost var lines := Program([AppendLine(event)] + tail.writes, tail.exit);
      assert [PutTxn(t)] + lines.writes == TransactionProgram(d, t).writes;
      ExecuteConcat(d, [PutTxn(t)], lines, budget);
      ApplyOne(d, PutTxn(t));
      end := Persist(PutTxn(t));
      if end != Done {
        return;
      }
      ghost var d1 := Files();
      ExecuteConcat(d1, [AppendLine(event)], tail, survives);
      ApplyOne(d1, AppendLine(event));
      end := Persist(AppendLine(event));
      if end != Done {
        return;
      }
      SameFinish(d, Files(), next);
      end := FinishPending(next);
    }

    /** load_state: recover and read. */
    method LoadState() returns (end: End, shown: Option<TaskState>)
      modifies this
      ensures var o := Attempt(old(Files()), Load, old(survives));
              Files() == o.disk && end == o.end && (end == Done ==> shown == state)
    {
      shown := None;
      end := RecoverPending();
      if end == Done {
        shown := state;
      }
    }

    method AppendEvent(kind: Kind, text: string, now: nat) returns (end: End)
      modifies this
      ensures var o := Attempt(old(Files()), Append(kind, text, now), old(survives));
              Files() == o.disk && end == o.end
      ensures Sound(old(Files())) && !ChangesState(kind) ==> Appends(Settled(old(Files())), Outcome(Files(), end), kind, text, now)
    {
      AppendWrites(Files(), kind, text, now, survives);
      end := RecoverPending();
      if end != Done {
        return;
      }
      if state.None? {
        return Exited(NotInitialized);
      }
      end := Persist(AppendLine(Event(|ledger| + 1, now, kind, Note(text))));
    }

    method TaskInit(content: string, now: nat) returns (end: End)
      modifies this
      ensures var o := Attempt(old(Files()), Init(content, now), old(survives));
              Files() == o.disk && end == o.end
      ensures Sound(old(Files())) ==> Initialises(Settled(old(Files())), Outcome(Files(), end), content, now)
    {
      InitWrites(Files(), content, now, survives);
      end := RecoverPending();
      if end != Done {
        return;
      }
      if state.Some? || ledger != [] {
        return Exited(AlreadyExists);
      }
      var first := TaskState(2, 1, 1, now, content);
      end := TransactionalState(Event(|ledger| + 1, now, Intent, Note("Task initialized")), first);
    }

    /** `admitted` is the verdict of the completion evidence check. */
    method StateCommit(content: string, admitted: bool, now: nat) returns (end: End)
      modifies this
      ensures var o := Attempt(old(Files()), CommitState(content, admitted, now), old(survives));
              Files() == o.disk && end == o.end
      ensures Sound(old(Files())) ==> Writes(Settled(old(Files())), Outcome(Files(), end), Commit, 2, content, admitted, now)
    {
      CommitWrites(Files(), content, admitted, now, survives);
      end := RecoverPending();
      if end != Done {
        return;
      }
      if state.None? {
        return Exited(MissingState);
      }
      if !admitted {
        return Exited(Refused);
      }
      var n := state.value.revision + 1;
      var event := Event(|ledger| + 1, now, Commit, NewRevision(n));
      end := TransactionalState(event, TaskState(2, n, event.sequence, now, content));
    }

    method StateRollback(source: int, now: nat) returns (end: End)
      modifies this
      ensures var o := Attempt(old(Files()), RollbackTo(source, now), old(survives));
              Files() == o.disk && end == o.end
      ensures Sound(old(Files())) ==> RollsBack(Settled(old(Files())), Outcome(Files(), end), source, now)
    {
      RollbackWrites(Files(), source, now, survives);
      end := RecoverPending();
      if end != Done {
        return;
      }
      if source < 0 || source !in revisions {
        return Exited(MissingRevision);
      }
      if state.None? {
        return Exited(MissingState);
      }
      var n := state.value.revision + 1;
      var event := Event(|ledger| + 1, now, Rollback, Restored(source, n));
      end := TransactionalState(event, TaskState(2, n, event.sequence, now, revisions[source].content));
    }

    /** The locked part of recover_cmd; `admitted` says that apply_to_state accepted the plan. */
    method RecoverApply(content: string, admitted: bool, now: nat) returns (end: End)
      modifies this
      ensures var o := Attempt(old(Files()), ApplyRecovery(content, admitted, now), old(survives));
              Files() == o.disk && end == o.end
      ensures Sound(old(Files())) ==> Writes(Settled(old(Files())), Outcome(Files(), end), Recovery, 3, content, admitted, now)
    {
      RecoveryWrites(Files(), content, admitted, now, survives);
      end := RecoverPending();
      if end != Done {
        return;
      }
      if state.None? {
        return Exited(MissingState);
      }
      if !admitted {
        return Exited(Refused);
      }
      var n := state.value.revision + 1;
      var event := Event(|ledger| + 1, now, Recovery, NewRevision(n));
      end := TransactionalState(event, TaskState(3, n, event.sequence, now, content));
    }
  }
}

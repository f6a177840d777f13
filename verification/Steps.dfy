/** Every step keeps the locks and the files right. */
module Steps {
  import opened Wrappers
  import opened Sequences
  import opened Decoder
  import opened Batch
  import opened Pipeline
  import opened Locks
  import opened Files

  ghost predicate Safe(c: Config, s: State) {
    LocksRight(s) && FilesRight(c, s)
  }

  // ---------- locks ----------

  lemma BeginKeepsLocks(c: Config, s: State, i: nat, fl: seq<string>)
    requires i < |s.parsers| && AllWellNamed(fl) && s.parsers[i].pc.Idle? && LocksRight(s)
    ensures LocksRight(BeginStep(c, s, i, fl))
  {
    hide LocksRight, OthersHold, Convert, BatchItems;
    var s' := BeginStep(c, s, i, fl);
    PutHolds(s, s', i, s'.parsers[i]);
    LocksUnmoved(s, s', P(i));
  }

  lemma AcquireKeepsLocks(s: State, i: nat, t: string)
    requires i < |s.parsers| && s.parsers[i].pc == Acquire(t) && LocksRight(s)
    ensures LocksRight(AcquireStep(s, i, t))
  {
    hide LocksRight, OthersHold;
    var s' := AcquireStep(s, i, t);
    if s' != s {
      PutHolds(s, s', i, s'.parsers[i]);
      LockTaken(s, s', P(i), FileName(t));
    }
  }

  lemma ReleaseKeepsLocks(s: State, i: nat, t: string)
    requires i < |s.parsers| && s.parsers[i].pc == Release(t) && LocksRight(s)
    ensures LocksRight(ReleaseStep(s, i, t))
  {
    hide LocksRight, OthersHold;
    var s' := ReleaseStep(s, i, t);
    PutHolds(s, s', i, s'.parsers[i]);
    LockFreed(s, s', P(i), FileName(t));
  }

  /** Any other step of a parser keeps it inside or outside of its critical section. */
  lemma StayKeepsLocks(s: State, s': State, i: nat, p: Parser)
    requires i < |s.parsers| && LocksRight(s)
    requires s'.parsers == s.parsers[i := p] && s'.dbpc == s.dbpc
    requires ParserHolds(p.pc) == ParserHolds(s.parsers[i].pc)
    requires forall l :: HasLock(s', l) <==> HasLock(s, l)
    ensures LocksRight(s')
  {
    hide LocksRight, OthersHold;
    PutHolds(s, s', i, p);
    LocksUnmoved(s, s', P(i));
  }

  lemma WantKeepsLocks(s: State, n: string)
    requires s.dbpc == Want(n) && LocksRight(s)
    ensures LocksRight(WantStep(s, n))
  {
    hide LocksRight, OthersHold;
    var s' := WantStep(s, n);
    DbHoldsOnly(s, s');
    if s' != s {
      LockTaken(s, s', Db, n);
    }
  }

  lemma LeaveKeepsLocks(s: State, n: string)
    requires s.dbpc == Leave(n) && LocksRight(s)
    ensures LocksRight(LeaveStep(s, n))
  {
    hide LocksRight, OthersHold;
    var s' := LeaveStep(s, n);
    DbHoldsOnly(s, s');
    LockFreed(s, s', Db, n);
  }

  /** Any other step of the database process keeps it inside or outside of its critical section. */
  lemma StayKeepsLocksDb(s: State, s': State)
    requires LocksRight(s) && s'.parsers == s.parsers && DbHolds(s'.dbpc) == DbHolds(s.dbpc)
    requires forall l :: HasLock(s', l) <==> HasLock(s, l)
    ensures LocksRight(s')
  {
    hide LocksRight, OthersHold;
    DbHoldsOnly(s, s');
    LocksUnmoved(s, s', Db);
  }

  // ---------- files ----------

  lemma BeginKeepsFiles(c: Config, s: State, i: nat, fl: seq<string>)
    requires i < |s.parsers| && AllWellNamed(fl) && s.parsers[i].pc.Idle? && FilesRight(c, s)
    ensures FilesRight(c, BeginStep(c, s, i, fl))
  {
    hide FilesRight, Complete, BatchItems, Convert;
    var s' := BeginStep(c, s, i, fl);
    OneParserOk(c, s, i);
    if Convert(c.env, fl, s.csv).Some? {
      var groups := Convert(c.env, fl, s.csv).value;
      forall t | t in groups
        ensures Stem(t) && GroupOk(t, groups[t])
      {
        ConvertGroupsOk(c.env, fl, s.csv, t);
      }
    }
    FilesUnmoved(c, s, s', i, s'.parsers[i]);
  }

  lemma OneParserOk(c: Config, s: State, i: nat)
    requires FilesRight(c, s) && i < |s.parsers|
    ensures ParserOk(c, s, s.parsers[i])
  {
  }

  lemma FileNamesOk(c: Config, s: State, file: string)
    requires FilesRight(c, s) && HasFile(s, file)
    ensures SqlName(file)
  {
  }

  lemma AcquireKeepsFiles(c: Config, s: State, i: nat, t: string)
    requires i < |s.parsers| && s.parsers[i].pc == Acquire(t) && FilesRight(c, s)
    ensures FilesRight(c, AcquireStep(s, i, t))
  {
    hide FilesRight, Complete, TodoOk;
    var s' := AcquireStep(s, i, t);
    OneParserOk(c, s, i);
    if s' != s {
      FilesUnmoved(c, s, s', i, s'.parsers[i]);
    }
  }

  /** An sql file name is never the name of a lock directory. */
  lemma NoSqlLock(s: State, file: string)
    requires LocksRight(s) && SqlName(file)
    ensures !HasLock(s, file) && (file in s.work <==> HasFile(s, file))
  {
  }

  lemma OpenKeepsFiles(c: Config, s: State, i: nat, t: string, create: bool)
    requires i < |s.parsers| && s.parsers[i].pc == Open(t, create) && Safe(c, s) && t in s.parsers[i].todo
    ensures FilesRight(c, OpenStep(c, s, i, t, create))
  {
    hide FilesRight, LocksRight, Complete, GroupOk, Statements, SqlName;
    var s', file := OpenStep(c, s, i, t, create), FileName(t);
    var p := s.parsers[i];
    OneParserOk(c, s, i);
    StemName(t);
    NoSqlLock(s, file);
    HolderWrites(s, P(i), file);
    FreeFileComplete(c, s, file);
    CompleteAppend(c, t, Content(s.work, file), create, p.todo[t]);
    FilesOfOthers(c, s, s', i, s'.parsers[i], file);
  }

  lemma FreeFileComplete(c: Config, s: State, file: string)
    requires FilesRight(c, s) && !BeingWritten(s, file)
    ensures if HasFile(s, file) then Complete(c, StemOf(file), Content(s.work, file)) else Content(s.work, file) == []
  {
  }

  lemma WriteKeepsFiles(c: Config, s: State, i: nat, t: string, queue: seq<Stmt>)
    requires i < |s.parsers| && s.parsers[i].pc == Write(t, queue) && Safe(c, s) && queue != []
    ensures HasFile(s, FileName(t)) && FilesRight(c, WriteStep(s, i, t, queue))
  {
    hide FilesRight, LocksRight, Complete, TodoOk, SqlName;
    var file := FileName(t);
    OneParserOk(c, s, i);
    StemName(t);
    var s' := WriteStep(s, i, t, queue);
    var stmts := Content(s.work, file);
    assert (stmts + [queue[0]]) + queue[1..] == stmts + queue;
    FilesOfOthers(c, s, s', i, s'.parsers[i], file);
  }

  lemma CloseKeepsFiles(c: Config, s: State, i: nat, t: string)
    requires i < |s.parsers| && s.parsers[i].pc == Write(t, []) && Safe(c, s)
    ensures FilesRight(c, Goto(s, i, Release(t)))
  {
    hide FilesRight, LocksRight, Complete, TodoOk, SqlName;
    var file := FileName(t);
    OneParserOk(c, s, i);
    StemName(t);
    RightUnit(Content(s.work, file));
    var s' := Goto(s, i, Release(t));
    FilesOfOthers(c, s, s', i, s'.parsers[i], file);
  }

  lemma ReleaseKeepsFiles(c: Config, s: State, i: nat, t: string)
    requires i < |s.parsers| && s.parsers[i].pc == Release(t) && Safe(c, s)
    ensures FilesRight(c, ReleaseStep(s, i, t))
  {
    hide FilesRight, Complete, TodoOk;
    var s' := ReleaseStep(s, i, t);
    OneParserOk(c, s, i);
    assert HasLock(s, LockName(FileName(t))) by {
      assert Holds(s, P(i)) == Some(FileName(t));
    }
    FilesUnmoved(c, s, s', i, s'.parsers[i]);
  }
}

/** Where every appended statement is: the account of each sql file over a whole run. */
module Ledger {
  import opened Wrappers
  import opened Sequences
  import opened Pipeline
  import opened Locks
  import opened Files
  import opened Execution

  /** The statements of the generations of a file, in order. */
  function RetiredStmts(gens: seq<Generation>): seq<Stmt> {
    if gens == [] then [] else RetiredStmts(gens[..|gens| - 1]) + gens[|gens| - 1].stmts
  }

  /** How much of a generation was executed. */
  function ExecutedPart(g: Generation): seq<Stmt> {
    match g
    case Drained(stmts) => stmts
    case Moved(stmts, upTo, _) => if upTo <= |stmts| then stmts[..upTo] else stmts
  }

  function RetiredExecuted(gens: seq<Generation>): seq<Stmt> {
    if gens == [] then [] else RetiredExecuted(gens[..|gens| - 1]) + ExecutedPart(gens[|gens| - 1])
  }

  /** The executed statements of the file in hand. */
  function InHand(s: State, file: string): seq<Stmt> {
    var stmts := Content(s.work, file);
    match s.dbpc
    case Read(n, pos) => if n == file && pos <= |stmts| then stmts[..pos] else []
    case Probe(n, pos, _) => if n == file && pos <= |stmts| then stmts[..pos] else []
    case Rename(n, pos, _) => if n == file && pos <= |stmts| then stmts[..pos] else []
    case Unlink(n) => if n == file then stmts else []
    case _ => []
  }

  /**
   * The books balance, file by file and in order: what was ever appended is what the
   * retired generations hold plus what is in the file now; what was ever executed is
   * the executed parts of the generations plus the executed part of the file in hand.
   */
  ghost predicate Balanced(s: State, file: string) {
    && Get(s.hist.appended, file) == RetiredStmts(Get(s.hist.retired, file)) + Content(s.work, file)
    && Get(s.hist.executed, file) == RetiredExecuted(Get(s.hist.retired, file)) + InHand(s, file)
  }

  /** Generation `k` of `file` was moved to the error directory, and its destination holds it. */
  predicate KeptInError(s: State, g: Generation) {
    g.Moved? ==> g.dest in s.err && s.err[g.dest] == g.stmts && g.upTo < |g.stmts|
  }

  /** Two moved generations went to different files. */
  predicate DifferentErrors(a: Generation, b: Generation) {
    a.Moved? && b.Moved? ==> a.dest != b.dest
  }

  ghost predicate ErrorsRight(s: State) {
    && (forall file, k :: 0 <= k < |Get(s.hist.retired, file)| ==> KeptInError(s, Get(s.hist.retired, file)[k]))
    && (forall f, j, g, k :: 0 <= j < |Get(s.hist.retired, f)| && 0 <= k < |Get(s.hist.retired, g)| && (f, j) != (g, k) ==>
          DifferentErrors(Get(s.hist.retired, f)[j], Get(s.hist.retired, g)[k]))
  }

  ghost predicate LedgerRight(s: State) {
    (forall file :: Balanced(s, file)) && ErrorsRight(s)
  }

  lemma {:induction false} RetiredSnoc(gens: seq<Generation>, g: Generation)
    ensures RetiredStmts(gens + [g]) == RetiredStmts(gens) + g.stmts
    ensures RetiredExecuted(gens + [g]) == RetiredExecuted(gens) + ExecutedPart(g)
  {
    assert (gens + [g])[..|gens|] == gens;
  }

  /** Nothing is lost: where a statement that was appended to `file` is now. */
  datatype Place =
    | InFile(pos: nat)
    | InDatabase(at: nat)
    | InErrorFile(gen: nat, pos: nat)

  /** It waits in its file, it was executed and is in effect, or it is in a file of the error directory. */
  ghost predicate IsAt(s: State, file: string, stmt: Stmt, p: Place) {
    var gens := Get(s.hist.retired, file);
    match p
    case InFile(pos) => pos < |Content(s.work, file)| && Content(s.work, file)[pos] == stmt
    case InDatabase(at) =>
      at < |Get(s.hist.executed, file)| && Get(s.hist.executed, file)[at] == stmt && InEffect(s.db, stmt)
    case InErrorFile(gen, pos) =>
      gen < |gens| && gens[gen].Moved? && gens[gen].dest in s.err
      && pos < |s.err[gens[gen].dest]| && s.err[gens[gen].dest][pos] == stmt
  }

  lemma {:induction false} FindRetired(gens: seq<Generation>, k: nat) returns (g: nat, pos: nat)
    requires k < |RetiredStmts(gens)|
    ensures g < |gens| && pos < |gens[g].stmts| && gens[g].stmts[pos] == RetiredStmts(gens)[k]
  {
    var before := RetiredStmts(gens[..|gens| - 1]);
    if k < |before| {
      g, pos := FindRetired(gens[..|gens| - 1], k);
    } else {
      g, pos := |gens| - 1, k - |before|;
    }
  }

  /** All of a drained generation was executed. */
  lemma {:induction false} FindExecuted(gens: seq<Generation>, g: nat, pos: nat) returns (at: nat)
    requires g < |gens| && gens[g].Drained? && pos < |gens[g].stmts|
    ensures at < |RetiredExecuted(gens)| && RetiredExecuted(gens)[at] == gens[g].stmts[pos]
  {
    if g < |gens| - 1 {
      at := FindExecuted(gens[..|gens| - 1], g, pos);
    } else {
      at := |RetiredExecuted(gens[..|gens| - 1])| + pos;
    }
  }

  lemma NothingLost(s: State, file: string, k: nat) returns (p: Place)
    requires LedgerRight(s) && EffectsRight(s) && k < |Get(s.hist.appended, file)|
    ensures IsAt(s, file, Get(s.hist.appended, file)[k], p)
  {
    hide InEffect, RetiredExecuted, InHand;
    var gens := Get(s.hist.retired, file);
    var gone := RetiredStmts(gens);
    assert Balanced(s, file);
    if k < |gone| {
      var g, pos := FindRetired(gens, k);
      assert KeptInError(s, gens[g]);
      if gens[g].Drained? {
        var at := FindExecuted(gens, g, pos);
        assert AllInEffect(s.db, Get(s.hist.executed, file));
        p := InDatabase(at);
      } else {
        p := InErrorFile(g, pos);
      }
    } else {
      p := InFile(k - |gone|);
    }
  }

  // ---------- the steps that write into the books ----------

  lemma WriteKeepsLedger(c: Config, s: State, i: nat, t: string, queue: seq<Stmt>)
    requires i < |s.parsers| && s.parsers[i].pc == Write(t, queue) && queue != [] && HasFile(s, FileName(t))
    requires LocksRight(s) && LedgerRight(s)
    ensures LedgerRight(WriteStep(s, i, t, queue))
  {
    hide LocksRight, RetiredStmts, RetiredExecuted, InHand, ErrorsRight;
    var s', mine := WriteStep(s, i, t, queue), FileName(t);
    forall file
      ensures Balanced(s', file)
    {
      assert Balanced(s, file);
      WriteLeavesHand(s, i, t, queue, file);
      if file == mine {
        Associative(RetiredStmts(Get(s.hist.retired, file)), Content(s.work, file), [queue[0]]);
      }
    }
    SameErrors(s, s');
  }

  lemma WriteLeavesHand(s: State, i: nat, t: string, queue: seq<Stmt>, file: string)
    requires i < |s.parsers| && s.parsers[i].pc == Write(t, queue) && queue != [] && HasFile(s, FileName(t))
    requires LocksRight(s)
    ensures InHand(WriteStep(s, i, t, queue), file) == InHand(s, file)
  {
    hide LocksRight;
    assert Holds(s, P(i)) == Some(FileName(t));
    if Holds(s, Db).Some? {
      AloneWith(s, P(i), Db);
    }
  }

  lemma SameErrors(s: State, s': State)
    requires ErrorsRight(s) && s'.hist.retired == s.hist.retired && s'.err == s.err
    ensures ErrorsRight(s')
  {
    forall file, k | 0 <= k < |Get(s'.hist.retired, file)|
      ensures KeptInError(s', Get(s'.hist.retired, file)[k])
    {
      assert KeptInError(s, Get(s.hist.retired, file)[k]);
    }
  }

  /** Steps that neither append nor retire nor execute. */
  lemma LedgerUnmoved(s: State, s': State)
    requires LedgerRight(s) && s'.err == s.err
    requires forall file :: Content(s'.work, file) == Content(s.work, file)
    requires s'.hist.appended == s.hist.appended && s'.hist.executed == s.hist.executed && s'.hist.retired == s.hist.retired
    requires forall file :: InHand(s', file) == InHand(s, file)
    ensures LedgerRight(s')
  {
    hide RetiredStmts, RetiredExecuted, InHand, Content;
    forall file
      ensures Balanced(s', file)
    {
      assert Balanced(s, file);
    }
    SameErrors(s, s');
  }

  lemma ExecuteKeepsLedger(s: State, n: string, pos: nat)
    requires s.dbpc == Read(n, pos) && HasFile(s, n) && pos < |s.work[n].stmts| && LedgerRight(s)
    ensures LedgerRight(ExecuteStep(s, n, pos))
  {
    hide RetiredStmts, RetiredExecuted, Apply;
    var s', stmts := ExecuteStep(s, n, pos), s.work[n].stmts;
    forall file
      ensures Balanced(s', file)
    {
      assert Balanced(s, file);
      if file == n {
        Prefix(stmts, pos);
        Associative(RetiredExecuted(Get(s.hist.retired, file)), stmts[..pos], [stmts[pos]]);
      }
    }
    SameErrors(s, s');
  }

  /** A generation ends, all of it executed or at a destination that was free. */
  lemma RetireKeepsLedger(s: State, s': State, n: string, g: Generation)
    requires LedgerRight(s) && HasFile(s, n) && g.stmts == s.work[n].stmts
    requires InHand(s, n) == ExecutedPart(g)
    requires if g.Drained? then s'.err == s.err
             else g.dest !in s.err && s'.err == s.err[g.dest := g.stmts] && g.upTo < |g.stmts|
    requires s'.dbpc == Leave(n) && SameFiles(s, s', n) && !HasFile(s', n)
    requires s.dbpc.Unlink? || s.dbpc.Rename?
    requires s.dbpc.file == n
    requires s'.hist.appended == s.hist.appended && s'.hist.executed == s.hist.executed
    requires s'.hist.retired == s.hist.retired[n := Get(s.hist.retired, n) + [g]]
    ensures LedgerRight(s')
  {
    hide RetiredStmts, RetiredExecuted, ExecutedPart;
    forall file
      ensures Balanced(s', file)
    {
      assert Balanced(s, file);
      if file == n {
        RetiredSnoc(Get(s.hist.retired, n), g);
        RightUnit(RetiredStmts(Get(s'.hist.retired, n)));
        RightUnit(RetiredExecuted(Get(s'.hist.retired, n)));
      }
    }
    RetireKeepsErrors(s, s', n, g);
  }

  lemma RetireKeepsErrors(s: State, s': State, n: string, g: Generation)
    requires ErrorsRight(s)
    requires if g.Drained? then s'.err == s.err
             else g.dest !in s.err && s'.err == s.err[g.dest := g.stmts] && g.upTo < |g.stmts|
    requires s'.hist.retired == s.hist.retired[n := Get(s.hist.retired, n) + [g]]
    ensures ErrorsRight(s')
  {
    var last := |Get(s.hist.retired, n)|;
    forall file, k | 0 <= k < |Get(s'.hist.retired, file)|
      ensures KeptInError(s', Get(s'.hist.retired, file)[k])
      ensures (file, k) != (n, last) ==>
                0 <= k < |Get(s.hist.retired, file)| && Get(s'.hist.retired, file)[k] == Get(s.hist.retired, file)[k]
                && KeptInError(s, Get(s.hist.retired, file)[k])
    {
      if (file, k) != (n, last) {
        assert KeptInError(s, Get(s.hist.retired, file)[k]);
      }
    }
  }
}

/** Who writes CREATE: the writer of a file's first statement, if he has not finished a batch before. */
module CreateFlag {
  import opened Wrappers
  import opened Lists
  import opened Decoder
  import opened Minutes
  import opened Batch
  import opened FreshName
  import opened WorkList
  import opened Pipeline
  import opened Locks
  import opened Files
  import opened Steps
  import opened Invariant
  import opened InvariantDb
  import opened Progress

  /** The statements a parser still has to put decide about CREATE by its flag. */
  predicate FlagOk(c: Config, s: State, p: Parser) {
    match p.pc
    case Open(_, create) => c.oneTable ==> create == p.createTable
    case Write(t, queue) =>
      c.oneTable && queue != [] && Content(s.work, FileName(t)) == [] ==> (queue[0].CreateMain? <==> p.createTable)
    case _ => true
  }

  predicate FlagsRight(c: Config, s: State) {
    forall i :: 0 <= i < |s.parsers| ==> FlagOk(c, s, s.parsers[i])
  }

  /** The file of a process in its critical section changes by its own steps only. */
  lemma HeldContent(c: Config, s: State, e: Event, s': State, i: nat, file: string)
    requires c.procs > 0 && Inv(c, s) && Step(c, s, e) == Some(s') && i < |s.parsers|
    requires Holds(s, P(i)) == Some(file) && Owner(e) != Some(P(i))
    ensures |s'.parsers| == |s.parsers| && s'.parsers[i] == s.parsers[i] && Content(s'.work, file) == Content(s.work, file)
  {
    hide Inv, LocksRight, FilesRight, ParserStep, DbStep;
    SafeParts(c, s);
    match e
    case ParserEvent(j, ch) =>
      ParserFrame(c, s, j, ch, s');
      HandContent(c, s, j, ch, s', P(i), file);
    case DbEvent(ch) =>
      DbFrame(s, ch, s');
      DbLeavesHeld(s, ch, s', i, file);
    case Arrival(_, _) =>
  }

  lemma DbLeavesHeld(s: State, ch: DbChoice, s': State, i: nat, file: string)
    requires LocksRight(s) && DbStep(s, ch) == Some(s') && i < |s.parsers| && Holds(s, P(i)) == Some(file)
    ensures Content(s'.work, file) == Content(s.work, file)
  {
    hide LocksRight, Admissible, Apply, Get, NextName;
    if Holds(s, Db).Some? {
      AloneWith(s, P(i), Db);
    }
    if s.dbpc.Leave? {
      LeaveIsNoFile(s, s.dbpc.file);
    }
  }

  // ---------- steps ----------

  lemma StatementsFlag(c: Config, t: string, create: bool, data: Records)
    ensures Statements(c, t, create, data) != [] && (Statements(c, t, create, data)[0].CreateMain? <==> create)
  {
  }

  predicate Writer(pc: ParserPc) {
    pc.Check? || pc.Open? || pc.Write?
  }

  lemma OwnStepKeepsFlag(c: Config, s: State, i: nat, ch: Choice, s': State)
    requires c.procs > 0 && i < |s.parsers| && ParserStep(c, s, i, ch) == Some(s') && FlagOk(c, s, s.parsers[i])
    ensures |s'.parsers| == |s.parsers| && FlagOk(c, s', s'.parsers[i])
  {
    hide ParserStep, FlagOk, Writer;
    if Writer(s.parsers[i].pc) {
      WriterKeepsFlag(c, s, i, ch, s');
    } else {
      NoWriterYet(c, s, i, ch, s');
    }
  }

  lemma NoWriterYet(c: Config, s: State, i: nat, ch: Choice, s': State)
    requires c.procs > 0 && i < |s.parsers| && ParserStep(c, s, i, ch) == Some(s')
    requires FlagOk(c, s, s.parsers[i]) && !Writer(s.parsers[i].pc)
    ensures |s'.parsers| == |s.parsers| && FlagOk(c, s', s'.parsers[i])
  {
    hide FlagOk, BeginStep, Goto, FinishStep, AcquireStep, CheckStep, OpenStep, WriteStep, ReleaseStep, RemoveStep, RestStep,
      Share, Take, Listing, FileName, AllWellNamed, HasFile, HasLock;
    NoWriterFlag(c, s', s'.parsers[i]);
  }

  lemma NoWriterFlag(c: Config, s: State, p: Parser)
    requires !p.pc.Open? && !p.pc.Write?
    ensures FlagOk(c, s, p)
  {
  }

  lemma WriterKeepsFlag(c: Config, s: State, i: nat, ch: Choice, s': State)
    requires c.procs > 0 && i < |s.parsers| && ParserStep(c, s, i, ch) == Some(s')
    requires FlagOk(c, s, s.parsers[i]) && Writer(s.parsers[i].pc)
    ensures |s'.parsers| == |s.parsers| && FlagOk(c, s', s'.parsers[i])
  {
    hide BeginStep, FinishStep, AcquireStep, ReleaseStep, RemoveStep, RestStep, Statements, Share, Take, Listing, FileName,
      LockName, Get, AllWellNamed, HasLock;
    if s.parsers[i].pc.Open? {
      var t, create := s.parsers[i].pc.t, s.parsers[i].pc.create;
      StatementsFlag(c, t, create, s.parsers[i].todo[t]);
    }
  }

  lemma OthersKeepFlag(c: Config, s: State, e: Event, s': State, i: nat)
    requires c.procs > 0 && Inv(c, s) && Step(c, s, e) == Some(s') && i < |s.parsers| && Owner(e) != Some(P(i))
    requires FlagOk(c, s, s.parsers[i])
    ensures |s'.parsers| == |s.parsers| && FlagOk(c, s', s'.parsers[i])
  {
    hide Inv, Step;
    OthersStay(c, s, e, s', i);
    if Holds(s, P(i)).Some? {
      HeldContent(c, s, e, s', i, Holds(s, P(i)).value);
    }
  }

  lemma OthersStay(c: Config, s: State, e: Event, s': State, i: nat)
    requires c.procs > 0 && Step(c, s, e) == Some(s') && i < |s.parsers| && Owner(e) != Some(P(i))
    ensures |s'.parsers| == |s.parsers| && s'.parsers[i] == s.parsers[i]
  {
    hide ParserStep, DbStep;
    match e
    case ParserEvent(j, ch) => ParserFrame(c, s, j, ch, s');
    case DbEvent(ch) => DbFrame(s, ch, s');
    case Arrival(_, _) =>
  }

  lemma StepKeepsFlags(c: Config, s: State, e: Event, s': State)
    requires c.procs > 0 && Inv(c, s) && Step(c, s, e) == Some(s') && FlagsRight(c, s)
    ensures FlagsRight(c, s')
  {
    hide Inv, FlagOk, ParserStep, DbStep;
    forall i | 0 <= i < |s.parsers|
      ensures |s'.parsers| == |s.parsers| && FlagOk(c, s', s'.parsers[i])
    {
      if Owner(e) == Some(P(i)) {
        OwnStepKeepsFlag(c, s, i, e.choice, s');
      } else {
        OthersKeepFlag(c, s, e, s', i);
      }
    }
    SameCount(c, s, e, s');
  }

  lemma SameCount(c: Config, s: State, e: Event, s': State)
    requires c.procs > 0 && Step(c, s, e) == Some(s')
    ensures |s'.parsers| == |s.parsers|
  {
    hide ParserStep, DbStep;
    match e
    case ParserEvent(j, ch) => ParserFrame(c, s, j, ch, s');
    case DbEvent(ch) => DbFrame(s, ch, s');
    case Arrival(_, _) =>
  }

  lemma {:induction false} RunKeepsFlags(c: Config, es: seq<Event>)
    requires c.procs > 0 && Run(c, es).Some?
    ensures FlagsRight(c, Run(c, es).value) && |Run(c, es).value.parsers| == c.procs
  {
    hide FlagOk, Step, Inv;
    if es == [] {
      InitFlags(c);
    } else {
      var before, s' := Run(c, es[..|es| - 1]).value, Run(c, es).value;
      RunKeepsFlags(c, es[..|es| - 1]);
      RunInv(c, es[..|es| - 1]);
      StepKeepsFlags(c, before, es[|es| - 1], s');
      SameCount(c, before, es[|es| - 1], s');
    }
  }

  lemma InitFlags(c: Config)
    ensures FlagsRight(c, Init(c)) && |Init(c).parsers| == c.procs
  {
  }

  // ---------- the first statement of a generation ----------

  /** A file gets its first statement from a parser; it is a CREATE by the rule of the table mode. */
  lemma FirstStatement(c: Config, s: State, e: Event, s': State, file: string)
    requires c.procs > 0 && Inv(c, s) && FlagsRight(c, s) && Step(c, s, e) == Some(s')
    requires Content(s.work, file) == [] && Content(s'.work, file) != []
    ensures e.ParserEvent? && e.i < |s.parsers|
    ensures Content(s'.work, file)[0].CreateMain? <==> (c.oneTable ==> s.parsers[e.i].createTable)
  {
    hide Inv, FlagOk, LocksRight, FilesRight, DbStep, ParserStep;
    SafeParts(c, s);
    match e
    case ParserEvent(i, ch) =>
      FirstFromParser(c, s, i, ch, s', file);
      assert FlagOk(c, s, s.parsers[i]);
      OneParserOk(c, s, i);
      FirstByRule(c, s, s.parsers[i]);
    case DbEvent(ch) => DbWritesNothing(s, ch, s', file);
    case Arrival(_, _) =>
  }

  lemma FirstFromParser(c: Config, s: State, i: nat, ch: Choice, s': State, file: string)
    requires c.procs > 0 && i < |s.parsers| && ParserStep(c, s, i, ch) == Some(s')
    requires Content(s.work, file) == [] && Content(s'.work, file) != []
    ensures s.parsers[i].pc.Write? && FileName(s.parsers[i].pc.t) == file
    ensures s.parsers[i].pc.queue != [] && Content(s'.work, file) == [s.parsers[i].pc.queue[0]]
  {
    hide Statements, Convert, BatchItems, Share, Take, Listing, FileName, LockName, Get, AllWellNamed, HasLock;
  }

  lemma DbWritesNothing(s: State, ch: DbChoice, s': State, file: string)
    requires DbStep(s, ch) == Some(s')
    ensures Content(s'.work, file) != [] ==> Content(s'.work, file) == Content(s.work, file)
  {
    hide Admissible, HasFile, WantStep, ExecuteStep, UnlinkStep, ProbeStep, RenameStep, LeaveStep;
  }

  lemma FirstByRule(c: Config, s: State, p: Parser)
    requires ParserOk(c, s, p) && FlagOk(c, s, p) && p.pc.Write? && p.pc.queue != []
    requires Content(s.work, FileName(p.pc.t)) == []
    ensures p.pc.queue[0].CreateMain? <==> (c.oneTable ==> p.createTable)
  {
    hide GroupOk, Table, TodoOk, FileName;
    if !c.oneTable {
      assert [] + p.pc.queue == p.pc.queue;
      assert StmtOk(c, p.pc.t, p.pc.queue, 0);
    }
  }

  /** While a generation lasts its first statement stays. */
  lemma FirstStays(c: Config, s: State, e: Event, s': State, file: string)
    requires c.procs > 0 && Inv(c, s) && Step(c, s, e) == Some(s')
    requires Content(s.work, file) != [] && Content(s'.work, file) != []
    ensures Content(s'.work, file)[0] == Content(s.work, file)[0]
  {
    hide Inv, LocksRight, FilesRight, DbStep, ParserStep;
    SafeParts(c, s);
    match e
    case ParserEvent(i, ch) => ParserAppends(c, s, i, ch, s', file);
    case DbEvent(ch) => DbWritesNothing(s, ch, s', file);
    case Arrival(_, _) =>
  }

  lemma ParserAppends(c: Config, s: State, i: nat, ch: Choice, s': State, file: string)
    requires c.procs > 0 && i < |s.parsers| && ParserStep(c, s, i, ch) == Some(s')
    requires Content(s.work, file) != [] && Content(s'.work, file) != []
    ensures Content(s'.work, file)[0] == Content(s.work, file)[0]
  {
    hide Statements, Convert, BatchItems, Share, Take, Listing, FileName, LockName, Get, AllWellNamed, HasLock;
  }

  // ---------- over a run ----------

  /** Step `k` of the run is the end of a batch of parser `i`. */
  ghost predicate FinishesBatch(c: Config, es: seq<Event>, k: nat, i: nat)
    requires c.procs > 0
  {
    && k < |es| && es[k] == ParserEvent(i, Go) && Run(c, es[..k]).Some?
    && i < |Run(c, es[..k]).value.parsers| && Run(c, es[..k]).value.parsers[i].pc.Choose?
  }

  lemma StepFlag(c: Config, s: State, e: Event, s': State, i: nat)
    requires c.procs > 0 && i < |s.parsers| && Step(c, s, e) == Some(s')
    ensures |s'.parsers| == |s.parsers|
    ensures s'.parsers[i].createTable <==>
            s.parsers[i].createTable && !(e == ParserEvent(i, Go) && s.parsers[i].pc.Choose?)
  {
    hide ParserStep, DbStep;
    SameCount(c, s, e, s');
    if Owner(e) == Some(P(i)) {
      OwnFlag(c, s, i, e.choice, s');
    } else {
      OthersStay(c, s, e, s', i);
    }
  }

  lemma OwnFlag(c: Config, s: State, i: nat, ch: Choice, s': State)
    requires c.procs > 0 && i < |s.parsers| && ParserStep(c, s, i, ch) == Some(s')
    ensures |s'.parsers| == |s.parsers|
    ensures s'.parsers[i].createTable <==> s.parsers[i].createTable && !(ch == Go && s.parsers[i].pc.Choose?)
  {
    hide BeginStep, Goto, AcquireStep, CheckStep, OpenStep, WriteStep, ReleaseStep, RemoveStep, RestStep,
      Share, Take, Listing, FileName, AllWellNamed, HasFile, HasLock;
  }

  /** A parser's flag is up exactly until it has finished its first batch. */
  lemma {:induction false} FlagIsFirstBatch(c: Config, es: seq<Event>, i: nat)
    requires c.procs > 0 && Run(c, es).Some? && i < c.procs
    ensures |Run(c, es).value.parsers| == c.procs
    ensures Run(c, es).value.parsers[i].createTable <==> forall k :: 0 <= k < |es| ==> !FinishesBatch(c, es, k, i)
  {
    hide Step;
    RunKeepsFlags(c, es);
    if es != [] {
      var init, n := es[..|es| - 1], |es| - 1;
      FlagIsFirstBatch(c, init, i);
      StepFlag(c, Run(c, init).value, es[n], Run(c, es).value, i);
      forall k | 0 <= k < n
        ensures FinishesBatch(c, es, k, i) <==> FinishesBatch(c, init, k, i)
      {
        assert init[..k] == es[..k];
      }
      assert FinishesBatch(c, es, n, i) <==> es[n] == ParserEvent(i, Go) && Run(c, init).value.parsers[i].pc.Choose?;
    }
  }

  /**
   * The file on hand begins with a CREATE exactly when its table mode is one table per
   * minute, or the parser `i` that wrote its first statement, in step `k`, had not
   * finished a batch by then.
   */
  lemma {:induction false} BeginsWithCreate(c: Config, es: seq<Event>, file: string) returns (k: nat, i: nat)
    requires c.procs > 0 && Run(c, es).Some? && Content(Run(c, es).value.work, file) != []
    ensures k < |es| && es[k].ParserEvent? && es[k].i == i && i < c.procs && Run(c, es[..k]).Some?
    ensures Content(Run(c, es[..k]).value.work, file) == []
    ensures Content(Run(c, es).value.work, file)[0].CreateMain? <==>
            (c.oneTable ==> forall j :: 0 <= j < k ==> !FinishesBatch(c, es, j, i))
  {
    hide Step, Content, FinishesBatch, Inv, FlagOk, Init;
    NothingAtFirst(c, file);
    var init := es[..|es| - 1];
    var s, s' := Run(c, init).value, Run(c, es).value;
    RunInv(c, init);
    RunKeepsFlags(c, init);
    if Content(s.work, file) == [] {
      FirstStatement(c, s, es[|es| - 1], s', file);
      k, i := |es| - 1, es[|es| - 1].i;
      FlagIsFirstBatch(c, init, i);
    } else {
      FirstStays(c, s, es[|es| - 1], s', file);
      k, i := BeginsWithCreate(c, init, file);
      assert init[..k] == es[..k];
    }
    forall j | 0 <= j < k
      ensures FinishesBatch(c, es, j, i) <==> FinishesBatch(c, init, j, i)
    {
      SameFinishes(c, es, j, i);
    }
  }

  lemma SameFinishes(c: Config, es: seq<Event>, j: nat, i: nat)
    requires c.procs > 0 && j < |es| - 1
    ensures FinishesBatch(c, es, j, i) <==> FinishesBatch(c, es[..|es| - 1], j, i)
  {
    hide Run;
    assert es[..|es| - 1][..j] == es[..j];
  }

  lemma NothingAtFirst(c: Config, file: string)
    ensures Content(Init(c).work, file) == []
  {
  }
}

/** No deadlock: whoever is in a critical section can always go on, and leaves it soon. */
module Progress {
  import opened Wrappers
  import opened Lists
  import opened Decoder
  import opened Batch
  import opened FreshName
  import opened WorkList
  import opened Pipeline
  import opened Locks
  import opened Files
  import opened Steps
  import opened Execution
  import opened Ledger
  import opened Conversion
  import opened RowAccount
  import opened Invariant
  import opened InvariantDb

  /** Whose step an event is; nobody's for an arrival. */
  function Owner(e: Event): Option<Actor> {
    match e
    case ParserEvent(i, _) => Some(P(i))
    case DbEvent(_) => Some(Db)
    case Arrival(_, _) => None
  }

  /** About to make a lock directory that is there. */
  predicate Blocked(s: State, a: Actor)
    requires IsActor(s, a)
  {
    match a
    case Db => s.dbpc.Want? && LockName(s.dbpc.file) in s.work
    case P(i) => s.parsers[i].pc.Acquire? && LockName(FileName(s.parsers[i].pc.t)) in s.work
  }

  /** Names in the error directory that a probe may still run into. */
  function Ahead(err: map<string, seq<Stmt>>, dest: string): set<string> {
    set name | name in err && |name| >= |dest|
  }

  /** A bound on the steps a process still takes in its critical section. */
  function Rank(s: State, a: Actor): nat
    requires IsActor(s, a)
  {
    match a
    case P(i) =>
      (match s.parsers[i].pc
       case Check(_) => 8
       case Open(_, _) => 7
       case Write(_, queue) => 2 + |queue|
       case Release(_) => 1
       case _ => 0)
    case Db =>
      (match s.dbpc
       case Opening(n) => |Content(s.work, n)| + |s.err| + 5
       case Read(n, pos) => |Content(s.work, n)| + |s.err| + 4 - (if pos <= |Content(s.work, n)| then pos else 0)
       case Unlink(_) => 2
       case Probe(_, _, dest) => |Ahead(s.err, dest)| + 3
       case Rename(_, _, _) => 2
       case Leave(_) => 1
       case _ => 0)
  }

  /** A process in a critical section can take a step, whatever the others do. */
  lemma HolderCanStep(c: Config, s: State, a: Actor) returns (e: Event)
    requires c.procs > 0 && Inv(c, s) && IsActor(s, a) && Holds(s, a).Some?
    ensures Owner(e) == Some(a) && Step(c, s, e).Some?
  {
    hide LocksRight, FilesRight, LedgerRight, CsvRight, RowsRight, ConvertedRight, AllInEffect, Admissible,
      OpenStep, WriteStep, Complete, TodoOk;
    match a
    case P(i) =>
      e := ParserEvent(i, Go);
      InvParser(c, s, i);
      if s.parsers[i].pc.Open? {
        OpenNotLocked(c, s, i);
      }
    case Db =>
      e := DbEvent(Proceed);
      if DbFile(s.dbpc).Some? {
        HandInWork(c, s, DbFile(s.dbpc).value);
        if s.dbpc.Read? && s.dbpc.pos < |s.work[s.dbpc.file].stmts| {
          e := DbEvent(Exec(false));
        }
      }
  }

  lemma OpenNotLocked(c: Config, s: State, i: nat)
    requires Safe(c, s) && i < |s.parsers| && s.parsers[i].pc.Open?
    ensures !HasLock(s, FileName(s.parsers[i].pc.t))
  {
    OneParserOk(c, s, i);
    StemName(s.parsers[i].pc.t);
    NoSqlLock(s, FileName(s.parsers[i].pc.t));
  }

  /** What a parser step leaves alone. */
  lemma ParserFrame(c: Config, s: State, i: nat, ch: Choice, s': State)
    requires c.procs > 0 && i < |s.parsers| && ParserStep(c, s, i, ch) == Some(s')
    ensures s'.dbpc == s.dbpc && s'.err == s.err && |s'.parsers| == |s.parsers|
    ensures forall j :: 0 <= j < |s.parsers| && j != i ==> s'.parsers[j] == s.parsers[j]
  {
    hide BeginStep, Goto, FinishStep, AcquireStep, CheckStep, OpenStep, WriteStep, ReleaseStep, RemoveStep, RestStep,
      Share, Take, Listing, FileName, AllWellNamed, HasFile, HasLock;
  }

  lemma OpenNext(c: Config, s: State, i: nat, t: string, create: bool)
    requires i < |s.parsers| && t in s.parsers[i].todo
    ensures var pc := OpenStep(c, s, i, t, create).parsers[i].pc; pc.Write? && pc.t == t && |pc.queue| <= 4
  {
    hide FileName, Table, OnlyParser;
  }

  /** Where a parser in its critical section goes next. */
  lemma NextPc(c: Config, s: State, i: nat, ch: Choice, s': State)
    requires c.procs > 0 && i < |s.parsers| && ParserHolds(s.parsers[i].pc).Some?
    requires ParserStep(c, s, i, ch) == Some(s')
    ensures |s'.parsers| == |s.parsers|
    ensures match s.parsers[i].pc
            case Check(t) => s'.parsers[i].pc.Open? && s'.parsers[i].pc.t == t
            case Open(t, _) => s'.parsers[i].pc.Write? && s'.parsers[i].pc.t == t && |s'.parsers[i].pc.queue| <= 4
            case Write(t, queue) => s'.parsers[i].pc == if queue == [] then Release(t) else Write(t, queue[1..])
            case _ => s'.parsers[i].pc == Choose
  {
    hide FileName, LockName, Get, HasLock, HasFile, BeginStep, FinishStep, AcquireStep, OpenStep, RemoveStep, RestStep,
      Share, Take, Listing;
    if s.parsers[i].pc.Open? {
      OpenNext(c, s, i, s.parsers[i].pc.t, s.parsers[i].pc.create);
    }
  }

  lemma ParserAdvances(c: Config, s: State, i: nat, ch: Choice, s': State)
    requires c.procs > 0 && i < |s.parsers| && ParserHolds(s.parsers[i].pc).Some?
    requires ParserStep(c, s, i, ch) == Some(s')
    ensures |s'.parsers| == |s.parsers|
    ensures ParserHolds(s'.parsers[i].pc) == None
         || (ParserHolds(s'.parsers[i].pc) == ParserHolds(s.parsers[i].pc) && Rank(s', P(i)) < Rank(s, P(i)))
  {
    hide ParserStep, FileName;
    NextPc(c, s, i, ch, s');
  }

  /** One step on, in the same critical section or out of it. */
  predicate DbCloser(s: State, s': State) {
    DbHolds(s'.dbpc) == None || (DbHolds(s'.dbpc) == DbHolds(s.dbpc) && Rank(s', Db) < Rank(s, Db))
  }

  lemma DbAdvances(s: State, ch: DbChoice, s': State)
    requires DbHolds(s.dbpc).Some? && DbStep(s, ch) == Some(s')
    ensures DbCloser(s, s')
  {
    hide DbCloser, DbStep;
    match s.dbpc
    case Opening(_) => ReadingAdvances(s, ch, s');
    case Read(_, _) => ReadingAdvances(s, ch, s');
    case Probe(_, _, _) => ProbingAdvances(s, ch, s');
    case _ => LeavingAdvances(s, ch, s');
  }

  lemma ReadingAdvances(s: State, ch: DbChoice, s': State)
    requires (s.dbpc.Opening? || s.dbpc.Read?) && DbStep(s, ch) == Some(s')
    ensures DbCloser(s, s')
  {
    hide Admissible, Apply, Get, Ahead, WantStep, UnlinkStep, ProbeStep, RenameStep, LeaveStep;
    AheadBound(s.err, s.dbpc.file);
  }

  lemma ProbingAdvances(s: State, ch: DbChoice, s': State)
    requires s.dbpc.Probe? && DbStep(s, ch) == Some(s')
    ensures DbCloser(s, s')
  {
    hide Ahead, NextName, WantStep, ExecuteStep, UnlinkStep, RenameStep, LeaveStep, Content;
    if s.dbpc.dest in s.err {
      AheadShrinks(s.err, s.dbpc.dest);
    }
  }

  lemma LeavingAdvances(s: State, ch: DbChoice, s': State)
    requires (s.dbpc.Unlink? || s.dbpc.Rename? || s.dbpc.Leave?) && DbStep(s, ch) == Some(s')
    ensures DbCloser(s, s')
  {
    hide Ahead, WantStep, ExecuteStep, UnlinkStep, ProbeStep, RenameStep, LeaveStep, LockName, Get, Content;
  }

  /** Each of its steps brings it closer to the end of the critical section. */
  lemma HolderAdvances(c: Config, s: State, e: Event, s': State, a: Actor)
    requires c.procs > 0 && IsActor(s, a) && Holds(s, a).Some?
    requires Owner(e) == Some(a) && Step(c, s, e) == Some(s')
    ensures IsActor(s', a)
    ensures Holds(s', a) == None || (Holds(s', a) == Holds(s, a) && Rank(s', a) < Rank(s, a))
  {
    hide ParserStep, DbStep, Rank, ParserHolds, DbHolds;
    match e
    case ParserEvent(i, ch) => ParserAdvances(c, s, i, ch, s');
    case DbEvent(ch) => DbAdvances(s, ch, s');
  }

  lemma AheadBound(err: map<string, seq<Stmt>>, dest: string)
    ensures |Ahead(err, dest)| <= |err|
  {
    SubsetSize(Ahead(err, dest), err.Keys);
  }

  lemma AheadShrinks(err: map<string, seq<Stmt>>, dest: string)
    requires dest in err && |dest| >= 4
    ensures |Ahead(err, NextName(dest))| < |Ahead(err, dest)|
  {
    SubsetSize(Ahead(err, NextName(dest)), Ahead(err, dest) - {dest});
  }

  lemma {:induction false} SubsetSize<T>(a: set<T>, b: set<T>)
    requires a <= b
    ensures |a| <= |b|
    decreases a
  {
    if a != {} {
      var x :| x in a;
      SubsetSize(a - {x}, b - {x});
    }
  }

  lemma DbFrame(s: State, ch: DbChoice, s': State)
    requires DbStep(s, ch) == Some(s')
    ensures s'.parsers == s.parsers
  {
    hide Admissible, HasFile, WantStep, UnlinkStep, ProbeStep, RenameStep, LeaveStep, Apply, Get;
  }

  /** No parser touches a file that somebody else has in his critical section. */
  lemma HandContent(c: Config, s: State, i: nat, ch: Choice, s': State, a: Actor, file: string)
    requires c.procs > 0 && LocksRight(s) && i < |s.parsers| && ParserStep(c, s, i, ch) == Some(s')
    requires IsActor(s, a) && a != P(i) && Holds(s, a) == Some(file)
    ensures Content(s'.work, file) == Content(s.work, file)
  {
    hide LocksRight, Convert, BatchItems, Statements, Share, Take, Listing, FileName, Get, AllWellNamed, Table;
    if ParserHolds(s.parsers[i].pc).Some? {
      AloneWith(s, P(i), a);
    }
    if s.parsers[i].pc.Release? {
      LockIsNoFile(s, i, s.parsers[i].pc.t);
    }
  }

  /** The steps of the others neither push it out nor push it back. */
  lemma OthersLeaveHolder(c: Config, s: State, e: Event, s': State, a: Actor)
    requires c.procs > 0 && LocksRight(s) && IsActor(s, a) && Holds(s, a).Some?
    requires Owner(e) != Some(a) && Step(c, s, e) == Some(s')
    ensures IsActor(s', a) && Holds(s', a) == Holds(s, a) && Rank(s', a) == Rank(s, a)
  {
    hide LocksRight, ParserStep, DbStep;
    match e
    case ParserEvent(i, ch) =>
      ParserFrame(c, s, i, ch, s');
      if a == Db {
        HandContent(c, s, i, ch, s', Db, Holds(s, Db).value);
      }
    case DbEvent(ch) => DbFrame(s, ch, s');
    case Arrival(_, _) =>
  }

  // ---------- runs ----------

  ghost function RunFrom(c: Config, s: State, es: seq<Event>): Option<State>
    requires c.procs > 0
    decreases |es|
  {
    if es == [] then Some(s)
    else
      var next :- Step(c, s, es[0]);
      RunFrom(c, next, es[1..])
  }

  function StepsOf(es: seq<Event>, a: Actor): nat {
    if es == [] then 0 else (if Owner(es[0]) == Some(a) then 1 else 0) + StepsOf(es[1..], a)
  }

  /**
   * However the others interleave, a process that is in a critical section is out of it
   * after at most `Rank` steps of its own.
   */
  lemma {:induction false} LeavesInTime(c: Config, s: State, es: seq<Event>, a: Actor) returns (k: nat)
    requires c.procs > 0 && Inv(c, s) && IsActor(s, a) && Holds(s, a).Some?
    requires RunFrom(c, s, es).Some? && StepsOf(es, a) >= Rank(s, a)
    ensures k <= |es| && RunFrom(c, s, es[..k]).Some?
    ensures var s' := RunFrom(c, s, es[..k]).value; IsActor(s', a) && Holds(s', a) == None
    decreases |es|
  {
    hide Inv, Step, Rank, Holds;
    RankPositive(s, a);
    var e := es[0];
    var s' := Step(c, s, e).value;
    StepKeeps(c, s, e, s');
    SafeParts(c, s);
    if Owner(e) == Some(a) {
      HolderAdvances(c, s, e, s', a);
    } else {
      OthersLeaveHolder(c, s, e, s', a);
    }
    if Holds(s', a) == None {
      k := 1;
      assert es[..1] == [e] && es[..1][1..] == [];
    } else {
      k := LeavesInTime(c, s', es[1..], a);
      assert es[..k + 1][0] == e && es[..k + 1][1..] == es[1..][..k];
      k := k + 1;
    }
  }

  lemma RankPositive(s: State, a: Actor)
    requires IsActor(s, a) && Holds(s, a).Some?
    ensures Rank(s, a) > 0
  {
  }

  lemma SafeParts(c: Config, s: State)
    requires c.procs > 0 && Inv(c, s)
    ensures LocksRight(s) && FilesRight(c, s)
  {
  }

  lemma StepKeeps(c: Config, s: State, e: Event, s': State)
    requires c.procs > 0 && Inv(c, s) && Step(c, s, e) == Some(s')
    ensures Inv(c, s')
  {
    hide Inv, ParserStep, DbStep;
    match e
    case ParserEvent(i, ch) => ParserKeeps(c, s, i, ch, s');
    case DbEvent(ch) => DbKeeps(c, s, ch, s');
    case Arrival(name, lines) => ArrivalKeeps(c, s, name, lines, s');
  }

  /**
   * No deadlock: whoever waits for a lock directory holds none himself, and the process
   * inside the critical section he waits for can step.
   */
  lemma WaitsForAMover(c: Config, s: State, a: Actor) returns (b: Actor, e: Event)
    requires c.procs > 0 && Inv(c, s) && IsActor(s, a) && Blocked(s, a)
    ensures Holds(s, a) == None
    ensures IsActor(s, b) && b != a && Holds(s, b).Some?
    ensures Holds(s, b).value == match a { case Db => s.dbpc.file case P(i) => FileName(s.parsers[i].pc.t) }
    ensures Owner(e) == Some(b) && Step(c, s, e).Some?
  {
    var file := match a { case Db => s.dbpc.file case P(i) => FileName(s.parsers[i].pc.t) };
    b := LockHolder(c, s, file);
    e := HolderCanStep(c, s, b);
  }

  lemma LockHolder(c: Config, s: State, file: string) returns (b: Actor)
    requires c.procs > 0 && Inv(c, s) && LockName(file) in s.work
    ensures IsActor(s, b) && Holds(s, b) == Some(file)
  {
    var l := LockName(file);
    SafeParts(c, s);
    if HasFile(s, l) {
      FileNamesOk(c, s, l);
      assert false;
    }
    assert HasLock(s, l);
    b :| IsActor(s, b) && Holds(s, b) == Some(l[1..]);
  }
}

/** An idle parser takes its share of the csv directory all the way into the sql files, by its own steps. */
module Converting {
  import opened Wrappers
  import opened Sequences
  import opened Lists
  import opened Ordered
  import opened Decoder
  import opened Rows
  import opened Minutes
  import opened Batch
  import opened WorkList
  import opened Pipeline
  import opened Locks
  import opened Files
  import opened Steps
  import opened Execution
  import opened Ledger
  import opened Conversion
  import opened RowAccount
  import opened Invariant
  import opened InvariantDb
  import opened Progress
  import opened Draining

  // ---------- steps of one parser ----------

  predicate ByParser(es: seq<Event>, i: nat) {
    forall k :: 0 <= k < |es| ==> es[k].ParserEvent? && es[k].i == i
  }

  /** Steps of parser `i` alone lead from `s` to `s'`. */
  ghost predicate Leads(c: Config, s: State, i: nat, s': State)
    requires c.procs > 0
  {
    exists es :: ByParser(es, i) && RunFrom(c, s, es) == Some(s')
  }

  lemma LeadsNowhere(c: Config, s: State, i: nat)
    requires c.procs > 0
    ensures Leads(c, s, i, s)
  {
    assert ByParser([], i) && RunFrom(c, s, []) == Some(s);
  }

  lemma LeadsOn(c: Config, s: State, i: nat, ch: Choice, s1: State, s': State)
    requires c.procs > 0 && Step(c, s, ParserEvent(i, ch)) == Some(s1) && Leads(c, s1, i, s')
    ensures Leads(c, s, i, s')
  {
    hide Step, RunFrom;
    var es :| ByParser(es, i) && RunFrom(c, s1, es) == Some(s');
    FirstStep(c, s, ParserEvent(i, ch), s1, es);
    assert ByParser([ParserEvent(i, ch)] + es, i);
  }

  lemma LeadsOnce(c: Config, s: State, i: nat, ch: Choice, s': State)
    requires c.procs > 0 && Step(c, s, ParserEvent(i, ch)) == Some(s')
    ensures Leads(c, s, i, s')
  {
    hide Step, Leads;
    LeadsNowhere(c, s', i);
    LeadsOn(c, s, i, ch, s', s');
  }

  lemma {:induction false} RunsJoin(c: Config, s: State, es: seq<Event>, s1: State, more: seq<Event>)
    requires c.procs > 0 && RunFrom(c, s, es) == Some(s1)
    ensures RunFrom(c, s, es + more) == RunFrom(c, s1, more)
    decreases |es|
  {
    hide Step;
    if es == [] {
      assert [] + more == more;
    } else {
      var next := Step(c, s, es[0]).value;
      RunsJoin(c, next, es[1..], s1, more);
      assert (es + more)[0] == es[0] && (es + more)[1..] == es[1..] + more;
    }
  }

  lemma LeadsTo(c: Config, s: State, i: nat, s1: State, s': State)
    requires c.procs > 0 && Leads(c, s, i, s1) && Leads(c, s1, i, s')
    ensures Leads(c, s, i, s')
  {
    hide RunFrom;
    var es :| ByParser(es, i) && RunFrom(c, s, es) == Some(s1);
    var more :| ByParser(more, i) && RunFrom(c, s1, more) == Some(s');
    RunsJoin(c, s, es, s1, more);
    assert ByParser(es + more, i);
  }

  lemma {:induction false} RunReaches(c: Config, s: State, es: seq<Event>, s': State)
    requires c.procs > 0 && Reachable(c, s) && RunFrom(c, s, es) == Some(s')
    ensures Reachable(c, s')
    decreases |es|
  {
    hide Step, Reachable;
    if es != [] {
      var next := Step(c, s, es[0]).value;
      ReachableStep(c, s, es[0], next);
      RunReaches(c, next, es[1..], s');
    }
  }

  lemma LeadsReaches(c: Config, s: State, i: nat, s': State)
    requires c.procs > 0 && Reachable(c, s) && Leads(c, s, i, s')
    ensures Reachable(c, s')
  {
    hide RunFrom, Reachable;
    var es :| ByParser(es, i) && RunFrom(c, s, es) == Some(s');
    RunReaches(c, s, es, s');
  }

  /** Parser `i` has moved; the database, its process, the error directory and the other parsers have not. */
  predicate Alone(s: State, s': State, i: nat) {
    OnlyParser(s, s', i) && s'.hist.arrived == s.hist.arrived
  }

  lemma AloneNever(s: State, i: nat)
    requires i < |s.parsers|
    ensures Alone(s, s, i)
  {
  }

  lemma AloneTwice(s: State, s1: State, s': State, i: nat)
    requires Alone(s, s1, i) && Alone(s1, s', i)
    ensures Alone(s, s', i)
  {
  }

  // ---------- one group ----------

  /** Whether a group is written with the two CREATEs. */
  predicate Creates(c: Config, s: State, i: nat, t: string)
    requires i < |s.parsers|
  {
    if c.oneTable then s.parsers[i].createTable else FileName(t) !in s.work
  }

  /** One statement goes to the end of the file. */
  lemma PutOne(c: Config, s: State, i: nat, t: string, queue: seq<Stmt>) returns (s': State)
    requires c.procs > 0 && i < |s.parsers| && s.parsers[i].pc == Write(t, queue) && queue != [] && HasFile(s, FileName(t))
    ensures Step(c, s, ParserEvent(i, Go)) == Some(s') && Alone(s, s', i) && s'.csv == s.csv
    ensures s'.parsers[i] == s.parsers[i].(pc := Write(t, queue[1..]))
    ensures s'.work == s.work[FileName(t) := File(s.work[FileName(t)].stmts + [queue[0]])]
    ensures Written(s'.hist.appended) == Written(s.hist.appended) + StmtItems(queue[0])
  {
    hide FileName, Written, StmtItems, Get;
    s' := WriteStep(s, i, t, queue);
    WrittenGrow(s.hist.appended, FileName(t), queue[0]);
  }

  /** All that is left to put is put. */
  lemma {:induction false} Put(c: Config, s: State, i: nat, t: string, queue: seq<Stmt>) returns (s': State)
    requires c.procs > 0 && i < |s.parsers| && s.parsers[i].pc == Write(t, queue) && HasFile(s, FileName(t))
    ensures Leads(c, s, i, s') && Alone(s, s', i) && s'.csv == s.csv
    ensures s'.parsers[i] == s.parsers[i].(pc := Write(t, []))
    ensures s'.work == s.work[FileName(t) := File(s.work[FileName(t)].stmts + queue)]
    ensures Written(s'.hist.appended) == Written(s.hist.appended) + ItemsIn(queue)
    decreases |queue|
  {
    hide FileName, Leads, Written, ItemsIn, StmtItems, Step;
    if queue == [] {
      s' := s;
      LeadsNowhere(c, s, i);
      RightUnit(s.work[FileName(t)].stmts);
      NoRows();
    } else {
      var s1 := PutOne(c, s, i, t, queue);
      ItemsInCons(queue);
      s' := Put(c, s1, i, t, queue[1..]);
      LeadsOn(c, s, i, Go, s1, s');
      assert queue == [queue[0]] + queue[1..];
      Associative(s.work[FileName(t)].stmts, [queue[0]], queue[1..]);
    }
  }

  /** The parser enters the critical section of a free file and opens it. */
  lemma Opened(c: Config, s: State, i: nat, t: string) returns (s': State)
    requires c.procs > 0 && i < |s.parsers| && s.parsers[i].pc.Choose? && t in s.parsers[i].todo
    requires LockName(FileName(t)) !in s.work && !HasLock(s, FileName(t))
    ensures Leads(c, s, i, s') && Alone(s, s', i) && s'.csv == s.csv && s'.hist.appended == s.hist.appended
    ensures s'.work == s.work[LockName(FileName(t)) := Lock][FileName(t) := File(Content(s.work, FileName(t)))]
    ensures s'.parsers[i] == s.parsers[i].(pc := Write(t, Statements(c, t, Creates(c, s, i, t), s.parsers[i].todo[t])),
                                           todo := s.parsers[i].todo - {t})
  {
    hide Statements, FileName, Leads;
    var s1 := Goto(s, i, Acquire(t));
    var s2 := Locked(c, s1, i, t);
    var create := Creates(c, s, i, t);
    var s3 := CheckStep(c, s2, i, t);
    assert |LockName(FileName(t))| == |FileName(t)| + 1;
    s' := OpenStep(c, s3, i, t, create);
    LeadsOnce(c, s3, i, Go, s');
    LeadsOn(c, s2, i, Go, s3, s');
    LeadsOn(c, s1, i, Go, s2, s');
    LeadsOn(c, s, i, Pick(t), s1, s');
  }

  lemma Locked(c: Config, s: State, i: nat, t: string) returns (s': State)
    requires c.procs > 0 && i < |s.parsers| && s.parsers[i].pc == Acquire(t) && LockName(FileName(t)) !in s.work
    ensures Step(c, s, ParserEvent(i, Go)) == Some(s')
    ensures s' == Goto(s, i, Check(t)).(work := s.work[LockName(FileName(t)) := Lock])
  {
    s' := AcquireStep(s, i, t);
  }

  lemma Closed(c: Config, s: State, i: nat, t: string) returns (s': State)
    requires c.procs > 0 && i < |s.parsers| && s.parsers[i].pc == Write(t, [])
    ensures Leads(c, s, i, s') && Alone(s, s', i) && s'.csv == s.csv && s'.hist.appended == s.hist.appended
    ensures s'.work == s.work - {LockName(FileName(t))} && s'.parsers[i] == s.parsers[i].(pc := Choose)
  {
    hide FileName, Leads;
    var s1 := Goto(s, i, Release(t));
    s' := ReleaseStep(s1, i, t);
    LeadsOnce(c, s1, i, Go, s');
    LeadsOn(c, s, i, Go, s1, s');
  }

  /** A group goes to the end of its file, behind the two CREATEs exactly when they are due. */
  lemma Visited(c: Config, s: State, i: nat, t: string) returns (s': State)
    requires c.procs > 0 && i < |s.parsers| && s.parsers[i].pc.Choose? && t in s.parsers[i].todo
    requires LockName(FileName(t)) !in s.work && !HasLock(s, FileName(t))
    ensures Leads(c, s, i, s') && Alone(s, s', i) && s'.csv == s.csv
    ensures s'.parsers[i] == s.parsers[i].(todo := s.parsers[i].todo - {t})
    ensures s'.work == s.work[FileName(t) :=
                                File(Content(s.work, FileName(t)) + Statements(c, t, Creates(c, s, i, t), s.parsers[i].todo[t]))]
    ensures Written(s'.hist.appended) == Written(s.hist.appended) + ItemBag(s.parsers[i].todo[t])
  {
    hide Statements, FileName, Leads, Written, ItemsIn, ItemBag, Content, Creates;
    assert |LockName(FileName(t))| == |FileName(t)| + 1;
    var stmts := Statements(c, t, Creates(c, s, i, t), s.parsers[i].todo[t]);
    ItemsInStatements(c, t, Creates(c, s, i, t), s.parsers[i].todo[t]);
    var s1 := Opened(c, s, i, t);
    var s2 := Put(c, s1, i, t, stmts);
    s' := Closed(c, s2, i, t);
    LeadsTo(c, s1, i, s2, s');
    LeadsTo(c, s, i, s1, s');
  }

  // ---------- all groups ----------

  /** The groups are in their files; every other entry of the directory is as before. */
  ghost predicate Filed(c: Config, s: State, s': State, i: nat, todo: map<string, Records>)
    requires i < |s.parsers|
  {
    && (forall t :: t in todo ==>
          FileName(t) in s'.work
          && s'.work[FileName(t)] == File(Content(s.work, FileName(t)) + Statements(c, t, Creates(c, s, i, t), todo[t])))
    && (forall name :: (forall t :: t in todo ==> name != FileName(t)) ==>
          (name in s'.work <==> name in s.work) && (name in s.work ==> s'.work[name] == s.work[name]))
  }

  /** The locks of the groups are free, and no lock has the name of one of their files. */
  ghost predicate LocksFree(s: State, todo: map<string, Records>) {
    forall t :: t in todo ==> LockName(FileName(t)) !in s.work && !HasLock(s, FileName(t)) && Stem(t)
  }

  lemma StemNames(t: string, u: string)
    requires Stem(t) && Stem(u)
    ensures LockName(FileName(u)) != FileName(t)
    ensures FileName(t) == FileName(u) ==> t == u
  {
    StemName(t);
    StemName(u);
  }

  /** After a visit the locks of the other groups are still free, and whether CREATEs are due has not changed. */
  lemma StillFree(c: Config, s: State, s': State, i: nat, todo: map<string, Records>, t: string, e: Entry)
    requires i < |s.parsers| == |s'.parsers| && t in todo && LocksFree(s, todo) && e.File?
    requires s'.work == s.work[FileName(t) := e] && s'.parsers[i].createTable == s.parsers[i].createTable
    ensures LocksFree(s', todo - {t})
    ensures forall u :: u in todo && u != t ==>
              Creates(c, s', i, u) == Creates(c, s, i, u) && Content(s'.work, FileName(u)) == Content(s.work, FileName(u))
  {
    hide FileName, LockName, Stem;
    forall u | u in todo && u != t
      ensures LockName(FileName(u)) != FileName(t) && FileName(u) != FileName(t)
    {
      StemNames(t, u);
    }
  }

  /** One group is in its file and the rest follows. */
  lemma FiledOneMore(c: Config, s: State, s1: State, s': State, i: nat, todo: map<string, Records>, t: string)
    requires i < |s.parsers| == |s1.parsers| && t in todo && LocksFree(s, todo)
    requires s1.work == s.work[FileName(t) :=
                                 File(Content(s.work, FileName(t)) + Statements(c, t, Creates(c, s, i, t), todo[t]))]
    requires s1.parsers[i].createTable == s.parsers[i].createTable
    requires Filed(c, s1, s', i, todo - {t})
    ensures Filed(c, s, s', i, todo)
  {
    hide FileName, Statements, Creates, Content, LocksFree;
    forall u | u in todo
      ensures FileName(u) in s'.work
      ensures s'.work[FileName(u)] == File(Content(s.work, FileName(u)) + Statements(c, u, Creates(c, s, i, u), todo[u]))
    {
      if u == t {
        NotLater(s, todo, t);
      } else {
        FiledLater(c, s, s1, i, todo, t, u);
      }
    }
  }

  /** A visit to one group leaves what another one finds. */
  lemma FiledLater(c: Config, s: State, s1: State, i: nat, todo: map<string, Records>, t: string, u: string)
    requires i < |s.parsers| == |s1.parsers| && t in todo && u in todo && u != t && LocksFree(s, todo)
    requires FileName(t) in s1.work && s1.work[FileName(t)].File? && s1.work == s.work[FileName(t) := s1.work[FileName(t)]]
    requires s1.parsers[i].createTable == s.parsers[i].createTable
    ensures u in todo - {t} && (todo - {t})[u] == todo[u]
    ensures Creates(c, s1, i, u) == Creates(c, s, i, u) && Content(s1.work, FileName(u)) == Content(s.work, FileName(u))
  {
    hide FileName, Creates, Content, LocksFree;
    StillFree(c, s, s1, i, todo, t, s1.work[FileName(t)]);
  }

  lemma NotLater(s: State, todo: map<string, Records>, t: string)
    requires t in todo && LocksFree(s, todo)
    ensures forall u :: u in todo - {t} ==> FileName(t) != FileName(u)
  {
    hide FileName, Stem;
    forall u | u in todo - {t}
      ensures FileName(t) != FileName(u)
    {
      StemNames(t, u);
    }
  }

  /** A visit leaves the locks of the other groups free. */
  lemma OneVisited(c: Config, s: State, i: nat, t: string) returns (s1: State)
    requires c.procs > 0 && i < |s.parsers| && s.parsers[i].pc.Choose? && LocksFree(s, s.parsers[i].todo)
    requires t in s.parsers[i].todo
    ensures Leads(c, s, i, s1) && Alone(s, s1, i) && s1.csv == s.csv && |s1.parsers| == |s.parsers|
    ensures s1.parsers[i] == s.parsers[i].(todo := s.parsers[i].todo - {t}) && LocksFree(s1, s1.parsers[i].todo)
    ensures s1.work == s.work[FileName(t) :=
                                File(Content(s.work, FileName(t)) + Statements(c, t, Creates(c, s, i, t), s.parsers[i].todo[t]))]
    ensures Written(s1.hist.appended) == Written(s.hist.appended) + ItemBag(s.parsers[i].todo[t])
  {
    hide Statements, FileName, Leads, Written, ItemBag, Creates, Content, LockName, Stem, HasLock;
    s1 := Visited(c, s, i, t);
    StillFree(c, s, s1, i, s.parsers[i].todo, t, s1.work[FileName(t)]);
  }

  lemma {:induction false} AllVisited(c: Config, s: State, i: nat) returns (s': State)
    requires c.procs > 0 && i < |s.parsers| && s.parsers[i].pc.Choose? && LocksFree(s, s.parsers[i].todo)
    ensures Leads(c, s, i, s') && Alone(s, s', i) && s'.csv == s.csv && |s'.parsers| == |s.parsers|
    ensures s'.parsers[i] == s.parsers[i].(todo := map[])
    ensures Filed(c, s, s', i, s.parsers[i].todo)
    ensures Written(s'.hist.appended) == Written(s.hist.appended) + GroupItems(s.parsers[i].todo)
    decreases |s.parsers[i].todo|
  {
    hide Statements, FileName, Leads, Written, ItemBag, Creates, Filed, Content, GroupItems, LocksFree, OnlyParser;
    var todo := s.parsers[i].todo;
    if todo == map[] {
      s' := s;
      LeadsNowhere(c, s, i);
      assert Alone(s, s, i) by { AloneNever(s, i); }
      NothingFiled(c, s, i);
      EmptyRows();
    } else {
      var t := Member(todo.Keys);
      var s1 := OneVisited(c, s, i, t);
      s' := AllVisited(c, s1, i);
      LeadsTo(c, s, i, s1, s');
      AloneTwice(s, s1, s', i);
      FiledOneMore(c, s, s1, s', i, todo, t);
      TakeGroup(todo, t);
    }
  }

  lemma NothingFiled(c: Config, s: State, i: nat)
    requires i < |s.parsers|
    ensures Filed(c, s, s, i, map[])
  {
  }

  // ---------- the csv files ----------

  function Less(csv: map<string, seq<string>>, gone: seq<string>): map<string, seq<string>> {
    map name | name in csv && name !in gone :: csv[name]
  }

  lemma LessOne(csv: map<string, seq<string>>, gone: seq<string>)
    requires gone != []
    ensures Less(csv - {gone[0]}, gone[1..]) == Less(csv, gone)
  {
    assert gone == [gone[0]] + gone[1..];
  }

  lemma {:induction false} Removed(c: Config, s: State, i: nat, rest: seq<string>) returns (s': State)
    requires c.procs > 0 && i < |s.parsers| && s.parsers[i].pc == Remove(rest)
    ensures Leads(c, s, i, s') && Alone(s, s', i) && s'.work == s.work && s'.hist.appended == s.hist.appended
    ensures s'.parsers[i] == s.parsers[i].(pc := Idle, batch := []) && s'.csv == Less(s.csv, rest)
    decreases |rest|
  {
    hide Leads, Less;
    if rest == [] {
      s' := RestStep(s, i);
      LeadsOnce(c, s, i, Go, s');
      assert Less(s.csv, []) == s.csv by { LessNone(s.csv); }
    } else {
      var s1 := RemoveStep(s, i, rest);
      s' := Removed(c, s1, i, rest[1..]);
      LeadsOn(c, s, i, Go, s1, s');
      LessOne(s.csv, rest);
    }
  }

  lemma LessNone(csv: map<string, seq<string>>)
    ensures Less(csv, []) == csv
  {
  }

  /** The batch ends: the flag goes down and its csv files are removed. */
  lemma Ended(c: Config, s: State, i: nat) returns (s': State)
    requires c.procs > 0 && i < |s.parsers| && s.parsers[i].pc.Choose? && s.parsers[i].todo == map[]
    ensures Leads(c, s, i, s') && Alone(s, s', i) && s'.work == s.work && s'.hist.appended == s.hist.appended
    ensures s'.parsers[i] == Parser(Idle, false, [], map[]) && s'.csv == Less(s.csv, s.parsers[i].batch)
  {
    hide Leads, Less;
    var s1 := FinishStep(s, i);
    s' := Removed(c, s1, i, s.parsers[i].batch);
    LeadsOn(c, s, i, Go, s1, s');
  }

  // ---------- the whole batch ----------

  /** What parser `i` takes when it sees this listing. */
  function Own(c: Config, i: nat, listing: seq<string>): (fl: seq<string>)
    requires c.procs > 0
    ensures AllWellNamed(fl)
  {
    ShareWellNamed(listing, i, c.procs, c.limit);
    Take(Share(listing, i, c.procs), c.limit)
  }

  /** All its own files in the listing, as long as they are within the limit; otherwise the first of them, up to the limit. */
  lemma OwnMembers(c: Config, i: nat, listing: seq<string>, name: string)
    requires c.procs > 0 && c.limit >= 0
    ensures Own(c, i, listing) <= Share(listing, i, c.procs)
    ensures name in Own(c, i, listing) ==> name in listing && Mine(name, i, c.procs)
    ensures if |Share(listing, i, c.procs)| <= c.limit
            then name in listing && Mine(name, i, c.procs) ==> name in Own(c, i, listing)
            else |Own(c, i, listing)| == c.limit
  {
    hide Mine, Share;
    ShareMembers(listing, i, c.procs, name);
  }

  lemma GroupsFree(c: Config, s: State, fl: seq<string>)
    requires c.procs > 0 && Reachable(c, s) && AllWellNamed(fl) && Convert(c.env, fl, s.csv).Some?
    requires forall t :: t in Convert(c.env, fl, s.csv).value ==> LockName(FileName(t)) !in s.work
    ensures LocksFree(s, Convert(c.env, fl, s.csv).value)
  {
    hide Reachable, Convert, LocksRight, FilesRight, LockName, FileName, HasLock, GroupOk;
    var groups := Convert(c.env, fl, s.csv).value;
    InvLocks(c, s);
    forall t | t in groups
      ensures Stem(t) && !HasLock(s, FileName(t))
    {
      ConvertGroupsOk(c.env, fl, s.csv, t);
      StemName(t);
      NoSqlLock(s, FileName(t));
    }
  }

  lemma InvLocks(c: Config, s: State)
    requires c.procs > 0 && Reachable(c, s)
    ensures LocksRight(s)
  {
    hide Reachable, LocksRight, FilesRight, ReadingRight, LedgerRight, CsvRight, RowsRight, ConvertedRight;
    ReachableInv(c, s);
  }

  /** The first step: the batch is read, or the conversion throws. */
  lemma Started(c: Config, s: State, i: nat, listing: seq<string>) returns (s1: State)
    requires c.procs > 0 && i < |s.parsers| && s.parsers[i].pc.Idle? && Listing(s, listing) && Own(c, i, listing) != []
    ensures Step(c, s, ParserEvent(i, Begin(listing))) == Some(s1) && Alone(s, s1, i)
    ensures s1.csv == s.csv && s1.work == s.work && s1.hist.appended == s.hist.appended
    ensures var fl, p := Own(c, i, listing), s.parsers[i];
            s1.parsers[i] == match Convert(c.env, fl, s.csv)
                             case None => p.(pc := Dead)
                             case Some(groups) => p.(pc := Choose, batch := fl, todo := groups)
  {
    hide Convert, BatchItems, Listing, Share, Take, WellNamed;
    s1 := BeginStep(c, s, i, Own(c, i, listing));
  }

  /**
   * An idle parser converts what it is shown: if the batch does not throw and the locks
   * of its groups are free, its steps alone lead back to the head of its loop, with
   * every group at the end of its file, behind the CREATEs exactly when they are due,
   * with all rows of the batch written, and with exactly its csv files removed.
   */
  lemma CanConvert(c: Config, s: State, i: nat, listing: seq<string>) returns (s1: State, s': State)
    requires c.procs > 0 && Reachable(c, s) && i < |s.parsers| && s.parsers[i].pc.Idle? && Listing(s, listing)
    requires Own(c, i, listing) != [] && Convert(c.env, Own(c, i, listing), s.csv).Some?
    requires forall t :: t in Convert(c.env, Own(c, i, listing), s.csv).value ==> LockName(FileName(t)) !in s.work
    ensures Step(c, s, ParserEvent(i, Begin(listing))) == Some(s1) && Leads(c, s1, i, s') && Alone(s, s', i)
    ensures s'.parsers[i] == Parser(Idle, false, [], map[])
    ensures s'.csv == Less(s.csv, Own(c, i, listing))
    ensures Filed(c, s, s', i, Convert(c.env, Own(c, i, listing), s.csv).value)
    ensures Written(s'.hist.appended) == Written(s.hist.appended) + BatchItems(c.env, Own(c, i, listing), s.csv)
  {
    hide Reachable, Convert, BatchItems, Leads, Written, Filed, Less, GroupItems, Own, Listing, LockName, FileName, Step;
    var fl := Own(c, i, listing);
    GroupsFree(c, s, fl);
    s1 := Started(c, s, i, listing);
    var groups := s1.parsers[i].todo;
    var s2 := AllVisited(c, s1, i);
    s' := Ended(c, s2, i);
    LeadsTo(c, s1, i, s2, s');
    ConvertKeepsRows(c.env, fl, s.csv);
    FiledAlike(c, s, s1, s2, s', i, groups);
  }

  lemma FiledAlike(c: Config, s: State, s1: State, s2: State, s': State, i: nat, todo: map<string, Records>)
    requires i < |s.parsers| == |s1.parsers| && s1.work == s.work && s1.parsers[i].createTable == s.parsers[i].createTable
    requires s'.work == s2.work && Filed(c, s1, s2, i, todo)
    ensures Filed(c, s, s', i, todo)
  {
    hide Statements, FileName;
    assert forall t :: Creates(c, s, i, t) == Creates(c, s1, i, t);
  }

  /**
   * If the batch throws, the parser ends there: no csv file is removed, nothing is
   * written, and it never takes another step. With nothing of its own in the listing it
   * looks again.
   */
  lemma ThrowingEnds(c: Config, s: State, i: nat, listing: seq<string>) returns (s1: State)
    requires c.procs > 0 && i < |s.parsers| && s.parsers[i].pc.Idle? && Listing(s, listing)
    requires Own(c, i, listing) == [] || Convert(c.env, Own(c, i, listing), s.csv).None?
    ensures Step(c, s, ParserEvent(i, Begin(listing))) == Some(s1)
    ensures s1 == if Own(c, i, listing) == [] then s
                  else s.(parsers := s.parsers[i := s.parsers[i].(pc := Dead)])
    ensures s1.parsers[i].pc.Dead? ==> forall ch :: Step(c, s1, ParserEvent(i, ch)).None?
  {
    hide Listing, Share, Take, WellNamed;
    s1 := if Own(c, i, listing) == [] then s else BeginStep(c, s, i, Own(c, i, listing));
  }
}

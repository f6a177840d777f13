/** With one table for everything: two ways in which an INSERT reaches the server before any CREATE. */
module OneTable {
  import opened Wrappers
  import opened Lists
  import opened Decoder
  import opened Ordered
  import opened Minutes
  import opened Batch
  import opened WorkList
  import opened Pipeline
  import opened RowAccount
  import opened Invariant
  import opened InvariantDb
  import opened Progress
  import opened Draining
  import opened Converting
  import opened Samples

  /** One parser, all in one table. */
  predicate Single(c: Config) {
    c.oneTable && c.procs == 1 && c.limit >= 1
  }

  /** The one parser stands at `pc`. */
  predicate Stands(s: State, pc: ParserPc, createTable: bool) {
    |s.parsers| == 1 && s.parsers[0].pc == pc && s.parsers[0].createTable == createTable
  }

  /** Nothing but the parser, its files and the csv directory have changed. */
  predicate ParserOnly(s: State, s': State) {
    s'.db == s.db && s'.dbpc == s.dbpc && s'.hist.arrived == s.hist.arrived
  }

  // ---------- a batch of one file ----------

  lemma OwnShare(c: Config, name: string)
    requires Single(c) && CsvName(name)
    ensures Take(Share([name], 0, c.procs), c.limit) == [name]
  {
    assert Mine(name, 0, 1);
    assert [name][..0] == [] && Share([], 0, 1) == [];
    assert Share([name], 0, 1) == [] + [name];
  }

  /** When nobody is in a critical section, no lock directory is there. */
  lemma NoLocks(c: Config, s: State, file: string)
    requires Single(c) && Reachable(c, s) && |s.parsers| == 1 && s.parsers[0].pc.Idle? && s.dbpc.Scan?
    ensures LockName(file) !in s.work
  {
    hide Reachable, Inv, LockName;
    if LockName(file) in s.work {
      ReachableInv(c, s);
      var b := LockHolder(c, s, file);
      assert false;
    }
  }

  /** The one parser converts one csv file. */
  lemma Batched(c: Config, s: State, name: string) returns (s': State)
    requires Single(c) && Reachable(c, s) && CsvName(name) && AllWellNamed([name]) && name in s.csv
    requires |s.parsers| == 1 && s.parsers[0].pc.Idle? && s.dbpc.Scan? && Convert(c.env, [name], s.csv).Some?
    ensures Reachable(c, s') && ParserOnly(s, s') && Stands(s', Idle, false) && s'.csv == s.csv - {name}
    ensures Filed(c, s, s', 0, Convert(c.env, [name], s.csv).value)
  {
    hide Reachable, Convert, Extension, WellNamed, Filed, LockName, FileName, Leads, Share, Take, BatchItems, Written, Step;
    OwnShare(c, name);
    forall t | t in Convert(c.env, [name], s.csv).value
      ensures LockName(FileName(t)) !in s.work
    {
      NoLocks(c, s, FileName(t));
    }
    var s1;
    s1, s' := CanConvert(c, s, 0, [name]);
    ReachableStep(c, s, ParserEvent(0, Begin([name])), s1);
    LeadsReaches(c, s1, 0, s');
  }

  lemma FiledNew(c: Config, s: State, s': State, groups: map<string, Records>, t: string)
    requires |s.parsers| == 1 && Filed(c, s, s', 0, groups) && t in groups && FileName(t) !in s.work
    ensures HasFile(s', FileName(t)) && s'.work[FileName(t)].stmts == Statements(c, t, Creates(c, s, 0, t), groups[t])
  {
    hide Statements, FileName;
  }

  lemma FiledKeeps(c: Config, s: State, s': State, groups: map<string, Records>, file: string)
    requires |s.parsers| == 1 && Filed(c, s, s', 0, groups) && HasFile(s, file)
    ensures HasFile(s', file) && Content(s.work, file) <= Content(s'.work, file)
  {
    hide Statements, FileName;
  }

  lemma FiledOnly(c: Config, s: State, s': State, groups: map<string, Records>, file: string)
    requires |s.parsers| == 1 && Filed(c, s, s', 0, groups) && file !in s.work && file in s'.work
    ensures exists t :: t in groups && FileName(t) == file
  {
    hide Statements, FileName;
  }

  // ---------- arrivals, the database process ----------

  lemma Arrived(c: Config, first: string, lines1: seq<string>, second: string, lines2: seq<string>) returns (s: State)
    requires Single(c) && first != second
    ensures Reachable(c, s) && Stands(s, Idle, true)
    ensures s.csv == map[first := lines1, second := lines2] && s.hist.arrived == s.csv
    ensures s.work == map[] && s.db == Database(map[], map[]) && s.dbpc.Scan?
  {
    var s0 := Init(c);
    assert Run(c, []) == Some(s0);
    var e1, e2 := Arrival(first, lines1), Arrival(second, lines2);
    var s1 := Step(c, s0, e1).value;
    s := Step(c, s1, e2).value;
    ReachableStep(c, s0, e1, s1);
    ReachableStep(c, s1, e2, s);
  }

  lemma Taken(c: Config, s: State, file: string) returns (s': State)
    requires Single(c) && Reachable(c, s) && s.dbpc.Scan? && HasFile(s, file) && LockName(file) !in s.work
    ensures Reachable(c, s') && s'.db == s.db && s'.dbpc == Read(file, 0) && s'.hist.arrived == s.hist.arrived
    ensures s'.work == s.work[LockName(file) := Lock]
  {
    hide Reachable;
    assert |LockName(file)| == |file| + 1;
    var s1 := s.(dbpc := Want(file));
    var s2 := WantStep(s1, file);
    s' := s2.(dbpc := Read(file, 0));
    ReachableStep(c, s, DbEvent(Entry(file)), s1);
    ReachableStep(c, s1, DbEvent(Proceed), s2);
    ReachableStep(c, s2, DbEvent(Proceed), s');
  }

  // ---------- a first file without lines ----------

  lemma EmptyFile(env: Environment, name: string, csv: map<string, seq<string>>)
    requires WellNamed(name) && name in csv && csv[name] == []
    ensures AllWellNamed([name]) && Convert(env, [name], csv) == Some(map[])
  {
    hide WellNamed;
    assert [name][..0] == [];
    assert FileDetections(env, 1, StampOf(env, name), []) == Some([]);
    assert BatchDetections(env, [], csv) == Some([]);
    assert BatchDetections(env, [name], csv) == Some([] + []);
    GroupsAreSplit(map[]);
    NoGroups(Groups(map[]));
  }

  lemma NoGroups(groups: map<string, Records>)
    requires IsSplit(map[], groups)
    ensures groups == map[]
  {
    var none: Records := map[];
    var nowhere: map<string, Records> := map[];
    SplitUnique(none, groups, nowhere);
  }

  /** The database process is at an INSERT, the first statement of its file, and no table exists. */
  ghost predicate AtBareInsert(c: Config, s: State, file: string) {
    && s.dbpc == Read(file, 0) && HasFile(s, file) && s.work[file].stmts != []
    && s.work[file].stmts[0].InsertMain? && s.db == Database(map[], map[])
    && !TablesExist(s.db, s.work[file].stmts[0])
  }

  lemma BareStatements(c: Config, t: string, data: Records)
    ensures var stmts := Statements(c, t, false, data); stmts != [] && stmts[0] == InsertMain(Table(c, t), data)
  {
  }

  /**
   * When the first csv file a parser converts has no accepted line and a later one has
   * some, the CREATE is never written: a state is reachable in which the database
   * process is about to execute an INSERT although no table exists.
   */
  lemma CreateMissing(c: Config, first: string, second: string, lines: seq<string>) returns (s: State, file: string)
    requires Single(c) && CsvName(first) && CsvName(second) && first != second && AllWellNamed([second])
    requires var g := Convert(c.env, [second], map[second := lines]); g.Some? && g.value != map[]
    ensures Reachable(c, s) && AtBareInsert(c, s, file)
    ensures s.hist.arrived == map[first := [], second := lines]
  {
    hide Reachable, Convert, Extension, WellNamed, Table, Statements, FileName;
    var s1 := Arrived(c, first, [], second, lines);
    EmptyFile(c.env, first, s1.csv);
    var s2 := Batched(c, s1, first);
    assert s2.work == map[] by { NoneFiled(c, s1, s2); }
    assert s2.csv == map[second := lines];
    var t := Member(Convert(c.env, [second], s2.csv).value.Keys);
    s, file := Reached(c, s2, second, t);
  }

  lemma NoneFiled(c: Config, s: State, s': State)
    requires |s.parsers| == 1 && Filed(c, s, s', 0, map[]) && s.work == map[]
    ensures s'.work == map[]
  {
    hide Statements, FileName;
  }

  /** A group of a later batch in a new file: the database process finds an INSERT at its head. */
  lemma Reached(c: Config, s: State, name: string, t: string) returns (s': State, file: string)
    requires Single(c) && Reachable(c, s) && CsvName(name) && AllWellNamed([name]) && name in s.csv
    requires Stands(s, Idle, false) && s.db == Database(map[], map[]) && s.dbpc.Scan?
    requires var g := Convert(c.env, [name], s.csv); g.Some? && t in g.value
    requires FileName(t) !in s.work
    ensures Reachable(c, s') && file == FileName(t) && AtBareInsert(c, s', file) && s'.hist.arrived == s.hist.arrived
    ensures s'.work[file].stmts[0].table == Table(c, t)
    ensures forall other :: HasFile(s, other) ==> HasFile(s', other) && Content(s.work, other) <= Content(s'.work, other)
  {
    hide Reachable, Convert, Extension, WellNamed, Table, Statements, FileName, Filed;
    file := FileName(t);
    var groups := Convert(c.env, [name], s.csv).value;
    var s1 := Batched(c, s, name);
    BareStatements(c, t, groups[t]);
    FiledNew(c, s, s1, groups, t);
    NoLocks(c, s1, file);
    s' := Taken(c, s1, file);
    assert |LockName(file)| == |file| + 1;
    forall other | HasFile(s, other)
      ensures HasFile(s', other) && Content(s.work, other) <= Content(s'.work, other)
    {
      FiledKeeps(c, s, s1, groups, other);
      assert other != LockName(file);
    }
  }

  // ---------- a CREATE in another file ----------

  /**
   * Also when the first csv file has accepted lines: its sql file begins with a CREATE,
   * the next one, of another minute, does not, and the database process may open that
   * one first.
   */
  lemma CreateTooLate(c: Config, first: string, t1: string, lines1: seq<string>,
                      second: string, t2: string, lines2: seq<string>)
    returns (s: State, file: string, other: string)
    requires Single(c) && CsvName(first) && CsvName(second) && first != second && t1 != t2
    requires AllWellNamed([first]) && AllWellNamed([second])
    requires var g := Convert(c.env, [first], map[first := lines1, second := lines2]); g.Some? && g.value.Keys == {t1}
    requires var g := Convert(c.env, [second], map[second := lines2]); g.Some? && t2 in g.value
    ensures Reachable(c, s) && AtBareInsert(c, s, file) && s.work[file].stmts[0].table == Table(c, t2)
    ensures other != file && HasFile(s, other) && s.work[other].stmts != [] && s.work[other].stmts[0] == CreateMain(Table(c, t1))
    ensures s.hist.arrived == map[first := lines1, second := lines2]
  {
    hide Reachable, Convert, Extension, WellNamed, Table, Statements, FileName;
    other := FileName(t1);
    NamesApart(t1, t2);
    var s1 := Arrived(c, first, lines1, second, lines2);
    var s2 := FirstBatch(c, s1, first, t1);
    assert s2.csv == map[second := lines2];
    s, file := Reached(c, s2, second, t2);
    assert Content(s2.work, other) <= Content(s.work, other);
  }

  /** A first batch of one group leaves one sql file, which begins with a CREATE. */
  lemma FirstBatch(c: Config, s: State, name: string, t: string) returns (s': State)
    requires Single(c) && Reachable(c, s) && CsvName(name) && AllWellNamed([name])
    requires Stands(s, Idle, true) && s.dbpc.Scan? && name in s.csv && s.work == map[]
    requires var g := Convert(c.env, [name], s.csv); g.Some? && g.value.Keys == {t}
    ensures Reachable(c, s') && ParserOnly(s, s') && Stands(s', Idle, false) && s'.csv == s.csv - {name}
    ensures s'.work.Keys == {FileName(t)} && HasFile(s', FileName(t))
    ensures s'.work[FileName(t)].stmts != [] && s'.work[FileName(t)].stmts[0] == CreateMain(Table(c, t))
  {
    hide Reachable, Convert, Extension, WellNamed, Table, Statements, FileName, Filed;
    var groups := Convert(c.env, [name], s.csv).value;
    assert t in groups by { SomeKey(groups, t); }
    s' := Batched(c, s, name);
    FiledNew(c, s, s', groups, t);
    CreateStatements(c, t, groups[t]);
    forall file | file in s'.work
      ensures file == FileName(t)
    {
      FiledOnly(c, s, s', groups, file);
      var u :| u in groups && FileName(u) == file;
      assert u in groups.Keys;
    }
  }

  lemma NamesApart(t1: string, t2: string)
    ensures FileName(t1) == FileName(t2) ==> t1 == t2
  {
    assert FileName(t1)[..|t1|] == t1 && FileName(t2)[..|t2|] == t2;
  }

  lemma CreateStatements(c: Config, t: string, data: Records)
    ensures var stmts := Statements(c, t, true, data); stmts != [] && stmts[0] == CreateMain(Table(c, t))
  {
  }

  // ---------- instances ----------

  /** Rotations are zero; times do not matter. */
  const ENV := Environment(_ => 0, 0, _ => Some(Finite("0.0")))
  const EARLY := "20140805100033"
  const LATE := "20140805100133"

  lemma Names()
    ensures CsvName(PictureName(EARLY)) && StampTime(PictureName(EARLY)) == EARLY
    ensures CsvName(PictureName(LATE)) && StampTime(PictureName(LATE)) == LATE
    ensures ENV.stod("0").Some?
  {
    hide PictureName, CsvName, StampTime;
    PictureNamed(ENV, EARLY);
    PictureNamed(ENV, LATE);
  }

  lemma NamesDiffer()
    ensures PictureName(EARLY) != PictureName(LATE)
  {
    hide PictureName, StampTime;
    Names();
    assert EARLY[11] == '0' && LATE[11] == '1';
  }

  /** An empty file, then one line of zeros. */
  lemma CreateMissingExample() returns (c: Config, s: State, file: string)
    ensures c == Config(true, 1, 1, ENV)
    ensures Reachable(c, s) && AtBareInsert(c, s, file)
    ensures s.hist.arrived == map[PictureName(EARLY) := [], PictureName(LATE) := [ZeroLine("0")]]
  {
    hide ENV, EARLY, LATE, PictureName, Reachable, Convert, AtBareInsert, Extension, WellNamed, ZeroLine, StampTime, Minute;
    c := Config(true, 1, 1, ENV);
    var first, second := PictureName(EARLY), PictureName(LATE);
    Names();
    NamesDiffer();
    OneLineConverted(c.env, second, map[second := [ZeroLine("0")]], "0");
    SomeKey(Convert(c.env, [second], map[second := [ZeroLine("0")]]).value, Minute(LATE));
    s, file := CreateMissing(c, first, second, [ZeroLine("0")]);
  }

  lemma SomeKey(groups: map<string, Records>, t: string)
    requires groups.Keys == {t}
    ensures groups != map[] && t in groups
  {
    assert t in groups.Keys;
  }

  /** One line of zeros in each of two files of successive minutes: one table, the CREATE in the other sql file. */
  lemma CreateTooLateExample() returns (c: Config, s: State, file: string, other: string)
    ensures c == Config(true, 1, 1, ENV)
    ensures Reachable(c, s) && AtBareInsert(c, s, file)
    ensures other != file && HasFile(s, other) && s.work[other].stmts != []
    ensures s.work[other].stmts[0] == CreateMain(s.work[file].stmts[0].table)
    ensures s.hist.arrived == map[PictureName(EARLY) := [ZeroLine("0")], PictureName(LATE) := [ZeroLine("0")]]
  {
    hide ENV, EARLY, LATE, PictureName, Reachable, Convert, AtBareInsert, Extension, WellNamed, ZeroLine, StampTime, Minute,
      Table, FileName, LockName;
    c := Config(true, 1, 1, ENV);
    var first, second, lines := PictureName(EARLY), PictureName(LATE), [ZeroLine("0")];
    Names();
    NamesDiffer();
    MinutesDiffer(c);
    OneLineConverted(c.env, first, map[first := lines, second := lines], "0");
    OneLineConverted(c.env, second, map[second := lines], "0");
    SomeKey(Convert(c.env, [second], map[second := lines]).value, Minute(LATE));
    s, file, other := CreateTooLate(c, first, Minute(EARLY), lines, second, Minute(LATE), lines);
  }

  lemma MinutesDiffer(c: Config)
    requires c.oneTable
    ensures Minute(EARLY) != Minute(LATE) && Table(c, Minute(EARLY)) == Table(c, Minute(LATE))
  {
    var t1, t2 := Minute(EARLY), Minute(LATE);
    assert t1[12] == '0' && t2[12] == '1';
    assert t1[..5] == t2[..5];
  }
}

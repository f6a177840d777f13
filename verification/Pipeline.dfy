/**
 * The hand-off protocol of main.cpp as a step system: any number of parser processes
 * and one database process over a shared working directory, coordinated by nothing but
 * `mkdir` and `rmdir`. One step is one file-system or database call.
 */
module Pipeline {
  import opened Wrappers
  import opened Lists
  import opened FreshName
  import opened Decoder
  import opened Rows
  import opened Minutes
  import opened Batch
  import opened Columns
  import opened WorkList

  // ---------- statements and the database ----------

  /** The statements of an sql file; the two INSERTs print a group of records. */
  datatype Stmt =
    | CreateMain(table: string)
    | CreateCandidates(table: string)
    | InsertMain(table: string, data: Records)
    | InsertCandidates(table: string, data: Records)

  /** What a statement inserts. */
  ghost function StmtItems(stmt: Stmt): multiset<Item> {
    match stmt
    case InsertMain(_, data) => MainItems(data)
    case InsertCandidates(_, data) => CandidateItems(data)
    case _ => multiset{}
  }

  /** The rows of the main table and of the candidate table, per table name. */
  datatype Database = Database(main: map<string, multiset<Item>>, candidates: map<string, multiset<Item>>)

  function RowsIn(tables: map<string, multiset<Item>>, t: string): multiset<Item> {
    if t in tables then tables[t] else multiset{}
  }

  /** The rows of the table a statement inserts into. */
  function TableRows(db: Database, stmt: Stmt): multiset<Item> {
    match stmt
    case InsertMain(t, _) => RowsIn(db.main, t)
    case InsertCandidates(t, _) => RowsIn(db.candidates, t)
    case _ => multiset{}
  }

  /** Some row of the main table has this id. */
  ghost predicate Referenced(rows: multiset<Item>, id: int) {
    exists y :: y in rows && IdOf(y) == id
  }

  /** The foreign key of the candidate table: every id is already in the main table. */
  ghost predicate ForeignKeyHolds(db: Database, stmt: Stmt) {
    stmt.InsertCandidates? ==>
      forall x :: x in StmtItems(stmt) ==> Referenced(RowsIn(db.main, stmt.table), IdOf(x))
  }

  /** The table a statement writes to or refers to exists. */
  predicate TablesExist(db: Database, stmt: Stmt) {
    match stmt
    case CreateMain(_) => true
    case CreateCandidates(t) => t in db.main
    case InsertMain(t, _) => t in db.main
    case InsertCandidates(t, _) => t in db.candidates
  }

  /** No primary key is used twice, within the statement or against the table. */
  ghost predicate KeysFresh(db: Database, stmt: Stmt) {
    KeysUnique(TableRows(db, stmt) + StmtItems(stmt))
  }

  /** Every value is in the range of its column. */
  ghost predicate ColumnsFit(stmt: Stmt) {
    forall x :: x in StmtItems(stmt) ==> Fits(x)
  }

  /** What the server demands of a statement it accepts. */
  ghost predicate Admissible(db: Database, stmt: Stmt) {
    TablesExist(db, stmt) && ForeignKeyHolds(db, stmt) && KeysFresh(db, stmt) && ColumnsFit(stmt)
  }

  /** The effect of an accepted statement; CREATE leaves an existing table alone. */
  ghost function Apply(db: Database, stmt: Stmt): Database {
    match stmt
    case CreateMain(t) => if t in db.main then db else db.(main := db.main[t := multiset{}])
    case CreateCandidates(t) => if t in db.candidates then db else db.(candidates := db.candidates[t := multiset{}])
    case InsertMain(t, data) => db.(main := db.main[t := RowsIn(db.main, t) + MainItems(data)])
    case InsertCandidates(t, data) =>
      db.(candidates := db.candidates[t := RowsIn(db.candidates, t) + CandidateItems(data)])
  }

  // ---------- names ----------

  function FileName(t: string): string {
    t + ".sql"
  }

  function LockName(file: string): (l: string)
    ensures l != [] && l[0] == 'd' && l[1..] == file
  {
    "d" + file
  }

  // ---------- states ----------

  /** An entry of the working directory. */
  datatype Entry = Lock | File(stmts: seq<Stmt>)

  /** Where a parser process stands. */
  datatype ParserPc =
    | Idle                                   // head of the outer loop
    | Choose                                 // head of the loop over the groups
    | Acquire(t: string)                     // about to call mkdir
    | Check(t: string)                       // lock taken, about to look for the file
    | Open(t: string, create: bool)          // about to open the file for appending
    | Write(t: string, queue: seq<Stmt>)     // file open, `queue` still to be put; closes when empty
    | Release(t: string)                     // file closed, about to call rmdir
    | Remove(rest: seq<string>)              // removing the converted csv files
    | Dead                                   // ended by an uncaught exception

  datatype Parser = Parser(pc: ParserPc, createTable: bool, batch: seq<string>, todo: map<string, Records>)

  /** Where the database process stands; `pos` counts the executed statements of the file. */
  datatype DbPc =
    | Scan
    | Want(file: string)
    | Opening(file: string)
    | Read(file: string, pos: nat)
    | Unlink(file: string)
    | Probe(file: string, pos: nat, dest: string)
    | Rename(file: string, pos: nat, dest: string)
    | Leave(file: string)

  /** What became of one generation of an sql file. */
  datatype Generation =
    | Drained(stmts: seq<Stmt>)
    | Moved(stmts: seq<Stmt>, upTo: nat, dest: string)

  /** History, never read by a process: what arrived, was converted, appended, executed and retired so far. */
  datatype History = History(
    arrived: map<string, seq<string>>,
    consumed: set<string>,
    batches: seq<seq<string>>,
    converted: multiset<Item>,
    appended: map<string, seq<Stmt>>,
    executed: map<string, seq<Stmt>>,
    retired: map<string, seq<Generation>>)

  datatype State = State(
    csv: map<string, seq<string>>,
    work: map<string, Entry>,
    err: map<string, seq<Stmt>>,
    db: Database,
    dbpc: DbPc,
    parsers: seq<Parser>,
    hist: History)

  /** Parameters of a run: the table mode, the number of parsers and the files each may take at once. */
  datatype Config = Config(oneTable: bool, procs: nat, limit: int, env: Environment)

  function Table(c: Config, t: string): string {
    if c.oneTable && |t| > 5 then t[..5] else t
  }

  /** What a parser puts into the file of a group. */
  function Statements(c: Config, t: string, create: bool, data: Records): seq<Stmt> {
    (if create then [CreateMain(Table(c, t)), CreateCandidates(Table(c, t))] else [])
    + [InsertMain(Table(c, t), data), InsertCandidates(Table(c, t), data)]
  }

  function Get<T>(m: map<string, seq<T>>, key: string): seq<T> {
    if key in m then m[key] else []
  }

  function Content(work: map<string, Entry>, file: string): seq<Stmt> {
    if file in work && work[file].File? then work[file].stmts else []
  }

  predicate HasFile(s: State, file: string) {
    file in s.work && s.work[file].File?
  }

  predicate HasLock(s: State, l: string) {
    l in s.work && s.work[l].Lock?
  }

  function Init(c: Config): State {
    State(
      map[], map[], map[], Database(map[], map[]), Scan,
      seq(c.procs, _ => Parser(Idle, true, [], map[])),
      History(map[], {}, [], multiset{}, map[], map[], map[]))
  }

  // ---------- steps ----------

  /** What a parser step leaves open. */
  datatype Choice =
    | Begin(listing: seq<string>)  // the csv directory as `readdir` shows it
    | Pick(t: string)              // the next group
    | Go

  /** What a database step leaves open. */
  datatype DbChoice =
    | Entry(name: string)  // the entry `readdir` returns
    | Exec(ok: bool)       // the result of a statement
    | Proceed

  /** A listing shows files that are there, each at most once; late arrivals may be missed. */
  predicate Listing(s: State, listing: seq<string>) {
    NoDuplicates(listing) && ProperListing(listing) && forall i :: 0 <= i < |listing| ==> listing[i] in s.csv
  }

  function WithParser(s: State, i: nat, p: Parser): State
    requires i < |s.parsers|
  {
    s.(parsers := s.parsers[i := p])
  }

  /** Only parser `i` has moved; the database process has not noticed. */
  predicate OnlyParser(s: State, s': State, i: nat) {
    && i < |s.parsers| == |s'.parsers|
    && s'.parsers == s.parsers[i := s'.parsers[i]]
    && s'.dbpc == s.dbpc && s'.db == s.db && s'.err == s.err && s'.hist.executed == s.hist.executed
    && s'.hist.retired == s.hist.retired
  }

  predicate SameFlag(s: State, s': State, i: nat) {
    i < |s.parsers| == |s'.parsers| && s'.parsers[i].createTable == s.parsers[i].createTable
  }

  /** Reading and grouping a batch touches nothing shared, so it is one step. */
  ghost function BeginStep(c: Config, s: State, i: nat, fl: seq<string>): (s': State)
    requires i < |s.parsers| && AllWellNamed(fl)
    ensures OnlyParser(s, s', i) && SameFlag(s, s', i)
    ensures s'.parsers[i].pc.Choose? || s'.parsers[i].pc.Dead?
  {
    var p := s.parsers[i];
    match Convert(c.env, fl, s.csv)
    case None => WithParser(s, i, p.(pc := Dead))
    case Some(groups) =>
      WithParser(s, i, p.(pc := Choose, batch := fl, todo := groups))
        .(hist := s.hist.(batches := s.hist.batches + [fl],
                          converted := s.hist.converted + BatchItems(c.env, fl, s.csv)))
  }

  function Goto(s: State, i: nat, pc: ParserPc): (s': State)
    requires i < |s.parsers|
    ensures OnlyParser(s, s', i) && SameFlag(s, s', i)
    ensures s'.parsers[i].pc == pc
  {
    WithParser(s, i, s.parsers[i].(pc := pc))
  }

  /** All groups written: `csv2sql` returns and the flag is cleared. */
  function FinishStep(s: State, i: nat): (s': State)
    requires i < |s.parsers|
    ensures OnlyParser(s, s', i)
    ensures s'.parsers[i].pc.Remove?
  {
    WithParser(s, i, s.parsers[i].(pc := Remove(s.parsers[i].batch), createTable := false))
  }

  /** The attempt to make the lock directory fails when anything has that name. */
  function AcquireStep(s: State, i: nat, t: string): (s': State)
    requires i < |s.parsers|
    ensures OnlyParser(s, s', i) && SameFlag(s, s', i)
    ensures s'.parsers[i].pc == if s' == s then s.parsers[i].pc else Check(t)
  {
    var l := LockName(FileName(t));
    if l in s.work then s else Goto(s, i, Check(t)).(work := s.work[l := Lock])
  }

  function CheckStep(c: Config, s: State, i: nat, t: string): (s': State)
    requires i < |s.parsers|
    ensures OnlyParser(s, s', i) && SameFlag(s, s', i)
  {
    Goto(s, i, Open(t, if c.oneTable then s.parsers[i].createTable else FileName(t) !in s.work))
  }

  /** `fopen(..., "a")` makes the file when it is missing. */
  function OpenStep(c: Config, s: State, i: nat, t: string, create: bool): (s': State)
    requires i < |s.parsers| && t in s.parsers[i].todo
    ensures OnlyParser(s, s', i) && SameFlag(s, s', i)
  {
    var p, file := s.parsers[i], FileName(t);
    WithParser(s, i, p.(pc := Write(t, Statements(c, t, create, p.todo[t])), todo := p.todo - {t}))
      .(work := if file in s.work then s.work else s.work[file := File([])])
  }

  function WriteStep(s: State, i: nat, t: string, queue: seq<Stmt>): (s': State)
    requires i < |s.parsers| && queue != [] && HasFile(s, FileName(t))
    ensures OnlyParser(s, s', i) && SameFlag(s, s', i)
  {
    var file := FileName(t);
    Goto(s, i, Write(t, queue[1..]))
      .(work := s.work[file := File(s.work[file].stmts + [queue[0]])],
        hist := s.hist.(appended := s.hist.appended[file := Get(s.hist.appended, file) + [queue[0]]]))
  }

  function ReleaseStep(s: State, i: nat, t: string): (s': State)
    requires i < |s.parsers|
    ensures OnlyParser(s, s', i) && SameFlag(s, s', i)
    ensures s'.parsers[i].pc == Choose
  {
    Goto(s, i, Choose).(work := s.work - {LockName(FileName(t))})
  }

  function RemoveStep(s: State, i: nat, rest: seq<string>): (s': State)
    requires i < |s.parsers| && rest != []
    ensures OnlyParser(s, s', i) && SameFlag(s, s', i)
    ensures s'.parsers[i].pc.Remove?
  {
    Goto(s, i, Remove(rest[1..]))
      .(csv := s.csv - {rest[0]}, hist := s.hist.(consumed := s.hist.consumed + {rest[0]}))
  }

  function RestStep(s: State, i: nat): (s': State)
    requires i < |s.parsers|
    ensures OnlyParser(s, s', i) && SameFlag(s, s', i)
    ensures s'.parsers[i].pc == Idle
  {
    WithParser(s, i, s.parsers[i].(pc := Idle, batch := []))
  }

  /** One step of parser `i`; None when the choice does not fit where it stands. */
  ghost function ParserStep(c: Config, s: State, i: nat, ch: Choice): Option<State>
    requires i < |s.parsers| && c.procs > 0
  {
    var p := s.parsers[i];
    match p.pc
    case Idle =>
      if ch.Begin? && Listing(s, ch.listing) then
        var fl := Take(Share(ch.listing, i, c.procs), c.limit);
        ShareWellNamed(ch.listing, i, c.procs, c.limit);
        Some(if fl == [] then s else BeginStep(c, s, i, fl))
      else None
    case Choose =>
      if ch.Pick? && ch.t in p.todo then Some(Goto(s, i, Acquire(ch.t)))
      else if ch.Go? && p.todo == map[] then Some(FinishStep(s, i))
      else None
    case Acquire(t) => if ch.Go? then Some(AcquireStep(s, i, t)) else None
    case Check(t) => if ch.Go? then Some(CheckStep(c, s, i, t)) else None
    case Open(t, create) =>
      if ch.Go? && t in p.todo && !HasLock(s, FileName(t)) then Some(OpenStep(c, s, i, t, create)) else None
    case Write(t, queue) =>
      if !ch.Go? then None
      else if queue == [] then Some(Goto(s, i, Release(t)))
      else if HasFile(s, FileName(t)) then Some(WriteStep(s, i, t, queue))
      else None
    case Release(t) => if ch.Go? then Some(ReleaseStep(s, i, t)) else None
    case Remove(rest) =>
      if ch.Go? then Some(if rest == [] then RestStep(s, i) else RemoveStep(s, i, rest)) else None
    case Dead => None
  }

  /** The database process has moved without executing anything; the parsers have not noticed. */
  predicate NoExecution(s: State, s': State) {
    s'.parsers == s.parsers && s'.db == s.db && s'.hist.executed == s.hist.executed
  }

  /** No file appears and none changes. */
  predicate NothingWritten(s: State, s': State) {
    forall name :: name in s'.work && s'.work[name].File? ==> name in s.work && s.work[name] == s'.work[name]
  }

  /** The generation of a file ends: it leaves the working directory. */
  function Retire(s: State, file: string, g: Generation): State {
    s.(work := s.work - {file}, dbpc := Leave(file),
       hist := s.hist.(retired := s.hist.retired[file := Get(s.hist.retired, file) + [g]]))
  }

  function WantStep(s: State, n: string): (s': State)
    ensures NoExecution(s, s') && NothingWritten(s, s')
  {
    if LockName(n) in s.work then s else s.(dbpc := Opening(n), work := s.work[LockName(n) := Lock])
  }

  ghost function ExecuteStep(s: State, n: string, pos: nat): (s': State)
    requires HasFile(s, n) && pos < |s.work[n].stmts|
    ensures NothingWritten(s, s')
  {
    var stmt := s.work[n].stmts[pos];
    s.(dbpc := Read(n, pos + 1), db := Apply(s.db, stmt),
       hist := s.hist.(executed := s.hist.executed[n := Get(s.hist.executed, n) + [stmt]]))
  }

  function UnlinkStep(s: State, n: string): (s': State)
    requires HasFile(s, n)
    ensures NoExecution(s, s') && NothingWritten(s, s')
    ensures s'.dbpc == Leave(n)
  {
    Retire(s, n, Drained(s.work[n].stmts))
  }

  function ProbeStep(s: State, n: string, pos: nat, dest: string): (s': State)
    requires |dest| >= 4
    ensures NoExecution(s, s') && NothingWritten(s, s')
  {
    s.(dbpc := if dest in s.err then Probe(n, pos, NextName(dest)) else Rename(n, pos, dest))
  }

  function RenameStep(s: State, n: string, pos: nat, dest: string): (s': State)
    requires HasFile(s, n)
    ensures NoExecution(s, s') && NothingWritten(s, s')
    ensures s'.dbpc == Leave(n)
  {
    Retire(s, n, Moved(s.work[n].stmts, pos, dest)).(err := s.err[dest := s.work[n].stmts])
  }

  function LeaveStep(s: State, n: string): (s': State)
    ensures NoExecution(s, s') && NothingWritten(s, s')
    ensures s'.dbpc == Scan
  {
    s.(dbpc := Scan, work := s.work - {LockName(n)})
  }

  /** One step of the database process; a refused statement sends the file to the error directory. */
  ghost function DbStep(s: State, ch: DbChoice): Option<State> {
    match s.dbpc
    case Scan =>
      if ch.Entry? then Some(if HasFile(s, ch.name) then s.(dbpc := Want(ch.name)) else s) else None
    case Want(n) => if ch.Proceed? then Some(WantStep(s, n)) else None
    case Opening(n) =>
      if ch.Proceed? then Some(s.(dbpc := if HasFile(s, n) then Read(n, 0) else Leave(n))) else None
    case Read(n, pos) =>
      if !HasFile(s, n) || pos > |s.work[n].stmts| then None
      else if pos == |s.work[n].stmts| then
        if ch.Proceed? then Some(s.(dbpc := Unlink(n))) else None
      else if ch.Exec? && !ch.ok then Some(s.(dbpc := Probe(n, pos, n)))
      else if ch.Exec? && Admissible(s.db, s.work[n].stmts[pos]) then Some(ExecuteStep(s, n, pos))
      else None
    case Unlink(n) => if ch.Proceed? && HasFile(s, n) then Some(UnlinkStep(s, n)) else None
    case Probe(n, pos, dest) => if ch.Proceed? && |dest| >= 4 then Some(ProbeStep(s, n, pos, dest)) else None
    case Rename(n, pos, dest) => if ch.Proceed? && HasFile(s, n) then Some(RenameStep(s, n, pos, dest)) else None
    case Leave(n) => if ch.Proceed? then Some(LeaveStep(s, n)) else None
  }

  datatype Event =
    | ParserEvent(i: nat, choice: Choice)
    | DbEvent(dbChoice: DbChoice)
    | Arrival(name: string, lines: seq<string>)

  /** One step of anybody; csv files arrive whole, under names never used before. */
  ghost function Step(c: Config, s: State, e: Event): Option<State>
    requires c.procs > 0
  {
    match e
    case ParserEvent(i, ch) => if i < |s.parsers| then ParserStep(c, s, i, ch) else None
    case DbEvent(ch) => DbStep(s, ch)
    case Arrival(name, lines) =>
      if name in s.hist.arrived then None
      else Some(s.(csv := s.csv[name := lines], hist := s.hist.(arrived := s.hist.arrived[name := lines])))
  }

  /** The state after a sequence of steps, None when some step is impossible. */
  ghost function Run(c: Config, es: seq<Event>): Option<State>
    requires c.procs > 0
  {
    if es == [] then Some(Init(c))
    else
      var before :- Run(c, es[..|es| - 1]);
      Step(c, before, es[|es| - 1])
  }

  ghost predicate Reachable(c: Config, s: State)
    requires c.procs > 0
  {
    exists es :: Run(c, es) == Some(s)
  }
}

/** The account of records and rows over a whole run. */
module RowAccount {
  import opened Sequences
  import opened Bags
  import opened Decoder
  import opened Rows
  import opened Minutes
  import opened Batch
  import opened Pipeline

  /** What a list of statements inserts. */
  ghost function ItemsIn(stmts: seq<Stmt>): multiset<Item> {
    if stmts == [] then multiset{} else ItemsIn(stmts[..|stmts| - 1]) + StmtItems(stmts[|stmts| - 1])
  }

  lemma {:induction false} ItemsInSnoc(stmts: seq<Stmt>, stmt: Stmt)
    ensures ItemsIn(stmts + [stmt]) == ItemsIn(stmts) + StmtItems(stmt)
  {
    assert (stmts + [stmt])[..|stmts|] == stmts;
  }

  lemma {:induction false} ItemsInConcat(a: seq<Stmt>, b: seq<Stmt>)
    ensures ItemsIn(a + b) == ItemsIn(a) + ItemsIn(b)
  {
    hide StmtItems, ItemsIn;
    if b == [] {
      RightUnit(a);
      NoRows();
    } else {
      var init, last := b[..|b| - 1], b[|b| - 1];
      ItemsInConcat(a, init);
      Prefix(b, |b| - 1);
      Whole(b);
      Associative(a, init, [last]);
      ItemsInSnoc(a + init, last);
      ItemsInSnoc(init, last);
    }
  }

  lemma ItemsInCons(stmts: seq<Stmt>)
    requires stmts != []
    ensures ItemsIn(stmts) == StmtItems(stmts[0]) + ItemsIn(stmts[1..])
  {
    assert stmts == [stmts[0]] + stmts[1..];
    ItemsInConcat([stmts[0]], stmts[1..]);
    ItemsInSnoc([], stmts[0]);
    assert [] + [stmts[0]] == [stmts[0]];
  }

  lemma ItemsInStatements(c: Config, t: string, create: bool, data: Records)
    ensures ItemsIn(Statements(c, t, create, data)) == ItemBag(data)
  {
    hide ItemBag, StmtItems, ItemsIn;
    var tb := Table(c, t);
    var main, candidates := InsertMain(tb, data), InsertCandidates(tb, data);
    ItemsInPair(main, candidates);
    assert StmtItems(main) + StmtItems(candidates) == ItemBag(data) by {
      InsertItems(tb, data);
    }
    if create {
      ItemsInPair(CreateMain(tb), CreateCandidates(tb));
      ItemsInConcat([CreateMain(tb), CreateCandidates(tb)], [main, candidates]);
      CreateItems(tb);
    } else {
      assert [] + [main, candidates] == [main, candidates];
    }
  }

  lemma InsertItems(tb: string, data: Records)
    ensures StmtItems(InsertMain(tb, data)) + StmtItems(InsertCandidates(tb, data)) == ItemBag(data)
  {
    hide ItemBag, MainItems, CandidateItems;
    TwoInserts(data);
  }

  lemma CreateItems(tb: string)
    ensures StmtItems(CreateMain(tb)) == multiset{} && StmtItems(CreateCandidates(tb)) == multiset{}
  {
  }

  lemma ItemsInPair(a: Stmt, b: Stmt)
    ensures ItemsIn([a, b]) == StmtItems(a) + StmtItems(b)
  {
    hide StmtItems;
    NoRows();
    assert [] + [a] == [a] && [a] + [b] == [a, b];
    ItemsInSnoc([], a);
    ItemsInSnoc([a], b);
  }

  ghost function WrittenMap(appended: map<string, seq<Stmt>>): map<string, multiset<Item>> {
    map file | file in appended :: ItemsIn(appended[file])
  }

  /** All that was ever appended to any sql file. */
  ghost function Written(appended: map<string, seq<Stmt>>): multiset<Item> {
    Total(WrittenMap(appended))
  }

  /** What a parser has converted and not yet appended. */
  ghost function Outstanding(p: Parser): multiset<Item> {
    GroupItems(p.todo) + if p.pc.Write? then ItemsIn(p.pc.queue) else multiset{}
  }

  ghost function AllOutstanding(parsers: seq<Parser>): multiset<Item> {
    if parsers == [] then multiset{} else AllOutstanding(parsers[..|parsers| - 1]) + Outstanding(parsers[|parsers| - 1])
  }

  lemma {:induction false} OutstandingUpdate(parsers: seq<Parser>, i: nat, p: Parser)
    requires i < |parsers|
    ensures AllOutstanding(parsers[i := p]) + Outstanding(parsers[i]) == AllOutstanding(parsers) + Outstanding(p)
  {
    hide Outstanding;
    var init, last := parsers[..|parsers| - 1], |parsers| - 1;
    if i == last {
      assert parsers[i := p][..last] == init;
    } else {
      OutstandingUpdate(init, i, p);
      assert parsers[i := p][..last] == init[i := p];
      AddBoth(AllOutstanding(init[i := p]), Outstanding(parsers[i]), AllOutstanding(init), Outstanding(p),
              Outstanding(parsers[last]));
    }
  }

  lemma AddBoth<T>(a: multiset<T>, b: multiset<T>, c: multiset<T>, d: multiset<T>, more: multiset<T>)
    requires a + b == c + d
    ensures (a + more) + b == (c + more) + d
  {
    assert (a + more) + b == (a + b) + more;
    assert (c + more) + d == (c + d) + more;
  }

  /** What one parser gains or appends moves between the three sides of the account. */
  lemma Exchange<T>(converted: multiset<T>, gained: multiset<T>, written: multiset<T>, put: multiset<T>,
                    all: multiset<T>, all': multiset<T>, before: multiset<T>, after: multiset<T>)
    requires converted == written + all
    requires all' + before == all + after
    requires after + put == before + gained
    ensures converted + gained == (written + put) + all'
  {
    forall x
      ensures (converted + gained)[x] == ((written + put) + all')[x]
    {
      assert (all' + before)[x] == (all + after)[x];
      assert (after + put)[x] == (before + gained)[x];
    }
  }

  lemma {:induction false} NoneOutstanding(parsers: seq<Parser>)
    requires forall i :: 0 <= i < |parsers| ==> Outstanding(parsers[i]) == multiset{}
    ensures AllOutstanding(parsers) == multiset{}
  {
    hide Outstanding;
    if parsers != [] {
      NoneOutstanding(parsers[..|parsers| - 1]);
    }
  }

  /** Between batches a parser has nothing left to write. */
  ghost predicate RestsEmpty(p: Parser) {
    p.pc.Idle? || p.pc.Remove? || p.pc.Dead? ==> p.todo == map[]
  }

  /** Everything converted has been appended or is outstanding, and nothing twice. */
  ghost predicate RowsRight(s: State) {
    && s.hist.converted == Written(s.hist.appended) + AllOutstanding(s.parsers)
    && forall i :: 0 <= i < |s.parsers| ==> RestsEmpty(s.parsers[i])
  }

  /** A parser moves: it gains converted items, or puts some of its own into a file. */
  lemma RowsMove(s: State, s': State, i: nat, p: Parser, gained: multiset<Item>, put: multiset<Item>)
    requires RowsRight(s) && i < |s.parsers| && s'.parsers == s.parsers[i := p] && RestsEmpty(p)
    requires s'.hist.converted == s.hist.converted + gained
    requires Written(s'.hist.appended) == Written(s.hist.appended) + put
    requires Outstanding(p) + put == Outstanding(s.parsers[i]) + gained
    ensures RowsRight(s')
  {
    hide Written, Outstanding, AllOutstanding;
    OutstandingUpdate(s.parsers, i, p);
    Exchange(s.hist.converted, gained, Written(s.hist.appended), put,
             AllOutstanding(s.parsers), AllOutstanding(s'.parsers), Outstanding(s.parsers[i]), Outstanding(p));
  }

  /** A step that neither converts nor appends. */
  lemma RowsUnmoved(s: State, s': State, i: nat, p: Parser)
    requires RowsRight(s) && i < |s.parsers| && s'.parsers == s.parsers[i := p] && RestsEmpty(p)
    requires p.todo == s.parsers[i].todo
    requires p.pc.Write? ==> s.parsers[i].pc.Write? && p.pc.queue == s.parsers[i].pc.queue
    requires s.parsers[i].pc.Write? && !p.pc.Write? ==> s.parsers[i].pc.queue == []
    requires s'.hist.converted == s.hist.converted && s'.hist.appended == s.hist.appended
    ensures RowsRight(s')
  {
    hide Written, AllOutstanding, GroupItems;
    RowsMove(s, s', i, p, multiset{}, multiset{});
  }

  lemma BeginKeepsRows(c: Config, s: State, i: nat, fl: seq<string>)
    requires i < |s.parsers| && AllWellNamed(fl) && s.parsers[i].pc.Idle? && RowsRight(s)
    ensures RowsRight(BeginStep(c, s, i, fl))
  {
    hide Written, AllOutstanding, GroupItems, Convert, BatchItems;
    var s' := BeginStep(c, s, i, fl);
    assert RestsEmpty(s.parsers[i]);
    if Convert(c.env, fl, s.csv).None? {
      RowsUnmoved(s, s', i, s'.parsers[i]);
    } else {
      ConvertKeepsRows(c.env, fl, s.csv);
      EmptyRows();
      RowsMove(s, s', i, s'.parsers[i], BatchItems(c.env, fl, s.csv), multiset{});
    }
  }

  lemma TakeGroup(todo: map<string, Records>, t: string)
    requires t in todo
    ensures GroupItems(todo) == ItemBag(todo[t]) + GroupItems(todo - {t})
  {
    hide ItemBag, Total;
    TotalRemove(GroupBags(todo), t);
    assert GroupBags(todo - {t}) == GroupBags(todo) - {t};
  }

  lemma OpenKeepsRows(c: Config, s: State, i: nat, t: string, create: bool)
    requires i < |s.parsers| && s.parsers[i].pc == Open(t, create) && t in s.parsers[i].todo && RowsRight(s)
    ensures RowsRight(OpenStep(c, s, i, t, create))
  {
    hide Written, AllOutstanding, GroupItems, ItemBag, ItemsIn, Statements;
    var s', p := OpenStep(c, s, i, t, create), s.parsers[i];
    ItemsInStatements(c, t, create, p.todo[t]);
    TakeGroup(p.todo, t);
    RowsMove(s, s', i, s'.parsers[i], multiset{}, multiset{});
  }

  /** One more statement for a file adds what it inserts. */
  lemma WrittenGrow(lists: map<string, seq<Stmt>>, file: string, stmt: Stmt)
    ensures Written(lists[file := Get(lists, file) + [stmt]]) == Written(lists) + StmtItems(stmt)
  {
    hide ItemsIn, StmtItems, Total;
    ItemsInSnoc(Get(lists, file), stmt);
    NoRows();
    assert WrittenMap(lists[file := Get(lists, file) + [stmt]])
        == WrittenMap(lists)[file := (if file in WrittenMap(lists) then WrittenMap(lists)[file] else multiset{})
                                     + StmtItems(stmt)];
    TotalGrow(WrittenMap(lists), file, StmtItems(stmt));
  }

  lemma WriteKeepsRows(s: State, i: nat, t: string, queue: seq<Stmt>)
    requires i < |s.parsers| && s.parsers[i].pc == Write(t, queue) && queue != [] && HasFile(s, FileName(t)) && RowsRight(s)
    ensures RowsRight(WriteStep(s, i, t, queue))
  {
    hide AllOutstanding, GroupItems, ItemsIn, StmtItems, Written;
    var s', file := WriteStep(s, i, t, queue), FileName(t);
    ItemsInCons(queue);
    WrittenGrow(s.hist.appended, file, queue[0]);
    RowsMove(s, s', i, s'.parsers[i], multiset{}, StmtItems(queue[0]));
  }

  lemma NoRows()
    ensures ItemsIn([]) == multiset{}
  {
  }
}

/** Mutual exclusion by lock directories. */
module Locks {
  import opened Wrappers
  import opened Pipeline

  /** The processes that use lock directories. */
  datatype Actor = Db | P(i: nat)

  predicate IsActor(s: State, a: Actor) {
    a.P? ==> a.i < |s.parsers|
  }

  /** The sql file whose critical section a parser is in. */
  function ParserHolds(pc: ParserPc): Option<string> {
    match pc
    case Check(t) => Some(FileName(t))
    case Open(t, _) => Some(FileName(t))
    case Write(t, _) => Some(FileName(t))
    case Release(t) => Some(FileName(t))
    case _ => None
  }

  function DbHolds(pc: DbPc): Option<string> {
    match pc
    case Scan => None
    case Want(_) => None
    case Opening(n) => Some(n)
    case Read(n, _) => Some(n)
    case Unlink(n) => Some(n)
    case Probe(n, _, _) => Some(n)
    case Rename(n, _, _) => Some(n)
    case Leave(n) => Some(n)
  }

  function Holds(s: State, a: Actor): Option<string>
    requires IsActor(s, a)
  {
    match a
    case Db => DbHolds(s.dbpc)
    case P(i) => ParserHolds(s.parsers[i].pc)
  }

  /**
   * A lock directory is there exactly while one process is in the critical section of
   * its file, and never two processes are in the critical section of the same file.
   */
  ghost predicate LocksRight(s: State) {
    && (forall a :: IsActor(s, a) && Holds(s, a).Some? ==> HasLock(s, LockName(Holds(s, a).value)))
    && (forall a, b :: IsActor(s, a) && IsActor(s, b) && Holds(s, a).Some? && Holds(s, a) == Holds(s, b) ==> a == b)
    && (forall l :: HasLock(s, l) ==> l != [] && l[0] == 'd' && exists a :: IsActor(s, a) && Holds(s, a) == Some(l[1..]))
  }

  /** Everybody but `me` holds what he held. */
  ghost predicate OthersHold(s: State, s': State, me: Actor) {
    && |s'.parsers| == |s.parsers|
    && forall a :: IsActor(s, a) && a != me ==> Holds(s', a) == Holds(s, a)
  }

  lemma LocksUnmoved(s: State, s': State, me: Actor)
    requires LocksRight(s) && IsActor(s, me) && OthersHold(s, s', me)
    requires Holds(s', me) == Holds(s, me)
    requires forall l :: HasLock(s', l) <==> HasLock(s, l)
    ensures LocksRight(s')
  {
    forall a | IsActor(s', a)
      ensures Holds(s', a) == Holds(s, a)
    {
    }
    forall l | HasLock(s', l)
      ensures l != [] && l[0] == 'd' && exists a :: IsActor(s', a) && Holds(s', a) == Some(l[1..])
    {
      var a :| IsActor(s, a) && Holds(s, a) == Some(l[1..]);
      assert IsActor(s', a) && Holds(s', a) == Some(l[1..]);
    }
  }

  lemma LockTaken(s: State, s': State, me: Actor, file: string)
    requires LocksRight(s) && IsActor(s, me) && OthersHold(s, s', me)
    requires Holds(s, me) == None && Holds(s', me) == Some(file)
    requires LockName(file) !in s.work && s'.work == s.work[LockName(file) := Lock]
    ensures LocksRight(s')
  {
    var lock := LockName(file);
    assert IsActor(s', me);
    forall a | IsActor(s', a) && a != me && Holds(s', a).Some?
      ensures Holds(s', a).value != file && HasLock(s', LockName(Holds(s', a).value))
    {
      assert HasLock(s, LockName(Holds(s, a).value));
    }
    forall l | HasLock(s', l)
      ensures l != [] && l[0] == 'd' && exists a :: IsActor(s', a) && Holds(s', a) == Some(l[1..])
    {
      if l != lock {
        assert HasLock(s, l);
        var a :| IsActor(s, a) && Holds(s, a) == Some(l[1..]);
        assert IsActor(s', a) && Holds(s', a) == Some(l[1..]);
      }
    }
  }

  lemma LockFreed(s: State, s': State, me: Actor, file: string)
    requires LocksRight(s) && IsActor(s, me) && OthersHold(s, s', me)
    requires Holds(s, me) == Some(file) && Holds(s', me) == None
    requires s'.work == s.work - {LockName(file)}
    ensures LocksRight(s')
  {
    forall a | IsActor(s', a) && Holds(s', a).Some?
      ensures HasLock(s', LockName(Holds(s', a).value))
    {
      assert a != me;
      assert HasLock(s, LockName(Holds(s, a).value));
      assert Holds(s, a) != Holds(s, me);
      assert LockName(Holds(s, a).value)[1..] != LockName(file)[1..];
    }
    forall l | HasLock(s', l)
      ensures l != [] && l[0] == 'd' && exists a :: IsActor(s', a) && Holds(s', a) == Some(l[1..])
    {
      assert HasLock(s, l);
      var a :| IsActor(s, a) && Holds(s, a) == Some(l[1..]);
      assert l == "d" + l[1..] && LockName(file) == "d" + file;
      assert IsActor(s', a) && Holds(s', a) == Some(l[1..]);
    }
  }

  lemma PutHolds(s: State, s': State, i: nat, p: Parser)
    requires i < |s.parsers| && s'.parsers == s.parsers[i := p] && s'.dbpc == s.dbpc
    ensures OthersHold(s, s', P(i)) && Holds(s', P(i)) == ParserHolds(p.pc)
  {
  }

  lemma DbHoldsOnly(s: State, s': State)
    requires s'.parsers == s.parsers
    ensures OthersHold(s, s', Db)
  {
    forall a | IsActor(s, a) && a != Db
      ensures Holds(s', a) == Holds(s, a)
    {
    }
  }
}

/** Statement-level atomicity on Postgres (storage/db.py): each statement inside a transaction runs under
    a savepoint of its own, so that a failing one does not abort the transaction around it. */
module Savepoints {

  import opened Common

  type Tables = map<string, string>

  datatype Mark = Mark(name: string, tables: Tables)

  datatype Status = Idle | InTransaction | InError

  /** A Postgres session: its tables, those at BEGIN, and the savepoints set since, newest last. */
  datatype Session = Session(tables: Tables, base: Tables, marks: seq<Mark>, status: Status)

  /** A statement's effect, or its failure and what it may have changed before failing. */
  datatype Effect = Effect(run: Tables -> Option<Tables>, mess: Tables -> Tables)

  datatype Request =
    | Statement(effect: Effect)
    | Many(effect: Effect)
    | Begin | Commit | Rollback
    | Savepoint(name: string) | RollbackTo(name: string) | Release(name: string)

  const OWN_MARK := "norinth_stmt"

  /** The newest savepoint of a name. */
  function Newest(marks: seq<Mark>, name: string): (i: int)
    ensures -1 <= i < |marks| && (i >= 0 ==> marks[i].name == name)
    ensures forall k :: i < k < |marks| ==> marks[k].name != name
  {
    if marks == [] then -1
    else if marks[|marks| - 1].name == name then |marks| - 1
    else Newest(marks[..|marks| - 1], name)
  }

  datatype Answer = Answer(session: Session, ok: bool)

  /** What Postgres does with one request. Any failure inside a transaction aborts it: until it is rolled
      back, fully or to a savepoint, every other request fails. */
  function Raw(s: Session, r: Request): Answer {
    match r
    case Begin =>
      if s.status == InError then Answer(s, false)
      else if s.status == InTransaction then Answer(s, true)
      else Answer(Session(s.tables, s.tables, [], InTransaction), true)
    case Commit =>
      if s.status == InError then Answer(Session(s.base, s.base, [], Idle), true)
      else Answer(Session(s.tables, s.tables, [], Idle), true)
    case Rollback =>
      if s.status == Idle then Answer(s, true) else Answer(Session(s.base, s.base, [], Idle), true)
    case RollbackTo(name) =>
      var i := Newest(s.marks, name);
      if s.status == Idle then Answer(s, false)
      else if i < 0 then Answer(s.(status := InError), false)
      else Answer(s.(tables := s.marks[i].tables, marks := s.marks[..i + 1], status := InTransaction), true)
    case Savepoint(name) =>
      if s.status != InTransaction then Answer(s, false)
      else Answer(s.(marks := s.marks + [Mark(name, s.tables)]), true)
    case Release(name) =>
      var i := Newest(s.marks, name);
      if s.status != InTransaction then Answer(s, false)
      else if i < 0 then Answer(s.(status := InError), false)
      else Answer(s.(marks := s.marks[..i]), true)
    case Statement(effect) => Perform(s, effect)
    case Many(effect) => Perform(s, effect)
  }

  function Perform(s: Session, effect: Effect): Answer {
    if s.status == InError then Answer(s, false)
    else
      match effect.run(s.tables)
      case Some(tables) => Answer(s.(tables := tables), true)
      case None =>
        if s.status == Idle then Answer(s, false)
        else Answer(s.(tables := effect.mess(s.tables), status := InError), false)
  }

  /** Statement-level atomicity: a request that fails changes nothing at all. */
  function Atomic(s: Session, r: Request): Answer {
    var answer := Raw(s, r);
    if answer.ok then answer else Answer(s, false)
  }

  /** `PostgresConnection.execute`: control statements and autocommit pass straight through. */
  function Emulated(s: Session, r: Request): Answer {
    if !r.Statement? || s.status == Idle then Raw(s, r)
    else
      var marked := Raw(s, Savepoint(OWN_MARK));
      if !marked.ok then marked
      else
        var tried := Raw(marked.session, r);
        var restored := if tried.ok then tried.session else Raw(tried.session, RollbackTo(OWN_MARK)).session;
        var released := if restored.status == InTransaction then Raw(restored, Release(OWN_MARK)).session else restored;
        Answer(released, tried.ok)
  }

  class PostgresConnection {
    var session: Session

    constructor (tables: Tables)
      ensures session == Session(tables, tables, [], Idle)
    {
      session := Session(tables, tables, [], Idle);
    }

    /** The raw connection. */
    method Send(r: Request) returns (ok: bool)
      modifies this
      ensures Answer(session, ok) == Raw(old(session), r)
    {
      var answer := Raw(session, r);
      session, ok := answer.session, answer.ok;
    }

    /** A statement is tried under a savepoint, rolled back to it when it fails, and the savepoint is
        released while the transaction is healthy. */
    method Execute(r: Request) returns (ok: bool)
      requires !r.Many?
      modifies this
      ensures Answer(session, ok) == Emulated(old(session), r)
      ensures old(session).status == InTransaction && r.Statement? ==> Answer(session, ok) == Atomic(old(session), r)
    {
      if old(session).status == InTransaction && r.Statement? { StatementIsAtomic(session, r.effect); }
      if !r.Statement? || session.status == Idle {
        ok := Send(r);
        return;
      }
      var marked := Send(Savepoint(OWN_MARK));
      if !marked { return false; }
      ok := Send(r);
      if !ok { var _ := Send(RollbackTo(OWN_MARK)); }
      if session.status == InTransaction { var _ := Send(Release(OWN_MARK)); }
    }
  }

  lemma OwnMarkIsNewest(marks: seq<Mark>, tables: Tables)
    ensures Newest(marks + [Mark(OWN_MARK, tables)], OWN_MARK) == |marks|
  {
  }

  /** In a healthy transaction a statement under emulation is atomic: success has the statement's effect,
      failure leaves tables and savepoints as they were, even a caller's savepoint of the same name. */
  lemma StatementIsAtomic(s: Session, effect: Effect)
    requires s.status == InTransaction
    ensures Emulated(s, Statement(effect)) == Atomic(s, Statement(effect))
  {
    OwnMarkIsNewest(s.marks, s.tables);
    var marked := s.marks + [Mark(OWN_MARK, s.tables)];
    assert marked[..|s.marks|] == s.marks && marked[..|s.marks| + 1] == marked;
  }

  // ----- whole transactions -----

  function RunEmulated(s: Session, requests: seq<Request>): Session
    decreases |requests|
  {
    if requests == [] then s else RunEmulated(Emulated(s, requests[0]).session, requests[1..])
  }

  function RunAtomic(s: Session, requests: seq<Request>): Session
    decreases |requests|
  {
    if requests == [] then s else RunAtomic(Atomic(s, requests[0]).session, requests[1..])
  }

  /** The requests of a run that succeed. */
  function Successful(s: Session, requests: seq<Request>): seq<Request>
    decreases |requests|
  {
    if requests == [] then []
    else
      var answer := Atomic(s, requests[0]);
      (if answer.ok then [requests[0]] else []) + Successful(answer.session, requests[1..])
  }

  /** Inside a transaction, a failure that no savepoint guards: of a control statement naming no savepoint,
      or of a batch sent through executemany. */
  predicate Unguarded(s: Session, r: Request) {
    s.status == InTransaction && !r.Statement? && !Raw(s, r).ok
  }

  /** The run meets no unguarded failure. */
  predicate Guarded(s: Session, requests: seq<Request>)
    decreases |requests|
  {
    requests == [] || (!Unguarded(s, requests[0]) && Guarded(Atomic(s, requests[0]).session, requests[1..]))
  }

  lemma EmulationStep(s: Session, r: Request)
    requires s.status != InError
    ensures Emulated(s, r) == Atomic(s, r) <==> !Unguarded(s, r)
    ensures Unguarded(s, r) ==> Emulated(s, r).session.status == InError
    ensures Atomic(s, r).session.status != InError
  {
    if s.status == InTransaction && r.Statement? { StatementIsAtomic(s, r.effect); }
  }

  /** Every program of statements with arbitrary failures and of the caller's own savepoints ends as the
      atomic run does, which is the run of its successful requests alone. */
  lemma {:induction false} EmulationRefinesAtomicity(s: Session, requests: seq<Request>)
    requires s.status != InError && Guarded(s, requests)
    ensures RunEmulated(s, requests) == RunAtomic(s, requests) == RunAtomic(s, Successful(s, requests))
    ensures RunAtomic(s, requests).status != InError
    decreases |requests|
  {
    hide Raw, Emulated;
    if requests != [] {
      var r := requests[0];
      var next := Atomic(s, r).session;
      EmulationStep(s, r);
      EmulationRefinesAtomicity(next, requests[1..]);
      var rest := Successful(next, requests[1..]);
      assert ([r] + rest)[1..] == rest && [] + rest == rest;
    }
  }

  /** And only those: a run agrees with the atomic one after each of its requests exactly when it meets no
      unguarded failure, which leaves the whole transaction aborted. */
  lemma {:induction false} AgreementNeedsGuards(s: Session, requests: seq<Request>)
    requires s.status != InError
    ensures (forall n :: 0 <= n <= |requests| ==> RunEmulated(s, requests[..n]) == RunAtomic(s, requests[..n]))
            <==> Guarded(s, requests)
    decreases |requests|
  {
    if requests == [] {
      assert forall n :: 0 <= n <= |requests| ==> requests[..n] == [];
    } else {
      var r, rest := requests[0], requests[1..];
      EmulationStep(s, r);
      hide Raw, Emulated, Atomic;
      if Unguarded(s, r) {
        PrefixStep(s, requests, 0);
        assert RunEmulated(s, requests[..1]) != RunAtomic(s, requests[..1]);
      } else {
        var next := Atomic(s, r).session;
        AgreementNeedsGuards(next, rest);
        if Guarded(next, rest) {
          forall n | 0 <= n <= |requests|
            ensures RunEmulated(s, requests[..n]) == RunAtomic(s, requests[..n])
          {
            if n > 0 { PrefixStep(s, requests, n - 1); }
          }
        }
        if forall n :: 0 <= n <= |requests| ==> RunEmulated(s, requests[..n]) == RunAtomic(s, requests[..n]) {
          forall n | 0 <= n <= |rest|
            ensures RunEmulated(next, rest[..n]) == RunAtomic(next, rest[..n])
          {
            PrefixStep(s, requests, n);
            assert RunEmulated(s, requests[..n + 1]) == RunAtomic(s, requests[..n + 1]);
          }
        }
      }
    }
  }

  lemma PrefixStep(s: Session, requests: seq<Request>, n: nat)
    requires n < |requests|
    ensures RunEmulated(s, requests[..n + 1]) == RunEmulated(Emulated(s, requests[0]).session, requests[1..][..n])
    ensures RunAtomic(s, requests[..n + 1]) == RunAtomic(Atomic(s, requests[0]).session, requests[1..][..n])
    ensures n == 0 ==> RunEmulated(s, requests[..1]) == Emulated(s, requests[0]).session
                       && RunAtomic(s, requests[..1]) == Atomic(s, requests[0]).session
  {
    hide Raw, Emulated, Atomic;
    assert requests[..n + 1][1..] == requests[1..][..n] && requests[..n + 1][0] == requests[0];
    if n == 0 { assert requests[..1][1..] == []; }
  }
}

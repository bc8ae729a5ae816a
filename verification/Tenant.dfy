/** The transaction around an authenticated request (internal/hub/tenant.go) and the
    savepoint of recordProductEvent (internal/hub/analytics.go). The content of the
    database is the sequence of its writes. */
module Tenant {
  import opened Options

  type Content = seq<string>

  // ----- A PostgreSQL transaction with savepoints -----

  /** `saved` holds the content at each open savepoint, the innermost last. A failing
      statement aborts the transaction until a savepoint is rolled back. */
  datatype Session = Session(content: Content, aborted: bool, saved: seq<Content>)

  function Begun(s: Session): Session {
    if s.aborted then s else s.(saved := s.saved + [s.content])
  }

  function Executed(s: Session, write: Option<string>, ok: bool): Session {
    if s.aborted then s
    else if !ok then s.(aborted := true)
    else if write.Some? then s.(content := s.content + [write.value])
    else s
  }

  /** Releasing a savepoint of an aborted transaction fails and leaves it aborted. */
  function Released(s: Session): Session {
    if s.saved == [] then s else s.(saved := s.saved[..|s.saved| - 1])
  }

  function RolledBack(s: Session): Session {
    if s.saved == [] then s else Session(s.saved[|s.saved| - 1], false, s.saved[..|s.saved| - 1])
  }

  /** How the steps of recordProductEvent turn out: the validation, the preference query
      of an actor, and the insert, which a conflict makes empty. */
  datatype Attempt = Attempt(valid: bool, asks: bool, answered: bool, optedOut: bool, inserted: bool, conflict: bool, event: string)

  function Recorded(s: Session, a: Attempt): Session {
    if !a.valid || s.aborted then s
    else
      var asked := if a.asks then Executed(Begun(s), None, a.answered) else Begun(s);
      if asked.aborted then RolledBack(asked)
      else if a.asks && a.optedOut then Released(asked)
      else
        var inserted := Executed(asked, if a.conflict then None else Some(a.event), a.inserted);
        if inserted.aborted then RolledBack(inserted) else Released(inserted)
  }

  /** Whether recordProductEvent returns an error. */
  predicate RecordFails(s: Session, a: Attempt) {
    !a.valid || s.aborted || (a.asks && !a.answered) || (!(a.asks && a.optedOut) && !a.inserted)
  }

  /** A failing recordProductEvent leaves the surrounding transaction exactly as it was;
      a successful one adds the event at most. */
  lemma RecordKeepsSession(s: Session, a: Attempt)
    ensures RecordFails(s, a) ==> Recorded(s, a) == s
    ensures !RecordFails(s, a) ==> Recorded(s, a) == s.(content := s.content + if (a.asks && a.optedOut) || a.conflict then [] else [a.event])
  {
    assert (s.saved + [s.content])[..|s.saved|] == s.saved;
  }

  class Transaction {
    var content: Content
    var aborted: bool
    var saved: seq<Content>

    function State(): Session
      reads this
    {
      Session(content, aborted, saved)
    }

    constructor (database: Content)
      ensures State() == Session(database, false, [])
    {
      content, aborted, saved := database, false, [];
    }

    method Begin() returns (ok: bool)
      modifies this
      ensures State() == Begun(old(State())) && ok == !old(aborted)
    {
      if aborted {
        return false;
      }
      saved := saved + [content];
      return true;
    }

    /** `accepted` tells whether the database would take the statement. */
    method Exec(write: Option<string>, accepted: bool) returns (ok: bool)
      modifies this
      ensures State() == Executed(old(State()), write, accepted) && ok == (!old(aborted) && accepted)
    {
      if aborted {
        return false;
      }
      if !accepted {
        aborted := true;
        return false;
      }
      if write.Some? {
        content := content + [write.value];
      }
      return true;
    }

    method Release() returns (ok: bool)
      modifies this
      ensures State() == Released(old(State())) && ok == (old(saved) != [] && !old(aborted))
    {
      if saved == [] {
        return false;
      }
      saved := saved[..|saved| - 1];
      return !aborted;
    }

    method Rollback()
      modifies this
      ensures State() == RolledBack(old(State()))
    {
      if saved != [] {
        content, aborted, saved := saved[|saved| - 1], false, saved[..|saved| - 1];
      }
    }

    method RecordProductEvent(a: Attempt) returns (ok: bool)
      modifies this
      ensures ok == !RecordFails(old(State()), a)
      ensures !ok ==> State() == old(State())
      ensures ok ==> aborted == old(aborted) && saved == old(saved)
      ensures ok ==> content == old(content) + if (a.asks && a.optedOut) || a.conflict then [] else [a.event]
    {
      RecordKeepsSession(State(), a);
      if !a.valid {
        return false;
      }
      var begun := Begin();
      if !begun {
        return false;
      }
      if a.asks {
        var answered := Exec(None, a.answered);
        if !answered {
          Rollback();
          return false;
        }
        if a.optedOut {
          ok := Release();
          return;
        }
      }
      var inserted := Exec(if a.conflict then None else Some(a.event), a.inserted);
      if !inserted {
        Rollback();
        return false;
      }
      ok := Release();
    }
  }

  // ----- The handler -----

  /** What a handler does, in its order: statements, savepoints, the answer and
      commitOnError. Every handler leaves some such trace. */
  datatype Op =
    | Begin
    | Exec(write: Option<string>, accepted: bool)
    | Release
    | Rollback
    | Record(attempt: Attempt)
    | Header(status: nat)
    | Body
    | CommitOnError

  /** `status` is 0 until the handler answers. */
  datatype Progress = Progress(session: Session, status: nat, flagged: bool)

  function After(p: Progress, op: Op): Progress {
    match op
    case Begin => p.(session := Begun(p.session))
    case Exec(write, accepted) => p.(session := Executed(p.session, write, accepted))
    case Release => p.(session := Released(p.session))
    case Rollback => p.(session := RolledBack(p.session))
    case Record(attempt) => p.(session := Recorded(p.session, attempt))
    case Header(status) => if p.status == 0 then p.(status := status) else p
    case Body => if p.status == 0 then p.(status := 200) else p
    case CommitOnError => p.(flagged := true)
  }

  function Handled(database: Content, ops: seq<Op>): Progress {
    if ops == [] then Progress(Session(database, false, []), 0, false)
    else After(Handled(database, ops[..|ops| - 1]), ops[|ops| - 1])
  }

  // ----- The middleware -----

  /** How the surroundings behave: an active workspace, the opening of the transaction,
      and its commit, which also fails for an aborted transaction. */
  datatype Request = Request(principal: bool, begins: bool, mutation: bool, commits: bool)

  /** The answer that the client gets, and the content of the database afterwards. */
  datatype Reply = Reply(status: nat, database: Content)

  function Flushed(status: nat): nat {
    if status == 0 then 200 else status
  }

  method TenantTransaction(database: Content, request: Request, ops: seq<Op>) returns (reply: Reply)
    ensures reply == Served(database, request, Handled(database, ops))
    ensures var end := Handled(database, ops);
      && (!request.principal ==> reply.status == 401)
      && (request.principal && !request.begins ==> reply.status == 503)
      && (!request.principal || !request.begins ==> reply.database == database)
      && (request.principal && request.begins && !request.mutation ==> reply.status == if end.status == 0 then 200 else end.status)
      && (request.principal && request.begins && request.mutation ==>
            if end.status >= 400 && !end.flagged then reply == Reply(end.status, database)
            else if request.commits && !end.session.aborted then reply == Reply(if end.status == 0 then 200 else end.status, end.session.content)
            else reply == Reply(503, database))
  {
    if !request.principal {
      return Reply(401, database);
    }
    if !request.begins {
      return Reply(503, database);
    }
    var tx := new Transaction(database);
    var status, flagged := 0, false;
    var i := 0;
    while i < |ops|
      invariant 0 <= i <= |ops|
      invariant Progress(tx.State(), status, flagged) == Handled(database, ops[..i])
    {
      assert ops[..i + 1][..i] == ops[..i];
      match ops[i] {
        case Begin => var _ := tx.Begin();
        case Exec(write, accepted) => var _ := tx.Exec(write, accepted);
        case Release => var _ := tx.Release();
        case Rollback => tx.Rollback();
        case Record(attempt) =>
          RecordKeepsSession(tx.State(), attempt);
          var _ := tx.RecordProductEvent(attempt);
        case Header(code) => if status == 0 { status := code; }
        case Body => if status == 0 { status := 200; }
        case CommitOnError => flagged := true;
      }
      i := i + 1;
    }
    assert ops[..|ops|] == ops;
    var committed := request.commits && !tx.aborted;
    if !request.mutation {
      if status < 400 && committed {
        return Reply(Flushed(status), tx.content);
      }
      return Reply(Flushed(status), database);
    }
    if status >= 400 && !flagged {
      return Reply(status, database);
    }
    if !committed {
      return Reply(503, database);
    }
    return Reply(Flushed(status), tx.content);
  }

  function Served(database: Content, request: Request, end: Progress): Reply {
    var committed := request.commits && !end.session.aborted;
    if !request.principal then Reply(401, database)
    else if !request.begins then Reply(503, database)
    else if !request.mutation then
      Reply(Flushed(end.status), if end.status < 400 && committed then end.session.content else database)
    else if end.status >= 400 && !end.flagged then Reply(end.status, database)
    else if !committed then Reply(503, database)
    else Reply(Flushed(end.status), end.session.content)
  }

  // ----- The promises -----

  /** What the handler's step `i` adds to the content if nothing undoes it: the write of a
      statement, or the event that recordProductEvent stores. */
  function Issued(database: Content, ops: seq<Op>, i: nat): Content
    requires i < |ops|
  {
    match ops[i]
    case Exec(write, _) => if write.Some? then [write.value] else []
    case Record(a) =>
      if RecordFails(Handled(database, ops[..i]).session, a) || (a.asks && a.optedOut) || a.conflict then [] else [a.event]
    case _ => []
  }

  /** Whether step `i` is a statement that the database executed, and not a refused one. */
  predicate Succeeds(database: Content, ops: seq<Op>, i: nat) {
    i < |ops| && ops[i].Exec? && ops[i].accepted && !Handled(database, ops[..i]).session.aborted
  }

  function Effect(database: Content, ops: seq<Op>, i: nat): Content
    requires i < |ops|
  {
    if ops[i].Exec? && !Succeeds(database, ops, i) then [] else Issued(database, ops, i)
  }

  /** The number of savepoints that are open before step `j`. */
  function Depth(database: Content, ops: seq<Op>, j: nat): nat
    requires j <= |ops|
  {
    |Handled(database, ops[..j]).session.saved|
  }

  /** From step `i` to step `j` at least `depth` savepoints stay open. */
  ghost predicate Deep(database: Content, ops: seq<Op>, i: nat, j: nat, depth: nat) {
    j <= |ops| && forall k :: i <= k <= j ==> depth <= Depth(database, ops, k)
  }

  /** Step `r` rolls back a savepoint that was open at step `i` and all the time since. */
  ghost predicate Undoes(database: Content, ops: seq<Op>, i: nat, r: nat) {
    && i < r < |ops| && ops[r].Rollback? && Depth(database, ops, r) >= 1
    && Deep(database, ops, i, r, Depth(database, ops, r))
  }

  ghost predicate Undone(database: Content, ops: seq<Op>, i: nat) {
    exists r :: Undoes(database, ops, i, r)
  }

  /** The effects of those of the first `k` steps that are in `keep`, in order. */
  ghost function Collected(database: Content, ops: seq<Op>, keep: set<nat>, k: nat): Content
    requires k <= |ops|
  {
    if k == 0 then [] else
      Collected(database, ops, keep, k - 1) + if k - 1 in keep then Effect(database, ops, k - 1) else []
  }

  lemma {:induction false} SameCollected(database: Content, ops: seq<Op>, keep: set<nat>, more: seq<Op>, other: set<nat>, k: nat)
    requires k <= |ops| && ops <= more
    requires forall i :: 0 <= i < k && Effect(database, ops, i) != [] ==> (i in keep <==> i in other)
    ensures Collected(database, ops, keep, k) == Collected(database, more, other, k)
  {
    if k == 0 {
    } else {
      SameCollected(database, ops, keep, more, other, k - 1);
      assert ops[..k - 1] == more[..k - 1];
    }
  }

  lemma DepthPrefix(database: Content, ops: seq<Op>, more: seq<Op>, j: nat)
    requires j <= |ops| && ops <= more
    ensures Depth(database, ops, j) == Depth(database, more, j)
  {
    assert ops[..j] == more[..j];
  }

  lemma DeepPrefix(database: Content, ops: seq<Op>, more: seq<Op>, i: nat, j: nat, depth: nat)
    requires j <= |ops| && ops <= more
    ensures Deep(database, ops, i, j, depth) <==> Deep(database, more, i, j, depth)
  {
    forall k: nat | i <= k <= j ensures Depth(database, ops, k) == Depth(database, more, k) { DepthPrefix(database, ops, more, k); }
  }

  lemma UndoesPrefix(database: Content, ops: seq<Op>, more: seq<Op>, i: nat, r: nat)
    requires r < |ops| && ops <= more
    ensures Undoes(database, ops, i, r) <==> Undoes(database, more, i, r)
  {
    DepthPrefix(database, ops, more, r);
    DeepPrefix(database, ops, more, i, r, Depth(database, ops, r));
  }

  /** What the last step undoes. */
  lemma UndoneStep(database: Content, ops: seq<Op>, i: nat)
    requires ops != [] && i < |ops| - 1
    ensures var n := |ops| - 1;
      Undone(database, ops, i) <==> Undone(database, ops[..n], i) || Undoes(database, ops, i, n)
  {
    var n := |ops| - 1;
    var init := ops[..n];
    UndoesInside(database, ops, i);
    UndoesInside(database, init, i);
    hide Undoes;
    if r: nat :| r < n && Undoes(database, ops, i, r) {
      UndoesPrefix(database, init, ops, i, r);
    }
    if r: nat :| r < n && Undoes(database, init, i, r) {
      UndoesPrefix(database, init, ops, i, r);
    }
  }

  lemma UndoesInside(database: Content, ops: seq<Op>, i: nat)
    ensures forall r: nat :: Undoes(database, ops, i, r) ==> r < |ops|
  {
  }

  ghost function Lasting(database: Content, ops: seq<Op>): set<nat> {
    set i: nat | i < |ops| && !Undone(database, ops, i)
  }

  /** The effects that no rollback undoes. */
  ghost function Kept(database: Content, ops: seq<Op>): Content {
    Collected(database, ops, Lasting(database, ops), |ops|)
  }

  ghost function LastingBelow(database: Content, ops: seq<Op>, depth: nat): set<nat> {
    set i: nat | i < |ops| && !Undone(database, ops, i) && !Deep(database, ops, i, |ops|, depth)
  }

  /** Those of them that the rollback of the savepoint at `depth` would leave. */
  ghost function KeptBelow(database: Content, ops: seq<Op>, depth: nat): Content {
    Collected(database, ops, LastingBelow(database, ops, depth), |ops|)
  }

  lemma StepKept(database: Content, ops: seq<Op>)
    requires ops != [] && !(ops[|ops| - 1].Rollback? && Depth(database, ops, |ops| - 1) >= 1)
    ensures Kept(database, ops) == Kept(database, ops[..|ops| - 1]) + Effect(database, ops, |ops| - 1)
  {
    hide Depth, Effect;
    var n := |ops| - 1;
    var init := ops[..n];
    forall i: nat | i < n ensures Undone(database, ops, i) <==> Undone(database, init, i) { UndoneStep(database, ops, i); }
    SameCollected(database, init, Lasting(database, init), ops, Lasting(database, ops), n);
    assert !Undone(database, ops, n);
  }

  lemma StepRollback(database: Content, ops: seq<Op>)
    requires ops != [] && ops[|ops| - 1].Rollback? && Depth(database, ops, |ops| - 1) >= 1
    ensures Kept(database, ops) == KeptBelow(database, ops[..|ops| - 1], Depth(database, ops, |ops| - 1))
  {
    hide Depth;
    var n := |ops| - 1;
    var init, d := ops[..n], Depth(database, ops, n);
    forall i: nat | i < n
      ensures Undone(database, ops, i) <==> Undone(database, init, i) || Deep(database, init, i, n, d)
    {
      UndoneStep(database, ops, i);
      DeepPrefix(database, init, ops, i, n, d);
    }
    SameCollected(database, init, LastingBelow(database, init, d), ops, Lasting(database, ops), n);
    assert Effect(database, ops, n) == [];
  }

  lemma DeepStep(database: Content, ops: seq<Op>, i: nat, depth: nat)
    requires ops != [] && i < |ops|
    ensures Deep(database, ops, i, |ops|, depth) <==>
              Deep(database, ops[..|ops| - 1], i, |ops| - 1, depth) && depth <= Depth(database, ops, |ops|)
  {
    var n := |ops| - 1;
    DeepPrefix(database, ops[..n], ops, i, n, depth);
    if Deep(database, ops, i, n, depth) && depth <= Depth(database, ops, |ops|) {
      forall k: nat | i <= k <= |ops| ensures depth <= Depth(database, ops, k) {}
    }
  }

  lemma Shallower(database: Content, ops: seq<Op>, i: nat, j: nat, depth: nat, less: nat)
    requires Deep(database, ops, i, j, depth) && less <= depth
    ensures Deep(database, ops, i, j, less)
  {
  }

  /** A step leaves what lies below a savepoint that stays open. */
  lemma StepBelow(database: Content, ops: seq<Op>, depth: nat)
    requires ops != [] && 1 <= depth <= Depth(database, ops, |ops| - 1) && depth <= Depth(database, ops, |ops|)
    ensures KeptBelow(database, ops, depth) == KeptBelow(database, ops[..|ops| - 1], depth)
  {
    hide Depth, Effect;
    var n := |ops| - 1;
    var init := ops[..n];
    forall i: nat | i < n
      ensures (!Undone(database, ops, i) && !Deep(database, ops, i, |ops|, depth)) <==> (!Undone(database, init, i) && !Deep(database, init, i, n, depth))
    {
      UndoneStep(database, ops, i);
      DeepStep(database, ops, i, depth);
      if Undoes(database, ops, i, n) {
        Shallower(database, ops, i, n, Depth(database, ops, n), depth);
        DeepPrefix(database, init, ops, i, n, depth);
      }
    }
    SameCollected(database, init, LastingBelow(database, init, depth), ops, LastingBelow(database, ops, depth), n);
    assert Deep(database, ops, n, |ops|, depth);
  }

  /** A new savepoint holds everything so far. */
  lemma StepBegin(database: Content, ops: seq<Op>)
    requires ops != [] && ops[|ops| - 1].Begin?
    ensures KeptBelow(database, ops, Depth(database, ops, |ops| - 1) + 1) == Kept(database, ops[..|ops| - 1])
  {
    hide Depth;
    var n := |ops| - 1;
    var init, d := ops[..n], Depth(database, ops, n);
    forall i: nat | i < n
      ensures Undone(database, ops, i) <==> Undone(database, init, i)
      ensures !Deep(database, ops, i, |ops|, d + 1)
    {
      UndoneStep(database, ops, i);
    }
    SameCollected(database, init, Lasting(database, init), ops, LastingBelow(database, ops, d + 1), n);
    assert Effect(database, ops, n) == [];
  }

  /** The content and the savepoints of a session, from the trace alone. */
  ghost predicate Explained(database: Content, ops: seq<Op>) {
    var s := Handled(database, ops).session;
    && s.content == database + Kept(database, ops)
    && forall l :: 0 <= l < |s.saved| ==> s.saved[l] == database + KeptBelow(database, ops, l + 1)
  }

  lemma StepSession(database: Content, ops: seq<Op>)
    requires ops != []
    ensures var n := |ops| - 1; var s, next := Handled(database, ops[..n]).session, Handled(database, ops).session;
      && |s.saved| == Depth(database, ops, n) && |next.saved| == Depth(database, ops, |ops|)
      && (ops[n].Rollback? && s.saved != [] ==> next.content == s.saved[|s.saved| - 1])
      && (!(ops[n].Rollback? && s.saved != []) ==> next.content == s.content + Effect(database, ops, n))
      && (forall l :: 0 <= l < |s.saved| && l < |next.saved| ==> next.saved[l] == s.saved[l])
      && (|next.saved| > |s.saved| ==> ops[n].Begin? && |next.saved| == |s.saved| + 1 && next.saved[|s.saved|] == s.content)
  {
    var n := |ops| - 1;
    assert ops[..|ops|] == ops;
    if ops[n].Record? {
      RecordKeepsSession(Handled(database, ops[..n]).session, ops[n].attempt);
    }
  }

  lemma ContentStep(database: Content, ops: seq<Op>)
    requires ops != [] && Explained(database, ops[..|ops| - 1])
    ensures Handled(database, ops).session.content == database + Kept(database, ops)
  {
    hide Kept, KeptBelow, Effect, Depth, Handled;
    var n := |ops| - 1;
    var s := Handled(database, ops[..n]).session;
    StepSession(database, ops);
    if ops[n].Rollback? && s.saved != [] {
      StepRollback(database, ops);
    } else {
      StepKept(database, ops);
      assert database + Kept(database, ops[..n]) + Effect(database, ops, n) == database + (Kept(database, ops[..n]) + Effect(database, ops, n));
    }
  }

  lemma SavedStep(database: Content, ops: seq<Op>, l: nat)
    requires ops != [] && Explained(database, ops[..|ops| - 1]) && l < |Handled(database, ops).session.saved|
    ensures Handled(database, ops).session.saved[l] == database + KeptBelow(database, ops, l + 1)
  {
    hide Kept, KeptBelow, Effect, Depth, Handled;
    StepSession(database, ops);
    if l < |Handled(database, ops[..|ops| - 1]).session.saved| {
      StepBelow(database, ops, l + 1);
    } else {
      StepBegin(database, ops);
    }
  }

  /** For every handler: the content is the database and exactly the effects that are not
      enclosed in a savepoint that was rolled back, in their order. */
  lemma {:induction false} ContentIsKept(database: Content, ops: seq<Op>)
    ensures Explained(database, ops)
  {
    hide Kept, KeptBelow, Handled;
    if ops == [] {
      NothingKept(database);
    } else {
      ContentIsKept(database, ops[..|ops| - 1]);
      ContentStep(database, ops);
      forall l | 0 <= l < |Handled(database, ops).session.saved|
        ensures Handled(database, ops).session.saved[l] == database + KeptBelow(database, ops, l + 1)
      {
        SavedStep(database, ops, l);
      }
    }
  }

  lemma NothingKept(database: Content)
    ensures Explained(database, [])
  {
    assert database + [] == database;
  }

  // ----- Failing statements -----

  /** After step `i` the transaction was aborted, and stayed so with the savepoints that
      remained. */
  ghost predicate StillAborted(database: Content, ops: seq<Op>, i: nat) {
    && Handled(database, ops).session.aborted
    && Deep(database, ops, i, |ops|, Depth(database, ops, |ops|))
  }

  lemma AbortStep(database: Content, ops: seq<Op>, i: nat)
    requires ops != [] && i < |ops| - 1
    requires Undone(database, ops[..|ops| - 1], i) || StillAborted(database, ops[..|ops| - 1], i)
    ensures Undone(database, ops, i) || StillAborted(database, ops, i)
  {
    var n := |ops| - 1;
    var init := ops[..n];
    UndoneStep(database, ops, i);
    if !Undone(database, init, i) {
      var s, next := Handled(database, init).session, Handled(database, ops).session;
      assert init[..n] == init && ops[..|ops|] == ops;
      DeepPrefix(database, init, ops, i, n, |s.saved|);
      if ops[n].Rollback? && s.saved != [] {
        assert Undoes(database, ops, i, n);
      } else {
        assert next.aborted && |next.saved| <= |s.saved|;
        Shallower(database, init, i, n, |s.saved|, |next.saved|);
        DeepStep(database, ops, i, |next.saved|);
      }
    }
  }

  /** A statement without effect is undone, or its failure has aborted the transaction. */
  lemma {:induction false} FailureCounts(database: Content, ops: seq<Op>, i: nat)
    requires i < |ops| && ops[i].Exec? && !Succeeds(database, ops, i)
    ensures Undone(database, ops, i) || StillAborted(database, ops, i)
  {
    var n := |ops| - 1;
    if i == n {
      assert ops[..|ops|] == ops;
    } else {
      assert ops[..n][..i] == ops[..i];
      FailureCounts(database, ops[..n], i);
      AbortStep(database, ops, i);
    }
  }

  /** A mutating request answers below 400 only if all its writes are committed: the
      database then has, after its old content, exactly the effects that the handler did
      not roll back itself, and each of its statements outside of those savepoints has
      succeeded, whatever became of its product events. */
  lemma MutationCommits(database: Content, request: Request, ops: seq<Op>)
    requires request.mutation && Served(database, request, Handled(database, ops)).status < 400
    ensures Served(database, request, Handled(database, ops)).database == database + Kept(database, ops)
    ensures forall i: nat :: i < |ops| && ops[i].Exec? && !Undone(database, ops, i) ==>
              Succeeds(database, ops, i) && Effect(database, ops, i) == Issued(database, ops, i)
  {
    hide Kept;
    ContentIsKept(database, ops);
    forall i: nat | i < |ops| && ops[i].Exec? && !Undone(database, ops, i)
      ensures Succeeds(database, ops, i)
    {
      if !Succeeds(database, ops, i) {
        FailureCounts(database, ops, i);
      }
    }
  }

  /** An error answer changes the database only after commitOnError, and then it is the
      answer of a committed transaction. */
  lemma ErrorRollsBack(database: Content, request: Request, ops: seq<Op>)
    requires request.mutation && Served(database, request, Handled(database, ops)).status >= 400
    ensures var end := Handled(database, ops); var reply := Served(database, request, end);
      reply.database != database ==>
        end.flagged && request.commits && !end.session.aborted && reply.database == end.session.content && reply.status == end.status
    ensures (forall i :: 0 <= i < |ops| ==> !ops[i].CommitOnError?) ==> Served(database, request, Handled(database, ops)).database == database
  {
    if forall i :: 0 <= i < |ops| ==> !ops[i].CommitOnError? {
      NotFlagged(database, ops);
    }
  }

  lemma {:induction false} NotFlagged(database: Content, ops: seq<Op>)
    requires forall i :: 0 <= i < |ops| ==> !ops[i].CommitOnError?
    ensures !Handled(database, ops).flagged
  {
    if ops == [] {
    } else {
      NotFlagged(database, ops[..|ops| - 1]);
    }
  }

  /** The first status that a handler writes is the one that counts. */
  lemma {:induction false} FirstStatusCounts(database: Content, ops: seq<Op>, k: nat)
    requires k < |ops| && ops[k].Header? && ops[k].status != 0 && forall i :: 0 <= i < k ==> !ops[i].Header? && !ops[i].Body?
    ensures Handled(database, ops).status == ops[k].status
  {
    if k == |ops| - 1 {
      NoStatus(database, ops[..k]);
    } else {
      FirstStatusCounts(database, ops[..|ops| - 1], k);
    }
  }

  lemma {:induction false} NoStatus(database: Content, ops: seq<Op>)
    requires forall i :: 0 <= i < |ops| ==> !ops[i].Header? && !ops[i].Body?
    ensures Handled(database, ops).status == 0
  {
    if ops == [] {
    } else {
      NoStatus(database, ops[..|ops| - 1]);
    }
  }

  /** A reading request leaves the database alone unless its handler writes after all. */
  lemma ReadingIsHarmless(database: Content, request: Request, ops: seq<Op>)
    requires !request.mutation && forall i: nat :: i < |ops| ==> Effect(database, ops, i) == []
    ensures Served(database, request, Handled(database, ops)).database == database
  {
    ContentIsKept(database, ops);
    NoneCollected(database, ops, Lasting(database, ops), |ops|);
  }

  lemma {:induction false} NoneCollected(database: Content, ops: seq<Op>, keep: set<nat>, k: nat)
    requires k <= |ops| && forall i: nat :: i < |ops| ==> Effect(database, ops, i) == []
    ensures Collected(database, ops, keep, k) == []
  {
    if k == 0 {
    } else {
      NoneCollected(database, ops, keep, k - 1);
    }
  }

  // ----- Savepoints -----

  /** While the savepoint at `depth` stays open, the content at it and below it stays. */
  lemma {:induction false} OpenSavepoint(database: Content, before: seq<Op>, inner: seq<Op>, depth: nat)
    requires depth <= |Handled(database, before).session.saved|
    requires forall j: nat :: j <= |inner| ==> depth <= |Handled(database, before + inner[..j]).session.saved|
    ensures depth <= |Handled(database, before + inner).session.saved|
    ensures Handled(database, before + inner).session.saved[..depth] == Handled(database, before).session.saved[..depth]
  {
    hide Handled, Effect;
    if inner == [] {
      assert before + inner == before;
    } else {
      var n := |inner| - 1;
      assert forall j: nat :: j <= n ==> inner[..n][..j] == inner[..j];
      OpenSavepoint(database, before, inner[..n], depth);
      assert (before + inner)[..|before + inner| - 1] == before + inner[..n];
      assert inner[..|inner|] == inner && inner[..n] == inner[..n][..n];
      StepSession(database, before + inner);
    }
  }

  /** Rolling a savepoint back undoes all that came after it, nested savepoints and
      failures included, whatever happened as long as it stayed open. */
  lemma SavepointUndoes(database: Content, before: seq<Op>, inner: seq<Op>)
    requires !Handled(database, before).session.aborted
    requires var depth := |Handled(database, before).session.saved| + 1; var start := before + [Begin];
      && (forall j: nat :: j <= |inner| ==> depth <= |Handled(database, start + inner[..j]).session.saved|)
      && |Handled(database, start + inner).session.saved| == depth
    ensures Handled(database, before + [Begin] + inner + [Rollback]).session == Handled(database, before).session
  {
    hide Handled;
    var start := before + [Begin];
    var s, end := Handled(database, before).session, Handled(database, start + inner).session;
    LastStep(database, before, Begin);
    OpenSavepoint(database, start, inner, |s.saved| + 1);
    LastStep(database, start + inner, Rollback);
    assert end.saved == end.saved[..|s.saved| + 1] == s.saved + [s.content];
    assert (s.saved + [s.content])[..|s.saved|] == s.saved;
  }

  lemma LastStep(database: Content, ops: seq<Op>, op: Op)
    ensures Handled(database, ops + [op]) == After(Handled(database, ops), op)
  {
    assert (ops + [op])[..|ops|] == ops;
  }
}

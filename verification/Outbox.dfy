/**
  The transactional outbox: producers commit rows and then notify, one worker per
  process drains the rows of a business type under a row lock.

  The protocol is a state machine over the steps of any number of processes.  A state
  holds the table, the lock row and, for every process, its worker's program counter,
  its capacity-1 channel and what its producers have committed.  The fields marked as
  history are read by no step.

  Two errors are only logged by the source: one met while the row of the message query is
  fetched, which then reads as an empty table (ReadLost), and one met when the lock query is
  closed, after which the transaction goes on without the lock (AcquireLost).
 */
module Outbox {
  import opened Values

  type MsgId = nat

  /** Where a process's worker is. */
  datatype Pc =
    | Down                                      // the process is not running
    | Waiting(needTimer: bool)                  // in the select of the outer loop
    | Pushing                                   // inside push, before the lock is granted
    | Locked                                    // past the lock query, has not read yet
    | Drained(blind: bool)                      // got no row (blind: for an error), is about to commit
    | Holding(id: MsgId, seen: set<MsgId>)      // read row id; seen: committed when it read
    | Handled(id: MsgId)                        // the handler succeeded, commit is pending

  datatype Proc = Proc(
    pc: Pc,
    token: bool,                 // pushChan holds its one element
    locked: bool,                // its transaction has the lock row
    unnotified: set<MsgId>,      // committed here, NotifyPushOutboxThread not called yet
    covered: set<MsgId>,         // history: notified here, or in the table at start-up
    misled: bool)                // history: its last drain committed after a blind read

  /** One successful handler call, with the messages committed when its row was read. */
  datatype Publication = Publication(id: MsgId, seen: set<MsgId>)

  datatype Lock = Free | Held(owner: nat)

  datatype State = State(
    rows: map<MsgId, int>,            // t_outbox: create time of every row
    procs: seq<Proc>,
    lock: Lock,
    times: map<MsgId, int>,           // history: every message ever committed
    published: seq<Publication>,      // history
    aborted: multiset<MsgId>,         // history: handled by a transaction that did not commit
    repeated: multiset<MsgId>,        // history: handled by one that found the row gone
    silent: nat)                      // history: transactions that went on without the lock

  datatype Step =
    | Commit(p: nat, batch: map<MsgId, int>)
    | Notify(p: nat, ids: set<MsgId>)
    | Wake(p: nat)
    | Tick(p: nat)
    | BeginFail(p: nat)
    | Acquire(p: nat)
    | AcquireLost(p: nat)
    | Read(p: nat, oldest: MsgId)
    | ReadNone(p: nat)
    | ReadLost(p: nat)
    | Handle(p: nat)
    | Fail(p: nat)
    | CommitTx(p: nat)
    | CommitFail(p: nat)
    | Crash(p: nat)
    | Start(p: nat)

  const STOPPED := Proc(Down, false, false, {}, {}, false)

  ghost predicate Init(s: State) {
    && s.rows == map[] && s.times == map[] && s.lock == Free && s.silent == 0
    && s.published == [] && s.aborted == multiset{} && s.repeated == multiset{}
    && forall p :: 0 <= p < |s.procs| ==> s.procs[p] == STOPPED
  }

  /** A transaction is open, past the lock query. */
  predicate InTx(pc: Pc) {
    pc.Locked? || pc.Drained? || pc.Holding? || pc.Handled?
  }

  predicate OwnsLock(q: Proc) {
    InTx(q.pc) && q.locked
  }

  /** order by f_create_time asc limit 1: any row with the least create time. */
  predicate IsOldest(rows: map<MsgId, int>, m: MsgId) {
    m in rows && forall a :: a in rows ==> rows[m] <= rows[a]
  }

  predicate Enabled(s: State, e: Step) {
    && e.p < |s.procs|
    && var q := s.procs[e.p];
    match e
    case Commit(_, batch) => !q.pc.Down? && batch.Keys !! s.times.Keys
    case Notify(_, ids) => !q.pc.Down? && ids <= q.unnotified
    case Wake(_) => q.pc.Waiting? && q.token
    case Tick(_) => q.pc.Waiting?
    case BeginFail(_) => q.pc.Pushing?
    case Acquire(_) => q.pc.Pushing? && s.lock == Free
    case AcquireLost(_) => q.pc.Pushing?
    case Read(_, m) => q.pc.Locked? && IsOldest(s.rows, m)
    case ReadNone(_) => q.pc.Locked? && s.rows == map[]
    case ReadLost(_) => q.pc.Locked?
    case Handle(_) => q.pc.Holding?
    case Fail(_) => q.pc.Pushing? || q.pc.Locked? || q.pc.Holding? || q.pc.Handled?
    case CommitTx(_) => q.pc.Drained? || q.pc.Handled?
    case CommitFail(_) => q.pc.Drained? || q.pc.Handled?
    case Crash(_) => !q.pc.Down?
    case Start(_) => q.pc.Down?
  }

  function Put(s: State, p: nat, q: Proc): (t: State)
    requires p < |s.procs|
  {
    s.(procs := s.procs[p := q])
  }

  function At(s: State, p: nat, pc: Pc): (t: State)
    requires p < |s.procs|
  {
    Put(s, p, s.procs[p].(pc := pc))
  }

  /** The end of p's transaction gives back what lock it has. */
  function Released(s: State, p: nat): (l: Lock)
    requires p < |s.procs|
  {
    if OwnsLock(s.procs[p]) then Free else s.lock
  }

  /** A transaction ends without a commit, and p goes on as q: a handled message stays. */
  function Abort(s: State, p: nat, q: Proc): (t: State)
    requires p < |s.procs|
  {
    var was := s.procs[p].pc;
    Put(s, p, q).(
      lock := Released(s, p),
      aborted := if was.Handled? then s.aborted + multiset{was.id} else s.aborted)
  }

  /** p's transaction commits: nothing was read, or the handled row is deleted, if it is still there. */
  function Committed(s: State, p: nat): (t: State)
    requires p < |s.procs|
  {
    var q := s.procs[p];
    match q.pc
    case Drained(blind) => Put(s, p, q.(pc := Waiting(false), misled := blind)).(lock := Released(s, p))
    case Handled(id) =>
      At(s, p, Pushing).(
        lock := Released(s, p), rows := s.rows - {id},
        repeated := if id in s.rows then s.repeated else s.repeated + multiset{id})
    case _ => s
  }

  function Next(s: State, e: Step): (t: State)
    requires Enabled(s, e)
  {
    var q := s.procs[e.p];
    match e
    case Commit(p, batch) =>
      Put(s, p, q.(unnotified := q.unnotified + batch.Keys)).(rows := s.rows + batch, times := s.times + batch)
    case Notify(p, ids) =>
      Put(s, p, q.(token := true, unnotified := q.unnotified - ids, covered := q.covered + ids))
    case Wake(p) => Put(s, p, q.(pc := Pushing, token := false, misled := false))
    case Tick(p) => if q.pc.needTimer then At(s, p, Pushing) else s
    case BeginFail(p) => At(s, p, Waiting(true))
    case Acquire(p) => Put(s, p, q.(pc := Locked, locked := true)).(lock := Held(p))
    case AcquireLost(p) => Put(s, p, q.(pc := Locked, locked := false)).(silent := s.silent + 1)
    case Read(p, m) => At(s, p, Holding(m, s.times.Keys))
    case ReadNone(p) => At(s, p, Drained(false))
    case ReadLost(p) => At(s, p, Drained(true))
    case Handle(p) =>
      At(s, p, Handled(q.pc.id)).(published := s.published + [Publication(q.pc.id, q.pc.seen)])
    case Fail(p) => Abort(s, p, q.(pc := Waiting(true)))
    case CommitTx(p) => Committed(s, p)
    case CommitFail(p) => Abort(s, p, q.(pc := Waiting(true)))
    case Crash(p) => Abort(s, p, STOPPED)
    case Start(p) => Put(s, p, STOPPED.(pc := Waiting(false), token := true, covered := s.rows.Keys))
  }

  // ------------------------------------------------------------------ the properties

  /** Handler calls that succeeded for message m. */
  ghost function Calls(log: seq<Publication>, m: MsgId): (n: nat) {
    if log == [] then 0
    else Calls(log[..|log| - 1], m) + if log[|log| - 1].id == m then 1 else 0
  }

  ghost predicate Published(log: seq<Publication>, m: MsgId) {
    exists i :: 0 <= i < |log| && log[i].id == m
  }

  /** The processes whose open transaction has handled m. */
  ghost function InFlight(s: State, m: MsgId): (ps: set<nat>) {
    set p: nat | p < |s.procs| && s.procs[p].pc == Handled(m)
  }

  /** The owner of the lock row is the one the table records, so there is one at most. */
  ghost predicate Exclusive(s: State) {
    forall p: nat :: p < |s.procs| ==> (OwnsLock(s.procs[p]) <==> s.lock == Held(p))
  }

  /** Successful calls for m: one if its row is gone, plus the lost and the repeated ones, plus those under way. */
  ghost predicate Balanced(s: State, m: MsgId, inFlight: nat) {
    Calls(s.published, m) == (if m in s.times && m !in s.rows then 1 else 0) + s.aborted[m] + s.repeated[m] + inFlight
  }

  ghost predicate Accounted(s: State) {
    forall m: MsgId :: Balanced(s, m, |InFlight(s, m)|)
  }

  /** With every lock query heard, a transaction has the lock and its row is still there. */
  predicate TxOrderly(s: State, q: Proc) {
    && (InTx(q.pc) ==> q.locked)
    && (q.pc.Holding? ==> q.pc.id in s.rows) && (q.pc.Handled? ==> q.pc.id in s.rows)
  }

  ghost predicate Orderly(s: State) {
    s.silent == 0 ==>
      s.repeated == multiset{} && forall p :: 0 <= p < |s.procs| ==> TxOrderly(s, s.procs[p])
  }

  /** The token is there, the retry flag is set, or the table will be read again. */
  predicate Awake(q: Proc) {
    q.token || q.pc == Waiting(true)
    || q.pc.Pushing? || q.pc.Locked? || q.pc.Holding? || q.pc.Handled?
  }

  /** Its last drain ended, or is about to end, on a read that failed unsaid. */
  predicate Misled(q: Proc) {
    q.misled || q.pc == Drained(true)
  }

  ghost predicate NoLostWakeup(s: State) {
    forall p, m :: 0 <= p < |s.procs| && m in s.procs[p].covered && m in s.rows ==>
      Awake(s.procs[p]) || Misled(s.procs[p])
  }

  ghost predicate OlderPublished(log: seq<Publication>, times: map<MsgId, int>, seen: set<MsgId>, b: MsgId) {
    forall a :: a in seen && a in times && b in times && times[a] < times[b] ==> Published(log, a)
  }

  /** Whatever was committed and older when a message's row was read was published before it. */
  ghost predicate Ordered(s: State) {
    forall j :: 0 <= j < |s.published| ==>
      OlderPublished(s.published[..j], s.times, s.published[j].seen, s.published[j].id)
  }

  ghost predicate TableInHistory(s: State) {
    && s.rows.Keys <= s.times.Keys
    && (forall m :: m in s.rows ==> s.rows[m] == s.times[m])
    && (forall i :: 0 <= i < |s.published| ==> s.published[i].id in s.times && s.published[i].seen <= s.times.Keys)
  }

  ghost predicate ProcOk(s: State, q: Proc) {
    && q.covered <= s.times.Keys && q.unnotified <= s.times.Keys
    && (q.pc.Down? ==> !q.token && q.covered == {})
    && (q.misled ==> q.pc == Waiting(false))
    && (q.pc.Holding? ==> q.pc.id in s.times && q.pc.seen <= s.times.Keys
                          && OlderPublished(s.published, s.times, q.pc.seen, q.pc.id))
    && (q.pc.Handled? ==> q.pc.id in s.times)
  }

  ghost predicate ProcsOk(s: State) {
    forall p :: 0 <= p < |s.procs| ==> ProcOk(s, s.procs[p])
  }

  ghost predicate Inv(s: State) {
    TableInHistory(s) && Exclusive(s) && Accounted(s) && Orderly(s) && Ordered(s) && NoLostWakeup(s) && ProcsOk(s)
  }

  // ------------------------------------------------------------------ preservation

  /** History only grows. */
  ghost predicate Grows(s: State, t: State) {
    && s.published <= t.published
    && (forall m :: m in s.times ==> m in t.times && t.times[m] == s.times[m])
  }

  lemma NextGrows(s: State, e: Step)
    requires Enabled(s, e)
    ensures Grows(s, Next(s, e)) && |Next(s, e).procs| == |s.procs|
    ensures forall p :: 0 <= p < |s.procs| && p != e.p ==> Next(s, e).procs[p] == s.procs[p]
  {
  }

  lemma TableStep(s: State, e: Step)
    requires TableInHistory(s) && Enabled(s, e) && ProcOk(s, s.procs[e.p])
    ensures TableInHistory(Next(s, e))
  {
  }

  lemma ExclusiveOne(s: State, e: Step, p: nat)
    requires Enabled(s, e) && p < |s.procs|
    requires OwnsLock(s.procs[p]) <==> s.lock == Held(p)
    requires OwnsLock(s.procs[e.p]) <==> s.lock == Held(e.p)
    ensures OwnsLock(Next(s, e).procs[p]) <==> Next(s, e).lock == Held(p)
  {
    if p != e.p {
      NextGrows(s, e);
    }
  }

  lemma ExclusiveStep(s: State, e: Step)
    requires Exclusive(s) && Enabled(s, e)
    ensures Exclusive(Next(s, e))
  {
    NextGrows(s, e);
    forall p: nat | p < |s.procs| ensures OwnsLock(Next(s, e).procs[p]) <==> Next(s, e).lock == Held(p) {
      ExclusiveOne(s, e, p);
    }
  }

  lemma {:induction false} CallsAppend(log: seq<Publication>, x: Publication, m: MsgId)
    ensures Calls(log + [x], m) == Calls(log, m) + if x.id == m then 1 else 0
  {
    assert (log + [x])[..|log|] == log;
  }

  lemma {:induction false} CalledIsPublished(log: seq<Publication>, m: MsgId)
    ensures Calls(log, m) > 0 <==> Published(log, m)
  {
    if log != [] {
      var init := log[..|log| - 1];
      CalledIsPublished(init, m);
      if Published(init, m) {
        var i :| 0 <= i < |init| && init[i].id == m;
        assert log[i].id == m;
      }
      if Published(log, m) && log[|log| - 1].id != m {
        var i :| 0 <= i < |log| && log[i].id == m;
        assert init[i].id == m;
      }
    }
  }

  ghost function Flying(s: State, p: nat, m: MsgId): (n: nat)
    requires p < |s.procs|
  {
    if s.procs[p].pc == Handled(m) then 1 else 0
  }

  /** When one process moves, whether it has handled m may change, and no other's. */
  lemma InFlightMoves(s: State, t: State, p: nat, m: MsgId)
    requires |t.procs| == |s.procs| && p < |s.procs|
    requires forall q :: 0 <= q < |s.procs| && q != p ==> t.procs[q] == s.procs[q]
    ensures Flying(s, p, m) <= |InFlight(s, m)|
    ensures |InFlight(t, m)| == |InFlight(s, m)| - Flying(s, p, m) + Flying(t, p, m)
  {
    var others := set q: nat | q < |s.procs| && q != p && s.procs[q].pc == Handled(m);
    OneMore(others, p);
    assert InFlight(s, m) == if Flying(s, p, m) == 1 then others + {p} else others;
    assert InFlight(t, m) == if Flying(t, p, m) == 1 then others + {p} else others;
  }

  lemma OneMore(ps: set<nat>, p: nat)
    requires p !in ps
    ensures |ps + {p}| == |ps| + 1
  {
  }

  lemma BalancedEnd(s: State, e: Step, m: MsgId, n: nat)
    requires Enabled(s, e) && (e.Fail? || e.CommitFail? || e.Crash? || e.CommitTx?) && s.rows.Keys <= s.times.Keys
    requires Balanced(s, m, n) && Flying(s, e.p, m) <= n
    ensures Balanced(Next(s, e), m, n - Flying(s, e.p, m) + Flying(Next(s, e), e.p, m))
  {
  }

  lemma BalancedCommit(s: State, e: Step, m: MsgId, n: nat)
    requires Enabled(s, e) && e.Commit? && s.rows.Keys <= s.times.Keys && Balanced(s, m, n)
    ensures Balanced(Next(s, e), m, n) && Flying(Next(s, e), e.p, m) == Flying(s, e.p, m)
  {
  }

  lemma BalancedHandle(s: State, e: Step, m: MsgId, n: nat)
    requires Enabled(s, e) && e.Handle? && Balanced(s, m, n)
    ensures Balanced(Next(s, e), m, n + Flying(Next(s, e), e.p, m)) && Flying(s, e.p, m) == 0
  {
    CallsAppend(s.published, Publication(s.procs[e.p].pc.id, s.procs[e.p].pc.seen), m);
  }

  /** The remaining steps touch nothing that is counted. */
  predicate Quiet(e: Step) {
    !e.Commit? && !e.Handle? && !e.Fail? && !e.CommitFail? && !e.Crash? && !e.CommitTx?
  }

  lemma BalancedQuiet(s: State, e: Step, m: MsgId, n: nat)
    requires Enabled(s, e) && Quiet(e) && Balanced(s, m, n)
    ensures Balanced(Next(s, e), m, n) && Flying(Next(s, e), e.p, m) == Flying(s, e.p, m)
  {
  }

  lemma BalancedStep(s: State, e: Step, m: MsgId, n: nat)
    requires Enabled(s, e) && s.rows.Keys <= s.times.Keys && Balanced(s, m, n) && Flying(s, e.p, m) <= n
    ensures Balanced(Next(s, e), m, n - Flying(s, e.p, m) + Flying(Next(s, e), e.p, m))
  {
    if Quiet(e) {
      BalancedQuiet(s, e, m, n);
    } else if e.Commit? {
      BalancedCommit(s, e, m, n);
    } else if e.Handle? {
      BalancedHandle(s, e, m, n);
    } else {
      BalancedEnd(s, e, m, n);
    }
  }

  lemma AccountedStep(s: State, e: Step)
    requires Accounted(s) && s.rows.Keys <= s.times.Keys && Enabled(s, e)
    ensures Accounted(Next(s, e))
  {
    forall m: MsgId ensures Balanced(Next(s, e), m, |InFlight(Next(s, e), m)|) {
      NextGrows(s, e);
      InFlightMoves(s, Next(s, e), e.p, m);
      assert Balanced(s, m, |InFlight(s, m)|);
      BalancedStep(s, e, m, |InFlight(s, m)|);
    }
  }

  lemma OrderlyProc(s: State, e: Step, p: nat)
    requires Enabled(s, e) && p < |s.procs| && Next(s, e).silent == 0
    requires TxOrderly(s, s.procs[p]) && TxOrderly(s, s.procs[e.p])
    requires p != e.p ==> !(OwnsLock(s.procs[p]) && OwnsLock(s.procs[e.p]))
    ensures TxOrderly(Next(s, e), Next(s, e).procs[p])
  {
  }

  lemma OrderlyStep(s: State, e: Step)
    requires Orderly(s) && Exclusive(s) && Enabled(s, e)
    ensures Orderly(Next(s, e))
  {
    var t := Next(s, e);
    if t.silent == 0 {
      assert TxOrderly(s, s.procs[e.p]);
      forall p | 0 <= p < |t.procs| ensures TxOrderly(t, t.procs[p]) {
        NextGrows(s, e);
        assert TxOrderly(s, s.procs[p]);
        OrderlyProc(s, e, p);
      }
    }
  }

  /** The read takes an oldest row, so everything older and committed has left the table. */
  lemma OlderLeftTheTable(s: State, b: MsgId)
    requires TableInHistory(s) && Accounted(s) && IsOldest(s.rows, b)
    ensures OlderPublished(s.published, s.times, s.times.Keys, b)
  {
    forall a | a in s.times && s.times[a] < s.times[b] ensures Published(s.published, a) {
      assert a !in s.rows && Balanced(s, a, |InFlight(s, a)|);
      CalledIsPublished(s.published, a);
    }
  }

  lemma PublishedGrows(log: seq<Publication>, log': seq<Publication>, m: MsgId)
    requires Published(log, m) && log <= log'
    ensures Published(log', m)
  {
    var i :| 0 <= i < |log| && log[i].id == m;
    assert log'[i].id == m;
  }

  lemma OlderPublishedGrows(s: State, t: State, seen: set<MsgId>, b: MsgId)
    requires Grows(s, t) && seen <= s.times.Keys && b in s.times && OlderPublished(s.published, s.times, seen, b)
    ensures OlderPublished(t.published, t.times, seen, b)
  {
    forall a | a in seen && t.times[a] < t.times[b] ensures Published(t.published, a) {
      PublishedGrows(s.published, t.published, a);
    }
  }

  lemma ProcKept(s: State, t: State, q: Proc)
    requires ProcOk(s, q) && Grows(s, t)
    ensures ProcOk(t, q)
  {
    if q.pc.Holding? {
      OlderPublishedGrows(s, t, q.pc.seen, q.pc.id);
    }
  }

  /** The process that moved. */
  lemma ProcMoved(s: State, e: Step)
    requires Enabled(s, e) && ProcOk(s, s.procs[e.p]) && s.rows.Keys <= s.times.Keys
    requires e.Read? ==> OlderPublished(s.published, s.times, s.times.Keys, e.oldest)
    ensures ProcOk(Next(s, e), Next(s, e).procs[e.p])
  {
    NextGrows(s, e);
    ProcKept(s, Next(s, e), s.procs[e.p]);
  }

  lemma ProcsStep(s: State, e: Step)
    requires TableInHistory(s) && Accounted(s) && ProcsOk(s) && Enabled(s, e)
    ensures ProcsOk(Next(s, e))
  {
    var t := Next(s, e);
    NextGrows(s, e);
    if e.Read? {
      OlderLeftTheTable(s, e.oldest);
    }
    forall p | 0 <= p < |t.procs| ensures ProcOk(t, t.procs[p]) {
      assert ProcOk(s, s.procs[p]);
      if p == e.p {
        ProcMoved(s, e);
      } else {
        ProcKept(s, t, s.procs[p]);
      }
    }
  }

  lemma OrderedStep(s: State, e: Step)
    requires Ordered(s) && TableInHistory(s) && Enabled(s, e) && ProcOk(s, s.procs[e.p])
    ensures Ordered(Next(s, e))
  {
    var t := Next(s, e);
    NextGrows(s, e);
    forall j | 0 <= j < |t.published|
      ensures OlderPublished(t.published[..j], t.times, t.published[j].seen, t.published[j].id)
    {
      if j < |s.published| {
        assert t.published[..j] == s.published[..j];
        assert OlderPublished(s.published[..j], s.times, s.published[j].seen, s.published[j].id);
      } else {
        assert t.published[..j] == s.published;
      }
    }
  }

  lemma WakeupOne(s: State, e: Step, p: nat, m: MsgId)
    requires Enabled(s, e) && p < |s.procs| && ProcOk(s, s.procs[p])
    requires m in s.procs[p].covered && m in s.rows ==> Awake(s.procs[p]) || Misled(s.procs[p])
    requires m in Next(s, e).procs[p].covered && m in Next(s, e).rows
    ensures Awake(Next(s, e).procs[p]) || Misled(Next(s, e).procs[p])
  {
    if p != e.p {
      NextGrows(s, e);
    }
  }

  lemma WakeupStep(s: State, e: Step)
    requires NoLostWakeup(s) && ProcsOk(s) && Enabled(s, e)
    ensures NoLostWakeup(Next(s, e))
  {
    var t := Next(s, e);
    NextGrows(s, e);
    forall p, m | 0 <= p < |t.procs| && m in t.procs[p].covered && m in t.rows
      ensures Awake(t.procs[p]) || Misled(t.procs[p])
    {
      assert ProcOk(s, s.procs[p]);
      WakeupOne(s, e, p, m);
    }
  }

  lemma InvStep(s: State, e: Step)
    requires Inv(s) && Enabled(s, e)
    ensures Inv(Next(s, e))
  {
    assert ProcOk(s, s.procs[e.p]);
    TableStep(s, e);
    ExclusiveStep(s, e);
    AccountedStep(s, e);
    OrderlyStep(s, e);
    OrderedStep(s, e);
    WakeupStep(s, e);
    ProcsStep(s, e);
  }

  // ------------------------------------------------------------------ whole runs

  /** The state after some steps, if each is possible where it comes. */
  ghost function After(s: State, steps: seq<Step>): (t: Option<State>) {
    if steps == [] then Some(s) else
    match After(s, steps[..|steps| - 1])
    case None => None
    case Some(m) => if Enabled(m, steps[|steps| - 1]) then Some(Next(m, steps[|steps| - 1])) else None
  }

  lemma AfterOne(s: State, steps: seq<Step>, m: State, e: Step)
    requires After(s, steps) == Some(m) && Enabled(m, e)
    ensures After(s, steps + [e]) == Some(Next(m, e))
  {
    assert (steps + [e])[..|steps|] == steps;
  }

  lemma {:induction false} AfterMore(s: State, a: seq<Step>, m: State, b: seq<Step>)
    requires After(s, a) == Some(m)
    ensures After(s, a + b) == After(m, b)
  {
    if b == [] {
      assert a + b == a;
    } else {
      AfterMore(s, a, m, b[..|b| - 1]);
      assert (a + b)[..|a + b| - 1] == a + b[..|b| - 1];
    }
  }

  lemma InitInv(s: State)
    requires Init(s)
    ensures Inv(s)
  {
    forall m: MsgId ensures Balanced(s, m, |InFlight(s, m)|) {
      assert InFlight(s, m) == {};
    }
  }

  lemma {:induction false} RunsKeepInv(s: State, steps: seq<Step>, t: State)
    requires Inv(s) && After(s, steps) == Some(t)
    ensures Inv(t)
  {
    if steps != [] {
      var n := |steps| - 1;
      var m := After(s, steps[..n]).value;
      RunsKeepInv(s, steps[..n], m);
      InvStep(m, steps[n]);
    }
  }

  /** Some run from a start with no process up and an empty table ends in s. */
  ghost predicate Reachable(s: State) {
    exists init, steps :: Init(init) && After(init, steps) == Some(s)
  }

  lemma ReachableInv(s: State)
    requires Reachable(s)
    ensures Inv(s)
  {
    var init, steps :| Init(init) && After(init, steps) == Some(s);
    InitInv(init);
    RunsKeepInv(init, steps, s);
  }

  lemma InitReachable(s: State)
    requires Init(s)
    ensures Reachable(s)
  {
    assert After(s, []) == Some(s);
  }

  lemma ReachableStep(s: State, e: Step)
    requires Reachable(s) && Enabled(s, e)
    ensures Reachable(Next(s, e))
  {
    var init, steps :| Init(init) && After(init, steps) == Some(s);
    AfterOne(init, steps, s, e);
  }

  lemma ReachableAfter(s: State, steps: seq<Step>, t: State)
    requires Reachable(s) && After(s, steps) == Some(t)
    ensures Reachable(t)
  {
    var init, before :| Init(init) && After(init, before) == Some(s);
    AfterMore(init, before, s, steps);
  }

  /**
    Delivery accounting over every interleaving: a committed message is in the table or its
    handler has succeeded, and its successful calls are exactly accounted for.  As long as no
    lock query has failed unsaid, no row is in the hands of two workers and no call is
    repeated but for transactions that did not commit.
   */
  lemma DeliveryIsAccounted(s: State, m: MsgId)
    requires Reachable(s)
    ensures Balanced(s, m, |InFlight(s, m)|)
    ensures m in s.times ==> m in s.rows || Published(s.published, m)
    ensures s.silent == 0 ==> s.repeated[m] == 0 && |InFlight(s, m)| <= 1
    ensures s.silent == 0 ==> forall p, q :: 0 <= p < q < |s.procs| ==> !(InTx(s.procs[p].pc) && InTx(s.procs[q].pc))
  {
    ReachableInv(s);
    CalledIsPublished(s.published, m);
    assert Balanced(s, m, |InFlight(s, m)|);
    if s.silent == 0 {
      forall p: nat | p < |s.procs| && InTx(s.procs[p].pc) ensures s.lock == Held(p) {
        assert TxOrderly(s, s.procs[p]);
      }
      var owners := if s.lock.Held? then {s.lock.owner} else {};
      assert InFlight(s, m) <= owners;
      SmallerSet(InFlight(s, m), owners);
    }
  }

  lemma {:induction false} SmallerSet(a: set<nat>, b: set<nat>)
    requires a <= b
    ensures |a| <= |b|
  {
    assert b == a + (b - a);
  }

  lemma EmptyTableMeansPublished(s: State)
    requires Reachable(s) && s.rows == map[]
    ensures forall m :: m in s.times ==> Published(s.published, m)
  {
    forall m | m in s.times ensures Published(s.published, m) {
      DeliveryIsAccounted(s, m);
    }
  }

  /**
    A row its process was told about is left behind a sleeping worker exactly when the
    worker's last drain ended on a read that failed unsaid and nobody has notified since.
   */
  lemma NotifiedRowsKeepTheWorkerAwake(s: State, p: nat, m: MsgId)
    requires Reachable(s) && p < |s.procs| && m in s.procs[p].covered && m in s.rows
    ensures !s.procs[p].pc.Down?
    ensures Awake(s.procs[p]) <==> !Misled(s.procs[p]) || s.procs[p].token
  {
    ReachableInv(s);
    assert ProcOk(s, s.procs[p]);
  }

  /** A message that was committed and older when b's row was read was published before b. */
  lemma PublicationFollowsCreateTime(s: State, j: nat, a: MsgId)
    requires Reachable(s) && j < |s.published| && a in s.published[j].seen
    ensures s.published[j].id in s.times && a in s.times
    ensures s.times[a] < s.times[s.published[j].id] ==> exists i :: 0 <= i < j && s.published[i].id == a
  {
    ReachableInv(s);
    if s.times[a] < s.times[s.published[j].id] {
      assert Published(s.published[..j], a);
      var i :| 0 <= i < j && s.published[..j][i].id == a;
      assert s.published[i].id == a;
    }
  }

  predicate Gives(e: Step, m: MsgId) {
    e.Commit? && m in e.batch
  }

  lemma TimesStep(s: State, e: Step, m: MsgId)
    requires Enabled(s, e)
    ensures m in Next(s, e).times <==> m in s.times || Gives(e, m)
    ensures m in s.times ==> Next(s, e).times[m] == s.times[m] && !Gives(e, m)
    ensures Gives(e, m) ==> Next(s, e).times[m] == e.batch[m] && m in Next(s, e).rows && Next(s, e).rows[m] == e.batch[m]
  {
  }

  /** A message was committed by these steps, with that create time. */
  ghost predicate Given(steps: seq<Step>, m: MsgId, at: int) {
    exists i :: 0 <= i < |steps| && Gives(steps[i], m) && steps[i].batch[m] == at
  }

  lemma GivenMore(steps: seq<Step>, m: MsgId, at: int)
    requires steps != []
    ensures var last := steps[|steps| - 1];
      Given(steps, m, at) <==> Given(steps[..|steps| - 1], m, at) || (Gives(last, m) && last.batch[m] == at)
  {
    var before := steps[..|steps| - 1];
    if Given(before, m, at) {
      var i :| 0 <= i < |before| && Gives(before[i], m) && before[i].batch[m] == at;
      assert steps[i] == before[i];
    }
  }

  /** The messages of a run are those its producers committed, with the create times they gave. */
  lemma {:induction false} TimesAreGiven(init: State, steps: seq<Step>, s: State, m: MsgId, at: int)
    requires Init(init) && After(init, steps) == Some(s)
    ensures m in s.times && s.times[m] == at <==> Given(steps, m, at)
  {
    if steps != [] {
      var before, last := steps[..|steps| - 1], steps[|steps| - 1];
      var t := After(init, before).value;
      TimesAreGiven(init, before, t, m, at);
      TimesStep(t, last, m);
      GivenMore(steps, m, at);
    }
  }

  /** A handled row whose transaction rolls back, fails to commit or dies stays, to be handled again. */
  lemma {:induction false} UncommittedStays(s: State, p: nat, m: MsgId, e: Step)
    requires Reachable(s) && p < |s.procs| && s.procs[p].pc == Handled(m) && m in s.rows
    requires e == Fail(p) || e == CommitFail(p) || e == Crash(p)
    ensures Enabled(s, e) && m in Next(s, e).rows && Next(s, e).aborted[m] == s.aborted[m] + 1
    ensures s.silent == 0 ==> Next(s, e).lock == Free
  {
    ReachableInv(s);
    assert TxOrderly(s, s.procs[p]) || s.silent > 0;
  }

  // ------------------------------------------------------------------ what the unsaid errors do

  lemma TakeStep(s: State, e: Step) returns (t: State)
    requires Reachable(s) && Enabled(s, e)
    ensures Reachable(t) && t == Next(s, e)
  {
    ReachableStep(s, e);
    t := Next(s, e);
  }

  lemma Begin(n: nat) returns (s: State)
    ensures Reachable(s) && |s.procs| == n && forall p :: 0 <= p < n ==> s.procs[p] == STOPPED
    ensures s.rows == map[] && s.times == map[] && s.lock == Free && s.silent == 0 && s.published == []
  {
    s := State(map[], seq(n, _ => STOPPED), Free, map[], [], multiset{}, multiset{}, 0);
    InitReachable(s);
  }

  /** The other processes stay as they are, and so does what the errors are counted by. */
  ghost predicate OnlyMoves(s: State, t: State, p: nat) {
    && |t.procs| == |s.procs| && t.silent == s.silent
    && forall q :: 0 <= q < |s.procs| && q != p ==> t.procs[q] == s.procs[q]
  }

  lemma StartOne(s: State, p: nat) returns (t: State)
    requires Reachable(s) && p < |s.procs| && s.procs[p].pc.Down?
    ensures Reachable(t) && OnlyMoves(s, t, p) && t.lock == s.lock && t.rows == s.rows && t.times == s.times
    ensures t.procs[p].pc == Waiting(false) && t.procs[p].token
  {
    t := TakeStep(s, Start(p));
  }

  lemma CommitOne(s: State, p: nat, m: MsgId) returns (t: State)
    requires Reachable(s) && p < |s.procs| && !s.procs[p].pc.Down? && m !in s.times
    ensures Reachable(t) && OnlyMoves(s, t, p) && t.lock == s.lock && t.rows == s.rows[m := 1]
    ensures t.procs[p] == s.procs[p].(unnotified := s.procs[p].unnotified + {m})
  {
    AddRow(s.rows, m);
    t := TakeStep(s, Commit(p, map[m := 1]));
    NextGrows(s, Commit(p, map[m := 1]));
  }

  lemma AddRow(rows: map<MsgId, int>, m: MsgId)
    ensures rows + map[m := 1] == rows[m := 1]
  {
  }

  /** A process starts, commits message m and notifies. */
  lemma StartAndNotify(s: State, p: nat, m: MsgId) returns (t: State)
    requires Reachable(s) && p < |s.procs| && s.procs[p].pc.Down? && m !in s.times
    ensures Reachable(t) && OnlyMoves(s, t, p) && t.lock == s.lock && t.rows == s.rows[m := 1]
    ensures t.procs[p].pc == Waiting(false) && t.procs[p].token && m in t.procs[p].covered
  {
    t := StartOne(s, p);
    t := CommitOne(t, p, m);
    t := TakeStep(t, Notify(p, {m}));
  }

  /** Its worker wakes up and asks for the lock; silently says that the query fails unsaid. */
  lemma WakeAndLock(s: State, p: nat, silently: bool) returns (t: State)
    requires Reachable(s) && p < |s.procs| && s.procs[p].pc.Waiting? && s.procs[p].token && (silently || s.lock == Free)
    ensures Reachable(t) && |t.procs| == |s.procs| && t.rows == s.rows && (silently || t.silent == s.silent)
    ensures forall q :: 0 <= q < |s.procs| && q != p ==> t.procs[q] == s.procs[q]
    ensures t.procs[p].pc == Locked && !t.procs[p].token && t.procs[p].covered == s.procs[p].covered
  {
    t := TakeStep(s, Wake(p));
    t := TakeStep(t, if silently then AcquireLost(p) else Acquire(p));
  }

  lemma ReadBlindly(s: State, p: nat) returns (t: State)
    requires Reachable(s) && p < |s.procs| && s.procs[p].pc.Locked?
    ensures Reachable(t) && OnlyMoves(s, t, p) && t.rows == s.rows
    ensures t.procs[p].pc == Waiting(false) && t.procs[p].token == s.procs[p].token && t.procs[p].covered == s.procs[p].covered
  {
    t := TakeStep(s, ReadLost(p));
    t := TakeStep(t, CommitTx(p));
  }

  lemma ReadAndHandle(s: State, p: nat, m: MsgId) returns (t: State)
    requires Reachable(s) && p < |s.procs| && s.procs[p].pc.Locked? && IsOldest(s.rows, m)
    ensures Reachable(t) && OnlyMoves(s, t, p) && t.rows == s.rows && t.procs[p].pc == Handled(m)
  {
    t := TakeStep(s, Read(p, m));
    t := TakeStep(t, Handle(p));
  }

  /** One process, one message, notified: its row is in the table, the worker sleeps and the timer does not help. */
  lemma WakeupLost() returns (s: State)
    ensures Reachable(s) && |s.procs| == 1 && 0 in s.procs[0].covered && 0 in s.rows && s.silent == 0
    ensures !Awake(s.procs[0]) && Enabled(s, Tick(0)) && Next(s, Tick(0)) == s
  {
    s := Begin(1);
    s := StartAndNotify(s, 0, 0);
    s := WakeAndLock(s, 0, false);
    s := ReadBlindly(s, 0);
  }

  /** Two processes, one of which lost its lock query unsaid, have handled the same row. */
  lemma HandledTwiceAtOnce() returns (s: State)
    ensures Reachable(s) && |s.procs| == 2 && s.procs[0].pc == Handled(0) && s.procs[1].pc == Handled(0)
  {
    s := Begin(2);
    s := StartAndNotify(s, 0, 0);
    s := StartOne(s, 1);
    s := WakeAndLock(s, 0, false);
    s := ReadAndHandle(s, 0, 0);
    s := WakeAndLock(s, 1, true);
    s := ReadAndHandle(s, 1, 0);
  }

  // ------------------------------------------------------------------ delivery

  /** A step of a worker in which nothing fails. */
  predicate Undisturbed(e: Step) {
    e.Wake? || e.Tick? || e.Acquire? || e.Read? || e.ReadNone? || e.Handle? || e.CommitTx?
  }

  ghost predicate WorkerSteps(steps: seq<Step>, p: nat) {
    forall i :: 0 <= i < |steps| ==> steps[i].p == p && Undisturbed(steps[i])
  }

  lemma {:induction false} SomeOldest(rows: map<MsgId, int>) returns (m: MsgId)
    requires rows != map[]
    ensures IsOldest(rows, m)
    decreases |rows|
  {
    var x :| x in rows;
    var rest := rows - {x};
    assert rows.Keys == {x} + rest.Keys;
    if rest == map[] {
      m := x;
    } else {
      assert |rest.Keys| < |rows.Keys|;
      var y := SomeOldest(rest);
      m := if rows[x] <= rows[y] then x else y;
    }
  }

  /** One more step in front of a worker's steps. */
  lemma {:induction false} StepThen(s: State, e: Step, steps: seq<Step>, t: State) returns (all: seq<Step>)
    requires Enabled(s, e) && After(Next(s, e), steps) == Some(t) && WorkerSteps(steps, e.p) && Undisturbed(e)
    ensures After(s, all) == Some(t) && WorkerSteps(all, e.p)
  {
    all := [e] + steps;
    assert [e][..0] == [] && After(s, [e]) == Some(Next(s, e));
    AfterMore(s, [e], Next(s, e), steps);
  }

  lemma FewerRows(rows: map<MsgId, int>, m: MsgId)
    requires m in rows
    ensures |rows - {m}| < |rows|
  {
    assert (rows - {m}).Keys == rows.Keys - {m};
    assert |rows.Keys - {m}| < |rows.Keys|;
  }

  lemma {:induction false} FinishNone(s: State, p: nat) returns (steps: seq<Step>, t: State)
    requires p < |s.procs| && s.procs[p].pc.Locked? && s.procs[p].locked && s.rows == map[]
    ensures After(s, steps) == Some(t) && WorkerSteps(steps, p) && t.times == s.times && t.lock == Free && t.rows == map[]
  {
    var s2 := Next(s, ReadNone(p));
    t := Next(s2, CommitTx(p));
    steps := StepThen(s2, CommitTx(p), [], t);
    steps := StepThen(s, ReadNone(p), steps, t);
  }

  lemma {:induction false} FinishRow(s: State, p: nat, m: MsgId) returns (steps: seq<Step>, t: State)
    requires p < |s.procs| && s.procs[p].pc.Locked? && s.procs[p].locked && IsOldest(s.rows, m)
    ensures After(s, steps) == Some(t) && WorkerSteps(steps, p) && t.times == s.times && t.lock == Free
    ensures p < |t.procs| && t.procs[p].pc.Pushing? && t.rows == s.rows - {m}
  {
    var s2 := Next(s, Read(p, m));
    var s3 := Next(s2, Handle(p));
    t := Next(s3, CommitTx(p));
    steps := StepThen(s3, CommitTx(p), [], t);
    steps := StepThen(s2, Handle(p), steps, t);
    steps := StepThen(s, Read(p, m), steps, t);
  }

  /** An undisturbed transaction removes the oldest row, or finds none. */
  lemma {:induction false} PushOne(s: State, p: nat) returns (steps: seq<Step>, t: State)
    requires p < |s.procs| && s.procs[p].pc.Pushing? && s.lock == Free
    ensures After(s, steps) == Some(t) && WorkerSteps(steps, p) && t.times == s.times && t.lock == Free
    ensures s.rows == map[] ==> t.rows == map[]
    ensures s.rows != map[] ==>
      p < |t.procs| && t.procs[p].pc.Pushing? && exists m :: m in s.rows && t.rows == s.rows - {m}
  {
    var s1 := Next(s, Acquire(p));
    if s.rows == map[] {
      steps, t := FinishNone(s1, p);
    } else {
      var m := SomeOldest(s.rows);
      steps, t := FinishRow(s1, p, m);
    }
    steps := StepThen(s, Acquire(p), steps, t);
  }

  lemma JoinRuns(s: State, a: seq<Step>, m: State, b: seq<Step>, t: State, p: nat) returns (all: seq<Step>)
    requires After(s, a) == Some(m) && After(m, b) == Some(t) && WorkerSteps(a, p) && WorkerSteps(b, p)
    ensures After(s, all) == Some(t) && WorkerSteps(all, p)
  {
    AfterMore(s, a, m, b);
    all := a + b;
  }

  /** With no failure, the inner loop publishes row after row and stops on an empty table. */
  lemma {:induction false} DrainEmptiesTheTable(s: State, p: nat) returns (steps: seq<Step>, t: State)
    requires p < |s.procs| && s.procs[p].pc.Pushing? && s.lock == Free
    ensures After(s, steps) == Some(t) && WorkerSteps(steps, p) && t.rows == map[] && t.times == s.times
    decreases |s.rows|
  {
    var first, m := PushOne(s, p);
    if s.rows == map[] {
      steps, t := first, m;
    } else {
      var x :| x in s.rows && m.rows == s.rows - {x};
      FewerRows(s.rows, x);
      var more;
      more, t := DrainEmptiesTheTable(m, p);
      steps := JoinRuns(s, first, m, more, t, p);
    }
  }

  function Rank(pc: Pc): (n: nat) {
    match pc
    case Locked => 3
    case Holding(_, _) => 2
    case Drained(_) => 2
    case Handled(_) => 1
    case Waiting(_) => 1
    case _ => 0
  }

  /** An awake worker, with no other owner of the lock. */
  predicate CanGo(s: State, p: nat) {
    && p < |s.procs| && Awake(s.procs[p]) && !s.procs[p].pc.Down? && (s.procs[p].pc.Locked? ==> s.rows != map[])
    && if OwnsLock(s.procs[p]) then s.lock == Held(p) else s.lock == Free
  }

  /** It has a next step of its own, which brings it nearer to its next push. */
  lemma {:induction false} AwakeWorkerMoves(s: State, p: nat) returns (e: Step)
    requires CanGo(s, p) && !s.procs[p].pc.Pushing?
    ensures Enabled(s, e) && Undisturbed(e) && e.p == p && Next(s, e).times == s.times
    ensures CanGo(Next(s, e), p) && Rank(Next(s, e).procs[p].pc) < Rank(s.procs[p].pc)
  {
    var q := s.procs[p];
    if q.pc.Waiting? {
      e := if q.token then Wake(p) else Tick(p);
    } else if q.pc.Locked? {
      var oldest := SomeOldest(s.rows);
      e := Read(p, oldest);
    } else {
      e := if q.pc.Holding? then Handle(p) else CommitTx(p);
    }
  }

  lemma {:induction false} AwakeWorkerPushes(s: State, p: nat) returns (steps: seq<Step>, t: State)
    requires CanGo(s, p)
    ensures After(s, steps) == Some(t) && WorkerSteps(steps, p)
    ensures p < |t.procs| && t.procs[p].pc.Pushing? && t.lock == Free && t.times == s.times
    decreases Rank(s.procs[p].pc)
  {
    if s.procs[p].pc.Pushing? {
      steps, t := [], s;
    } else {
      var e := AwakeWorkerMoves(s, p);
      steps, t := AwakeWorkerPushes(Next(s, e), p);
      steps := StepThen(s, e, steps, t);
    }
  }

  /**
    What staying awake is for: when no other worker has the lock, the worker that was told
    about a row can publish it, and everything else in the table, by steps of its own alone.
   */
  lemma {:induction false} AwakeWorkerDelivers(s: State, p: nat, m: MsgId) returns (steps: seq<Step>, t: State)
    requires Reachable(s) && p < |s.procs| && m in s.procs[p].covered && m in s.rows && Awake(s.procs[p])
    requires s.lock == Free || s.lock == Held(p)
    ensures After(s, steps) == Some(t) && WorkerSteps(steps, p) && t.rows == map[]
    ensures forall a :: a in s.rows ==> Published(t.published, a)
  {
    ReachableInv(s);
    assert ProcOk(s, s.procs[p]);
    var first, u := AwakeWorkerPushes(s, p);
    var more;
    more, t := DrainEmptiesTheTable(u, p);
    steps := JoinRuns(s, first, u, more, t, p);
    ReachableAfter(s, steps, t);
    forall a | a in s.rows ensures Published(t.published, a) {
      DeliveryIsAccounted(t, a);
    }
  }

  // ------------------------------------------------------------------ the worker's code

  /** A step of p's worker, or of the process as a whole. */
  predicate OfWorker(p: nat, e: Step) {
    e.p == p && !e.Commit? && !e.Notify?
  }

  /** Which calls of one push fail; lockUnsaid and fetch are the errors that are only logged. */
  datatype Faults = Faults(
    begin: bool, lock: bool, lockUnsaid: bool, query: bool, fetch: bool, handler: bool, delete: bool, commit: bool)

  /** One push: its faults, and what producers and other workers do while it waits for each of its calls. */
  datatype Turn = Turn(faults: Faults, beforeLock: seq<Step>, beforeRead: seq<Step>, beforeHandler: seq<Step>, beforeEnd: seq<Step>)

  const NO_FAULTS := Faults(false, false, false, false, false, false, false, false)

  const UNDISTURBED := Turn(NO_FAULTS, [], [], [], [])

  function Script(turn: Turn): (steps: seq<Step>) {
    turn.beforeLock + turn.beforeRead + turn.beforeHandler + turn.beforeEnd
  }

  /** Nobody else moves during the push. */
  predicate Alone(turn: Turn) {
    turn.beforeLock == [] && turn.beforeRead == [] && turn.beforeHandler == [] && turn.beforeEnd == []
  }

  /** The steps of p's worker among the steps of a run. */
  ghost function Own(steps: seq<Step>, p: nat): (own: seq<Step>) {
    if steps == [] then [] else
    var last := steps[|steps| - 1];
    Own(steps[..|steps| - 1], p) + if OfWorker(p, last) then [last] else []
  }

  /** The record grew by path, as far as p's worker is concerned, and otherwise by steps of the script. */
  ghost predicate Did(was: seq<Step>, taken: seq<Step>, p: nat, path: seq<Step>, script: seq<Step>) {
    && was <= taken && Own(taken, p) == Own(was, p) + path
    && forall i :: |was| <= i < |taken| ==> OfWorker(p, taken[i]) || taken[i] in script
  }

  lemma DidThen(a: seq<Step>, b: seq<Step>, c: seq<Step>, p: nat, path: seq<Step>, more: seq<Step>, script: seq<Step>)
    requires Did(a, b, p, path, script) && Did(b, c, p, more, script)
    ensures Did(a, c, p, path + more, script)
  {
    assert Own(a, p) + path + more == Own(a, p) + (path + more);
    assert forall i :: 0 <= i < |b| ==> c[i] == b[i];
  }

  lemma GrowsThen(s: State, t: State, u: State)
    requires Grows(s, t) && Grows(t, u)
    ensures Grows(s, u)
  {
  }

  function FinishStep(p: nat, f: Faults): (e: Step) {
    if f.delete then Fail(p) else if f.commit then CommitFail(p) else CommitTx(p)
  }

  function LockPath(p: nat, f: Faults, refused: bool): (steps: seq<Step>) {
    [if f.begin then BeginFail(p) else if refused then Fail(p) else if f.lockUnsaid then AcquireLost(p) else Acquire(p)]
  }

  function ReadStep(p: nat, f: Faults, read: Option<MsgId>): (e: Step) {
    if f.query then Fail(p) else
    match read
    case None => if f.fetch then ReadLost(p) else ReadNone(p)
    case Some(m) => Read(p, m)
  }

  /** How push goes through the protocol, given whether it was refused the lock and what it read. */
  function PushPath(p: nat, f: Faults, refused: bool, read: Option<MsgId>): (steps: seq<Step>) {
    LockPath(p, f, refused) + if f.begin || refused then [] else ReadPath(p, f, read)
  }

  function ReadPath(p: nat, f: Faults, read: Option<MsgId>): (steps: seq<Step>) {
    [ReadStep(p, f, read)] +
    if f.query then [] else if read.Some? then HandlePath(p, f) else [if f.commit then CommitFail(p) else CommitTx(p)]
  }

  function HandlePath(p: nat, f: Faults): (steps: seq<Step>) {
    if f.handler then [Fail(p)] else [Handle(p)] + [FinishStep(p, f)]
  }

  /** A failure from the read on that push hears of. */
  predicate EndsBadly(f: Faults, read: Option<MsgId>) {
    f.query || f.commit || (read.Some? && (f.handler || f.delete))
  }

  lemma AllStayPublished(s: State, t: State, u: State)
    requires Grows(s, t) && Grows(t, u)
    ensures (forall m :: m in t.times ==> Published(t.published, m)) ==> forall m :: m in s.times ==> Published(u.published, m)
  {
    if forall m :: m in t.times ==> Published(t.published, m) {
      forall m | m in s.times ensures Published(u.published, m) {
        PublishedGrows(t.published, u.published, m);
      }
    }
  }

  /** While others move, p's worker stays where it is and nothing is unpublished. */
  ghost predicate Kept(s: State, t: State, p: nat) {
    && Grows(s, t) && p < |s.procs| == |t.procs| && t.procs[p].pc == s.procs[p].pc
    && t.procs[p].locked == s.procs[p].locked && t.procs[p].misled == s.procs[p].misled
  }

  /** Where the others' steps lead, those left out that are the worker's own or cannot be taken. */
  function Moved(s: State, p: nat, others: seq<Step>): (t: State) {
    if others == [] then s else
    var t, e := Moved(s, p, others[..|others| - 1]), others[|others| - 1];
    if Enabled(t, e) && !OfWorker(p, e) then Next(t, e) else t
  }

  /** Other workers, and the producers of every process, do move while a worker waits. */
  lemma OthersMove(s: State, p: nat, others: seq<Step>, e: Step)
    requires Enabled(Moved(s, p, others), e) && (e.p != p || e.Commit? || e.Notify?)
    ensures Moved(s, p, others + [e]) == Next(Moved(s, p, others), e)
  {
    assert (others + [e])[..|others|] == others;
  }

  /** The push does not get the lock: the query fails, or another worker has the row. */
  predicate Refuses(s: State, p: nat, turn: Turn) {
    !turn.faults.begin && (turn.faults.lock || (!turn.faults.lockUnsaid && Moved(s, p, turn.beforeLock).lock != Free))
  }

  lemma {:induction false} OwnerExists(init: State, steps: seq<Step>, s: State)
    requires Init(init) && After(init, steps) == Some(s)
    ensures s.lock.Held? ==> s.lock.owner < |s.procs|
  {
    if steps != [] {
      var n := |steps| - 1;
      var t := After(init, steps[..n]).value;
      OwnerExists(init, steps[..n], t);
      NextGrows(t, steps[n]);
    }
  }

  lemma {:induction false} MovedKeeps(s: State, p: nat, others: seq<Step>)
    requires Reachable(s) && p < |s.procs|
    ensures Reachable(Moved(s, p, others)) && Kept(s, Moved(s, p, others), p)
  {
    if others != [] {
      var n := |others| - 1;
      MovedKeeps(s, p, others[..n]);
      var t := Moved(s, p, others[..n]);
      if Enabled(t, others[n]) && !OfWorker(p, others[n]) {
        ReachableStep(t, others[n]);
        NextGrows(t, others[n]);
      }
    }
  }

  /** Process q has an open transaction with the lock row. */
  ghost predicate HasLock(s: State, q: nat) {
    q < |s.procs| && s.procs[q].locked
    && (s.procs[q].pc.Locked? || s.procs[q].pc.Drained? || s.procs[q].pc.Holding? || s.procs[q].pc.Handled?)
  }

  ghost predicate AnotherHasLock(s: State, p: nat) {
    exists q: nat :: q != p && HasLock(s, q)
  }

  lemma {:induction false} LockHasOwner(s: State)
    requires Reachable(s)
    ensures s.lock.Held? ==> HasLock(s, s.lock.owner)
    ensures forall q: nat :: HasLock(s, q) ==> s.lock == Held(q)
  {
    ReachableInv(s);
    var init, steps :| Init(init) && After(init, steps) == Some(s);
    OwnerExists(init, steps, s);
    forall q: nat | q < |s.procs| ensures HasLock(s, q) <==> s.lock == Held(q) {
      assert OwnsLock(s.procs[q]) <==> s.lock == Held(q);
    }
  }

  lemma TakenByAnother(s: State, p: nat)
    requires Reachable(s) && !HasLock(s, p)
    ensures s.lock != Free <==> AnotherHasLock(s, p)
  {
    LockHasOwner(s);
  }

  /** Without a fault of its own, a push is refused the lock exactly when another worker's transaction has it. */
  lemma {:induction false} RefusedByAnother(s: State, p: nat, turn: Turn)
    requires Reachable(s) && p < |s.procs| && s.procs[p].pc.Pushing?
    requires !turn.faults.begin && !turn.faults.lock && !turn.faults.lockUnsaid
    ensures Refuses(s, p, turn) <==> AnotherHasLock(Moved(s, p, turn.beforeLock), p)
  {
    var t := Moved(s, p, turn.beforeLock);
    assert Reachable(t) && !HasLock(t, p) by {
      MovedKeeps(s, p, turn.beforeLock);
    }
    TakenByAnother(t, p);
  }

  /** Turn i of a drain; after the given ones nothing fails and nobody else moves. */
  function TurnAt(turns: seq<Turn>, i: nat): (turn: Turn) {
    if i < |turns| then turns[i] else UNDISTURBED
  }

  /** Nothing fails and nobody else moves. */
  predicate Calm(turn: Turn) {
    var f := turn.faults;
    Alone(turn) && !f.begin && !f.lock && !f.lockUnsaid && !f.query && !f.fetch && !f.handler && !f.delete && !f.commit
  }

  /** One push of a drain: how many steps came before it, where it began, and what it met. */
  datatype Pushed = Pushed(mark: nat, at: State, refused: bool, read: Option<MsgId>)

  ghost predicate PushedAt(from: State, taken: seq<Step>, p: nat, turn: Turn, x: Pushed) {
    && x.mark <= |taken| && After(from, taken[..x.mark]) == Some(x.at)
    && (x.refused <==> Refuses(x.at, p, turn))
    && (x.read.Some? ==> !turn.faults.query && !turn.faults.fetch)
  }

  /** The worker's steps in these pushes, one after the other. */
  ghost function Paths(p: nat, turns: seq<Turn>, pushes: seq<Pushed>): (steps: seq<Step>) {
    if pushes == [] then [] else
    var n := |pushes| - 1;
    Paths(p, turns, pushes[..n]) + PushPath(p, TurnAt(turns, n).faults, pushes[n].refused, pushes[n].read)
  }

  ghost predicate AllPushed(from: State, taken: seq<Step>, p: nat, turns: seq<Turn>, pushes: seq<Pushed>) {
    forall i :: 0 <= i < |pushes| ==> PushedAt(from, taken, p, TurnAt(turns, i), pushes[i])
  }

  lemma AllPushedMore(from: State, mid: seq<Step>, taken: seq<Step>, p: nat, turns: seq<Turn>, pushes: seq<Pushed>, x: Pushed)
    requires AllPushed(from, mid, p, turns, pushes) && mid <= taken && PushedAt(from, taken, p, TurnAt(turns, |pushes|), x)
    ensures AllPushed(from, taken, p, turns, pushes + [x])
  {
    var all := pushes + [x];
    forall i | 0 <= i < |all| ensures PushedAt(from, taken, p, TurnAt(turns, i), all[i]) {
      if i < |pushes| {
        PushedStays(from, mid, taken, p, TurnAt(turns, i), pushes[i]);
      }
    }
  }

  /** Since was, the worker has gone through these pushes and done nothing else. */
  ghost predicate Record(from: State, was: seq<Step>, taken: seq<Step>, p: nat, turns: seq<Turn>, pushes: seq<Pushed>) {
    && was <= taken && Own(taken, p) == Own(was, p) + Paths(p, turns, pushes)
    && AllPushed(from, taken, p, turns, pushes)
  }

  lemma PushedStays(from: State, mid: seq<Step>, taken: seq<Step>, p: nat, turn: Turn, x: Pushed)
    requires PushedAt(from, mid, p, turn, x) && mid <= taken
    ensures PushedAt(from, taken, p, turn, x)
  {
    assert taken[..x.mark] == mid[..x.mark];
  }

  lemma {:induction false} PathsMore(p: nat, turns: seq<Turn>, pushes: seq<Pushed>, x: Pushed, own: seq<Step>)
    ensures own + Paths(p, turns, pushes) + PushPath(p, TurnAt(turns, |pushes|).faults, x.refused, x.read) == own + Paths(p, turns, pushes + [x])
  {
    assert (pushes + [x])[..|pushes|] == pushes;
    AssociateSteps(own, Paths(p, turns, pushes), PushPath(p, TurnAt(turns, |pushes|).faults, x.refused, x.read));
  }

  lemma AssociateSteps(a: seq<Step>, b: seq<Step>, c: seq<Step>)
    ensures a + b + c == a + (b + c)
  {
  }

  lemma {:induction false} RecordMore(from: State, was: seq<Step>, mid: seq<Step>, taken: seq<Step>, p: nat, turns: seq<Turn>, pushes: seq<Pushed>, x: Pushed)
    requires Record(from, was, mid, p, turns, pushes) && mid <= taken
    requires PushedAt(from, taken, p, TurnAt(turns, |pushes|), x)
    requires Own(taken, p) == Own(mid, p) + PushPath(p, TurnAt(turns, |pushes|).faults, x.refused, x.read)
    ensures Record(from, was, taken, p, turns, pushes + [x])
  {
    PathsMore(p, turns, pushes, x, Own(was, p));
    AllPushedMore(from, mid, taken, p, turns, pushes, x);
  }

  /** The push ended in a failure that it hears of, or without the lock. */
  predicate Heard(turns: seq<Turn>, i: nat, x: Pushed) {
    var f := TurnAt(turns, i).faults;
    f.begin || f.lock || x.refused || f.query || f.commit || (x.read.Some? && (f.handler || f.delete))
  }

  /** The first n pushes each removed a row, so that the loop went on. */
  ghost predicate WentOn(turns: seq<Turn>, pushes: seq<Pushed>, n: nat) {
    n <= |pushes| && forall i :: 0 <= i < n ==> pushes[i].read.Some? && !Heard(turns, i, pushes[i])
  }

  /** The first push, if any, began there. */
  ghost predicate BeganAt(pushes: seq<Pushed>, mark: nat, at: State) {
    pushes != [] ==> pushes[0].mark == mark && pushes[0].at == at
  }

  ghost predicate AllCalm(turns: seq<Turn>) {
    forall k :: 0 <= k < |turns| ==> Calm(turns[k])
  }

  /** How a drain ends: the last push failed, or read nothing. */
  ghost predicate Stopped(turns: seq<Turn>, pushes: seq<Pushed>, needTimer: bool, q: Proc) {
    && pushes != [] && WentOn(turns, pushes, |pushes| - 1) && q.pc == Waiting(needTimer)
    && var k := |pushes| - 1;
    && (needTimer <==> Heard(turns, k, pushes[k]))
    && (!needTimer ==> pushes[k].read.None? && q.misled == TurnAt(turns, k).faults.fetch)
  }

  lemma WentOnMore(turns: seq<Turn>, pushes: seq<Pushed>, more: seq<Pushed>)
    requires WentOn(turns, pushes, |pushes|) && pushes <= more && |more| == |pushes| + 1
    ensures WentOn(turns, more, |pushes|)
    ensures more[|pushes|].read.Some? && !Heard(turns, |pushes|, more[|pushes|]) ==> WentOn(turns, more, |more|)
  {
  }

  /** One process's worker; s is the table, the lock row and all processes. */
  class Worker {
    const p: nat
    var s: State
    ghost var from: State        // where the run that is recorded began
    ghost var taken: seq<Step>   // its steps

    ghost predicate Valid()
      reads this
    {
      Reachable(s) && p < |s.procs| && After(from, taken) == Some(s)
    }

    constructor (p: nat, s: State)
      requires Reachable(s) && p < |s.procs|
      ensures Valid() && this.p == p && this.s == s && from == s && taken == []
    {
      this.p, this.s, this.from, this.taken := p, s, s, [];
    }

    /** A step of the worker. */
    method Take(e: Step, ghost script: seq<Step>)
      requires Valid() && Enabled(s, e) && OfWorker(p, e)
      modifies this
      ensures Valid() && from == old(from) && s == Next(old(s), e) && Grows(old(s), s)
      ensures Did(old(taken), taken, p, [e], script)
    {
      ReachableStep(s, e);
      AfterOne(from, taken, s, e);
      NextGrows(s, e);
      assert (taken + [e])[..|taken|] == taken;
      s, taken := Next(s, e), taken + [e];
    }

    method Other(e: Step)
      requires Valid() && Enabled(s, e) && !OfWorker(p, e)
      modifies this
      ensures Valid() && from == old(from) && taken == old(taken) + [e] && Own(taken, p) == Own(old(taken), p)
      ensures s == Next(old(s), e) && Kept(old(s), s, p)
    {
      ReachableStep(s, e);
      AfterOne(from, taken, s, e);
      NextGrows(s, e);
      assert (taken + [e])[..|taken|] == taken;
      s, taken := Next(s, e), taken + [e];
    }

    /** Producers and other workers do what they can of their part of the script. */
    method Wait(others: seq<Step>, ghost script: seq<Step>)
      requires Valid() && forall i :: 0 <= i < |others| ==> others[i] in script
      modifies this
      ensures Valid() && from == old(from) && Kept(old(s), s, p) && s == Moved(old(s), p, others)
      ensures Did(old(taken), taken, p, [], script)
    {
      for i := 0 to |others|
        invariant Valid() && from == old(from) && Kept(old(s), s, p) && s == Moved(old(s), p, others[..i])
        invariant Did(old(taken), taken, p, [], script)
      {
        assert others[..i + 1][..i] == others[..i];
        if Enabled(s, others[i]) && !OfWorker(p, others[i]) {
          Other(others[i]);
        }
      }
      TakeAll(others);
    }

    /** select f_id ... order by f_create_time asc limit 1 */
    method Oldest(rows: map<MsgId, int>) returns (m: MsgId)
      requires rows != map[]
      ensures IsOldest(rows, m)
    {
      var left := rows.Keys;
      m :| m in left;
      while left != {}
        invariant left <= rows.Keys && m in rows
        invariant forall a :: a in rows && a !in left ==> rows[m] <= rows[a]
        decreases left
      {
        var a :| a in left;
        if rows[a] < rows[m] { m := a; }
        left := left - {a};
      }
    }

    /** Hand the row over. */
    method CallHandler(turn: Turn) returns (ok: bool)
      requires Valid() && s.procs[p].pc.Holding?
      modifies this
      ensures Valid() && from == old(from) && Grows(old(s), s) && ok == !turn.faults.handler
      ensures Did(old(taken), taken, p, [if ok then Handle(p) else Fail(p)], Script(turn))
      ensures s.procs[p].pc == if ok then Handled(old(s.procs[p].pc.id)) else Waiting(true)
      ensures Alone(turn) ==> s.rows == old(s.rows)
      ensures ok ==> Published(s.published, old(s.procs[p].pc.id))
      ensures old(s.procs[p].locked) ==> if ok then s.procs[p].locked else s.lock == Free
    {
      ok := !turn.faults.handler;
      Wait(turn.beforeHandler, Script(turn));
      ghost var mid, waited := s, taken;
      Take(if ok then Handle(p) else Fail(p), Script(turn));
      DidThen(old(taken), waited, taken, p, [], [if ok then Handle(p) else Fail(p)], Script(turn));
      GrowsThen(old(s), mid, s);
      if ok {
        assert s.published[|s.published| - 1].id == old(s.procs[p].pc.id);
      }
    }

    /** Delete the row and commit, or roll back. */
    method Finish(turn: Turn) returns (ok: bool)
      requires Valid() && s.procs[p].pc.Handled?
      modifies this
      ensures Valid() && from == old(from) && Grows(old(s), s) && ok == !(turn.faults.delete || turn.faults.commit)
      ensures Did(old(taken), taken, p, [FinishStep(p, turn.faults)], Script(turn))
      ensures s.procs[p].pc == if ok then Pushing else Waiting(true)
      ensures ok ==> old(s.procs[p].pc.id) !in s.rows
      ensures ok && Alone(turn) ==> s.rows == old(s.rows) - {old(s.procs[p].pc.id)}
      ensures old(s.procs[p].locked) ==> s.lock == Free
    {
      ok := !(turn.faults.delete || turn.faults.commit);
      Wait(turn.beforeEnd, Script(turn));
      ghost var mid, waited := s, taken;
      Take(FinishStep(p, turn.faults), Script(turn));
      DidThen(old(taken), waited, taken, p, [], [FinishStep(p, turn.faults)], Script(turn));
      GrowsThen(old(s), mid, s);
    }

    /** push from the handler on: hand the row over, delete it and commit. */
    method Publish(turn: Turn) returns (needTimer: bool)
      requires Valid() && s.procs[p].pc.Holding?
      modifies this
      ensures Valid() && from == old(from) && Grows(old(s), s)
      ensures Did(old(taken), taken, p, HandlePath(p, turn.faults), Script(turn))
      ensures needTimer <==> turn.faults.handler || turn.faults.delete || turn.faults.commit
      ensures s.procs[p].pc == if needTimer then Waiting(true) else Pushing
      ensures !needTimer ==> Published(s.published, old(s.procs[p].pc.id)) && old(s.procs[p].pc.id) !in s.rows
      ensures !needTimer && Alone(turn) ==> s.rows == old(s.rows) - {old(s.procs[p].pc.id)}
      ensures old(s.procs[p].locked) ==> s.lock == Free
    {
      var ok := CallHandler(turn);
      if !ok {
        return true;
      }
      ghost var mid, handled := s, taken;
      ok := Finish(turn);
      DidThen(old(taken), handled, taken, p, [Handle(p)], [FinishStep(p, turn.faults)], Script(turn));
      GrowsThen(old(s), mid, s);
      PublishedGrows(mid.published, s.published, old(s.procs[p].pc.id));
      needTimer := !ok;
    }

    /** Open the transaction and take the lock row. */
    method Lock(turn: Turn) returns (refused: bool)
      requires Valid() && s.procs[p].pc.Pushing?
      modifies this
      ensures Valid() && from == old(from) && Grows(old(s), s)
      ensures Did(old(taken), taken, p, LockPath(p, turn.faults, refused), Script(turn))
      ensures s.procs[p].pc == if turn.faults.begin || refused then Waiting(true) else Locked
      ensures Alone(turn) ==> s.rows == old(s.rows)
      ensures refused <==> Refuses(old(s), p, turn)
      ensures s.procs[p].pc.Locked? ==> s.procs[p].locked == !turn.faults.lockUnsaid
    {
      var f := turn.faults;
      if f.begin {
        Take(BeginFail(p), Script(turn));
        return false;
      }
      Wait(turn.beforeLock, Script(turn));
      ghost var mid, waited := s, taken;
      refused := f.lock || (!f.lockUnsaid && s.lock != Free);
      var e := if refused then Fail(p) else if f.lockUnsaid then AcquireLost(p) else Acquire(p);
      Take(e, Script(turn));
      DidThen(old(taken), waited, taken, p, [], [e], Script(turn));
      GrowsThen(old(s), mid, s);
    }

    /** The message query on the table as it then is. */
    method ReadMessage(turn: Turn) returns (read: Option<MsgId>)
      requires Valid() && s.procs[p].pc.Locked?
      modifies this
      ensures Valid() && from == old(from) && Grows(old(s), s)
      ensures Did(old(taken), taken, p, [ReadStep(p, turn.faults, read)], Script(turn))
      ensures turn.faults.query ==> read == None && s.procs[p].pc == Waiting(true)
      ensures !turn.faults.query && read.None? ==> s.procs[p].pc == Drained(turn.faults.fetch)
      ensures !turn.faults.query && read.None? && !turn.faults.fetch ==> s.rows == map[]
      ensures read.Some? ==> !turn.faults.query && !turn.faults.fetch
      ensures read.Some? ==> s.procs[p].pc.Holding? && s.procs[p].pc.id == read.value && IsOldest(s.rows, read.value)
      ensures Alone(turn) ==> s.rows == old(s.rows)
      ensures old(s.procs[p].locked) ==> if turn.faults.query then s.lock == Free else s.procs[p].locked
    {
      var f := turn.faults;
      Wait(turn.beforeRead, Script(turn));
      ghost var mid, waited := s, taken;
      read := None;
      if !f.query && !f.fetch && s.rows != map[] {
        var m := Oldest(s.rows);
        read := Some(m);
      }
      Take(ReadStep(p, f, read), Script(turn));
      DidThen(old(taken), waited, taken, p, [], [ReadStep(p, f, read)], Script(turn));
      GrowsThen(old(s), mid, s);
    }

    /** Nothing was read: commit, and report the end. */
    method FinishEmpty(turn: Turn) returns (ok: bool)
      requires Valid() && s.procs[p].pc.Drained?
      modifies this
      ensures Valid() && from == old(from) && Grows(old(s), s) && ok == !turn.faults.commit
      ensures Did(old(taken), taken, p, [if ok then CommitTx(p) else CommitFail(p)], Script(turn))
      ensures s.procs[p].pc == Waiting(!ok) && (ok ==> s.procs[p].misled == old(s.procs[p].pc.blind))
      ensures Alone(turn) ==> s.rows == old(s.rows)
      ensures old(s.procs[p].locked) ==> s.lock == Free
    {
      ok := !turn.faults.commit;
      Wait(turn.beforeEnd, Script(turn));
      ghost var mid, waited := s, taken;
      Take(if ok then CommitTx(p) else CommitFail(p), Script(turn));
      DidThen(old(taken), waited, taken, p, [], [if ok then CommitTx(p) else CommitFail(p)], Script(turn));
      GrowsThen(old(s), mid, s);
    }

    /** push from the read on. */
    method ReadAndPublish(turn: Turn) returns (needTimer: bool, read: Option<MsgId>)
      requires Valid() && s.procs[p].pc.Locked?
      modifies this
      ensures Valid() && from == old(from) && Grows(old(s), s)
      ensures Did(old(taken), taken, p, ReadPath(p, turn.faults, read), Script(turn))
      ensures needTimer <==> EndsBadly(turn.faults, read)
      ensures read.Some? ==> !turn.faults.query && !turn.faults.fetch
      ensures old(s.procs[p].locked) ==> s.lock == Free
      ensures !needTimer && read.None? && !turn.faults.fetch && Alone(turn) ==> s.rows == map[]
      ensures !needTimer && read.None? ==> s.procs[p].misled == turn.faults.fetch
      ensures !needTimer && read.None? && !turn.faults.fetch ==> forall m :: m in old(s.times) ==> Published(s.published, m)
      ensures !needTimer && read.Some? ==> Published(s.published, read.value) && read.value !in s.rows
      ensures !needTimer && read.Some? && Alone(turn) ==> read.value in old(s.rows) && s.rows == old(s.rows) - {read.value}
      ensures s.procs[p].pc == if needTimer then Waiting(true) else if read.None? then Waiting(false) else Pushing
    {
      read := ReadMessage(turn);
      ghost var mid, was := s, taken;
      if turn.faults.query {
        return true, read;
      }
      if read.None? {
        if !turn.faults.fetch {
          EmptyTableMeansPublished(s);
        }
        var ok := FinishEmpty(turn);
        AllStayPublished(old(s), mid, s);
        needTimer := !ok;
      } else {
        needTimer := Publish(turn);
      }
      DidThen(old(taken), was, taken, p, [ReadStep(p, turn.faults, read)], ReadPath(p, turn.faults, read)[1..], Script(turn));
      GrowsThen(old(s), mid, s);
    }

    /**
      push: one transaction, while producers and other workers move.  It takes exactly the
      steps PushPath names; it asks for a retry on every failure it hears of; it reports the
      end without one exactly when it read no row, and then everything committed before is
      published, unless the row's fetch failed; else the oldest row was published and is gone.
     */
    method Push(turn: Turn) returns (needTimer: bool, isAllFinished: bool, refused: bool, read: Option<MsgId>)
      requires Valid() && s.procs[p].pc.Pushing?
      modifies this
      ensures Valid() && from == old(from) && Grows(old(s), s)
      ensures Did(old(taken), taken, p, PushPath(p, turn.faults, refused, read), Script(turn))
      ensures refused <==> Refuses(old(s), p, turn)
      ensures read.Some? ==> !turn.faults.query && !turn.faults.fetch
      ensures !turn.faults.begin && !refused && !turn.faults.lockUnsaid ==> s.lock == Free
      ensures isAllFinished && !turn.faults.fetch && Alone(turn) ==> s.rows == map[]
      ensures needTimer <==> turn.faults.begin || refused || EndsBadly(turn.faults, read)
      ensures isAllFinished <==> !needTimer && read.None?
      ensures s.procs[p].pc == if needTimer then Waiting(true) else if isAllFinished then Waiting(false) else Pushing
      ensures isAllFinished ==> s.procs[p].misled == turn.faults.fetch
      ensures isAllFinished && !turn.faults.fetch ==> forall m :: m in old(s.times) ==> Published(s.published, m)
      ensures !needTimer && read.Some? ==> Published(s.published, read.value) && read.value !in s.rows
      ensures !needTimer && read.Some? && Alone(turn) ==> read.value in old(s.rows) && s.rows == old(s.rows) - {read.value}
    {
      read := None;
      refused := Lock(turn);
      ghost var mid, was := s, taken;
      if turn.faults.begin || refused {
        return true, false, refused, read;
      }
      needTimer, read := ReadAndPublish(turn);
      DidThen(old(taken), was, taken, p, LockPath(p, turn.faults, false), ReadPath(p, turn.faults, read), Script(turn));
      GrowsThen(old(s), mid, s);
      isAllFinished := !needTimer && read.None?;
    }

    /** One more push of a drain. */
    method PushNext(turns: seq<Turn>, k: nat, ghost was: seq<Step>, ghost pushes: seq<Pushed>)
        returns (needTimer: bool, isAllFinished: bool, ghost pushes': seq<Pushed>)
      requires Valid() && s.procs[p].pc.Pushing? && k == |pushes| && Record(from, was, taken, p, turns, pushes)
      modifies this
      ensures Valid() && from == old(from) && Grows(old(s), s)
      ensures |pushes'| == k + 1 && pushes <= pushes' && Record(from, was, taken, p, turns, pushes')
      ensures pushes'[k].mark == |old(taken)| && pushes'[k].at == old(s)
      ensures needTimer <==> Heard(turns, k, pushes'[k])
      ensures isAllFinished <==> !needTimer && pushes'[k].read.None?
      ensures s.procs[p].pc == if needTimer then Waiting(true) else if isAllFinished then Waiting(false) else Pushing
      ensures isAllFinished ==> s.procs[p].misled == TurnAt(turns, k).faults.fetch
      ensures isAllFinished && !s.procs[p].misled ==> forall m :: m in old(s.times) ==> Published(s.published, m)
      ensures !needTimer && !isAllFinished && k >= |turns| ==> |s.rows| < |old(s.rows)|
      ensures Calm(TurnAt(turns, k)) && old(s.lock) == Free ==> !needTimer && s.lock == Free && (isAllFinished ==> s.rows == map[])
    {
      var turn := TurnAt(turns, k);
      ghost var before, mid := s, taken;
      var refused, read;
      needTimer, isAllFinished, refused, read := Push(turn);
      if !needTimer && read.Some? && k >= |turns| {
        FewerRows(before.rows, read.value);
      }
      ghost var x := Pushed(|mid|, before, refused, read);
      assert taken[..|mid|] == mid;
      RecordMore(from, was, mid, taken, p, turns, pushes, x);
      pushes' := pushes + [x];
    }

    /**
      The inner loop, over the given pushes and then undisturbed ones: the worker goes through
      them in order, one row each, up to the first that fails or reads none.  It asks for a
      retry exactly when that last one failed in a way it hears of; asleep without an unheard
      failure means that everything committed before is published; and when nothing fails
      and nobody interferes the table is empty.
     */
    method Drain(turns: seq<Turn>) returns (needTimer: bool, ghost pushes: seq<Pushed>)
      requires Valid() && s.procs[p].pc.Pushing?
      modifies this
      ensures Valid() && from == old(from) && Grows(old(s), s)
      ensures Record(from, old(taken), taken, p, turns, pushes) && BeganAt(pushes, |old(taken)|, old(s))
      ensures Stopped(turns, pushes, needTimer, s.procs[p])
      ensures !needTimer && !s.procs[p].misled ==> forall m :: m in old(s.times) ==> Published(s.published, m)
      ensures forall m :: m in old(s.times) ==> m in s.rows || Published(s.published, m)
      ensures AllCalm(turns) && old(s.lock) == Free ==> !needTimer && !s.procs[p].misled && s.rows == map[]
    {
      var k := 0;
      pushes := [];
      while true
        invariant Valid() && from == old(from) && Grows(old(s), s) && s.procs[p].pc.Pushing?
        invariant k == |pushes| && Record(from, old(taken), taken, p, turns, pushes) && WentOn(turns, pushes, k)
        invariant BeganAt(pushes, |old(taken)|, old(s)) && (k == 0 ==> s == old(s) && taken == old(taken))
        invariant AllCalm(turns) && old(s.lock) == Free ==> s.lock == Free
        decreases if k < |turns| then |turns| - k else 0, |s.rows|
      {
        ghost var before, done := s, pushes;
        var isAllFinished;
        needTimer, isAllFinished, pushes := PushNext(turns, k, old(taken), pushes);
        GrowsThen(old(s), before, s);
        WentOnMore(turns, done, pushes);
        if needTimer || isAllFinished {
          AllAccounted(old(s), s);
          return;
        }
        k := k + 1;
      }
    }
  }

  lemma AllAccounted(s: State, t: State)
    requires Grows(s, t) && Reachable(t)
    ensures forall m :: m in s.times ==> m in t.rows || Published(t.published, m)
  {
    forall m | m in s.times ensures m in t.rows || Published(t.published, m) {
      DeliveryIsAccounted(t, m);
    }
  }
}

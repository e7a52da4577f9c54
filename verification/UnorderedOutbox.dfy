/**
  The unordered outbox: workers claim rows by reading one that is not started and then
  updating it on condition that it still is; a heartbeat keeps a claim alive, a restart
  takes back the claims that have gone quiet, and a finished row is deleted.
 */
module UnorderedOutbox {
  import opened Values

  type RowId = nat

  datatype Status = NotStarted | InProgress

  datatype Row = Row(status: Status, updatedAt: int)

  type Rows = map<RowId, Row>

  // ------------------------------------------------------------------ the statements

  predicate Has(rows: Rows, id: RowId, status: Status) {
    id in rows && rows[id].status == status
  }

  /** update ... set f_status = 1, f_updated_at = now where id = ? and f_status = 0 */
  function Claimed(rows: Rows, id: RowId, now: int): (r: Rows) {
    if Has(rows, id, NotStarted) then rows[id := Row(InProgress, now)] else rows
  }

  /** update ... set f_updated_at = now where id = ? and f_status = 1 */
  function Renewed(rows: Rows, id: RowId, now: int): (r: Rows) {
    if Has(rows, id, InProgress) then rows[id := Row(InProgress, now)] else rows
  }

  /** delete ... where id = ? and f_status = 1 */
  function Deleted(rows: Rows, id: RowId): (r: Rows) {
    if Has(rows, id, InProgress) then rows - {id} else rows
  }

  predicate Stale(row: Row, cutoff: int) {
    row.status == InProgress && row.updatedAt < cutoff
  }

  /** update ... set f_status = 0 where f_status = 1 and f_updated_at < cutoff */
  function Restarted(rows: Rows, cutoff: int): (r: Rows) {
    map id | id in rows :: if Stale(rows[id], cutoff) then rows[id].(status := NotStarted) else rows[id]
  }

  // ------------------------------------------------------------------ the protocol

  /** A worker inside GetUnorderedOutboxInfo remembers (as history) how the claim log stood. */
  datatype Worker =
    | Idle
    | Reading(base: nat, retries: nat)
    | Selected(base: nat, retries: nat, id: RowId, atRead: nat)

  datatype Claim = Claim(worker: nat, id: RowId)

  datatype State = State(
    rows: Rows,
    workers: seq<Worker>,
    added: map<RowId, Status>,        // history: every row ever inserted
    log: seq<Claim>,                  // history: the claims that updated a row
    restarts: multiset<RowId>)        // history: the restarts that hit a row

  datatype Step =
    | Add(id: RowId, status: Status, at: int)
    | Call(w: nat)
    | Read(w: nat, found: RowId)
    | ReadNone(w: nat)
    | Cas(w: nat, now: int)
    | Error(w: nat)
    | Heartbeat(row: RowId, now: int)
    | Delete(row: RowId)
    | Restart(cutoff: int)

  ghost predicate Init(s: State) {
    && s.rows == map[] && s.added == map[] && s.log == [] && s.restarts == multiset{}
    && forall w :: 0 <= w < |s.workers| ==> s.workers[w] == Idle
  }

  predicate NoneFree(rows: Rows) {
    forall id :: id in rows ==> rows[id].status != NotStarted
  }

  predicate Enabled(s: State, e: Step) {
    match e
    case Add(id, _, _) => id !in s.added
    case Call(w) => w < |s.workers| && s.workers[w].Idle?
    case Read(w, id) => w < |s.workers| && s.workers[w].Reading? && Has(s.rows, id, NotStarted)
    case ReadNone(w) => w < |s.workers| && s.workers[w].Reading? && NoneFree(s.rows)
    case Cas(w, _) => w < |s.workers| && s.workers[w].Selected?
    case Error(w) => w < |s.workers| && !s.workers[w].Idle?
    case Heartbeat(_, _) | Delete(_) | Restart(_) => true
  }

  function Next(s: State, e: Step): (t: State)
    requires Enabled(s, e)
  {
    match e
    case Add(id, status, at) => s.(rows := s.rows[id := Row(status, at)], added := s.added[id := status])
    case Call(w) => s.(workers := s.workers[w := Reading(|s.log|, 0)])
    case Read(w, id) =>
      var q := s.workers[w];
      s.(workers := s.workers[w := Selected(q.base, q.retries, id, |s.log|)])
    case ReadNone(w) => s.(workers := s.workers[w := Idle])
    case Cas(w, now) =>
      var q := s.workers[w];
      if Has(s.rows, q.id, NotStarted)
      then s.(rows := Claimed(s.rows, q.id, now), workers := s.workers[w := Idle], log := s.log + [Claim(w, q.id)])
      else s.(workers := s.workers[w := Reading(q.base, q.retries + 1)])
    case Error(w) => s.(workers := s.workers[w := Idle])
    case Heartbeat(id, now) => s.(rows := Renewed(s.rows, id, now))
    case Delete(id) => s.(rows := Deleted(s.rows, id))
    case Restart(cutoff) =>
      s.(rows := Restarted(s.rows, cutoff),
         restarts := s.restarts + multiset(set id | id in s.rows && Stale(s.rows[id], cutoff)))
  }

  // ------------------------------------------------------------------ claim accounting

  ghost function Claims(log: seq<Claim>, id: RowId): (n: nat) {
    if log == [] then 0
    else Claims(log[..|log| - 1], id) + if log[|log| - 1].id == id then 1 else 0
  }

  /** Taken: in progress, or deleted. */
  ghost predicate Taken(s: State, id: RowId) {
    id in s.added && !Has(s.rows, id, NotStarted)
  }

  /** Claims of a row: one for every restart that hit it, one more while it is taken. */
  ghost predicate Balanced(s: State, id: RowId) {
    Claims(s.log, id) + (if id in s.added && s.added[id] == InProgress then 1 else 0)
      == s.restarts[id] + if Taken(s, id) then 1 else 0
  }

  ghost predicate Inv(s: State) {
    s.rows.Keys <= s.added.Keys && forall id: RowId :: Balanced(s, id)
  }

  lemma {:induction false} ClaimsAppend(log: seq<Claim>, x: Claim, id: RowId)
    ensures Claims(log + [x], id) == Claims(log, id) + if x.id == id then 1 else 0
  {
    assert (log + [x])[..|log|] == log;
  }

  lemma BalancedAfterRestart(s: State, cutoff: int, id: RowId)
    requires s.rows.Keys <= s.added.Keys && Balanced(s, id)
    ensures Balanced(Next(s, Restart(cutoff)), id)
  {
    var hit := set x | x in s.rows && Stale(s.rows[x], cutoff);
    assert multiset(hit)[id] == if id in s.rows && Stale(s.rows[id], cutoff) then 1 else 0;
  }

  lemma BalancedAfterCas(s: State, w: nat, now: int, id: RowId)
    requires s.rows.Keys <= s.added.Keys && Balanced(s, id) && Enabled(s, Cas(w, now))
    ensures Balanced(Next(s, Cas(w, now)), id)
  {
    ClaimsAppend(s.log, Claim(w, s.workers[w].id), id);
  }

  /** The other steps leave claims, restarts and what is free alone. */
  lemma BalancedAfterOther(s: State, e: Step, id: RowId)
    requires s.rows.Keys <= s.added.Keys && Balanced(s, id) && Enabled(s, e) && !e.Restart? && !e.Cas?
    ensures Balanced(Next(s, e), id)
  {
  }

  lemma BalancedStep(s: State, e: Step, id: RowId)
    requires s.rows.Keys <= s.added.Keys && Balanced(s, id) && Enabled(s, e)
    ensures Balanced(Next(s, e), id)
  {
    match e
    case Restart(cutoff) => BalancedAfterRestart(s, cutoff, id);
    case Cas(w, now) => BalancedAfterCas(s, w, now, id);
    case _ => BalancedAfterOther(s, e, id);
  }

  lemma RowsAreAdded(s: State, e: Step)
    requires s.rows.Keys <= s.added.Keys && Enabled(s, e)
    ensures Next(s, e).rows.Keys <= Next(s, e).added.Keys
  {
  }

  lemma InvStep(s: State, e: Step)
    requires Inv(s) && Enabled(s, e)
    ensures Inv(Next(s, e))
  {
    RowsAreAdded(s, e);
    forall id: RowId ensures Balanced(Next(s, e), id) {
      BalancedStep(s, e, id);
    }
  }

  // ------------------------------------------------------------------ claim loop progress

  /** charge names distinct claims of the log, in [lo, hi), made by workers other than w. */
  ghost predicate Charges(log: seq<Claim>, w: nat, lo: nat, hi: nat, charge: seq<nat>) {
    && hi <= |log|
    && (forall i :: 0 <= i < |charge| ==> lo <= charge[i] < hi && log[charge[i]].worker != w)
    && (forall i, j :: 0 <= i < j < |charge| ==> charge[i] < charge[j])
  }

  ghost predicate Chargeable(log: seq<Claim>, w: nat, lo: nat, hi: nat, n: nat) {
    exists charge :: |charge| == n && Charges(log, w, lo, hi, charge)
  }

  /** The row a worker read is no longer free only if another worker claimed it meanwhile. */
  ghost predicate Overtaken(log: seq<Claim>, w: nat, from: nat, id: RowId) {
    exists k :: from <= k < |log| && log[k].worker != w && log[k].id == id
  }

  ghost predicate CallOk(s: State, w: nat)
    requires w < |s.workers|
  {
    var q := s.workers[w];
    && (q.Reading? ==> q.base <= |s.log| && Chargeable(s.log, w, q.base, |s.log|, q.retries))
    && (q.Selected? ==> && q.base <= q.atRead <= |s.log| && q.id in s.added
                        && Chargeable(s.log, w, q.base, q.atRead, q.retries)
                        && (!Has(s.rows, q.id, NotStarted) ==> Overtaken(s.log, w, q.atRead, q.id)))
  }

  ghost predicate CallsOk(s: State) {
    forall w :: 0 <= w < |s.workers| ==> CallOk(s, w)
  }

  lemma ChargeableKept(log: seq<Claim>, x: Claim, w: nat, lo: nat, hi: nat, n: nat)
    requires Chargeable(log, w, lo, hi, n)
    ensures Chargeable(log + [x], w, lo, hi, n)
  {
    var charge: seq<nat> :| |charge| == n && Charges(log, w, lo, hi, charge);
    assert Charges(log + [x], w, lo, hi, charge);
  }

  lemma ChargeableWiden(log: seq<Claim>, w: nat, lo: nat, hi: nat, n: nat)
    requires Chargeable(log, w, lo, hi, n) && hi <= |log|
    ensures Chargeable(log, w, lo, |log|, n)
  {
    var charge: seq<nat> :| |charge| == n && Charges(log, w, lo, hi, charge);
    assert Charges(log, w, lo, |log|, charge);
  }

  /** A failed update is charged to the claim that overtook it, which no earlier retry used. */
  lemma ChargeRetry(log: seq<Claim>, w: nat, lo: nat, hi: nat, n: nat, id: RowId)
    requires Chargeable(log, w, lo, hi, n) && lo <= hi && Overtaken(log, w, hi, id)
    ensures Chargeable(log, w, lo, |log|, n + 1)
  {
    var charge: seq<nat> :| |charge| == n && Charges(log, w, lo, hi, charge);
    var k :| hi <= k < |log| && log[k].worker != w && log[k].id == id;
    assert Charges(log, w, lo, |log|, charge + [k]);
  }

  lemma CallStep(s: State, e: Step, w: nat)
    requires s.rows.Keys <= s.added.Keys && CallsOk(s) && Enabled(s, e) && w < |s.workers|
    ensures CallOk(Next(s, e), w)
  {
    var t := Next(s, e);
    var q := s.workers[w];
    assert CallOk(s, w);
    if e.Call? && e.w == w {
      assert Charges(s.log, w, |s.log|, |s.log|, []);
    } else if e.Cas? && e.w == w && t.workers[w].Reading? {
      ChargeRetry(s.log, w, q.base, q.atRead, q.retries, q.id);
    } else if e.Cas? && e.w != w && Has(s.rows, s.workers[e.w].id, NotStarted) && !q.Idle? {
      var x := Claim(e.w, s.workers[e.w].id);
      assert t.log[|s.log|] == x;
      if q.Reading? {
        ChargeableKept(s.log, x, w, q.base, |s.log|, q.retries);
        ChargeableWiden(t.log, w, q.base, |s.log|, q.retries);
      } else {
        ChargeableKept(s.log, x, w, q.base, q.atRead, q.retries);
        if !Has(s.rows, q.id, NotStarted) {
          var k :| q.atRead <= k < |s.log| && s.log[k].worker != w && s.log[k].id == q.id;
          assert t.log[k] == s.log[k];
        }
      }
    }
  }

  // ------------------------------------------------------------------ whole runs

  ghost predicate IsRun(states: seq<State>, steps: seq<Step>) {
    && |states| == |steps| + 1 && Init(states[0])
    && forall k :: 0 <= k < |steps| ==> Moves(states, steps, k)
  }

  ghost predicate Moves(states: seq<State>, steps: seq<Step>, k: nat)
    requires |states| == |steps| + 1 && k < |steps|
  {
    Enabled(states[k], steps[k]) && states[k + 1] == Next(states[k], steps[k])
  }

  lemma {:induction false} RunsKeepInv(states: seq<State>, steps: seq<Step>, k: nat)
    requires IsRun(states, steps) && k < |states|
    ensures Inv(states[k]) && CallsOk(states[k])
  {
    if k > 0 {
      RunsKeepInv(states, steps, k - 1);
      assert Moves(states, steps, k - 1);
      InvStep(states[k - 1], steps[k - 1]);
      CallsStep(states[k - 1], steps[k - 1]);
    }
  }

  lemma CallsStep(s: State, e: Step)
    requires s.rows.Keys <= s.added.Keys && CallsOk(s) && Enabled(s, e)
    ensures CallsOk(Next(s, e))
  {
    forall w | 0 <= w < |s.workers| ensures CallOk(Next(s, e), w) {
      CallStep(s, e, w);
    }
  }

  ghost predicate Reachable(s: State) {
    exists states, steps :: IsRun(states, steps) && states[|steps|] == s
  }

  lemma ReachableInv(s: State)
    requires Reachable(s)
    ensures Inv(s) && CallsOk(s)
  {
    var states, steps :| IsRun(states, steps) && states[|steps|] == s;
    RunsKeepInv(states, steps, |steps|);
  }

  lemma ReachableStep(s: State, e: Step)
    requires Reachable(s) && Enabled(s, e)
    ensures Reachable(Next(s, e))
  {
    var states, steps :| IsRun(states, steps) && states[|steps|] == s;
    var states', steps' := states + [Next(s, e)], steps + [e];
    forall k | 0 <= k < |steps'| ensures Moves(states', steps', k) {
      if k < |steps| { assert Moves(states, steps, k); }
    }
    assert IsRun(states', steps') && states'[|steps'|] == Next(s, e);
  }

  /** Claims are accounted for by restarts, and only a claimed row is ever deleted. */
  lemma ClaimsAreAccounted(s: State, id: RowId)
    requires Reachable(s) && id in s.added && s.added[id] == NotStarted
    ensures Claims(s.log, id) == s.restarts[id] + (if Has(s.rows, id, NotStarted) then 0 else 1)
    ensures id !in s.rows ==> Claims(s.log, id) >= 1
  {
    ReachableInv(s);
    assert Balanced(s, id);
  }

  /** Heartbeats have kept row id at or above every restart cutoff of the run. */
  ghost predicate KeptAlive(states: seq<State>, steps: seq<Step>, id: RowId)
    requires |states| == |steps| + 1
  {
    forall k :: 0 <= k < |steps| && steps[k].Restart? && id in states[k].rows && states[k].rows[id].status == InProgress
      ==> states[k].rows[id].updatedAt >= steps[k].cutoff
  }

  lemma {:induction false} NeverRestarted(states: seq<State>, steps: seq<Step>, id: RowId, k: nat)
    requires IsRun(states, steps) && KeptAlive(states, steps, id) && k < |states|
    ensures states[k].restarts[id] == 0
  {
    if k > 0 {
      NeverRestarted(states, steps, id, k - 1);
      assert Moves(states, steps, k - 1);
    }
  }

  lemma KeptAliveIsClaimedOnce(states: seq<State>, steps: seq<Step>, id: RowId, k: nat)
    requires IsRun(states, steps) && KeptAlive(states, steps, id) && k < |states|
    ensures Claims(states[k].log, id) <= 1
  {
    RunsKeepInv(states, steps, k);
    NeverRestarted(states, steps, id, k);
    assert Balanced(states[k], id);
  }

  /** The step adds, claims or renews row id, with the given time. */
  ghost predicate Stamps(s: State, e: Step, id: RowId, at: int) {
    match e
    case Add(x, _, t) => x == id && t == at
    case Cas(w, now) =>
      && w < |s.workers| && s.workers[w].Selected? && s.workers[w].id == id
      && id in s.rows && s.rows[id].status == NotStarted && now == at
    case Heartbeat(x, now) => x == id && id in s.rows && s.rows[id].status == InProgress && now == at
    case _ => false
  }

  lemma StampStep(s: State, e: Step, id: RowId)
    requires Enabled(s, e) && s.rows.Keys <= s.added.Keys && id in Next(s, e).rows
    ensures Stamps(s, e, id, Next(s, e).rows[id].updatedAt)
      || (id in s.rows && s.rows[id].updatedAt == Next(s, e).rows[id].updatedAt && forall at :: !Stamps(s, e, id, at))
  {
  }

  /** A row carries the time of the last step that added, claimed or renewed it. */
  lemma {:induction false} LastSignOfLife(states: seq<State>, steps: seq<Step>, k: nat, id: RowId) returns (j: nat)
    requires IsRun(states, steps) && k < |states| && id in states[k].rows
    ensures j < k && Stamps(states[j], steps[j], id, states[k].rows[id].updatedAt)
    ensures forall i, at :: j < i < k ==> !Stamps(states[i], steps[i], id, at)
  {
    assert k > 0;
    RunsKeepInv(states, steps, k - 1);
    assert Moves(states, steps, k - 1);
    StampStep(states[k - 1], steps[k - 1], id);
    if Stamps(states[k - 1], steps[k - 1], id, states[k].rows[id].updatedAt) {
      j := k - 1;
    } else {
      j := LastSignOfLife(states, steps, k - 1, id);
    }
  }

  /** A restart takes a claim back exactly when its last sign of life is before the cutoff. */
  lemma {:induction false} QuietClaimIsTakenBack(states: seq<State>, steps: seq<Step>, k: nat, id: RowId) returns (j: nat)
    requires IsRun(states, steps) && k < |steps| && steps[k].Restart? && Has(states[k].rows, id, InProgress)
    ensures j < k && Stamps(states[j], steps[j], id, states[k].rows[id].updatedAt)
    ensures forall i, at :: j < i < k ==> !Stamps(states[i], steps[i], id, at)
    ensures Has(states[k + 1].rows, id, NotStarted) <==> states[k].rows[id].updatedAt < steps[k].cutoff
    ensures Has(states[k + 1].rows, id, InProgress) <==> states[k].rows[id].updatedAt >= steps[k].cutoff
  {
    j := LastSignOfLife(states, steps, k, id);
    assert Moves(states, steps, k);
  }

  lemma GoneStays(s: State, e: Step, id: RowId)
    requires Enabled(s, e) && id in s.added && id !in s.rows
    ensures id in Next(s, e).added && id !in Next(s, e).rows
  {
  }

  /** Deleting takes away a row in progress and no other; it is gone for good. */
  lemma {:induction false} DeletedIsGone(states: seq<State>, steps: seq<Step>, k: nat, id: RowId, n: nat)
    requires IsRun(states, steps) && k < |steps| && steps[k] == Delete(id) && k < n < |states|
    ensures id in states[k + 1].rows <==> id in states[k].rows && states[k].rows[id].status == NotStarted
    ensures forall x :: x != id ==> (x in states[k + 1].rows <==> x in states[k].rows)
    ensures Has(states[k].rows, id, InProgress) ==> id in states[n].added && id !in states[n].rows
  {
    RunsKeepInv(states, steps, k);
    assert Moves(states, steps, k);
    if k + 1 < n {
      DeletedIsGone(states, steps, k, id, n - 1);
      assert Moves(states, steps, n - 1);
      if Has(states[k].rows, id, InProgress) {
        GoneStays(states[n - 1], steps[n - 1], id);
      }
    }
  }

  /** The claims in [lo, hi) of the log that were not made by w. */
  function OthersClaims(log: seq<Claim>, w: nat, lo: nat, hi: nat): (n: nat)
    requires lo <= hi <= |log|
  {
    if lo == hi then 0 else OthersClaims(log, w, lo, hi - 1) + if log[hi - 1].worker != w then 1 else 0
  }

  lemma {:induction false} ChargesCount(log: seq<Claim>, w: nat, lo: nat, hi: nat, charge: seq<nat>)
    requires Charges(log, w, lo, hi, charge) && lo <= hi
    ensures |charge| <= OthersClaims(log, w, lo, hi)
    decreases hi
  {
    if lo < hi {
      if charge != [] && charge[|charge| - 1] == hi - 1 {
        ChargesCount(log, w, lo, hi - 1, charge[..|charge| - 1]);
      } else {
        forall i | 0 <= i < |charge| ensures charge[i] < hi - 1 {
          if i < |charge| - 1 { assert charge[i] < charge[|charge| - 1]; }
        }
        ChargesCount(log, w, lo, hi - 1, charge);
      }
    }
  }

  /**
    Inside one call, the failed updates map one to one to claims other workers made after
    the call began; and a failed update means another worker took that row since the read.
   */
  lemma RetriesAreOthersClaims(s: State, w: nat)
    requires Reachable(s) && w < |s.workers| && !s.workers[w].Idle?
    ensures var q := s.workers[w];
      && q.base <= |s.log| && Chargeable(s.log, w, q.base, |s.log|, q.retries)
      && q.retries <= OthersClaims(s.log, w, q.base, |s.log|)
      && (q.Selected? && !Has(s.rows, q.id, NotStarted) ==> Overtaken(s.log, w, q.atRead, q.id))
  {
    ReachableInv(s);
    var q := s.workers[w];
    assert CallOk(s, w);
    if q.Selected? { ChargeableWiden(s.log, w, q.base, q.atRead, q.retries); }
    var charge: seq<nat> :| |charge| == q.retries && Charges(s.log, w, q.base, |s.log|, charge);
    ChargesCount(s.log, w, q.base, |s.log|, charge);
  }

  // ------------------------------------------------------------------ the code

  /** A step of worker w's own call. */
  predicate OfWorker(e: Step, w: nat) {
    (e.Call? || e.Read? || e.ReadNone? || e.Cas? || e.Error?) && e.w == w
  }

  /** The state after some steps, if each is possible where it comes. */
  ghost function After(s: State, steps: seq<Step>): (t: Option<State>) {
    if steps == [] then Some(s) else
    match After(s, steps[..|steps| - 1])
    case None => None
    case Some(m) => if Enabled(m, steps[|steps| - 1]) then Some(Next(m, steps[|steps| - 1])) else None
  }

  lemma AfterOne(s: State, steps: seq<Step>, m: State, e: Step)
    requires After(s, steps) == Some(m) && Enabled(m, e)
    ensures After(s, steps + [e]) == Some(Next(m, e))
  {
    assert (steps + [e])[..|steps|] == steps;
  }

  lemma {:induction false} AfterMore(s: State, a: seq<Step>, m: State, b: seq<Step>)
    requires After(s, a) == Some(m)
    ensures After(s, a + b) == After(m, b)
  {
    if b == [] {
      assert a + b == a;
    } else {
      AfterMore(s, a, m, b[..|b| - 1]);
      assert (a + b)[..|a + b| - 1] == a + b[..|b| - 1];
    }
  }

  /** The claims of the log that w made. */
  ghost function OwnClaims(log: seq<Claim>, w: nat): (n: nat) {
    if log == [] then 0 else OwnClaims(log[..|log| - 1], w) + if log[|log| - 1].worker == w then 1 else 0
  }

  /** The conditional updates among the steps that w ran. */
  ghost function Attempts(steps: seq<Step>, w: nat): (n: nat) {
    if steps == [] then 0 else
    var e := steps[|steps| - 1];
    Attempts(steps[..|steps| - 1], w) + if e.Cas? && e.w == w then 1 else 0
  }

  lemma {:induction false} AttemptsMore(a: seq<Step>, b: seq<Step>, w: nat)
    ensures Attempts(a + b, w) == Attempts(a, w) + Attempts(b, w)
  {
    if b == [] {
      assert a + b == a;
    } else {
      AttemptsMore(a, b[..|b| - 1], w);
      assert (a + b)[..|a + b| - 1] == a + b[..|b| - 1];
    }
  }

  lemma OthersClaimsMore(log: seq<Claim>, log': seq<Claim>, w: nat, lo: nat)
    requires log <= log' && lo <= |log|
    ensures OthersClaims(log, w, lo, |log|) <= OthersClaims(log', w, lo, |log'|)
  {
    OthersClaimsPrefix(log, log', w, lo, |log|);
    OthersClaimsGrow(log', w, lo, |log|, |log'|);
  }

  lemma {:induction false} OthersClaimsPrefix(log: seq<Claim>, log': seq<Claim>, w: nat, lo: nat, hi: nat)
    requires log <= log' && lo <= hi <= |log|
    ensures OthersClaims(log, w, lo, hi) == OthersClaims(log', w, lo, hi)
  {
    if lo < hi { OthersClaimsPrefix(log, log', w, lo, hi - 1); }
  }

  lemma {:induction false} OthersClaimsGrow(log: seq<Claim>, w: nat, lo: nat, mid: nat, hi: nat)
    requires lo <= mid <= hi <= |log|
    ensures OthersClaims(log, w, lo, mid) <= OthersClaims(log, w, lo, hi)
  {
    if mid < hi { OthersClaimsGrow(log, w, lo, mid, hi - 1); }
  }

  /** Where the others' steps lead, those left out that are w's own or cannot be taken. */
  function Moved(s: State, w: nat, others: seq<Step>): (t: State) {
    if others == [] then s else
    var t, e := Moved(s, w, others[..|others| - 1]), others[|others| - 1];
    if Enabled(t, e) && !OfWorker(e, w) then Next(t, e) else t
  }

  /** Other sessions do move while a call waits. */
  lemma OthersMove(s: State, w: nat, others: seq<Step>, e: Step)
    requires Enabled(Moved(s, w, others), e) && !((e.Call? || e.Read? || e.ReadNone? || e.Cas? || e.Error?) && e.w == w)
    ensures Moved(s, w, others + [e]) == Next(Moved(s, w, others), e)
  {
    assert (others + [e])[..|others|] == others;
  }

  datatype Fault = NoFault | ReadFails | UpdateFails | ResultLost

  /** What others do before a turn's read, and between its read and its update; and which call of it fails. */
  datatype Turn = Turn(beforeRead: seq<Step>, beforeUpdate: seq<Step>, fault: Fault)

  /** Every step is one of w's call or comes from the script. */
  ghost predicate Drawn(steps: seq<Step>, w: nat, script: seq<Turn>) {
    forall i :: 0 <= i < |steps| ==> OfWorker(steps[i], w) || InScript(steps[i], script)
  }

  ghost predicate InScript(e: Step, script: seq<Turn>) {
    exists k :: 0 <= k < |script| && (e in script[k].beforeRead || e in script[k].beforeUpdate)
  }

  /** From state `from`, w's call has got to its next read after so many retries and claimed nothing. */
  ghost predicate InCall(from: State, steps: seq<Step>, w: nat, script: seq<Turn>, s: State, retries: nat) {
    && After(from, steps) == Some(s) && Drawn(steps, w, script)
    && from.log <= s.log && OwnClaims(s.log, w) == OwnClaims(from.log, w)
    && Attempts(steps, w) == retries && w < |s.workers| && s.workers[w] == Reading(|from.log|, retries)
  }

  /** The call is over: own says whether its last update moved row id to in progress. */
  ghost predicate Over(from: State, steps: seq<Step>, w: nat, script: seq<Turn>, s: State, retries: nat, own: bool, id: RowId, now: int) {
    && After(from, steps) == Some(s) && Drawn(steps, w, script) && w < |s.workers| && s.workers[w].Idle?
    && from.log <= s.log && OwnClaims(s.log, w) == OwnClaims(from.log, w) + (if own then 1 else 0)
    && Attempts(steps, w) == retries + (if own then 1 else 0)
    && retries <= OthersClaims(s.log, w, |from.log|, |s.log|)
    && (own ==> s.log != [] && s.log[|s.log| - 1] == Claim(w, id) && id in s.rows && s.rows[id] == Row(InProgress, now))
  }

  /** As InCall, after the read of row id. */
  ghost predicate AtUpdate(from: State, steps: seq<Step>, w: nat, script: seq<Turn>, s: State, retries: nat, id: RowId) {
    && After(from, steps) == Some(s) && Drawn(steps, w, script)
    && from.log <= s.log && OwnClaims(s.log, w) == OwnClaims(from.log, w)
    && Attempts(steps, w) == retries && w < |s.workers|
    && s.workers[w].Selected? && s.workers[w].id == id && s.workers[w].base == |from.log| && s.workers[w].retries == retries
  }

  lemma StepTaken(from: State, was: seq<Step>, w: nat, script: seq<Turn>, s: State, e: Step)
    requires After(from, was) == Some(s) && Drawn(was, w, script) && OfWorker(e, w) && Enabled(s, e)
    ensures After(from, was + [e]) == Some(Next(s, e)) && Drawn(was + [e], w, script)
    ensures Attempts(was + [e], w) == Attempts(was, w) + if e.Cas? then 1 else 0
  {
    AfterOne(from, was, s, e);
    assert (was + [e])[..|was|] == was;
  }

  /** The update hits: the call is over with its one claim. */
  lemma {:induction false} UpdateHits(from: State, was: seq<Step>, w: nat, script: seq<Turn>, s: State, retries: nat, id: RowId, now: int)
    requires Reachable(s) && AtUpdate(from, was, w, script, s, retries, id) && Has(s.rows, id, NotStarted)
    ensures Over(from, was + [Cas(w, now)], w, script, Next(s, Cas(w, now)), retries, true, id, now)
  {
    var t := Next(s, Cas(w, now));
    StepTaken(from, was, w, script, s, Cas(w, now));
    RetriesAreOthersClaims(s, w);
    OthersClaimsMore(s.log, t.log, w, |from.log|);
    assert t.log[..|t.log| - 1] == s.log;
  }

  /** It misses: the call goes on with one more retry. */
  lemma {:induction false} UpdateMisses(from: State, was: seq<Step>, w: nat, script: seq<Turn>, s: State, retries: nat, id: RowId, now: int)
    requires AtUpdate(from, was, w, script, s, retries, id) && !Has(s.rows, id, NotStarted)
    ensures InCall(from, was + [Cas(w, now)], w, script, Next(s, Cas(w, now)), retries + 1)
  {
    StepTaken(from, was, w, script, s, Cas(w, now));
  }

  /** How a turn of the loop ends. */
  datatype Flow = Found | Nothing | Broken | Again

  /** What a turn's fault makes of it, and whether the row read is now this worker's. */
  predicate Ends(fault: Fault, flow: Flow, own: bool) {
    match flow
    case Found => fault == NoFault && own
    case Nothing => fault != ReadFails && !own
    case Broken => fault != NoFault && (own ==> fault == ResultLost)
    case Again => fault == NoFault
  }

  /** The fault of turn k; after the script there are no more. */
  function FaultAt(script: seq<Turn>, k: nat): (f: Fault) {
    if k < |script| then script[k].fault else NoFault
  }

  ghost predicate NoFaultBefore(script: seq<Turn>, k: nat) {
    forall j :: 0 <= j < k ==> FaultAt(script, j) == NoFault
  }

  /** The call ended in turn k, this way. */
  ghost predicate Ended(from: State, steps: seq<Step>, w: nat, script: seq<Turn>, s: State, k: nat, flow: Flow, retries: nat, own: bool, id: RowId, now: int) {
    && Over(from, steps, w, script, s, retries, own, id, now) && k <= retries <= k + 1 && retries <= |script|
    && Ends(FaultAt(script, k), flow, own) && (flow == Nothing ==> NoneFree(s.rows))
  }

  /** A worker of the process: s is the table and all sessions on it. */
  class Claimer {
    const w: nat
    var s: State

    ghost predicate Valid()
      reads this
    {
      Reachable(s) && w < |s.workers|
    }

    constructor (w: nat, s: State)
      requires Reachable(s) && w < |s.workers|
      ensures Valid() && this.w == w && this.s == s
    {
      this.w, this.s := w, s;
    }

    method Take(e: Step)
      requires Valid() && Enabled(s, e)
      modifies this
      ensures Valid() && s == Next(old(s), e)
    {
      ReachableStep(s, e);
      s := Next(s, e);
    }

    /** Other sessions run what they can of the script. */
    method Others(script: seq<Step>) returns (ghost ran: seq<Step>)
      requires Valid()
      modifies this
      ensures Valid() && After(old(s), ran) == Some(s)
      ensures s.workers[w] == old(s.workers[w]) && old(s.log) <= s.log && OwnClaims(s.log, w) == OwnClaims(old(s.log), w)
      ensures Attempts(ran, w) == 0 && forall i :: 0 <= i < |ran| ==> ran[i] in script
      ensures s == Moved(old(s), w, script)
    {
      ran := [];
      for i := 0 to |script|
        invariant Valid() && After(old(s), ran) == Some(s)
        invariant s.workers[w] == old(s.workers[w]) && old(s.log) <= s.log && OwnClaims(s.log, w) == OwnClaims(old(s.log), w)
        invariant Attempts(ran, w) == 0 && forall j :: 0 <= j < |ran| ==> ran[j] in script
        invariant s == Moved(old(s), w, script[..i])
      {
        assert script[..i + 1][..i] == script[..i];
        if Enabled(s, script[i]) && !OfWorker(script[i], w) {
          ran := OtherStep(script[i], old(s), ran);
        }
      }
      TakeAll(script);
    }

    method OtherStep(e: Step, ghost from: State, ghost was: seq<Step>) returns (ghost ran: seq<Step>)
      requires Valid() && Enabled(s, e) && !OfWorker(e, w) && After(from, was) == Some(s)
      modifies this
      ensures Valid() && After(from, ran) == Some(s) && ran == was + [e] && s == Next(old(s), e)
      ensures s.workers[w] == old(s.workers[w]) && old(s.log) <= s.log && OwnClaims(s.log, w) == OwnClaims(old(s.log), w)
      ensures Attempts(ran, w) == Attempts(was, w)
    {
      AfterOne(from, was, s, e);
      ran := was + [e];
      assert ran[..|was|] == was;
      assert forall x :: (s.log + [x])[..|s.log|] == s.log;
      Take(e);
    }
  
    /** A step of the call itself. */
    method Own(e: Step, ghost from: State, ghost was: seq<Step>, ghost script: seq<Turn>) returns (ghost steps: seq<Step>)
      requires Valid() && Enabled(s, e) && OfWorker(e, w) && After(from, was) == Some(s) && Drawn(was, w, script)
      modifies this
      ensures Valid() && s == Next(old(s), e) && steps == was + [e]
      ensures After(from, steps) == Some(s) && Drawn(steps, w, script)
      ensures Attempts(steps, w) == Attempts(was, w) + if e.Cas? then 1 else 0
    {
      StepTaken(from, was, w, script, s, e);
      steps := was + [e];
      Take(e);
    }

    /** Others move while the call waits for its next statement. */
    method Pause(others: seq<Step>, ghost from: State, ghost was: seq<Step>, ghost script: seq<Turn>, ghost k: nat)
      returns (ghost steps: seq<Step>)
      requires Valid() && After(from, was) == Some(s) && Drawn(was, w, script) && from.log <= s.log
      requires others == [] || (k < |script| && (others == script[k].beforeRead || others == script[k].beforeUpdate))
      modifies this
      ensures Valid() && After(from, steps) == Some(s) && Drawn(steps, w, script)
      ensures s.workers[w] == old(s.workers[w]) && from.log <= s.log && OwnClaims(s.log, w) == OwnClaims(old(s.log), w)
      ensures Attempts(steps, w) == Attempts(was, w)
      ensures s == Moved(old(s), w, others)
    {
      ghost var start := s;
      ghost var ran := Others(others);
      AfterMore(from, was, start, ran);
      AttemptsMore(was, ran, w);
      steps := was + ran;
      forall i | 0 <= i < |steps| ensures OfWorker(steps[i], w) || InScript(steps[i], script) {
        if i < |was| {
          assert OfWorker(was[i], w) || InScript(was[i], script);
        } else {
          assert ran[i - |was|] in others;
          assert InScript(steps[i], script);
        }
      }
    }
  
    /** The call gives up, or finds nothing. */
    method Leave(e: Step, ghost from: State, ghost was: seq<Step>, ghost script: seq<Turn>, ghost retries: nat, ghost now: int)
      returns (ghost steps: seq<Step>)
      requires Valid() && After(from, was) == Some(s) && Drawn(was, w, script)
      requires from.log <= s.log && OwnClaims(s.log, w) == OwnClaims(from.log, w) && Attempts(was, w) == retries
      requires !s.workers[w].Idle? && s.workers[w].base == |from.log| && s.workers[w].retries == retries
      requires (e.ReadNone? || e.Error?) && e.w == w && Enabled(s, e)
      modifies this
      ensures Valid() && Over(from, steps, w, script, s, retries, false, 0, now) && s.rows == old(s.rows)
    {
      RetriesAreOthersClaims(s, w);
      steps := Own(e, from, was, script);
    }

    /** The conditional update of the row read, and what its answer leads to. */
    method TryClaim(id: RowId, now: int, fault: Fault, retries: nat, ghost from: State, ghost was: seq<Step>, ghost script: seq<Turn>)
      returns (flow: Flow, failed: nat, ghost steps: seq<Step>, ghost own: bool)
      requires Valid() && AtUpdate(from, was, w, script, s, retries, id)
      modifies this
      ensures Valid() && flow != Nothing
      ensures flow == Again ==> InCall(from, steps, w, script, s, retries + 1) && !Has(old(s.rows), id, NotStarted)
      ensures flow != Again ==> Over(from, steps, w, script, s, failed, own, id, now)
      ensures retries <= failed && (flow == Found ==> own && failed == retries)
      ensures flow == Broken ==> failed <= retries + 1 && (failed == retries + 1 ==> !Has(old(s.rows), id, NotStarted))
      ensures flow == Broken <==> fault == UpdateFails || fault == ResultLost
      ensures flow == Broken && own ==> fault == ResultLost
      ensures flow == Found <==> fault != UpdateFails && fault != ResultLost && Has(old(s.rows), id, NotStarted)
    {
      own, failed := false, retries;
      if fault == UpdateFails {
        steps := Leave(Error(w), from, was, script, retries, now);
        flow := Broken;
        return;
      }
      var affected := if Has(s.rows, id, NotStarted) then 1 else 0;
      if affected == 1 {
        UpdateHits(from, was, w, script, s, retries, id, now);
      } else {
        UpdateMisses(from, was, w, script, s, retries, id, now);
      }
      steps := was + [Cas(w, now)];
      Take(Cas(w, now));
      if affected == 1 {
        own := true;
        flow := if fault == ResultLost then Broken else Found;
      } else if fault == ResultLost {
        failed := retries + 1;
        steps := Leave(Error(w), from, steps, script, failed, now);
        flow := Broken;
      } else {
        flow := Again;
      }
    }

    /** The read of a free row, and what others do before the update. */
    method ReadRow(id: RowId, others: seq<Step>, ghost retries: nat, ghost from: State, ghost was: seq<Step>, ghost script: seq<Turn>, ghost k: nat)
      returns (ghost steps: seq<Step>)
      requires Valid() && InCall(from, was, w, script, s, retries) && Has(s.rows, id, NotStarted)
      requires others == [] || (k < |script| && others == script[k].beforeUpdate)
      modifies this
      ensures Valid() && AtUpdate(from, steps, w, script, s, retries, id)
      ensures s == Moved(Next(old(s), Read(w, id)), w, others)
    {
      steps := Own(Read(w, id), from, was, script);
      steps := Pause(others, from, steps, script, k);
    }

    /** A turn from its read on. */
    method ClaimRow(id: RowId, turn: Turn, now: int, retries: nat, ghost from: State, ghost was: seq<Step>, ghost script: seq<Turn>, ghost k: nat)
      returns (flow: Flow, failed: nat, ghost steps: seq<Step>, ghost own: bool)
      requires Valid() && InCall(from, was, w, script, s, retries) && Has(s.rows, id, NotStarted) && turn.fault != ReadFails
      requires turn == Turn([], [], NoFault) || (k < |script| && turn == script[k])
      modifies this
      ensures Valid() && flow != Nothing && retries <= failed && Ends(turn.fault, flow, own)
      ensures flow == Again ==> InCall(from, steps, w, script, s, retries + 1) && turn.beforeUpdate != []
      ensures flow != Again ==> Over(from, steps, w, script, s, failed, own, id, now) && failed <= retries + 1
      ensures failed > retries ==> flow != Again ==> turn.beforeUpdate != []
    {
      steps := ReadRow(id, turn.beforeUpdate, retries, from, was, script, k);
      flow, failed, steps, own := TryClaim(id, now, turn.fault, retries, from, steps, script);
    }

    /** One turn of the loop. */
    method OneTurn(turn: Turn, now: int, retries: nat, ghost from: State, ghost was: seq<Step>, ghost script: seq<Turn>, ghost k: nat)
      returns (flow: Flow, id: RowId, failed: nat, ghost steps: seq<Step>, ghost own: bool)
      requires Valid() && InCall(from, was, w, script, s, retries)
      requires turn == Turn([], [], NoFault) || (k < |script| && turn == script[k])
      modifies this
      ensures Valid()
      ensures flow == Again ==> InCall(from, steps, w, script, s, retries + 1) && turn.beforeUpdate != []
      ensures flow != Again ==> Over(from, steps, w, script, s, failed, own, id, now) && failed <= retries + 1
      ensures failed > retries ==> flow != Again ==> turn.beforeUpdate != []
      ensures retries <= failed && Ends(turn.fault, flow, own) && (flow == Nothing ==> NoneFree(s.rows))
      ensures flow == Nothing <==> turn.fault != ReadFails && NoneFree(Moved(old(s), w, turn.beforeRead).rows)
    {
      id, own, failed := 0, false, retries;
      steps := Pause(turn.beforeRead, from, was, script, k);
      if turn.fault == ReadFails {
        steps := Leave(Error(w), from, steps, script, retries, now);
        flow := Broken;
        return;
      }
      var free := set x | x in s.rows && s.rows[x].status == NotStarted;
      if free == {} {
        assert forall x :: x in s.rows && s.rows[x].status == NotStarted ==> x in free;
        steps := Leave(ReadNone(w), from, steps, script, retries, now);
        flow := Nothing;
        return;
      }
      id :| id in free;
      flow, failed, steps, own := ClaimRow(id, turn, now, retries, from, steps, script, k);
    }

    method Begin(ghost script: seq<Turn>) returns (ghost steps: seq<Step>)
      requires Valid() && s.workers[w].Idle?
      modifies this
      ensures Valid() && InCall(old(s), steps, w, script, s, 0) && s.rows == old(s.rows)
    {
      ghost var from := s;
      assert After(from, []) == Some(from);
      steps := Own(Call(w), from, [], script);
    }

    /** Turn k, as the script has it. */
    method NextTurn(script: seq<Turn>, now: int, k: nat, ghost from: State, ghost was: seq<Step>)
      returns (flow: Flow, id: RowId, retries: nat, ghost steps: seq<Step>, ghost own: bool)
      requires Valid() && k <= |script| && InCall(from, was, w, script, s, k)
      modifies this
      ensures Valid() && Ends(FaultAt(script, k), flow, own)
      ensures flow == Again ==> k < |script| && InCall(from, steps, w, script, s, k + 1) && retries == k + 1
      ensures flow != Again ==> Ended(from, steps, w, script, s, k, flow, retries, own, id, now)
      ensures script == [] ==> (flow == Nothing <==> NoneFree(old(s.rows)))
    {
      var turn := if k < |script| then script[k] else Turn([], [], NoFault);
      flow, id, retries, steps, own := OneTurn(turn, now, k, from, was, script, k);
      if flow == Again {
        retries := k + 1;
      }
    }

    /** The turns, up to the first that does not send the call back to its read. */
    method Turns(script: seq<Turn>, clock: nat -> int)
      returns (flow: Flow, id: RowId, retries: nat, ghost steps: seq<Step>, ghost own: bool, ghost k: nat)
      requires Valid() && s.workers[w].Idle?
      modifies this
      ensures Valid() && flow != Again && Ended(old(s), steps, w, script, s, k, flow, retries, own, id, clock(k))
      ensures NoFaultBefore(script, k)
      ensures script == [] ==> (flow == Nothing <==> NoneFree(old(s.rows)))
    {
      ghost var from := s;
      steps := Begin(script);
      retries, k := 0, 0;
      while true
        invariant Valid() && k == retries <= |script| && NoFaultBefore(script, k)
        invariant InCall(from, steps, w, script, s, k) && (k == 0 ==> s.rows == from.rows)
        decreases |script| - retries
      {
        flow, id, retries, steps, own := NextTurn(script, clock(retries), retries, from, steps);
        if flow != Again {
          return;
        }
        k := k + 1;
      }
    }

    /**
      The claim loop while other sessions move; k is its last turn.  It is a run of the
      protocol in which this worker claims once at most, last, and that is the row it returns,
      stamped with the time of that turn.  It fails exactly when its last turn had a fault that
      it came to, finds nothing only when no row is free, and else returns the row; a row
      claimed by a call that fails is one whose answer was lost.  Its failed updates are no
      more than the others' claims meanwhile, and once the others stop the next turn is the last.
     */
    method GetUnorderedOutboxInfo(script: seq<Turn>, clock: nat -> int)
      returns (id: RowId, exist: bool, err: bool, retries: nat, ghost steps: seq<Step>, ghost own: bool, ghost k: nat)
      requires Valid() && s.workers[w].Idle?
      modifies this
      ensures Valid() && Over(old(s), steps, w, script, s, retries, own, id, clock(k)) && k <= retries <= k + 1 && retries <= |script|
      ensures NoFaultBefore(script, k)
      ensures exist <==> own && !err
      ensures exist ==> FaultAt(script, k) == NoFault
      ensures err ==> FaultAt(script, k) != NoFault && (own ==> FaultAt(script, k) == ResultLost)
      ensures !exist && !err ==> FaultAt(script, k) != ReadFails && forall x :: x in s.rows ==> s.rows[x].status == InProgress
      ensures script == [] ==> (exist <==> exists x :: x in old(s.rows) && old(s.rows)[x].status == NotStarted)
    {
      var flow;
      flow, id, retries, steps, own, k := Turns(script, clock);
      exist, err := flow == Found, flow == Broken;
    }

    /**
      The heartbeat: matched says whether the driver counts the rows matched or, as is its
      default, only those changed, in which case a beat with the stored time reports false.
     */
    method UpdateTime(id: RowId, now: int, matched: bool) returns (isUpdate: bool)
      requires Valid()
      modifies this
      ensures Valid() && s == Next(old(s), Heartbeat(id, now))
      ensures isUpdate <==> Has(old(s.rows), id, InProgress) && (matched || old(s.rows)[id].updatedAt != now)
    {
      var rowAffected := if Has(s.rows, id, InProgress) && (matched || s.rows[id].updatedAt != now) then 1 else 0;
      Take(Heartbeat(id, now));
      isUpdate := rowAffected == 1;
    }
  }
}

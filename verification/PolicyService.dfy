/**
  The policy service: Create, CreatePrivate, Update, Delete and the event handlers as
  methods on the table, and what whole sequences of calls leave behind.
 */
module PolicyService {
  import opened Values
  import opened PolicyRules
  import opened PolicyCodec
  import opened PolicyMerge
  import opened PolicyRequests
  import opened PolicyStore
  import ConditionMerge
  import PolicySeed

  // ------------------------------------------------------------------ the checks

  /** checkEndTime, at time now. */
  predicate EndTimeOk(endTime: int, now: int) {
    endTime == FOREVER || endTime > now
  }

  /** checkPolicyOperationValid's three conditions. */
  predicate OperationsOk(known: set<string>, p: Policy) {
    Names(p) && DenyIds(p) <= known && AllowIds(p) <= known && AllowIds(p) !! DenyIds(p)
  }

  /** One of its loops: every id is known and none is forbidden. */
  method CheckIds(known: set<string>, forbidden: set<string>, ops: seq<Operation>) returns (ok: bool, ids: set<string>)
    ensures ok <==> Ids(ops) <= known && Ids(ops) !! forbidden
    ensures ok ==> ids == Ids(ops)
  {
    ids := {};
    for i := 0 to |ops|
      invariant ids == Ids(ops[..i]) && ids <= known && ids !! forbidden
    {
      assert ops[..i + 1][..i] == ops[..i];
      if ops[i].id !in known || ops[i].id in forbidden {
        MapFacts(ops);
        assert ops[i].id in Ids(ops);
        return false, ids;
      }
      ids := ids + {ops[i].id};
    }
    assert ops[..|ops|] == ops;
    return true, ids;
  }

  method CheckPolicyOperationValid(known: set<string>, p: Policy) returns (ok: bool)
    ensures ok <==> OperationsOk(known, p)
  {
    var allow, deny := Unconditional(p.rules.allow), Unconditional(p.rules.deny);
    if |allow| == 0 && |deny| == 0 {
      return false;
    }
    var denied;
    ok, denied := CheckIds(known, {}, deny);
    if ok {
      ok, denied := CheckIds(known, denied, allow);
    }
  }

  /** What Create asks of a batch: times, known types and operations, no key twice. */
  ghost predicate BatchOk(reqs: seq<Policy>, known: map<string, set<string>>, now: int) {
    && (forall i :: 0 <= i < |reqs| ==> RequestOk(reqs[i], known, now))
    && DistinctKeys(reqs)
  }

  ghost predicate DistinctKeys(reqs: seq<Policy>) {
    forall i, j :: 0 <= i < j < |reqs| ==> PolicyKey(reqs[i]) != PolicyKey(reqs[j])
  }

  predicate RequestOk(req: Policy, known: map<string, set<string>>, now: int) {
    EndTimeOk(req.endTime, now) && req.resourceType in known && OperationsOk(known[req.resourceType], req)
  }

  /** The operations a policy names without a condition, on either side. */
  ghost predicate NamesOn(side: seq<Rule>, id: string) {
    exists i :: 0 <= i < |Unconditional(side)| && Unconditional(side)[i].id == id
  }

  lemma {:induction false} IdsAreNamed(side: seq<Rule>, id: string)
    ensures id in Ids(Unconditional(side)) <==> NamesOn(side, id)
  {
    var ops := Unconditional(side);
    MapFacts(ops);
    if id in Ids(ops) {
      var i :| 0 <= i < |ops| && ops[i] == LastMap(ops)[id];
    }
  }

  /** At least one operation is named, all of them are known, none is on both sides. */
  ghost predicate Admits(known: set<string>, rules: Rules) {
    && (exists id :: NamesOn(rules.allow, id) || NamesOn(rules.deny, id))
    && (forall id :: NamesOn(rules.allow, id) || NamesOn(rules.deny, id) ==> id in known)
    && (forall id :: !(NamesOn(rules.allow, id) && NamesOn(rules.deny, id)))
  }

  lemma {:induction false} OperationsOkExactly(known: set<string>, p: Policy)
    ensures OperationsOk(known, p) <==> Admits(known, p.rules)
  {
    var allow, deny := p.rules.allow, p.rules.deny;
    forall id ensures id in AllowIds(p) <==> NamesOn(allow, id) {
      IdsAreNamed(allow, id);
    }
    forall id ensures id in DenyIds(p) <==> NamesOn(deny, id) {
      IdsAreNamed(deny, id);
    }
    if Unconditional(allow) != [] {
      assert NamesOn(allow, Unconditional(allow)[0].id);
    }
    if Unconditional(deny) != [] {
      assert NamesOn(deny, Unconditional(deny)[0].id);
    }
  }

  /** What Create admits, written out: an end time of -1 or in the future, a known type and operations of it. */
  lemma RequestOkExactly(req: Policy, known: map<string, set<string>>, now: int)
    ensures RequestOk(req, known, now) <==>
      && (req.endTime == -1 || req.endTime > now) && req.resourceType in known
      && Admits(known[req.resourceType], req.rules)
  {
    if req.resourceType in known {
      OperationsOkExactly(known[req.resourceType], req);
    }
  }

  method ReplaceSide(side: seq<Rule>, ops: seq<Operation>) returns (s: seq<Rule>)
    ensures s == ReplacedSide(side, ops)
  {
    for j := 0 to |side|
      invariant forall i :: 0 <= i < j ==> IsConditional(side[i])
    {
      if EmptyCondition(side[j].condition) {
        assert FirstUnconditional(side) == j;
        return side[j := side[j].(operations := ops)];
      }
    }
    assert FirstUnconditional(side) == |side|;
    s := [Rule(JNull, ops)] + side;
  }

  // ------------------------------------------------------------------ what the calls do

  predicate DistinctIds(reqs: seq<Policy>) {
    forall i, j :: 0 <= i < j < |reqs| ==> reqs[i].id != reqs[j].id
  }

  predicate UpdateHeadsOk(reqs: seq<Policy>, now: int) {
    DistinctIds(reqs) && forall i :: 0 <= i < |reqs| ==> EndTimeOk(reqs[i].endTime, now)
  }

  predicate ReplaceOk(rows: Rows, req: Policy, known: map<string, set<string>>) {
    req.id in rows ==> rows[req.id].resourceType in known && OperationsOk(known[rows[req.id].resourceType], req)
  }

  predicate AllReplaceOk(rows: Rows, reqs: seq<Policy>, known: map<string, set<string>>) {
    forall i :: 0 <= i < |reqs| ==> ReplaceOk(rows, reqs[i], known)
  }

  predicate SomeExists(rows: Rows, reqs: seq<Policy>) {
    exists i :: 0 <= i < |reqs| && reqs[i].id in rows
  }

  /** What Update admits, written out: requests for policies that are not there are only asked for their times and ids. */
  lemma UpdateChecksExactly(rows: Rows, reqs: seq<Policy>, known: map<string, set<string>>, now: int)
    ensures UpdateHeadsOk(reqs, now) <==>
      && (forall i, j :: 0 <= i < |reqs| && 0 <= j < |reqs| && reqs[i].id == reqs[j].id ==> i == j)
      && (forall i :: 0 <= i < |reqs| ==> reqs[i].endTime == -1 || reqs[i].endTime > now)
    ensures SomeExists(rows, reqs) <==> !(forall i :: 0 <= i < |reqs| ==> reqs[i].id !in rows)
    ensures AllReplaceOk(rows, reqs, known) <==> forall i :: 0 <= i < |reqs| && reqs[i].id in rows ==>
      rows[reqs[i].id].resourceType in known && Admits(known[rows[reqs[i].id].resourceType], reqs[i].rules)
  {
    forall i | 0 <= i < |reqs| && reqs[i].id in rows && rows[reqs[i].id].resourceType in known
      ensures OperationsOk(known[rows[reqs[i].id].resourceType], reqs[i]) <==> Admits(known[rows[reqs[i].id].resourceType], reqs[i].rules)
    {
      OperationsOkExactly(known[rows[reqs[i].id].resourceType], reqs[i]);
    }
  }

  function IdOf(p: Policy): (id: string) { p.id }

  function ReplacedRow(r: Row, req: Policy): (s: Row) {
    match Load(r) case None => r case Some(cur) => WithRules(r, Replaced(cur, req))
  }

  predicate KeepsRow(r: Row) {
    match Load(r) case None => false case Some(cur) => HasConditional(cur)
  }

  function StrippedRow(r: Row): (s: Row) {
    match Load(r) case None => r case Some(cur) => WithRules(r, Stripped(cur))
  }

  /** Update's table: the named rows that exist are replaced, no row comes or goes. */
  function UpdateRows(rows: Rows, reqs: seq<Policy>): (t: Rows) {
    Patch(ReplacedRow, IdOf, rows, reqs)
  }

  /** Delete's table: a named row stays exactly when it has a conditional rule, with just those. */
  function DeleteRows(rows: Rows, ids: set<string>): (t: Rows) {
    Trim(KeepsRow, StrippedRow, rows, ids)
  }

  lemma {:induction false} ReplaceStep(rows: Rows, done: seq<Policy>, ws: seq<Write>, work: Rows, req: Policy)
    requires Inv(rows) && Runs(rows, ws, work) && work == UpdateRows(rows, done)
    requires DistinctIds(done + [req]) && req.id in rows && AllowIds(req) !! DenyIds(req) && Names(req)
    ensures Enabled(work, Replace(req.id, req)) && work[req.id] == rows[req.id]
    ensures var t := Apply(work, Replace(req.id, req));
      Runs(rows, ws + [Replace(req.id, req)], t) && t == UpdateRows(rows, done + [req])
  {
    assert GoodRow(req.id, rows[req.id]);
    NamedOnce(done, req);
    PatchAt(ReplacedRow, IdOf, rows, done);
    PatchAppend(ReplacedRow, IdOf, rows, done, req);
    RunsThen(rows, ws, work, Replace(req.id, req));
  }

  lemma NamedOnce(done: seq<Policy>, req: Policy)
    requires DistinctIds(done + [req])
    ensures DistinctIds(done) && forall i :: 0 <= i < |done| ==> IdOf(done[i]) != req.id
  {
    var all := done + [req];
    assert all[|done|] == req && forall i :: 0 <= i < |done| ==> all[i] == done[i];
  }

  lemma {:induction false} ReplaceSkip(rows: Rows, done: seq<Policy>, req: Policy)
    requires DistinctIds(done + [req]) && req.id !in rows
    ensures UpdateRows(rows, done + [req]) == UpdateRows(rows, done)
  {
    NamedOnce(done, req);
    PatchAt(ReplacedRow, IdOf, rows, done);
    PatchAppend(ReplacedRow, IdOf, rows, done, req);
  }

  ghost function DeleteWrite(rows: Rows, id: string): (w: Write)
    requires id in rows
  {
    if KeepsRow(rows[id]) then Strip(id) else Remove({id})
  }

  lemma {:induction false} DeleteStep(rows: Rows, done: set<string>, ws: seq<Write>, work: Rows, id: string)
    requires Inv(rows) && Runs(rows, ws, work) && work == DeleteRows(rows, done) && id in rows && id !in done
    ensures id in work && Load(work[id]).Some? && Enabled(work, DeleteWrite(work, id))
    ensures var t := Apply(work, DeleteWrite(work, id));
      Runs(rows, ws + [DeleteWrite(work, id)], t) && t == DeleteRows(rows, done + {id})
  {
    assert GoodRow(id, rows[id]);
    TrimMore(KeepsRow, StrippedRow, rows, done, id);
    RunsThen(rows, ws, work, DeleteWrite(work, id));
  }

  predicate Doomed(r: Row, resources: set<(string, string)>, accessors: set<string>, expiredAt: Option<int>) {
    || (r.resourceType, r.resourceId) in resources
    || r.accessorId in accessors
    || (expiredAt.Some? && r.endTime < expiredAt.value && r.endTime != FOREVER)
  }

  lemma NotYetAsked(reqs: seq<Policy>, i: nat)
    requires i < |reqs| && DistinctKeys(reqs)
    ensures !Asked(reqs[..i], PolicyKey(reqs[i]))
  {
  }

  ghost predicate Asked(reqs: seq<Policy>, k: Key) {
    exists i :: 0 <= i < |reqs| && PolicyKey(reqs[i]) == k
  }

  /** Every asked key has taken its step and has the returned id; no other key has changed. */
  ghost predicate Created(before: Rows, reqs: seq<Policy>, ids: seq<string>, after: Rows) {
    && |ids| == |reqs|
    && (forall i :: 0 <= i < |reqs| ==> CreatedOne(before, reqs[i], ids[i], after))
    && (forall k :: !Asked(reqs, k) ==> Find(after, k) == Find(before, k))
  }

  ghost predicate CreatedOne(before: Rows, req: Policy, id: string, after: Rows) {
    var k := PolicyKey(req);
    CreateStep(Find(before, k), req, Find(after, k)) && Find(after, k).value.id == id
  }

  /** A request for a new key is stored whole, so it must be good as storage shows it. */
  ghost predicate InsertsGood(before: Rows, reqs: seq<Policy>) {
    forall i :: 0 <= i < |reqs| ==> InsertGood(before, reqs[i])
  }

  ghost predicate InsertGood(before: Rows, req: Policy) {
    Find(before, PolicyKey(req)).None? ==> Good(Stored(req))
  }

  lemma MergedSameOwner(rows: Rows, id: string, req: Policy, merged: Policy)
    requires Sound(rows) && id in rows && IsMerge(Load(rows[id]).value, req, merged)
    ensures SameOwner(rows[id], merged)
  {
  }

  /** One request on its key, and no other key changed; a new row carries the name that was looked up. */
  ghost predicate Stepped(work: Rows, req: Policy, id: string, name: string, work': Rows) {
    && Sound(work') && CreatedOne(work, req, id, work')
    && (forall k :: k != PolicyKey(req) ==> Find(work', k) == Find(work, k))
    && (Find(work, PolicyKey(req)).None? ==> Find(work', PolicyKey(req)).value.accessorName == name)
  }

  /** The request is for a new key, or changes the policy of its key. */
  ghost predicate ToWrite(rows: Rows, req: Policy) {
    match Find(rows, PolicyKey(req)) case None => true case Some(cur) => !SamePolicy(cur, req)
  }

  ghost predicate SomethingToWrite(rows: Rows, reqs: seq<Policy>) {
    exists i :: 0 <= i < |reqs| && ToWrite(rows, reqs[i])
  }

  lemma SomethingMore(rows: Rows, done: seq<Policy>, req: Policy)
    ensures SomethingToWrite(rows, done + [req]) <==> SomethingToWrite(rows, done) || ToWrite(rows, req)
  {
    var all := done + [req];
    if SomethingToWrite(rows, done) {
      var i :| 0 <= i < |done| && ToWrite(rows, done[i]);
      assert ToWrite(rows, all[i]);
    }
    if ToWrite(rows, req) {
      assert ToWrite(rows, all[|done|]);
    }
  }

  /** The name looked up for an accessor, or its id when there is none. */
  function NameFor(names: map<string, string>, accessor: string): (name: string) {
    if accessor in names then names[accessor] else accessor
  }

  /** Every inserted policy carries the name looked up for its accessor, or its id when there is none. */
  ghost predicate Named(before: Rows, reqs: seq<Policy>, names: map<string, string>, after: Rows) {
    forall i :: 0 <= i < |reqs| && Find(before, PolicyKey(reqs[i])).None? ==>
      && Find(after, PolicyKey(reqs[i])).Some?
      && var name := Find(after, PolicyKey(reqs[i])).value.accessorName;
      if reqs[i].accessorId in names then name == names[reqs[i].accessorId] else name == reqs[i].accessorId
  }

  lemma NamedMore(before: Rows, done: seq<Policy>, names: map<string, string>, work: Rows, req: Policy, id: string, work': Rows)
    requires Named(before, done, names, work) && Stepped(work, req, id, NameFor(names, req.accessorId), work')
    requires !Asked(done, PolicyKey(req)) && Find(work, PolicyKey(req)) == Find(before, PolicyKey(req))
    ensures Named(before, done + [req], names, work')
  {
    forall i | 0 <= i < |done| ensures PolicyKey(done[i]) != PolicyKey(req) {
    }
  }

  /** The step, as one write of the store or none. */
  ghost predicate SteppedBy(work: Rows, req: Policy, id: string, name: string, w: Option<Write>, work': Rows) {
    && Stepped(work, req, id, name, work')
    && if w.None? then work' == work else InsertGood(work, req) ==> Enabled(work, w.value) && work' == Apply(work, w.value)
  }

  lemma SkipStep(rows: Rows, req: Policy, name: string)
    requires Sound(rows) && Find(rows, PolicyKey(req)).Some? && SamePolicy(Find(rows, PolicyKey(req)).value, req)
    ensures SteppedBy(rows, req, Find(rows, PolicyKey(req)).value.id, name, None, rows)
  {
  }

  /** req is merged into what its key holds, as policy merged. */
  ghost predicate Merges(rows: Rows, req: Policy, merged: Policy) {
    && Sound(rows) && Names(req)
    && var cur := Find(rows, PolicyKey(req));
    cur.Some? && !SamePolicy(cur.value, req) && IsMerge(cur.value, req, merged)
  }

  lemma {:induction false} MergeFinds(rows: Rows, req: Policy, merged: Policy, name: string)
    requires Merges(rows, req, merged)
    ensures var id := Find(rows, PolicyKey(req)).value.id;
      id in rows && Stepped(rows, req, id, name, rows[id := WithRules(rows[id], merged)])
  {
    var k := PolicyKey(req);
    FindRow(rows, k);
    var id := Find(rows, k).value.id;
    var t := rows[id := WithRules(rows[id], merged)];
    MergedSameOwner(rows, id, req, merged);
    FindsAfterRewrite(rows, id, merged);
  }

  lemma {:induction false} FindsAfterRewrite(rows: Rows, id: string, p: Policy)
    requires Sound(rows) && id in rows && SameOwner(rows[id], p)
    ensures var t := rows[id := WithRules(rows[id], p)];
      Sound(t) && forall x :: Find(t, x) == if x == KeyOf(rows[id]) then Some(Stored(p)) else Find(rows, x)
  {
    var t := rows[id := WithRules(rows[id], p)];
    RewriteIsSound(rows, id, p);
    forall x ensures Find(t, x) == if x == KeyOf(rows[id]) then Some(Stored(p)) else Find(rows, x) {
      FindAfterRewrite(rows, id, p, x);
    }
  }

  lemma {:induction false} MergeEnabled(rows: Rows, req: Policy, merged: Policy)
    requires Merges(rows, req, merged)
    ensures var id := Find(rows, PolicyKey(req)).value.id;
      Enabled(rows, Merge(id, req, merged)) && Apply(rows, Merge(id, req, merged)) == rows[id := WithRules(rows[id], merged)]
  {
    FindRow(rows, PolicyKey(req));
  }

  lemma {:induction false} MergeStep(rows: Rows, req: Policy, merged: Policy, name: string)
    requires Merges(rows, req, merged)
    ensures var id := Find(rows, PolicyKey(req)).value.id;
      id in rows && SteppedBy(rows, req, id, name, Some(Merge(id, req, merged)), rows[id := WithRules(rows[id], merged)])
  {
    MergeFinds(rows, req, merged, name);
    MergeEnabled(rows, req, merged);
  }

  lemma {:induction false} InsertStep(rows: Rows, req: Policy, name: string, newId: string)
    requires Sound(rows) && newId !in rows && Find(rows, PolicyKey(req)).None?
    ensures var p := req.(id := newId, accessorName := name);
      SteppedBy(rows, req, newId, name, Some(Insert(p)), rows[newId := ToRow(p)])
  {
    var k, p := PolicyKey(req), req.(id := newId, accessorName := name);
    FindRow(rows, k);
    InsertIsSound(rows, p);
    var t := rows[newId := ToRow(p)];
    forall x ensures Find(t, x) == if x == k then Some(Stored(p)) else Find(rows, x) {
      FindAfterInsert(rows, p, x);
    }
  }

  /** What one created key holds is good, but for an insert that is not. */
  lemma {:induction false} CreatedIsGood(before: Rows, req: Policy, id: string, after: Rows)
    requires Inv(before) && Names(req) && CreatedOne(before, req, id, after)
    ensures Good(Find(after, PolicyKey(req)).value) <==> InsertGood(before, req)
  {
    var k := PolicyKey(req);
    InvIsSound(before);
    FindRow(before, k);
    var cur := Find(before, k);
    if cur.Some? {
      assert GoodRow(cur.value.id, before[cur.value.id]);
      if !SamePolicy(cur.value, req) {
        var r :| IsMerge(cur.value, req, r) && Find(after, k).value == Stored(r);
        MergedIsGood(cur.value, req, r);
      }
    }
  }

  lemma {:induction false} UnaskedIsGood(before: Rows, after: Rows, k: Key)
    requires Inv(before) && Find(after, k) == Find(before, k) && Find(after, k).Some?
    ensures Good(Find(after, k).value)
  {
    InvIsSound(before);
    FindRow(before, k);
    var id := Find(before, k).value.id;
    assert GoodRow(id, before[id]);
  }

  /** The invariant survives a batch exactly when what it inserts is good. */
  lemma {:induction false} CreateKeepsInvExactly(before: Rows, reqs: seq<Policy>, ids: seq<string>, after: Rows)
    requires Inv(before) && Sound(after) && Created(before, reqs, ids, after) && forall i :: 0 <= i < |reqs| ==> Names(reqs[i])
    ensures Inv(after) <==> InsertsGood(before, reqs)
  {
    InvIsSound(after);
    if Inv(after) {
      forall i | 0 <= i < |reqs| ensures InsertGood(before, reqs[i]) {
        assert CreatedOne(before, reqs[i], ids[i], after);
        UnaskedIsGood(after, after, PolicyKey(reqs[i]));
        CreatedIsGood(before, reqs[i], ids[i], after);
      }
    }
    if InsertsGood(before, reqs) {
      forall id | id in after ensures Good(Load(after[id]).value) {
        var k := KeyOf(after[id]);
        FindIs(after, id);
        if Asked(reqs, k) {
          var i :| 0 <= i < |reqs| && PolicyKey(reqs[i]) == k;
          assert CreatedOne(before, reqs[i], ids[i], after) && InsertGood(before, reqs[i]);
          CreatedIsGood(before, reqs[i], ids[i], after);
        } else {
          UnaskedIsGood(before, after, k);
        }
      }
    }
  }

  /** A valid request with at most one unconditional rule a side is good. */
  lemma {:induction false} OneRuleASideIsGood(known: set<string>, req: Policy)
    requires OperationsOk(known, req) && AtMostOneUnconditional(req.rules.allow) && AtMostOneUnconditional(req.rules.deny)
    ensures Good(Stored(req))
  {
    StoredIsGood(req);
  }

  lemma CreatedMore(before: Rows, reqs: seq<Policy>, ids: seq<string>, mid: Rows, req: Policy, id: string, after: Rows)
    requires Created(before, reqs, ids, mid) && CreatedOne(mid, req, id, after)
    requires !Asked(reqs, PolicyKey(req)) && forall k :: k != PolicyKey(req) ==> Find(after, k) == Find(mid, k)
    ensures Created(before, reqs + [req], ids + [id], after)
  {
    var all := reqs + [req];
    forall i | 0 <= i < |all| ensures CreatedOne(before, all[i], (ids + [id])[i], after) {
      if i < |reqs| { assert CreatedOne(before, reqs[i], ids[i], mid) && Asked(reqs, PolicyKey(reqs[i])); }
    }
    forall k | !Asked(all, k) ensures Find(after, k) == Find(before, k) {
      assert PolicyKey(all[|reqs|]) != k;
      if Asked(reqs, k) {
        var i :| 0 <= i < |reqs| && PolicyKey(reqs[i]) == k;
        assert PolicyKey(all[i]) == k;
      }
    }
  }

  /** Ids not in use, each once. */
  predicate NewIds(newIds: seq<string>, used: set<string>) {
    && (forall i :: 0 <= i < |newIds| ==> newIds[i] !in used)
    && (forall i, j :: 0 <= i < j < |newIds| ==> newIds[i] != newIds[j])
  }

  function Taken(newIds: seq<string>, i: nat): (ids: set<string>)
    requires i <= |newIds|
  {
    if i == 0 then {} else Taken(newIds, i - 1) + {newIds[i - 1]}
  }

  lemma {:induction false} TakenAre(newIds: seq<string>, i: nat)
    requires i <= |newIds|
    ensures forall id :: id in Taken(newIds, i) <==> exists j :: 0 <= j < i && newIds[j] == id
  {
    if i > 0 { TakenAre(newIds, i - 1); }
  }

  lemma NotYetTaken(newIds: seq<string>, i: nat, used: set<string>)
    requires i < |newIds| && NewIds(newIds, used)
    ensures newIds[i] !in used + Taken(newIds, i) && Taken(newIds, i + 1) == Taken(newIds, i) + {newIds[i]}
  {
    TakenAre(newIds, i);
  }

  /** How far a batch has been worked out. */
  ghost predicate Worked(before: Rows, done: seq<Policy>, ids: seq<string>, writes: seq<Write>, work: Rows) {
    && Sound(work) && Created(before, done, ids, work)
    && (InsertsGood(before, done) ==> Runs(before, writes, work))
  }

  ghost predicate Progressed(before: Rows, done: seq<Policy>, names: map<string, string>, ids: seq<string>, any: bool, writes: seq<Write>, work: Rows) {
    Worked(before, done, ids, writes, work) && Named(before, done, names, work) && (any <==> SomethingToWrite(before, done))
  }

  lemma NothingWorked(before: Rows, names: map<string, string>)
    requires Inv(before)
    ensures Progressed(before, [], names, [], false, [], before)
  {
    InvIsSound(before);
  }

  lemma InsertsBefore(before: Rows, done: seq<Policy>, req: Policy)
    ensures InsertsGood(before, done + [req]) <==> InsertsGood(before, done) && InsertGood(before, req)
  {
    var all := done + [req];
    if InsertsGood(before, all) {
      assert InsertGood(before, all[|done|]);
      forall i | 0 <= i < |done| ensures InsertGood(before, done[i]) {
        assert InsertGood(before, all[i]);
      }
    }
  }

  /** As the REST layer builds requests. */
  predicate OneRuleASide(reqs: seq<Policy>) {
    forall i :: 0 <= i < |reqs| ==>
      AtMostOneUnconditional(reqs[i].rules.allow) && AtMostOneUnconditional(reqs[i].rules.deny)
  }

  lemma OneRuleASideInserts(before: Rows, reqs: seq<Policy>, known: map<string, set<string>>, now: int)
    requires BatchOk(reqs, known, now)
    ensures OneRuleASide(reqs) ==> InsertsGood(before, reqs)
  {
    if OneRuleASide(reqs) {
      forall i | 0 <= i < |reqs| ensures InsertGood(before, reqs[i]) {
        assert RequestOk(reqs[i], known, now);
        OneRuleASideIsGood(known[reqs[i].resourceType], reqs[i]);
      }
    }
  }

  // ------------------------------------------------------------------ the calls

  class PolicyTable {
    var rows: Rows

    constructor (rows: Rows)
      requires Inv(rows)
      ensures this.rows == rows
    {
      this.rows := rows;
    }

    /** The policy of a key, as GetByResourceIDs and the maps built from it give it. */
    method Lookup(k: Key) returns (p: Option<Policy>)
      requires Sound(rows)
      ensures p == Find(rows, k)
      ensures p.Some? ==> p.value.id in rows && Load(rows[p.value.id]) == p && KeyOf(rows[p.value.id]) == k
      ensures p.None? ==> !Occupied(rows, k)
    {
      var left := rows.Keys;
      while left != {}
        invariant left <= rows.Keys
        invariant forall id :: id in rows && id !in left ==> KeyOf(rows[id]) != k
        decreases left
      {
        var id :| id in left;
        if KeyOf(rows[id]) == k {
          FindIs(rows, id);
          return Load(rows[id]);
        }
        left := left - {id};
      }
      p := None;
    }

    method CheckBatch(reqs: seq<Policy>, known: map<string, set<string>>, now: int) returns (ok: bool)
      ensures ok <==> BatchOk(reqs, known, now)
    {
      var seen: set<Key> := {};
      for i := 0 to |reqs|
        invariant seen == set j | 0 <= j < i :: PolicyKey(reqs[j])
        invariant BatchOk(reqs[..i], known, now)
      {
        var req := reqs[i];
        if !EndTimeOk(req.endTime, now) || PolicyKey(req) in seen || req.resourceType !in known {
          return false;
        }
        ok := CheckPolicyOperationValid(known[req.resourceType], req);
        if !ok {
          return false;
        }
        seen := seen + {PolicyKey(req)};
        assert forall j :: 0 <= j < i ==> PolicyKey(reqs[j]) in seen;
      }
      assert reqs[..|reqs|] == reqs;
      ok := true;
    }

    /** Work out what a checked batch writes; every lookup reads the table as it was. */
    method GetCreateAndUpdatePolicy(reqs: seq<Policy>, names: map<string, string>, newIds: seq<string>)
      returns (work: Rows, ids: seq<string>, any: bool, ghost writes: seq<Write>)
      requires Inv(rows) && DistinctKeys(reqs) && forall i :: 0 <= i < |reqs| ==> Names(reqs[i])
      requires |newIds| == |reqs| && NewIds(newIds, rows.Keys)
      ensures Sound(work) && Created(rows, reqs, ids, work)
      ensures Named(rows, reqs, names, work) && (any <==> SomethingToWrite(rows, reqs))
      ensures InsertsGood(rows, reqs) ==> Runs(rows, writes, work)
    {
      ids, work, any, writes := [], rows, false, [];
      NothingWorked(rows, names);
      TakeAll(reqs);
      for i := 0 to |reqs|
        invariant Progressed(rows, reqs[..i], names, ids, any, writes, work) && work.Keys <= rows.Keys + Taken(newIds, i)
      {
        NotYetAsked(reqs, i);
        NotYetTaken(newIds, i, rows.Keys);
        TakeSnoc(reqs, i);
        work, ids, any, writes := CreateNext(work, ids, any, reqs[i], names, newIds[i], reqs[..i], writes);
      }
    }

    /**
      Create and CreatePrivate.  `admitted` stands for the checks made elsewhere (the caller's
      right, the resource's ancestors, the accessors' names), `committed` for the transaction.
     */
    method Create(reqs: seq<Policy>, known: map<string, set<string>>, now: int, names: map<string, string>,
                  newIds: seq<string>, admitted: bool, committed: bool)
      returns (res: Result<seq<string>>, ghost writes: seq<Write>)
      requires Inv(rows)
      requires |newIds| == |reqs| && NewIds(newIds, rows.Keys)
      modifies this
      ensures Sound(rows) && (res.Err? ==> rows == old(rows))
      ensures res.Ok? <==> reqs == [] || (admitted && BatchOk(reqs, known, now) && (committed || !SomethingToWrite(old(rows), reqs)))
      ensures res.Ok? ==> Created(old(rows), reqs, res.value, rows) && Named(old(rows), reqs, names, rows)
      ensures res.Ok? ==> (Inv(rows) <==> InsertsGood(old(rows), reqs))
      ensures res.Ok? && InsertsGood(old(rows), reqs) ==> Runs(old(rows), writes, rows)
      ensures OneRuleASide(reqs) ==> Inv(rows)
    {
      InvIsSound(rows);
      if reqs == [] {
        assert Created(rows, reqs, [], rows);
        return Ok([]), [];
      }
      if !admitted {
        return Err("not admitted"), [];
      }
      var ok := CheckBatch(reqs, known, now);
      if !ok {
        return Err("bad request"), [];
      }
      var work, ids, any;
      work, ids, any, writes := GetCreateAndUpdatePolicy(reqs, names, newIds);
      CreateKeepsInvExactly(rows, reqs, ids, work);
      OneRuleASideInserts(rows, reqs, known, now);
      if any && !committed {
        return Err("transaction failed"), [];
      }
      rows := work;
      res := Ok(ids);
    }

    /** Look the key up, then insert, skip or merge. */
    method WriteOne(work: Rows, req: Policy, name: string, newId: string)
      returns (work': Rows, id: string, wrote: bool, ghost w: Option<Write>)
      requires Sound(rows) && Sound(work) && Find(work, PolicyKey(req)) == Find(rows, PolicyKey(req))
      requires Names(req) && newId !in work
      ensures SteppedBy(work, req, id, name, w, work') && (wrote <==> ToWrite(work, req)) && work'.Keys <= work.Keys + {newId}
    {
      var cur := Lookup(PolicyKey(req));
      if cur.Some? {
        id := cur.value.id;
        var isSame := CmpPolicy(cur.value, req);
        if isSame {
          SkipStep(work, req, name);
          return work, id, false, None;
        }
        var merged := MergeNewPolicy(cur.value, req);
        MergeStep(work, req, merged, name);
        return work[id := WithRules(work[id], merged)], id, true, Some(Merge(id, req, merged));
      }
      var p := req.(id := newId, accessorName := name);
      InsertStep(work, req, name, newId);
      return work[newId := ToRow(p)], newId, true, Some(Insert(p));
    }

    /** One turn of the loop. */
    method CreateNext(work: Rows, ids: seq<string>, any: bool, req: Policy, names: map<string, string>, newId: string,
                      ghost done: seq<Policy>, ghost writes: seq<Write>)
      returns (work': Rows, ids': seq<string>, any': bool, ghost writes': seq<Write>)
      requires Inv(rows) && Progressed(rows, done, names, ids, any, writes, work)
      requires Names(req) && !Asked(done, PolicyKey(req)) && newId !in work
      ensures Progressed(rows, done + [req], names, ids', any', writes', work') && work'.Keys <= work.Keys + {newId}
    {
      SomethingMore(rows, done, req);
      var wrote;
      work', ids', wrote, writes' := CreateOne(work, ids, req, NameFor(names, req.accessorId), newId, done, writes);
      NamedMore(rows, done, names, work, req, ids'[|done|], work');
      any' := any || wrote;
    }

    /** The step, and what it adds to the record. */
    method CreateOne(work: Rows, ids: seq<string>, req: Policy, name: string, newId: string,
                     ghost done: seq<Policy>, ghost writes: seq<Write>)
      returns (work': Rows, ids': seq<string>, wrote: bool, ghost writes': seq<Write>)
      requires Inv(rows) && Worked(rows, done, ids, writes, work)
      requires Names(req) && !Asked(done, PolicyKey(req)) && newId !in work
      ensures Worked(rows, done + [req], ids', writes', work')
      ensures work'.Keys <= work.Keys + {newId} && (wrote <==> ToWrite(rows, req))
      ensures Stepped(work, req, ids'[|done|], name, work')
    {
      InvIsSound(rows);
      InsertsBefore(rows, done, req);
      var id;
      ghost var w;
      work', id, wrote, w := WriteOne(work, req, name, newId);
      ids', writes' := ids + [id], if w.Some? then writes + [w.value] else writes;
      if w.Some? && InsertsGood(rows, done) && InsertGood(rows, req) {
        RunsThen(rows, writes, work, w.value);
      }
      CreatedMore(rows, done, ids, work, req, id, work');
    }

    /** Update's first loop: no id twice, no end time in the past. */
    method CheckUpdateHeads(reqs: seq<Policy>, now: int) returns (ok: bool)
      ensures ok <==> DistinctIds(reqs) && forall i :: 0 <= i < |reqs| ==> EndTimeOk(reqs[i].endTime, now)
    {
      var seen: set<string> := {};
      for i := 0 to |reqs|
        invariant seen == set j | 0 <= j < i :: reqs[j].id
        invariant forall j, k :: 0 <= j < k < i ==> reqs[j].id != reqs[k].id
        invariant forall j :: 0 <= j < i ==> EndTimeOk(reqs[j].endTime, now)
      {
        if reqs[i].id in seen || !EndTimeOk(reqs[i].endTime, now) {
          return false;
        }
        seen := seen + {reqs[i].id};
      }
      ok := true;
    }

    /** Update's second loop: work the requests out, passing over missing policies. */
    method GetUpdatedPolicies(reqs: seq<Policy>, known: map<string, set<string>>)
      returns (ok: bool, work: Rows, ghost writes: seq<Write>)
      requires Inv(rows) && DistinctIds(reqs)
      ensures ok <==> AllReplaceOk(rows, reqs, known)
      ensures ok ==> Runs(rows, writes, work) && work == UpdateRows(rows, reqs)
    {
      ok, work, writes := true, rows, [];
      for i := 0 to |reqs|
        invariant Runs(rows, writes, work) && work == UpdateRows(rows, reqs[..i])
        invariant AllReplaceOk(rows, reqs[..i], known)
      {
        assert reqs[..i + 1] == reqs[..i] + [reqs[i]];
        ok, work, writes := UpdateOne(work, reqs[i], known, reqs[..i], writes);
        if !ok { return; }
      }
      assert reqs[..|reqs|] == reqs;
    }

    method UpdateOne(work: Rows, req: Policy, known: map<string, set<string>>, ghost done: seq<Policy>, ghost writes: seq<Write>)
      returns (ok: bool, work': Rows, ghost writes': seq<Write>)
      requires Inv(rows) && Runs(rows, writes, work) && work == UpdateRows(rows, done) && DistinctIds(done + [req])
      ensures ok <==> ReplaceOk(rows, req, known)
      ensures ok ==> Runs(rows, writes', work') && work' == UpdateRows(rows, done + [req])
    {
      ok, work', writes' := true, work, writes;
      if req.id in rows {
        ok := rows[req.id].resourceType in known;
        if ok { ok := CheckPolicyOperationValid(known[rows[req.id].resourceType], req); }
        if !ok { return; }
        ReplaceStep(rows, done, writes, work, req);
        work' := ReplaceRow(work, req);
        writes' := writes + [Replace(req.id, req)];
      } else {
        ReplaceSkip(rows, done, req);
      }
    }

    /** Replace the unconditional rules of one policy in place. */
    method ReplaceRow(work: Rows, req: Policy) returns (work': Rows)
      requires req.id in work && Load(work[req.id]).Some?
      ensures work' == work[req.id := WithRules(work[req.id], Replaced(Load(work[req.id]).value, req))]
    {
      var cur := Load(work[req.id]).value;
      var allow := ReplaceSide(cur.rules.allow, Unconditional(req.rules.allow));
      var deny := ReplaceSide(cur.rules.deny, Unconditional(req.rules.deny));
      var p := cur.(rules := Rules(allow, deny), endTime := req.endTime, condition := req.condition);
      work' := work[req.id := WithRules(work[req.id], p)];
    }

    /** Update: the unconditional part, end time and condition text of the named policies. */
    method Update(reqs: seq<Policy>, known: map<string, set<string>>, now: int, admitted: bool, committed: bool)
      returns (res: Result<()>, ghost writes: seq<Write>)
      requires Inv(rows)
      modifies this
      ensures Inv(rows) && Runs(old(rows), writes, rows)
      ensures res.Err? ==> rows == old(rows)
      ensures res.Ok? ==> rows == UpdateRows(old(rows), reqs)
      ensures SomeExists(old(rows), reqs) ==> (res.Ok? <==> UpdateHeadsOk(reqs, now) && admitted && committed && AllReplaceOk(old(rows), reqs, known))
      ensures !SomeExists(old(rows), reqs) ==> (res.Ok? <==> UpdateHeadsOk(reqs, now))
    {
      var ok := CheckUpdateHeads(reqs, now);
      if !ok {
        return Err("bad request"), [];
      }
      PatchAt(ReplacedRow, IdOf, rows, reqs);
      if !SomeExists(rows, reqs) {
        assert UpdateRows(rows, reqs) == rows;
        return Ok(()), [];
      }
      if !admitted {
        return Err("not admitted"), [];
      }
      var work;
      ok, work, writes := GetUpdatedPolicies(reqs, known);
      if !ok {
        return Err("bad request"), [];
      }
      if !committed {
        return Err("transaction failed"), [];
      }
      RunsKeepInv(rows, writes, work);
      rows := work;
      res := Ok(());
    }

    /** Delete's decision for one policy: keep its conditional rules, or drop the row. */
    method DeleteOne(work: Rows, id: string, ghost done: set<string>, ghost writes: seq<Write>)
      returns (work': Rows, ghost writes': seq<Write>)
      requires Inv(rows) && Runs(rows, writes, work) && work == DeleteRows(rows, done) && id in rows && id !in done
      ensures Runs(rows, writes', work') && work' == DeleteRows(rows, done + {id})
    {
      DeleteStep(rows, done, writes, work, id);
      var cur := Load(work[id]).value;
      var allow := KeepConditional(cur.rules.allow);
      var deny := KeepConditional(cur.rules.deny);
      writes' := writes + [DeleteWrite(work, id)];
      if |allow| > 0 || |deny| > 0 {
        work' := work[id := WithRules(work[id], cur.(rules := Rules(allow, deny)))];
      } else {
        work' := work - {id};
      }
    }

    method DeleteEach(ids: set<string>) returns (work: Rows, ghost writes: seq<Write>)
      requires Inv(rows)
      ensures Runs(rows, writes, work) && work == DeleteRows(rows, ids)
    {
      work, writes := rows, [];
      var left := set id | id in ids && id in rows;
      TrimNothing(KeepsRow, StrippedRow, rows, ids - left);
      while left != {}
        invariant Runs(rows, writes, work) && work == DeleteRows(rows, ids - left)
        invariant left <= rows.Keys && left <= ids
        decreases left
      {
        var id :| id in left;
        OneLessLeft(ids, left, id);
        work, writes := DeleteOne(work, id, ids - left, writes);
        left := left - {id};
      }
      assert ids - {} == ids;
    }

    /** Delete: drop the unconditional part of the named policies. */
    method Delete(ids: set<string>, admitted: bool, committed: bool) returns (res: Result<()>, ghost writes: seq<Write>)
      requires Inv(rows)
      modifies this
      ensures Inv(rows) && Runs(old(rows), writes, rows)
      ensures res.Err? ==> rows == old(rows)
      ensures res.Ok? <==> ids == {} || (admitted && committed)
      ensures res.Ok? ==> rows == DeleteRows(old(rows), ids)
    {
      if ids == {} {
        TrimNothing(KeepsRow, StrippedRow, rows, ids);
        return Ok(()), [];
      }
      if !admitted {
        return Err("not admitted"), [];
      }
      var work;
      work, writes := DeleteEach(ids);
      if !committed {
        return Err("transaction failed"), [];
      }
      RunsKeepInv(rows, writes, work);
      rows := work;
      res := Ok(());
    }

    /** One seed: look its key up in the table as it was, then insert, skip or merge into the work table. */
    method SeedOne(work: Rows, seed: Policy, newId: string, name: string) returns (work': Rows, wrote: bool)
      requires Sound(rows) && rows.Keys <= work.Keys
      ensures PolicySeed.SeedWrite(rows, work, seed, newId, name, work') && rows.Keys <= work'.Keys
      ensures wrote <==> PolicySeed.ToWrite(rows, seed)
    {
      var cur := Lookup(PolicyKey(seed));
      work', wrote := work, false;
      if cur.Some? {
        var isSame := ConditionMerge.CmpPolicyWithCondition(cur.value, seed);
        if !isSame {
          var merged := ConditionMerge.MergeNewPolicyWithCondition(cur.value, seed);
          work' := work[cur.value.id := WithRules(work[cur.value.id], merged)];
          wrote := true;
        }
      } else {
        work' := work[newId := ToRow(seed.(id := newId, accessorName := name))];
        wrote := true;
      }
    }

    /**
      InitPolicy.  Unlike Create it does not refuse a key that comes twice; PolicySeed says
      what that leaves.  `x.names` are the accessor names it has for new rows.
     */
    method InitPolicy(x: PolicySeed.Seeding, committed: bool) returns (res: Result<()>, ghost tables: seq<Rows>)
      requires Sound(rows) && |x.newIds| == |x.seeds| == |x.names|
      modifies this
      ensures PolicySeed.SeedRun(old(rows), x, tables)
      ensures rows == if res.Ok? then tables[|x.seeds|] else old(rows)
      ensures res.Err? <==> !committed && PolicySeed.SomethingToWrite(old(rows), x.seeds, |x.seeds|)
    {
      var work, any := rows, false;
      tables := [rows];
      for i := 0 to |x.seeds|
        invariant rows == old(rows) && rows.Keys <= work.Keys
        invariant PolicySeed.SeedPart(rows, x, tables, i) && tables[i] == work
        invariant any <==> PolicySeed.SomethingToWrite(rows, x.seeds, i)
      {
        var wrote;
        work, wrote := SeedOne(work, x.seeds[i], x.newIds[i], x.names[i]);
        PolicySeed.SeedMore(rows, x, tables, i, work);
        tables := tables + [work];
        any := any || wrote;
      }
      if any && !committed {
        return Err("transaction failed"), tables;
      }
      rows := work;
      res := Ok(());
    }

    /** DeleteByResourceIDs, DeleteByAccessorIDs and DeleteByEndTime: drop whole rows. */
    method DeleteWhere(resources: set<(string, string)>, accessors: set<string>, expiredAt: Option<int>)
      returns (ghost writes: seq<Write>)
      requires Inv(rows)
      modifies this
      ensures Inv(rows) && Runs(old(rows), writes, rows)
      ensures rows.Keys <= old(rows).Keys
      ensures forall id :: id in old(rows) ==> (id !in rows <==>
        || (old(rows)[id].resourceType, old(rows)[id].resourceId) in resources || old(rows)[id].accessorId in accessors
        || (expiredAt.Some? && old(rows)[id].endTime != -1 && old(rows)[id].endTime < expiredAt.value))
      ensures forall id :: id in rows ==> rows[id] == old(rows)[id]
    {
      var gone := set id | id in rows && Doomed(rows[id], resources, accessors, expiredAt);
      OneWrite(rows, Remove(gone));
      writes := [Remove(gone)];
      rows := rows - gone;
    }

    method UpdateAccessorName(accessor: string, name: string) returns (ghost writes: seq<Write>)
      requires Inv(rows)
      modifies this
      ensures Inv(rows) && Runs(old(rows), writes, rows) && rows.Keys == old(rows).Keys
      ensures forall id :: id in rows ==> Renamed(old(rows)[id], rows[id])
      ensures forall id :: id in rows && rows[id].accessorId == accessor ==> rows[id].accessorName == name
      ensures forall id :: id in rows && rows[id].accessorId != accessor ==> rows[id] == old(rows)[id]
    {
      OneWrite(rows, RenameAccessor(accessor, name));
      writes := [RenameAccessor(accessor, name)];
      rows := AccessorRenamed(rows, accessor, name);
    }

    method UpdateResourceName(resourceType: string, resourceId: string, name: string) returns (ghost writes: seq<Write>)
      requires Inv(rows)
      modifies this
      ensures Inv(rows) && Runs(old(rows), writes, rows) && rows.Keys == old(rows).Keys
      ensures forall id :: id in rows ==> Renamed(old(rows)[id], rows[id])
      ensures forall id :: id in rows ==>
        if rows[id].resourceType == resourceType && rows[id].resourceId == resourceId
        then rows[id].resourceName == name else rows[id] == old(rows)[id]
    {
      OneWrite(rows, RenameResource(resourceType, resourceId, name));
      writes := [RenameResource(resourceType, resourceId, name)];
      rows := ResourceRenamed(rows, resourceType, resourceId, name);
    }
  }

  // ------------------------------------------------------------------ the calls, as read back

  /** The conditional rules of a side, as storage shows them, are the ones it had, in order. */
  lemma {:induction false} GuardedAsStored(side: seq<Rule>)
    requires NoEmptyRules(side)
    ensures SameRules(NormSide(Conditional(side)), Guarded(side))
  {
    ConditionalIsGuarded(side);
    StoredSameRules(Conditional(side));
  }

  /** What an update call leaves in a named row, read back; other rows stay as they were. */
  lemma {:induction false} UpdateAsReadBack(rows: Rows, reqs: seq<Policy>, i: nat)
    requires Inv(rows) && DistinctIds(reqs) && i < |reqs| && reqs[i].id in rows && AllowIds(reqs[i]) !! DenyIds(reqs[i])
    ensures var t := UpdateRows(rows, reqs); var cur := Load(rows[reqs[i].id]);
      && cur.Some? && t.Keys == rows.Keys
      && var q := Load(t[reqs[i].id]);
      && q == Some(Stored(Replaced(cur.value, reqs[i]))) && GrantOf(q.value) == GrantOf(reqs[i])
      && SameRules(Guarded(q.value.rules.allow), Guarded(cur.value.rules.allow))
      && SameRules(Guarded(q.value.rules.deny), Guarded(cur.value.rules.deny))
      && (forall id :: id in rows && (forall j :: 0 <= j < |reqs| ==> reqs[j].id != id) ==> t[id] == rows[id])
  {
    var r, req := rows[reqs[i].id], reqs[i];
    assert GoodRow(req.id, r);
    PatchAt(ReplacedRow, IdOf, rows, reqs);
    LoadWithRules(r, Replaced(Load(r).value, req));
    UpdateReplacesUnconditionalPart(Load(r).value, req);
    UpdateKeepsGuarded(Load(r).value, req);
    UnnamedRowsStay(rows, reqs);
  }

  lemma {:induction false} UpdateKeepsGuarded(cur: Policy, req: Policy)
    requires Good(cur) && AllowIds(req) !! DenyIds(req)
    ensures var q := Stored(Replaced(cur, req));
      SameRules(Guarded(q.rules.allow), Guarded(cur.rules.allow)) && SameRules(Guarded(q.rules.deny), Guarded(cur.rules.deny))
  {
    UpdateReplacesUnconditionalPart(cur, req);
    var q := Stored(Replaced(cur, req));
    ConditionalIsGuarded(q.rules.allow);
    ConditionalIsGuarded(q.rules.deny);
    GuardedAsStored(cur.rules.allow);
    GuardedAsStored(cur.rules.deny);
  }

  lemma UnnamedRowsStay(rows: Rows, reqs: seq<Policy>)
    requires DistinctIds(reqs)
    ensures UpdateRows(rows, reqs).Keys == rows.Keys
    ensures forall id :: id in rows && (forall j :: 0 <= j < |reqs| ==> reqs[j].id != id) ==> UpdateRows(rows, reqs)[id] == rows[id]
  {
    PatchAt(ReplacedRow, IdOf, rows, reqs);
    forall id | id in rows && (forall j :: 0 <= j < |reqs| ==> reqs[j].id != id)
      ensures UpdateRows(rows, reqs)[id] == rows[id]
    {
      assert forall j :: 0 <= j < |reqs| ==> IdOf(reqs[j]) != id;
    }
  }

  /** A policy without conditions, written out. */
  ghost predicate NoConditions(rules: Rules) {
    forall r :: r in rules.allow || r in rules.deny ==> r.condition == JNull || r.condition == JObj(map[])
  }

  lemma {:induction false} HasConditionalExactly(p: Policy)
    ensures HasConditional(p) <==> !NoConditions(p.rules)
  {
    ConditionalIsGuarded(p.rules.allow);
    ConditionalIsGuarded(p.rules.deny);
    NothingGuarded(p.rules.allow);
    NothingGuarded(p.rules.deny);
  }

  /**
    A named row is gone exactly when every condition in it is nil or the empty object; else
    each side reads back as its other rules, in order, and nothing else of the row changes.
   */
  lemma {:induction false} DeleteAsReadBack(rows: Rows, ids: set<string>, id: string)
    requires Inv(rows) && id in rows
    ensures var t := DeleteRows(rows, ids); var cur := Load(rows[id]);
      && cur.Some?
      && (id !in ids ==> id in t && t[id] == rows[id])
      && (id in ids ==> (id !in t <==> NoConditions(cur.value.rules)))
      && (id in ids && id in t ==>
        && Load(t[id]) == Some(Stored(Stripped(cur.value)))
        && SameRules(Load(t[id]).value.rules.allow, Guarded(cur.value.rules.allow))
        && SameRules(Load(t[id]).value.rules.deny, Guarded(cur.value.rules.deny))
        && Load(t[id]).value.(rules := cur.value.rules) == cur.value)
  {
    assert GoodRow(id, rows[id]);
    LoadWithRules(rows[id], Stripped(Load(rows[id]).value));
    HasConditionalExactly(Load(rows[id]).value);
    GuardedAsStored(Load(rows[id]).value.rules.allow);
    GuardedAsStored(Load(rows[id]).value.rules.deny);
  }

  // ------------------------------------------------------------------ from the table to one key

  /** The requests of a sequence of batches that ask for key k. */
  ghost function RequestsFor(batches: seq<seq<Policy>>, k: Key): (reqs: seq<Policy>) {
    if batches == [] then [] else
    RequestsFor(batches[..|batches| - 1], k) + Filter(p => PolicyKey(p) == k, batches[|batches| - 1])
  }

  ghost predicate CreateCalls(tables: seq<Rows>, batches: seq<seq<Policy>>) {
    && |tables| == |batches| + 1
    && forall n :: 0 <= n < |batches| ==> CreateCall(tables[n], batches[n], tables[n + 1])
  }

  ghost predicate CreateCall(before: Rows, reqs: seq<Policy>, after: Rows) {
    && DistinctKeys(reqs) && (forall i :: 0 <= i < |reqs| ==> WellSided(reqs[i]))
    && exists ids :: Created(before, reqs, ids, after)
  }

  lemma {:induction false} OneForKey(reqs: seq<Policy>, k: Key) returns (mine: seq<Policy>)
    requires DistinctKeys(reqs)
    ensures mine == Filter(p => PolicyKey(p) == k, reqs) && |mine| <= 1
    ensures mine == [] <==> !Asked(reqs, k)
    ensures |mine| == 1 ==> exists i :: 0 <= i < |reqs| && reqs[i] == mine[0] && PolicyKey(mine[0]) == k
  {
    mine := Filter(p => PolicyKey(p) == k, reqs);
    if reqs != [] {
      var init, last := reqs[..|reqs| - 1], reqs[|reqs| - 1];
      assert DistinctKeys(init);
      var rest := OneForKey(init, k);
      assert forall i :: 0 <= i < |init| ==> init[i] == reqs[i];
      assert Asked(reqs, k) <==> Asked(init, k) || PolicyKey(last) == k by {
        if Asked(init, k) { var i :| 0 <= i < |init| && PolicyKey(init[i]) == k; assert PolicyKey(reqs[i]) == k; }
      }
      if PolicyKey(last) == k {
        assert !Asked(init, k);
        assert mine == [last];
      } else {
        assert mine == rest;
      }
    }
  }

  lemma {:induction false} KeyStep(before: Rows, reqs: seq<Policy>, after: Rows, k: Key) returns (mine: seq<Policy>)
    requires CreateCall(before, reqs, after)
    ensures mine == Filter(p => PolicyKey(p) == k, reqs) && |mine| <= 1
    ensures mine == [] ==> Find(after, k) == Find(before, k)
    ensures mine != [] ==> WellSided(mine[0]) && CreateStep(Find(before, k), mine[0], Find(after, k))
  {
    var ids :| Created(before, reqs, ids, after);
    mine := OneForKey(reqs, k);
    if mine != [] {
      var i :| 0 <= i < |reqs| && reqs[i] == mine[0] && PolicyKey(mine[0]) == k;
      assert CreatedOne(before, reqs[i], ids[i], after);
    }
  }

  /** Any sequence of Create calls on the table is, for each key, a run of that key's requests. */
  lemma {:induction false} TableRunIsKeyRun(tables: seq<Rows>, batches: seq<seq<Policy>>, k: Key)
    returns (states: seq<Option<Policy>>)
    requires CreateCalls(tables, batches) && Find(tables[0], k).None?
    ensures IsRun(states, RequestsFor(batches, k))
    ensures states[|RequestsFor(batches, k)|] == Find(tables[|batches|], k)
  {
    if batches == [] {
      states := [None];
    } else {
      var n := |batches| - 1;
      var init := batches[..n];
      CallsBefore(tables, batches);
      states := TableRunIsKeyRun(tables[..n + 1], init, k);
      states := KeyRunMore(states, RequestsFor(init, k), tables[n], batches[n], tables[n + 1], k);
    }
  }

  lemma {:induction false} KeyRunMore(
      states: seq<Option<Policy>>, reqs: seq<Policy>, before: Rows, batch: seq<Policy>, after: Rows, k: Key)
    returns (states': seq<Option<Policy>>)
    requires IsRun(states, reqs) && states[|reqs|] == Find(before, k) && CreateCall(before, batch, after)
    ensures var all := reqs + Filter(p => PolicyKey(p) == k, batch);
      IsRun(states', all) && states'[|all|] == Find(after, k)
  {
    var mine := KeyStep(before, batch, after, k);
    if mine != [] {
      assert mine == [mine[0]];
      RunMore(states, reqs, mine[0], Find(after, k));
      states' := states + [Find(after, k)];
    } else {
      assert reqs + mine == reqs;
      states' := states;
    }
  }

  lemma {:induction false} CallsBefore(tables: seq<Rows>, batches: seq<seq<Policy>>)
    requires CreateCalls(tables, batches) && batches != []
    ensures var n := |batches| - 1; CreateCalls(tables[..n + 1], batches[..n]) && CreateCall(tables[n], batches[n], tables[n + 1])
  {
  }

  /** So every sequence of Create calls sums up, key by key, whatever the batches and their order. */
  lemma {:induction false} CreateCallsSumUp(tables: seq<Rows>, batches: seq<seq<Policy>>, k: Key)
    requires CreateCalls(tables, batches) && Find(tables[0], k).None? && RequestsFor(batches, k) != []
    ensures var p := Find(tables[|batches|], k); p.Some? && Summed(RequestsFor(batches, k), p.value)
  {
    var reqs := RequestsFor(batches, k);
    var states := TableRunIsKeyRun(tables, batches, k);
    RequestsSumUp(states, reqs, |reqs|);
    assert reqs[..|reqs|] == reqs;
  }
}

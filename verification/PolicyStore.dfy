/**
  The policy table t_policy and the operations that write it.  A row keeps its rules in
  storage form; every operation reads rows through the reader and writes them through the
  writer of PolicyCodec.
 */
module PolicyStore {
  import opened Values
  import opened PolicyRules
  import opened PolicyCodec
  import opened PolicyMerge
  import opened PolicyRequests

  datatype Key = Key(resourceType: string, resourceId: string, accessorId: string)

  datatype Row = Row(
    id: string, resourceType: string, resourceId: string, resourceName: string,
    accessorId: string, accessorType: int, accessorName: string,
    operation: Json, condition: string, endTime: int)

  type Rows = map<string, Row>

  function KeyOf(r: Row): (k: Key) { Key(r.resourceType, r.resourceId, r.accessorId) }

  function PolicyKey(p: Policy): (k: Key) { Key(p.resourceType, p.resourceId, p.accessorId) }

  function ToRow(p: Policy): (r: Row) {
    Row(p.id, p.resourceType, p.resourceId, p.resourceName, p.accessorId, p.accessorType, p.accessorName,
        EncodeRules(p.rules), p.condition, p.endTime)
  }

  /** A row as a policy; None where reading f_operation would panic. */
  function Load(r: Row): (p: Option<Policy>) {
    match DecodeRules(r.operation)
    case None => None
    case Some(rules) =>
      Some(Policy(r.id, r.resourceType, r.resourceId, r.resourceName, r.accessorId, r.accessorType, r.accessorName,
                  rules, r.condition, r.endTime))
  }

  /** update t_policy set f_operation, f_end_time, f_condition where f_id */
  function WithRules(r: Row, p: Policy): (s: Row) {
    r.(operation := EncodeRules(p.rules), endTime := p.endTime, condition := p.condition)
  }

  lemma LoadToRow(p: Policy)
    ensures Load(ToRow(p)) == Some(Stored(p))
  {
    DecodeEncode(p.rules);
  }

  /** p is what r holds, with other rules, end time or condition text. */
  predicate SameOwner(r: Row, p: Policy) {
    ToRow(p) == WithRules(r, p)
  }

  lemma LoadWithRules(r: Row, p: Policy)
    requires SameOwner(r, p)
    ensures Load(WithRules(r, p)) == Some(Stored(p))
  {
    LoadToRow(p);
  }

  // ------------------------------------------------------------------ the invariant

  predicate NoEmptyRules(side: seq<Rule>) {
    forall i :: 0 <= i < |side| ==> HasOperations(side[i])
  }

  /** One unconditional rule a side at most, its ids on one side only, no rule and no policy empty. */
  predicate Good(p: Policy) {
    && WellSided(p)
    && NoEmptyRules(p.rules.allow) && NoEmptyRules(p.rules.deny)
    && (p.rules.allow != [] || p.rules.deny != [])
  }

  ghost predicate GoodRow(id: string, r: Row) {
    r.id == id && Load(r).Some? && Good(Load(r).value)
  }

  ghost predicate OnePerKey(rows: Rows) {
    forall i, j :: i in rows && j in rows && KeyOf(rows[i]) == KeyOf(rows[j]) ==> i == j
  }

  /** Every row is under its id and can be read, and no two have one key. */
  ghost predicate Sound(rows: Rows) {
    (forall id :: id in rows ==> rows[id].id == id && Load(rows[id]).Some?) && OnePerKey(rows)
  }

  ghost predicate Inv(rows: Rows) {
    (forall id :: id in rows ==> GoodRow(id, rows[id])) && OnePerKey(rows)
  }

  lemma InvIsSound(rows: Rows)
    ensures Inv(rows) <==> Sound(rows) && forall id :: id in rows ==> Good(Load(rows[id]).value)
  {
    if Inv(rows) {
      forall id | id in rows ensures rows[id].id == id && Load(rows[id]).Some? && Good(Load(rows[id]).value) {
        assert GoodRow(id, rows[id]);
      }
    }
  }

  ghost predicate Occupied(rows: Rows, k: Key) {
    exists id :: id in rows && KeyOf(rows[id]) == k
  }

  /** Names at least one unconditional operation. */
  predicate Names(p: Policy) {
    Unconditional(p.rules.allow) != [] || Unconditional(p.rules.deny) != []
  }

  // ------------------------------------------------------------------ the writes

  /** Replace the operations of the first unconditional rule, or put such a rule in front. */
  function ReplacedSide(side: seq<Rule>, ops: seq<Operation>): (s: seq<Rule>) {
    var k := FirstUnconditional(side);
    if k < |side| then side[k := side[k].(operations := ops)] else [Rule(JNull, ops)] + side
  }

  /** Its index, or the length when there is none. */
  function FirstUnconditional(side: seq<Rule>): (k: nat)
    ensures k <= |side| && (k < |side| ==> IsUnconditional(side[k]))
    ensures forall i :: 0 <= i < k ==> IsConditional(side[i])
  {
    if side == [] then 0 else if IsUnconditional(side[0]) then 0 else 1 + FirstUnconditional(side[1..])
  }

  function Replaced(cur: Policy, req: Policy): (p: Policy) {
    cur.(rules := Rules(ReplacedSide(cur.rules.allow, Unconditional(req.rules.allow)),
                        ReplacedSide(cur.rules.deny, Unconditional(req.rules.deny))),
         endTime := req.endTime, condition := req.condition)
  }

  function Stripped(cur: Policy): (p: Policy) {
    cur.(rules := Rules(Conditional(cur.rules.allow), Conditional(cur.rules.deny)))
  }

  predicate HasConditional(p: Policy) {
    Conditional(p.rules.allow) != [] || Conditional(p.rules.deny) != []
  }

  /** The writes that Create, CreatePrivate, Update, Delete and the event handlers make. */
  datatype Write =
    | Insert(p: Policy)
    | Merge(id: string, req: Policy, merged: Policy)
    | Replace(id: string, req: Policy)
    | Strip(id: string)
    | Remove(ids: set<string>)
    | RenameAccessor(accessor: string, name: string)
    | RenameResource(resourceType: string, resourceId: string, name: string)

  ghost predicate Enabled(rows: Rows, w: Write) {
    match w
    case Insert(p) => p.id !in rows && !Occupied(rows, PolicyKey(p)) && Good(Stored(p))
    case Merge(id, req, merged) =>
      id in rows && Load(rows[id]).Some? && IsMerge(Load(rows[id]).value, req, merged) && Names(req)
    case Replace(id, req) => id in rows && Load(rows[id]).Some? && AllowIds(req) !! DenyIds(req) && Names(req)
    case Strip(id) => id in rows && Load(rows[id]).Some? && HasConditional(Load(rows[id]).value)
    case Remove(_) | RenameAccessor(_, _) | RenameResource(_, _, _) => true
  }

  /** Names are the only columns that differ. */
  ghost predicate Renamed(r: Row, s: Row) {
    s == r.(accessorName := s.accessorName, resourceName := s.resourceName)
  }

  function AccessorRenamed(rows: Rows, accessor: string, name: string): (t: Rows)
    ensures t.Keys == rows.Keys && forall id :: id in rows ==> Renamed(rows[id], t[id])
  {
    map id | id in rows :: if rows[id].accessorId == accessor then rows[id].(accessorName := name) else rows[id]
  }

  function ResourceRenamed(rows: Rows, resourceType: string, resourceId: string, name: string): (t: Rows)
    ensures t.Keys == rows.Keys && forall id :: id in rows ==> Renamed(rows[id], t[id])
  {
    map id | id in rows ::
      if rows[id].resourceType == resourceType && rows[id].resourceId == resourceId
      then rows[id].(resourceName := name) else rows[id]
  }

  ghost function Apply(rows: Rows, w: Write): (t: Rows)
    requires Enabled(rows, w)
  {
    match w
    case Insert(p) => rows[p.id := ToRow(p)]
    case Merge(id, _, merged) => rows[id := WithRules(rows[id], merged)]
    case Replace(id, req) => rows[id := WithRules(rows[id], Replaced(Load(rows[id]).value, req))]
    case Strip(id) => rows[id := WithRules(rows[id], Stripped(Load(rows[id]).value))]
    case Remove(ids) => rows - ids
    case RenameAccessor(a, n) => AccessorRenamed(rows, a, n)
    case RenameResource(t, r, n) => ResourceRenamed(rows, t, r, n)
  }

  // ------------------------------------------------------------------ a stored policy is good

  lemma {:induction false} StoredIsGood(p: Policy)
    requires WellSided(p)
    requires Unconditional(p.rules.allow) != [] || Unconditional(p.rules.deny) != []
      || exists r :: (r in p.rules.allow || r in p.rules.deny) && HasOperations(r)
    ensures Good(Stored(p))
  {
    StoredShows(p);
    ShowsOperations(p.rules.allow);
    ShowsOperations(p.rules.deny);
  }

  lemma {:induction false} ShowsOperations(side: seq<Rule>)
    ensures NoEmptyRules(NormSide(side))
    ensures Unconditional(side) != [] || (exists r :: r in side && HasOperations(r)) ==> NormSide(side) != []
  {
    if Unconditional(side) != [] {
      var k := FirstUnconditional(side);
      if k < |side| { UnconditionalAt(side, k); assert side[k] in side; } else { UnconditionalNone(side); }
    }
  }

  lemma {:induction false} NamesIds(p: Policy)
    ensures Names(p) <==> AllowIds(p) + DenyIds(p) != {}
  {
    NamesSomething(Unconditional(p.rules.allow));
    NamesSomething(Unconditional(p.rules.deny));
  }

  lemma {:induction false} NamesSomething(ops: seq<Operation>)
    ensures ops != [] <==> Ids(ops) != {}
  {
    if ops != [] { assert ops[|ops| - 1].id in Ids(ops); }
  }

  lemma {:induction false} MergedIsGood(cur: Policy, req: Policy, r: Policy)
    requires IsMerge(cur, req, r) && Names(req)
    ensures Good(Stored(r))
  {
    MergeShows(cur, req, r);
    MergeIds(cur, req, r);
    NamesIds(req);
    NamesIds(r);
    StoredIsGood(r);
  }

  lemma {:induction false} ConditionalAround(side: seq<Rule>, k: nat)
    requires k < |side| && IsUnconditional(side[k])
    ensures Conditional(side) == Conditional(side[..k]) + Conditional(side[k + 1..])
  {
    FilterAppend(IsConditional, side[..k] + [side[k]], side[k + 1..]);
    FilterAppend(IsConditional, side[..k], [side[k]]);
    FilterNone(IsConditional, [side[k]]);
    assert side == side[..k] + [side[k]] + side[k + 1..];
  }

  lemma {:induction false} ReplacedSideShows(side: seq<Rule>, ops: seq<Operation>)
    requires AtMostOneUnconditional(side)
    ensures var s := ReplacedSide(side, ops);
      Unconditional(s) == ops && Conditional(s) == Conditional(side) && AtMostOneUnconditional(s)
  {
    var k, s := FirstUnconditional(side), ReplacedSide(side, ops);
    if k < |side| {
      UnconditionalAt(s, k);
      ConditionalAround(side, k);
      ConditionalAround(s, k);
      assert s[..k] == side[..k] && s[k + 1..] == side[k + 1..];
    } else {
      RuleInFront(ops, side);
      FilterAll(IsConditional, side);
    }
  }

  lemma {:induction false} ReplacedIsGood(cur: Policy, req: Policy)
    requires Good(cur) && AllowIds(req) !! DenyIds(req) && Names(req)
    ensures Good(Stored(Replaced(cur, req)))
  {
    ReplacedSideShows(cur.rules.allow, Unconditional(req.rules.allow));
    ReplacedSideShows(cur.rules.deny, Unconditional(req.rules.deny));
    StoredIsGood(Replaced(cur, req));
  }

  lemma {:induction false} StrippedIsGood(cur: Policy)
    requires Good(cur) && HasConditional(cur)
    ensures Good(Stored(Stripped(cur)))
  {
    var p := Stripped(cur);
    ConditionalIsStable(cur.rules.allow);
    ConditionalIsStable(cur.rules.deny);
    assert forall r :: r in p.rules.allow ==> r in cur.rules.allow;
    assert forall r :: r in p.rules.deny ==> r in cur.rules.deny;
    if p.rules.allow != [] { assert p.rules.allow[0] in p.rules.allow; } else { assert p.rules.deny[0] in p.rules.deny; }
    StoredIsGood(p);
  }

  // ------------------------------------------------------------------ every run keeps the invariant

  lemma RewriteKeepsInv(rows: Rows, id: string, p: Policy)
    requires Inv(rows) && id in rows && SameOwner(rows[id], p) && Good(Stored(p))
    ensures Inv(rows[id := WithRules(rows[id], p)])
  {
    LoadWithRules(rows[id], p);
    assert GoodRow(id, rows[id]);
  }

  lemma NewRowKeepsInv(rows: Rows, r: Row)
    requires Inv(rows) && r.id !in rows && !Occupied(rows, KeyOf(r)) && GoodRow(r.id, r)
    ensures Inv(rows[r.id := r])
  {
  }

  lemma {:induction false} InsertKeepsInv(rows: Rows, p: Policy)
    requires Inv(rows) && p.id !in rows && !Occupied(rows, PolicyKey(p)) && Good(Stored(p))
    ensures Inv(rows[p.id := ToRow(p)])
  {
    LoadToRow(p);
    NewRowKeepsInv(rows, ToRow(p));
  }

  lemma {:induction false} MergeKeepsInv(rows: Rows, id: string, req: Policy, merged: Policy)
    requires Inv(rows) && Enabled(rows, Merge(id, req, merged))
    ensures Inv(Apply(rows, Merge(id, req, merged))) && SameOwner(rows[id], merged) && Good(Stored(merged))
  {
    MergedIsGood(Load(rows[id]).value, req, merged);
    RewriteKeepsInv(rows, id, merged);
  }

  lemma {:induction false} ReplaceKeepsInv(rows: Rows, id: string, req: Policy)
    requires Inv(rows) && Enabled(rows, Replace(id, req))
    ensures Inv(Apply(rows, Replace(id, req)))
  {
    assert GoodRow(id, rows[id]);
    ReplacedIsGood(Load(rows[id]).value, req);
    RewriteKeepsInv(rows, id, Replaced(Load(rows[id]).value, req));
  }

  lemma {:induction false} StripKeepsInv(rows: Rows, id: string)
    requires Inv(rows) && Enabled(rows, Strip(id))
    ensures Inv(Apply(rows, Strip(id)))
  {
    assert GoodRow(id, rows[id]);
    StrippedIsGood(Load(rows[id]).value);
    RewriteKeepsInv(rows, id, Stripped(Load(rows[id]).value));
  }

  lemma {:induction false} WriteKeepsInv(rows: Rows, w: Write)
    requires Inv(rows) && Enabled(rows, w)
    ensures Inv(Apply(rows, w))
  {
    match w
    case Insert(p) => InsertKeepsInv(rows, p);
    case Merge(id, req, merged) => MergeKeepsInv(rows, id, req, merged);
    case Replace(id, req) => ReplaceKeepsInv(rows, id, req);
    case Strip(id) => StripKeepsInv(rows, id);
    case Remove(ids) => RemoveKeepsInv(rows, ids);
    case RenameAccessor(_, _) => RenameKeepsInv(rows, Apply(rows, w));
    case RenameResource(_, _, _) => RenameKeepsInv(rows, Apply(rows, w));
  }

  lemma RemoveKeepsInv(rows: Rows, ids: set<string>)
    requires Inv(rows)
    ensures Inv(rows - ids)
  {
  }

  lemma RenameKeepsInv(rows: Rows, t: Rows)
    requires Inv(rows) && t.Keys == rows.Keys && forall id :: id in rows ==> Renamed(rows[id], t[id])
    ensures Inv(t)
  {
    forall id | id in t ensures GoodRow(id, t[id]) && KeyOf(t[id]) == KeyOf(rows[id]) {
      assert GoodRow(id, rows[id]) && Renamed(rows[id], t[id]);
    }
  }

  ghost predicate Runs(rows: Rows, ws: seq<Write>, t: Rows)
    decreases |ws|
  {
    if ws == [] then rows == t else Enabled(rows, ws[0]) && Runs(Apply(rows, ws[0]), ws[1..], t)
  }

  /** From a good table, every sequence of writes ends in a good table. */
  lemma {:induction false} RunsKeepInv(rows: Rows, ws: seq<Write>, t: Rows)
    requires Inv(rows) && Runs(rows, ws, t)
    ensures Inv(t)
    decreases |ws|
  {
    if ws != [] {
      WriteKeepsInv(rows, ws[0]);
      RunsKeepInv(Apply(rows, ws[0]), ws[1..], t);
    }
  }

  lemma {:induction false} OneWrite(rows: Rows, w: Write)
    requires Inv(rows) && Enabled(rows, w)
    ensures Inv(Apply(rows, w)) && Runs(rows, [w], Apply(rows, w))
  {
    WriteKeepsInv(rows, w);
    assert [w][1..] == [];
  }

  lemma {:induction false} RunsThen(rows: Rows, ws: seq<Write>, mid: Rows, w: Write)
    requires Runs(rows, ws, mid) && Enabled(mid, w)
    ensures Runs(rows, ws + [w], Apply(mid, w))
    decreases |ws|
  {
    if ws == [] {
      assert ([] + [w])[1..] == [];
    } else {
      RunsThen(Apply(rows, ws[0]), ws[1..], mid, w);
      assert (ws + [w])[1..] == ws[1..] + [w];
    }
  }

  // ------------------------------------------------------------------ Update and Delete, as read back

  lemma {:induction false} ConditionalNormSide(side: seq<Rule>)
    ensures Conditional(NormSide(side)) == NormSide(Conditional(side))
  {
    if side != [] {
      var init, last := side[..|side| - 1], side[|side| - 1];
      ConditionalNormSide(init);
      assert side == init + [last];
      NormSideAppend(init, [last]);
      FilterAppend(IsConditional, NormSide(init), NormSide([last]));
      ConditionalOne(last);
      if IsConditional(last) {
        NormSideAppend(Conditional(init), [last]);
      }
    }
  }

  lemma {:induction false} ConditionalOne(r: Rule)
    ensures Conditional(NormSide([r])) == if IsConditional(r) then NormSide([r]) else []
  {
    NormSideOne(r);
    FilterOne(IsConditional, NormRule(r));
  }

  /**
    After Update the unconditional part is the request's, end time included, and the
    conditional rules are all there, in order.
   */
  lemma {:induction false} UpdateReplacesUnconditionalPart(cur: Policy, req: Policy)
    requires Good(cur) && AllowIds(req) !! DenyIds(req)
    ensures var q := Stored(Replaced(cur, req));
      && GrantOf(q) == GrantOf(req)
      && Conditional(q.rules.allow) == NormSide(Conditional(cur.rules.allow))
      && Conditional(q.rules.deny) == NormSide(Conditional(cur.rules.deny))
      && (Norm(cur.rules) == cur.rules ==>
          Conditional(q.rules.allow) == Conditional(cur.rules.allow) && Conditional(q.rules.deny) == Conditional(cur.rules.deny))
  {
    var p := Replaced(cur, req);
    ReplacedSideShows(cur.rules.allow, Unconditional(req.rules.allow));
    ReplacedSideShows(cur.rules.deny, Unconditional(req.rules.deny));
    StoredShows(p);
    ConditionalNormSide(p.rules.allow);
    ConditionalNormSide(p.rules.deny);
    ConditionalNormSide(cur.rules.allow);
    ConditionalNormSide(cur.rules.deny);
  }

  /** After a Delete that keeps the row, it grants nothing unconditionally and keeps the rest, in order. */
  lemma {:induction false} DeleteKeepsConditionalPart(cur: Policy)
    requires Good(cur)
    ensures var q := Stored(Stripped(cur));
      && Unconditional(q.rules.allow) == [] && Unconditional(q.rules.deny) == []
      && q.rules == Rules(NormSide(Conditional(cur.rules.allow)), NormSide(Conditional(cur.rules.deny)))
      && (Norm(cur.rules) == cur.rules ==> q.rules == Rules(Conditional(cur.rules.allow), Conditional(cur.rules.deny)))
  {
    StrippedSide(cur.rules.allow);
    StrippedSide(cur.rules.deny);
  }

  lemma {:induction false} StrippedSide(side: seq<Rule>)
    ensures Unconditional(NormSide(Conditional(side))) == []
    ensures NormSide(side) == side ==> NormSide(Conditional(side)) == Conditional(side)
  {
    ConditionalNormSide(side);
    UnconditionalNone(Conditional(NormSide(side)));
  }

  // ------------------------------------------------------------------ looking up a key

  ghost function Find(rows: Rows, k: Key): (p: Option<Policy>) {
    if id :| id in rows && KeyOf(rows[id]) == k then Load(rows[id]) else None
  }

  lemma FindIs(rows: Rows, id: string)
    requires Sound(rows) && id in rows
    ensures Find(rows, KeyOf(rows[id])) == Load(rows[id])
  {
  }

  lemma InsertIsSound(rows: Rows, p: Policy)
    requires Sound(rows) && p.id !in rows && !Occupied(rows, PolicyKey(p))
    ensures Sound(rows[p.id := ToRow(p)])
  {
    LoadToRow(p);
  }

  lemma FindAfterInsert(rows: Rows, p: Policy, k: Key)
    requires Sound(rows) && p.id !in rows && !Occupied(rows, PolicyKey(p))
    ensures Find(rows[p.id := ToRow(p)], k) == if k == PolicyKey(p) then Some(Stored(p)) else Find(rows, k)
  {
    var t := rows[p.id := ToRow(p)];
    InsertIsSound(rows, p);
    LoadToRow(p);
    if k == PolicyKey(p) {
      FindIs(t, p.id);
    } else if Occupied(rows, k) {
      var id :| id in rows && KeyOf(rows[id]) == k;
      FindIs(rows, id);
      FindIs(t, id);
    } else {
      assert !Occupied(t, k);
    }
  }

  lemma RewriteIsSound(rows: Rows, id: string, p: Policy)
    requires Sound(rows) && id in rows && SameOwner(rows[id], p)
    ensures Sound(rows[id := WithRules(rows[id], p)])
  {
    LoadWithRules(rows[id], p);
  }

  lemma FindAfterRewrite(rows: Rows, id: string, p: Policy, k: Key)
    requires Sound(rows) && id in rows && SameOwner(rows[id], p)
    ensures Find(rows[id := WithRules(rows[id], p)], k) == if k == KeyOf(rows[id]) then Some(Stored(p)) else Find(rows, k)
  {
    var t := rows[id := WithRules(rows[id], p)];
    RewriteIsSound(rows, id, p);
    LoadWithRules(rows[id], p);
    if k == KeyOf(rows[id]) {
      FindIs(t, id);
    } else if Occupied(rows, k) {
      var other :| other in rows && KeyOf(rows[other]) == k;
      FindIs(rows, other);
      FindIs(t, other);
    } else {
      assert !Occupied(t, k);
    }
  }

  /** What Find says about the rows. */
  lemma FindRow(rows: Rows, k: Key)
    requires Sound(rows)
    ensures Find(rows, k).None? <==> !Occupied(rows, k)
    ensures Find(rows, k).Some? ==> var id := Find(rows, k).value.id;
      id in rows && KeyOf(rows[id]) == k && Load(rows[id]) == Find(rows, k)
  {
    if Occupied(rows, k) {
      var id :| id in rows && KeyOf(rows[id]) == k;
      FindIs(rows, id);
    }
  }
}

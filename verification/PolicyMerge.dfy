/**
  The no-change test and the deny-first merge that Create and CreatePrivate run when the
  accessor already has a policy on the resource.
 */
module PolicyMerge {
  import opened Values
  import opened PolicyRules
  import opened PolicyCodec

  // ------------------------------------------------------------------ cmpPolicy

  /** Every asked operation is already there, with the same obligations. */
  predicate Covers(cur: seq<Operation>, asked: seq<Operation>) {
    forall i :: 0 <= i < |asked| ==>
      && asked[i].id in LastMap(cur)
      && ObligationsEqual(asked[i].obligations, LastMap(cur)[asked[i].id].obligations)
  }

  predicate SamePolicy(cur: Policy, req: Policy) {
    && cur.endTime == req.endTime
    && Covers(Unconditional(cur.rules.allow), Unconditional(req.rules.allow))
    && Covers(Unconditional(cur.rules.deny), Unconditional(req.rules.deny))
  }

  /** The operation is listed, and its last entry has these obligations. */
  ghost predicate LastEntry(ops: seq<Operation>, op: Operation) {
    exists i :: 0 <= i < |ops| && ops[i].id == op.id && Listed(ops[i].obligations) == Listed(op.obligations)
      && forall j :: i < j < |ops| ==> ops[j].id != op.id
  }

  ghost predicate AllListed(cur: seq<Operation>, asked: seq<Operation>) {
    forall op :: op in asked ==> LastEntry(cur, op)
  }

  lemma {:induction false} LastEntryExactly(ops: seq<Operation>, op: Operation)
    ensures LastEntry(ops, op) <==>
      op.id in LastMap(ops) && ObligationsEqual(op.obligations, LastMap(ops)[op.id].obligations)
  {
    if LastEntry(ops, op) {
      var i :| 0 <= i < |ops| && ops[i].id == op.id && Listed(ops[i].obligations) == Listed(op.obligations)
        && forall j :: i < j < |ops| ==> ops[j].id != op.id;
      LastMapHasLast(ops, i);
      ObligationsEqualIsListedEqual(op.obligations, ops[i].obligations);
    } else if op.id in LastMap(ops) {
      var i := LastIndex(ops, op.id);
      LastMapHasLast(ops, i);
      ObligationsEqualIsListedEqual(op.obligations, ops[i].obligations);
    }
  }

  lemma {:induction false} LastIndex(ops: seq<Operation>, id: string) returns (i: nat)
    requires id in LastMap(ops)
    ensures i < |ops| && ops[i].id == id && forall j :: i < j < |ops| ==> ops[j].id != id
  {
    i := |ops| - 1;
    if ops[i].id != id {
      i := LastIndex(ops[..i], id);
    }
  }

  lemma {:induction false} CoversExactly(cur: seq<Operation>, asked: seq<Operation>)
    ensures Covers(cur, asked) <==> AllListed(cur, asked)
  {
    forall i | 0 <= i < |asked| ensures LastEntry(cur, asked[i]) <==>
      asked[i].id in LastMap(cur) && ObligationsEqual(asked[i].obligations, LastMap(cur)[asked[i].id].obligations)
    {
      LastEntryExactly(cur, asked[i]);
    }
    if AllListed(cur, asked) {
      forall i | 0 <= i < |asked| ensures LastEntry(cur, asked[i]) {
        assert asked[i] in asked;
      }
    }
  }

  /** The no-change test written out: equal end times, and on each side every asked operation as its last entry has it. */
  lemma TestExactly(cur: Policy, req: Policy)
    ensures SamePolicy(cur, req) <==>
      && cur.endTime == req.endTime
      && AllListed(Unconditional(cur.rules.allow), Unconditional(req.rules.allow))
      && AllListed(Unconditional(cur.rules.deny), Unconditional(req.rules.deny))
  {
    CoversExactly(Unconditional(cur.rules.allow), Unconditional(req.rules.allow));
    CoversExactly(Unconditional(cur.rules.deny), Unconditional(req.rules.deny));
  }

  /** Build an operation map in a loop, leaving out the denied ones. */
  method BuildMap(ops: seq<Operation>, denied: set<string>) returns (m: map<string, Operation>)
    ensures m == LastMap(ops) - denied
  {
    m := map[];
    for i := 0 to |ops|
      invariant m == LastMap(ops[..i]) - denied
    {
      assert ops[..i + 1][..i] == ops[..i];
      if ops[i].id !in denied {
        m := m[ops[i].id := ops[i]];
      }
    }
    assert ops[..|ops|] == ops;
  }

  /** One of cmpPolicy's two loops over the requested operations. */
  method CheckCovered(cur: map<string, Operation>, asked: seq<Operation>) returns (covered: bool)
    ensures covered <==> forall i :: 0 <= i < |asked| ==>
      asked[i].id in cur && Listed(asked[i].obligations) == Listed(cur[asked[i].id].obligations)
  {
    for i := 0 to |asked|
      invariant forall j :: 0 <= j < i ==>
        asked[j].id in cur && Listed(asked[j].obligations) == Listed(cur[asked[j].id].obligations)
    {
      if asked[i].id !in cur || !ObligationsEqual(asked[i].obligations, cur[asked[i].id].obligations) {
        return false;
      }
    }
    return true;
  }

  method CmpPolicy(cur: Policy, req: Policy) returns (isSame: bool)
    ensures isSame <==> SamePolicy(cur, req)
  {
    if cur.endTime != req.endTime {
      return false;
    }
    var denied := BuildMap(Unconditional(cur.rules.deny), {});
    var allowed := BuildMap(Unconditional(cur.rules.allow), {});
    isSame := CheckCovered(allowed, Unconditional(req.rules.allow));
    if isSame {
      isSame := CheckCovered(denied, Unconditional(req.rules.deny));
    }
  }

  // ------------------------------------------------------------------ mergeNewPolicy

  function MergedDeny(cur: seq<Operation>, asked: seq<Operation>): (m: map<string, Operation>) {
    FirstMap(cur) + LastMap(asked)
  }

  function MergedAllow(cur: seq<Operation>, asked: seq<Operation>, denied: set<string>): (m: map<string, Operation>) {
    (FirstMap(cur) + LastMap(asked)) - denied
  }

  /** The merged side: one unconditional rule, if it has operations, then the conditional rules. */
  ghost predicate MergedSide(side: seq<Rule>, cur: seq<Rule>, m: map<string, Operation>) {
    exists ops :: Lists(ops, m) && side == (if ops == [] then [] else [Rule(JNull, ops)]) + Conditional(cur)
  }

  function DenyMap(cur: Policy, req: Policy): (m: map<string, Operation>) {
    MergedDeny(Unconditional(cur.rules.deny), Unconditional(req.rules.deny))
  }

  function AllowMap(cur: Policy, req: Policy): (m: map<string, Operation>) {
    MergedAllow(Unconditional(cur.rules.allow), Unconditional(req.rules.allow), DenyMap(cur, req).Keys)
  }

  /** r is a result of merging req into cur (the map iterations leave its order open). */
  ghost predicate IsMerge(cur: Policy, req: Policy, r: Policy) {
    && MergedSide(r.rules.allow, cur.rules.allow, AllowMap(cur, req))
    && MergedSide(r.rules.deny, cur.rules.deny, DenyMap(cur, req))
    && r == cur.(rules := r.rules, endTime := MinEnd(cur.endTime, req.endTime), condition := "")
  }

  /** Add the current operations that are neither denied nor in the map yet. */
  method AddMissing(m0: map<string, Operation>, ops: seq<Operation>, denied: set<string>)
    returns (m: map<string, Operation>)
    ensures m == (FirstMap(ops) - denied) + m0
  {
    m := m0;
    for i := 0 to |ops|
      invariant m == (FirstMap(ops[..i]) - denied) + m0
    {
      assert ops[..i + 1][..i] == ops[..i];
      if ops[i].id !in denied && ops[i].id !in m {
        m := m[ops[i].id := ops[i]];
      }
    }
    assert ops[..|ops|] == ops;
  }

  predicate Keyed(m: map<string, Operation>) {
    forall k :: k in m ==> m[k].id == k
  }

  /** Go over a map in whatever order comes. */
  method ListEntries(m: map<string, Operation>) returns (ops: seq<Operation>)
    requires Keyed(m)
    ensures Lists(ops, m)
  {
    ops := [];
    var left := m.Keys;
    ghost var seen := map[];
    assert seen == m - left;
    while left != {}
      invariant left <= m.Keys
      invariant Lists(ops, seen) && seen == m - left
      decreases left
    {
      var k :| k in left;
      ListsAppend(ops, seen, m[k]);
      ops, left := ops + [m[k]], left - {k};
      seen := seen[k := m[k]];
      assert seen == m - left;
    }
    assert seen == m;
  }

  lemma {:induction false} ListsAppend(ops: seq<Operation>, m: map<string, Operation>, x: Operation)
    requires Lists(ops, m) && x.id !in m
    ensures Lists(ops + [x], m[x.id := x])
  {
    assert (ops + [x])[..|ops|] == ops;
  }

  method KeepConditional(side: seq<Rule>) returns (kept: seq<Rule>)
    ensures kept == Conditional(side)
  {
    kept := [];
    for i := 0 to |side|
      invariant kept == Conditional(side[..i])
    {
      assert side[..i + 1][..i] == side[..i];
      if !EmptyCondition(side[i].condition) {
        kept := kept + [side[i]];
      }
    }
    assert side[..|side|] == side;
  }

  method MergeSide(m: map<string, Operation>, cur: seq<Rule>) returns (side: seq<Rule>)
    requires Keyed(m)
    ensures MergedSide(side, cur, m)
  {
    var ops := ListEntries(m);
    side := if |ops| > 0 then [Rule(JNull, ops)] else [];
    var kept := KeepConditional(cur);
    side := side + kept;
  }

  lemma WithoutBoth<K, V>(f: map<K, V>, l: map<K, V>, ks: set<K>)
    ensures (f - ks) + (l - ks) == (f + l) - ks && (f + l) - {} == f + l
  {
  }

  lemma {:induction false} MergedMapsKeyed(cur: Policy, req: Policy)
    ensures Keyed(DenyMap(cur, req)) && Keyed(AllowMap(cur, req))
  {
    MapFacts(Unconditional(cur.rules.allow));
    MapFacts(Unconditional(cur.rules.deny));
    MapFacts(Unconditional(req.rules.allow));
    MapFacts(Unconditional(req.rules.deny));
  }

  method MergeNewPolicy(cur: Policy, req: Policy) returns (r: Policy)
    ensures IsMerge(cur, req, r)
  {
    MergedMapsKeyed(cur, req);
    // Deny comes first.
    var denyMap := BuildMap(Unconditional(req.rules.deny), {});
    denyMap := AddMissing(denyMap, Unconditional(cur.rules.deny), {});
    WithoutBoth(FirstMap(Unconditional(cur.rules.deny)), LastMap(Unconditional(req.rules.deny)), {});
    var allowMap := BuildMap(Unconditional(req.rules.allow), denyMap.Keys);
    allowMap := AddMissing(allowMap, Unconditional(cur.rules.allow), denyMap.Keys);
    WithoutBoth(FirstMap(Unconditional(cur.rules.allow)), LastMap(Unconditional(req.rules.allow)), denyMap.Keys);
    var allow := MergeSide(allowMap, cur.rules.allow);
    var deny := MergeSide(denyMap, cur.rules.deny);
    r := cur.(rules := Rules(allow, deny), endTime := MinEnd(cur.endTime, req.endTime), condition := "");
  }

  // ------------------------------------------------------------------ what a merged policy shows

  /** A policy as it is read back after it was written. */
  function Stored(p: Policy): (q: Policy) {
    p.(rules := Norm(p.rules))
  }

  lemma {:induction false} ConditionalIsStable(side: seq<Rule>)
    ensures Conditional(Conditional(side)) == Conditional(side) && Unconditional(Conditional(side)) == []
  {
    FilterAll(IsConditional, Conditional(side));
    UnconditionalNone(Conditional(side));
  }

  lemma {:induction false} RuleInFront(ops: seq<Operation>, rest: seq<Rule>)
    requires forall r :: r in rest ==> IsConditional(r)
    ensures var side := [Rule(JNull, ops)] + rest;
      Unconditional(side) == ops && Conditional(side) == rest && AtMostOneUnconditional(side)
  {
    FilterAppend(IsConditional, [Rule(JNull, ops)], rest);
    FilterNone(IsConditional, [Rule(JNull, ops)]);
    FilterAll(IsConditional, rest);
  }

  /** No operation is listed twice. */
  predicate NoneTwice(ops: seq<Operation>) {
    forall i, j :: 0 <= i < j < |ops| ==> ops[i].id != ops[j].id
  }

  lemma {:induction false} MergedSideShows(side: seq<Rule>, cur: seq<Rule>, m: map<string, Operation>)
    requires MergedSide(side, cur, m)
    ensures LastMap(Unconditional(side)) == m && FirstMap(Unconditional(side)) == m && NoneTwice(Unconditional(side))
    ensures Conditional(side) == Conditional(cur) && AtMostOneUnconditional(side)
  {
    var ops :| Lists(ops, m) && side == (if ops == [] then [] else [Rule(JNull, ops)]) + Conditional(cur);
    ListedMaps(ops, m);
    ConditionalIsStable(cur);
    if ops == [] {
      assert side == Conditional(cur);
    } else {
      RuleInFront(ops, Conditional(cur));
    }
  }

  /** Storing keeps what a side with at most one unconditional rule means. */
  lemma {:induction false} StoredSideShows(side: seq<Rule>)
    requires AtMostOneUnconditional(side)
    ensures var n := NormSide(side);
      && AtMostOneUnconditional(n)
      && Meaning(Unconditional(n)) == Meaning(Unconditional(side))
      && Ids(Unconditional(n)) == Ids(Unconditional(side))
      && (Consistent(Unconditional(n)) <==> Consistent(Unconditional(side)))
  {
    UnconditionalNormSide(side);
    ShownIsUnconditional(side);
    NormMeaning(Unconditional(side));
    NormSideAtMostOne(side);
  }

  lemma {:induction false} NormSideAtMostOne(side: seq<Rule>)
    requires AtMostOneUnconditional(side)
    ensures AtMostOneUnconditional(NormSide(side))
  {
    FilterAtMostOne(side);
  }

  lemma {:induction false} FilterAtMostOne(side: seq<Rule>)
    requires AtMostOneUnconditional(side)
    ensures AtMostOneUnconditional(Filter(HasOperations, side))
  {
    if side != [] {
      var init, last := side[..|side| - 1], side[|side| - 1];
      FilterAtMostOne(init);
      var kept := Filter(HasOperations, init);
      if IsUnconditional(last) {
        assert forall r :: r in init ==> IsConditional(r);
        assert forall i :: 0 <= i < |kept| ==> kept[i] in init;
      }
    }
  }

  // ------------------------------------------------------------------ the merge as an operation on grants

  function FirstDuties(ops: seq<Operation>): (d: Duties) {
    DutiesOf(FirstMap(ops))
  }

  /** Deny first; a new entry replaces an old one of its side; the earlier end time. */
  function Combine(g: Grant, r: Grant): (c: Grant) {
    Grant((g.allow + r.allow) - (g.deny + r.deny).Keys, g.deny + r.deny, MinEnd(g.endTime, r.endTime))
  }

  lemma {:induction false} FirstDutiesKeys(ops: seq<Operation>)
    ensures FirstDuties(ops).Keys == Ids(ops)
  {
    MapFacts(ops);
  }

  lemma {:induction false} MergeShows(cur: Policy, req: Policy, r: Policy)
    requires IsMerge(cur, req, r)
    ensures GrantOf(r).deny == FirstDuties(Unconditional(cur.rules.deny)) + GrantOf(req).deny
    ensures GrantOf(r).allow == (FirstDuties(Unconditional(cur.rules.allow)) + GrantOf(req).allow) - GrantOf(r).deny.Keys
    ensures NoneTwice(Unconditional(r.rules.allow)) && NoneTwice(Unconditional(r.rules.deny))
    ensures Consistent(Unconditional(r.rules.allow)) && Consistent(Unconditional(r.rules.deny))
    ensures Conditional(r.rules.allow) == Conditional(cur.rules.allow)
    ensures Conditional(r.rules.deny) == Conditional(cur.rules.deny)
    ensures Guarded(r.rules.allow) == Guarded(cur.rules.allow) && Guarded(r.rules.deny) == Guarded(cur.rules.deny)
    ensures WellSided(r)
  {
    ConditionalIsGuarded(r.rules.allow);
    ConditionalIsGuarded(r.rules.deny);
    ConditionalIsGuarded(cur.rules.allow);
    ConditionalIsGuarded(cur.rules.deny);
    MergedSideShows(r.rules.allow, cur.rules.allow, AllowMap(cur, req));
    MergedSideShows(r.rules.deny, cur.rules.deny, DenyMap(cur, req));
    MapFacts(Unconditional(cur.rules.deny));
    DutiesOfSum(FirstMap(Unconditional(cur.rules.deny)), LastMap(Unconditional(req.rules.deny)), {});
    DutiesOfSum(FirstMap(Unconditional(cur.rules.allow)), LastMap(Unconditional(req.rules.allow)), DenyMap(cur, req).Keys);
    WithoutBoth(FirstMap(Unconditional(cur.rules.deny)), LastMap(Unconditional(req.rules.deny)), {});
  }

  lemma DutiesOfSum(f: map<string, Operation>, l: map<string, Operation>, ks: set<string>)
    ensures DutiesOf((f + l) - ks) == (DutiesOf(f) + DutiesOf(l)) - ks
    ensures DutiesOf(f + l) == DutiesOf(f) + DutiesOf(l)
  {
  }

  /** On the operation ids, the merge is union with deny first, whatever is listed twice. */
  lemma {:induction false} MergeIds(cur: Policy, req: Policy, r: Policy)
    requires IsMerge(cur, req, r)
    ensures DenyIds(r) == DenyIds(cur) + DenyIds(req)
    ensures AllowIds(r) == (AllowIds(cur) + AllowIds(req)) - DenyIds(r)
  {
    MergeShows(cur, req, r);
    FirstDutiesKeys(Unconditional(cur.rules.allow));
    FirstDutiesKeys(Unconditional(cur.rules.deny));
  }

  predicate ConsistentPolicy(p: Policy) {
    Consistent(Unconditional(p.rules.allow)) && Consistent(Unconditional(p.rules.deny))
  }

  lemma {:induction false} MergeIsCombine(cur: Policy, req: Policy, r: Policy)
    requires IsMerge(cur, req, r) && ConsistentPolicy(cur)
    ensures GrantOf(r) == Combine(GrantOf(cur), GrantOf(req)) && ConsistentPolicy(r)
  {
    MergeShows(cur, req, r);
  }

  // ------------------------------------------------------------------ the no-change test

  lemma {:induction false} CoversMeaning(cur: seq<Operation>, asked: seq<Operation>)
    requires Covers(cur, asked)
    ensures Ids(asked) <= Ids(cur) && forall k :: k in Ids(asked) ==> Meaning(cur)[k] == Meaning(asked)[k]
  {
    MapFacts(asked);
    forall k | k in Ids(asked) ensures k in Ids(cur) && Meaning(cur)[k] == Meaning(asked)[k] {
      assert LastMap(asked)[k] in asked;
      ObligationsEqualIsListedEqual(LastMap(asked)[k].obligations, LastMap(cur)[k].obligations);
    }
  }

  /** An operation the request does not name is not listed twice with different obligations. */
  ghost predicate SteadyOutside(cur: seq<Operation>, asked: seq<Operation>) {
    forall k :: k in Ids(cur) && k !in Ids(asked) && k in FirstDuties(cur) ==> FirstDuties(cur)[k] == Meaning(cur)[k]
  }

  lemma {:induction false} CoveredSum(cur: seq<Operation>, asked: seq<Operation>)
    requires Covers(cur, asked)
    ensures FirstDuties(cur) + Meaning(asked) == Meaning(cur) <==> SteadyOutside(cur, asked)
    ensures (FirstDuties(cur) + Meaning(asked)).Keys == Ids(cur)
  {
    CoversMeaning(cur, asked);
    FirstDutiesKeys(cur);
    var sum := FirstDuties(cur) + Meaning(asked);
    if sum == Meaning(cur) {
      forall k | k in Ids(cur) && k !in Ids(asked) ensures FirstDuties(cur)[k] == Meaning(cur)[k] {
        assert sum[k] == FirstDuties(cur)[k];
      }
    }
    assert sum.Keys == Meaning(cur).Keys;
  }

  /**
    When the test says "no change", the merge it skips would leave the end time, the
    conditional rules and the operation ids alone; the obligations too, exactly when no
    operation left unnamed is stored twice with different obligations.
   */
  lemma {:induction false} SkippedMergeChangesNothing(cur: Policy, req: Policy, r: Policy)
    requires WellSided(cur) && SamePolicy(cur, req) && IsMerge(cur, req, r)
    ensures r.endTime == cur.endTime && AllowIds(r) == AllowIds(cur) && DenyIds(r) == DenyIds(cur)
    ensures Conditional(r.rules.allow) == Conditional(cur.rules.allow)
    ensures Conditional(r.rules.deny) == Conditional(cur.rules.deny)
    ensures GrantOf(r) == GrantOf(cur) <==>
      SteadyOutside(Unconditional(cur.rules.allow), Unconditional(req.rules.allow))
      && SteadyOutside(Unconditional(cur.rules.deny), Unconditional(req.rules.deny))
  {
    MergeShows(cur, req, r);
    CoveredSum(Unconditional(cur.rules.allow), Unconditional(req.rules.allow));
    CoveredSum(Unconditional(cur.rules.deny), Unconditional(req.rules.deny));
    RemoveNothing(FirstDuties(Unconditional(cur.rules.allow)) + GrantOf(req).allow, GrantOf(r).deny.Keys);
    assert GrantOf(r).allow.Keys == Ids(Unconditional(cur.rules.allow));
  }

  lemma RemoveNothing<K, V>(m: map<K, V>, ks: set<K>)
    requires m.Keys !! ks
    ensures m - ks == m
  {
  }

  lemma {:induction false} SomeListing(m: map<string, Operation>) returns (ops: seq<Operation>)
    requires Keyed(m)
    ensures Lists(ops, m)
    decreases |m|
  {
    if m == map[] {
      ops := [];
    } else {
      var k :| k in m;
      var rest := m - {k};
      assert m.Keys == {k} + rest.Keys && |rest.Keys| < |m.Keys|;
      ops := SomeListing(rest);
      ListsAppend(ops, rest, m[k]);
      assert rest[k := m[k]] == m;
      ops := ops + [m[k]];
    }
  }

  lemma {:induction false} SomeMerge(cur: Policy, req: Policy) returns (r: Policy)
    ensures IsMerge(cur, req, r)
  {
    MergedMapsKeyed(cur, req);
    var allow := SomeListing(AllowMap(cur, req));
    var deny := SomeListing(DenyMap(cur, req));
    var allowSide := (if allow == [] then [] else [Rule(JNull, allow)]) + Conditional(cur.rules.allow);
    var denySide := (if deny == [] then [] else [Rule(JNull, deny)]) + Conditional(cur.rules.deny);
    r := cur.(rules := Rules(allowSide, denySide), endTime := MinEnd(cur.endTime, req.endTime), condition := "");
  }

  /** The test compares with the last of two equal ids, the merge keeps the first. */
  lemma SkippedMergeCanChange() returns (cur: Policy, req: Policy, r: Policy)
    ensures WellSided(cur) && SamePolicy(cur, req) && IsMerge(cur, req, r) && GrantOf(r) != GrantOf(cur)
  {
    var x := Operation("a", "", Some([Obligation("t", "1", JNull)]));
    var y := Operation("a", "", Some([Obligation("t", "2", JNull)]));
    var b := Operation("b", "", None);
    var ops := [x, y, b];
    cur := Policy("p", "t", "r", "", "u", 1, "", Rules([Rule(JNull, ops)], []), "", FOREVER);
    req := cur.(rules := Rules([Rule(JNull, [b])], []));
    assert ops[..2] == [x, y] && [x, y][..1] == [x];
    assert LastMap([x]) == FirstMap([x]) == map["a" := x];
    assert LastMap([x, y]) == map["a" := y] && FirstMap([x, y]) == map["a" := x];
    assert LastMap(ops) == map["a" := y, "b" := b] && FirstMap(ops) == map["a" := x, "b" := b];
    assert LastMap([b]) == map["b" := b];
    r := SomeMerge(cur, req);
    SkippedMergeChangesNothing(cur, req, r);
    assert FirstDuties(ops)["a"] != Meaning(ops)["a"] by {
      assert Obligation("t", "1", JNull) != Obligation("t", "2", JNull);
    }
    assert !SteadyOutside(ops, [b]);
  }

  /** All entries of one id ask for the same. */
  predicate Agrees(ops: seq<Operation>) {
    forall i :: 0 <= i < |ops| ==> ops[i].id in Meaning(ops) && Listed(ops[i].obligations) == Meaning(ops)[ops[i].id]
  }

  lemma {:induction false} CoversAgain(cur: seq<Operation>, asked: seq<Operation>)
    requires forall k :: k in Ids(asked) && k in Ids(cur) ==> Meaning(cur)[k] == Meaning(asked)[k]
    ensures Covers(cur, asked) <==> Ids(asked) <= Ids(cur) && Agrees(asked)
  {
    MapFacts(asked);
    if Covers(cur, asked) {
      CoversMeaning(cur, asked);
    }
    forall i | 0 <= i < |asked| && asked[i].id in Ids(cur)
      ensures ObligationsEqual(asked[i].obligations, LastMap(cur)[asked[i].id].obligations)
              <==> Listed(asked[i].obligations) == Meaning(asked)[asked[i].id]
    {
      ObligationsEqualIsListedEqual(asked[i].obligations, LastMap(cur)[asked[i].id].obligations);
    }
  }

  /**
    The test accepts a valid request right after its own merge exactly when the policy had
    denied none of the newly allowed operations, the merged end time is the request's and
    the request does not contradict itself.
   */
  lemma {:induction false} TestAfterMerge(cur: Policy, req: Policy, r: Policy)
    requires IsMerge(cur, req, r) && AllowIds(req) !! DenyIds(req)
    ensures SamePolicy(r, req) <==>
      && AllowIds(req) !! DenyIds(cur) && MinEnd(cur.endTime, req.endTime) == req.endTime
      && Agrees(Unconditional(req.rules.allow)) && Agrees(Unconditional(req.rules.deny))
  {
    MergeShows(cur, req, r);
    MergeIds(cur, req, r);
    CoversAgain(Unconditional(r.rules.allow), Unconditional(req.rules.allow));
    CoversAgain(Unconditional(r.rules.deny), Unconditional(req.rules.deny));
  }

  // ------------------------------------------------------------------ the test and storage

  lemma {:induction false} CoversNorm(cur: seq<Operation>, asked: seq<Operation>)
    ensures Covers(Map(NormOperation, cur), asked) <==> Covers(cur, asked)
  {
    NormLastMap(cur);
    forall i | 0 <= i < |asked| && asked[i].id in LastMap(cur)
      ensures ObligationsEqual(asked[i].obligations, LastMap(cur)[asked[i].id].obligations)
        <==> ObligationsEqual(asked[i].obligations, LastMap(Map(NormOperation, cur))[asked[i].id].obligations)
    {
      ObligationsEqualIsListedEqual(asked[i].obligations, LastMap(cur)[asked[i].id].obligations);
    }
  }

  /** A request for one operation shows whether a side has it. */
  lemma {:induction false} StorageShowsMore(side: seq<Rule>) returns (probe: seq<Operation>)
    requires !FirstCounts(side)
    ensures Covers(Unconditional(NormSide(side)), probe) && !Covers(Unconditional(side), probe)
  {
    UnconditionalNormSide(side);
    ShownIsUnconditional(side);
    var shown := Shown(side);
    assert Unconditional(side) == [];
    probe := [shown[|shown| - 1]];
    assert probe[0].id in LastMap(shown) && LastMap(shown)[probe[0].id] == probe[0];
    CoversNorm(shown, probe);
  }

  /**
    The test gives one answer before and after a store and load of the current policy, for
    every request, exactly when on each side the first unconditional rule is the one storage
    shows; with at most one unconditional rule a side that is so.
   */
  lemma {:induction false} TestIgnoresStorage(p: Policy)
    ensures (forall req :: SamePolicy(Stored(p), req) == SamePolicy(p, req))
            <==> FirstCounts(p.rules.allow) && FirstCounts(p.rules.deny)
    ensures AtMostOneUnconditional(p.rules.allow) && AtMostOneUnconditional(p.rules.deny)
            ==> FirstCounts(p.rules.allow) && FirstCounts(p.rules.deny)
  {
    var allow, deny := p.rules.allow, p.rules.deny;
    UnconditionalNormSide(allow);
    UnconditionalNormSide(deny);
    ShownIsUnconditional(allow);
    ShownIsUnconditional(deny);
    if FirstCounts(allow) && FirstCounts(deny) {
      forall req ensures SamePolicy(Stored(p), req) == SamePolicy(p, req) {
        CoversNorm(Unconditional(allow), Unconditional(req.rules.allow));
        CoversNorm(Unconditional(deny), Unconditional(req.rules.deny));
      }
    } else if !FirstCounts(allow) {
      var probe := StorageShowsMore(allow);
      var req := p.(rules := Rules([Rule(JNull, probe)], []));
      assert Unconditional(req.rules.deny) == [];
      assert SamePolicy(Stored(p), req) && !SamePolicy(p, req);
    } else {
      var probe := StorageShowsMore(deny);
      var req := p.(rules := Rules([], [Rule(JNull, probe)]));
      assert Unconditional(req.rules.allow) == [];
      assert SamePolicy(Stored(p), req) && !SamePolicy(p, req);
    }
  }
}

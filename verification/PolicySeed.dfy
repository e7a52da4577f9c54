/**
  Seeding at every start: what comparing and merging the same seed again and again leaves of
  one policy, and exactly when a seed keeps the store's invariant.
 */
module PolicySeed {
  import opened Values
  import opened PolicyRules
  import opened PolicyCodec
  import opened PolicyMerge
  import opened ConditionMerge
  import opened PolicyStore

  /** One seed policy at one start: insert, skip, or merge; then the policy is as storage shows it. */
  ghost predicate SeedStep(s: Option<Policy>, seed: Policy, t: Option<Policy>) {
    && t.Some?
    && match s
       case None => t.value == Stored(seed.(id := t.value.id, accessorName := t.value.accessorName))
       case Some(p) =>
         if SameWithCondition(p, seed) then t == s
         else exists r :: IsMergeWithCondition(p, seed, r) && t.value == Stored(r)
  }

  /** The loop body of getCreateAndUpdatePolicyWithCondition, and the write it leads to. */
  method SeedOne(s: Option<Policy>, seed: Policy, newId: string, name: string) returns (t: Option<Policy>)
    ensures SeedStep(s, seed, t)
    ensures s.None? ==> t.value.id == newId && t.value.accessorName == name
  {
    if s.Some? {
      var isSame := CmpPolicyWithCondition(s.value, seed);
      if isSame {
        return s;
      }
      var merged := MergeNewPolicyWithCondition(s.value, seed);
      t := Some(Stored(merged));
    } else {
      t := Some(Stored(seed.(id := newId, accessorName := name)));
    }
  }

  // ------------------------------------------------------------------ starting again and again

  /** Merging the seed into p would change nothing that is granted. */
  ghost predicate Absorbed(p: Policy, seed: Policy) {
    && AllHarmless(p.rules.allow, seed.rules.allow) && AllHarmless(p.rules.deny, seed.rules.deny)
    && MinEnd(p.endTime, seed.endTime) == p.endTime
  }

  lemma {:induction false} InsertedSide(asked: seq<Rule>)
    requires DistinctClasses(asked)
    ensures AllHarmless(NormSide(asked), asked)
  {
    forall i | 0 <= i < |asked| ensures Harmless(NormSide(asked), asked[i]) {
      FirstIs(asked, RuleClass(asked[i]), i);
      HarmlessStored(asked, asked[i]);
    }
  }

  lemma {:induction false} ComparedSide(cur: seq<Rule>, asked: seq<Rule>)
    requires SameSide(cur, asked)
    ensures AllHarmless(cur, asked)
  {
    forall i | 0 <= i < |asked| ensures Harmless(cur, asked[i]) {
      CoveredIsHarmless(cur, asked, i);
    }
  }

  lemma {:induction false} MergedSideAbsorbs(cur: seq<Rule>, asked: seq<Rule>, out: seq<Rule>)
    requires IsMergedItems(cur, asked, out) && DistinctClasses(asked)
    ensures AllHarmless(NormSide(out), asked)
  {
    forall i | 0 <= i < |asked| ensures Harmless(NormSide(out), asked[i]) {
      SeededIsHarmlessStored(cur, asked, out, i);
    }
  }

  lemma {:induction false} SeedAbsorbs(s: Option<Policy>, seed: Policy, t: Option<Policy>)
    requires OneRulePerClass(seed) && SeedStep(s, seed, t)
    ensures Absorbed(t.value, seed)
  {
    if s.None? {
      InsertedSide(seed.rules.allow);
      InsertedSide(seed.rules.deny);
    } else if SameWithCondition(s.value, seed) {
      ComparedSide(s.value.rules.allow, seed.rules.allow);
      ComparedSide(s.value.rules.deny, seed.rules.deny);
    } else {
      var r :| IsMergeWithCondition(s.value, seed, r) && t.value == Stored(r);
      MergedSideAbsorbs(s.value.rules.allow, seed.rules.allow, r.rules.allow);
      MergedSideAbsorbs(s.value.rules.deny, seed.rules.deny, r.rules.deny);
    }
  }

  ghost predicate SamePolicyGrants(p: Policy, q: Policy) {
    && SameGrants(p.rules.allow, q.rules.allow) && SameGrants(p.rules.deny, q.rules.deny)
    && p.endTime == q.endTime
  }

  lemma {:induction false} AbsorbedSide(cur: seq<Rule>, asked: seq<Rule>, out: seq<Rule>)
    requires IsMergedItems(cur, asked, out) && DistinctClasses(asked) && AllHarmless(cur, asked)
    ensures SameGrants(NormSide(out), cur)
  {
    HarmlessMerge(cur, asked, out);
    NormKeepsGrants(out);
  }

  lemma {:induction false} AbsorbedStaysSame(p: Policy, seed: Policy, t: Option<Policy>)
    requires OneRulePerClass(seed) && Absorbed(p, seed) && SeedStep(Some(p), seed, t)
    ensures SamePolicyGrants(t.value, p)
  {
    if !SameWithCondition(p, seed) {
      var r :| IsMergeWithCondition(p, seed, r) && t.value == Stored(r);
      AbsorbedSide(p.rules.allow, seed.rules.allow, r.rules.allow);
      AbsorbedSide(p.rules.deny, seed.rules.deny, r.rules.deny);
    }
  }

  /** states[k] is the policy after k starts with the same seed; at first anything may be there. */
  ghost predicate Starts(states: seq<Option<Policy>>, seed: Policy) {
    |states| > 0 && forall k :: 0 <= k < |states| - 1 ==> StartAt(states, seed, k)
  }

  ghost predicate StartAt(states: seq<Option<Policy>>, seed: Policy, k: nat)
    requires k + 1 < |states|
  {
    SeedStep(states[k], seed, states[k + 1])
  }

  /** However often it starts, the first start decides: later ones change no grant and no end time. */
  lemma {:induction false} LaterStartsChangeNothing(states: seq<Option<Policy>>, seed: Policy, k: nat)
    requires Starts(states, seed) && OneRulePerClass(seed) && 1 <= k < |states|
    ensures states[1].Some? && states[k].Some? && SamePolicyGrants(states[k].value, states[1].value)
  {
    assert StartAt(states, seed, k - 1);
    if k > 1 {
      LaterStartsChangeNothing(states, seed, k - 1);
      assert StartAt(states, seed, k - 2);
      SeedAbsorbs(states[k - 2], seed, states[k - 1]);
      AbsorbedStaysSame(states[k - 1].value, seed, states[k]);
    }
  }

  // ------------------------------------------------------------------ the invariant

  lemma {:induction false} AtMostOneIsCount(side: seq<Rule>)
    ensures AtMostOneUnconditional(side) <==> CountClass(side, NO_CONDITION) <= 1
    ensures CountClass(side, NO_CONDITION) == 0 <==> forall i :: 0 <= i < |side| ==> IsConditional(side[i])
  {
    if side != [] {
      var n := |side| - 1;
      AtMostOneIsCount(side[..n]);
      assert forall i :: 0 <= i < n ==> side[..n][i] == side[i];
    }
  }

  /** The unconditional ids of a side, rule by rule. */
  lemma {:induction false} UnconditionalNamed(side: seq<Rule>, id: string)
    requires AtMostOneUnconditional(side)
    ensures id in Ids(Unconditional(side)) <==> NamesIn(side, NO_CONDITION, id)
  {
    var k := FirstUnconditional(side);
    if k < |side| {
      UnconditionalAt(side, k);
      assert side[k] in side && RuleClass(side[k]) == NO_CONDITION;
    } else {
      UnconditionalNone(side);
    }
  }

  lemma {:induction false} MergedSideIds(cur: seq<Rule>, asked: seq<Rule>, out: seq<Rule>)
    requires IsMergedItems(cur, asked, out) && AtMostOneUnconditional(cur) && AtMostOneUnconditional(asked)
    ensures AtMostOneUnconditional(out)
    ensures Ids(Unconditional(out)) == Ids(Unconditional(cur)) + Ids(Unconditional(asked))
  {
    MergeConservesRules(cur, asked, out, NO_CONDITION);
    AtMostOneIsCount(cur);
    AtMostOneIsCount(asked);
    AtMostOneIsCount(out);
    forall id ensures id in Ids(Unconditional(out)) <==> id in Ids(Unconditional(cur)) + Ids(Unconditional(asked)) {
      MergeUnitesOperations(cur, asked, out, NO_CONDITION, id);
      UnconditionalNamed(cur, id);
      UnconditionalNamed(asked, id);
      UnconditionalNamed(out, id);
    }
  }

  /** Operations of the current side are not lost. */
  lemma {:induction false} MergedSideKeepsOperations(cur: seq<Rule>, asked: seq<Rule>, out: seq<Rule>, r: Rule)
    requires IsMergedItems(cur, asked, out) && r in cur && HasOperations(r)
    ensures exists x :: x in out && HasOperations(x)
  {
    assert SomeOperations(cur, RuleClass(r));
    OperationsInClass(cur, asked, out, RuleClass(r));
  }

  lemma {:induction false} MergedKeepsOperations(cur: Policy, seed: Policy, r: Policy)
    requires Good(cur) && IsMergeWithCondition(cur, seed, r)
    ensures exists x :: (x in r.rules.allow || x in r.rules.deny) && HasOperations(x)
  {
    if cur.rules.allow != [] {
      MergedSideKeepsOperations(cur.rules.allow, seed.rules.allow, r.rules.allow, cur.rules.allow[0]);
    } else {
      MergedSideKeepsOperations(cur.rules.deny, seed.rules.deny, r.rules.deny, cur.rules.deny[0]);
    }
  }

  /**
    Seeding merges the sides separately.  It keeps a good policy good exactly when no
    unconditional operation is allowed by one of policy and seed and denied by the other.
   */
  lemma {:induction false} SeedKeepsInvariantExactly(cur: Policy, seed: Policy, r: Policy)
    requires Good(cur) && WellSided(seed) && IsMergeWithCondition(cur, seed, r)
    ensures Good(Stored(r)) <==> AllowIds(cur) !! DenyIds(seed) && AllowIds(seed) !! DenyIds(cur)
  {
    MergedSideIds(cur.rules.allow, seed.rules.allow, r.rules.allow);
    MergedSideIds(cur.rules.deny, seed.rules.deny, r.rules.deny);
    if AllowIds(cur) !! DenyIds(seed) && AllowIds(seed) !! DenyIds(cur) {
      MergedKeepsOperations(cur, seed, r);
      StoredIsGood(r);
    } else {
      StoredSideShows(r.rules.allow);
      StoredSideShows(r.rules.deny);
    }
  }

  /** A policy that allows an operation and a seed that denies it: afterwards it is on both sides. */
  lemma SeedCanBreakInvariant() returns (cur: Policy, seed: Policy, r: Policy)
    ensures Good(cur) && WellSided(seed) && IsMergeWithCondition(cur, seed, r) && !Good(Stored(r))
  {
    var x := Operation("a", "", None);
    var side := [Rule(JNull, [x])];
    cur := Policy("p", "t", "r", "", "u", 1, "", Rules(side, []), "", FOREVER);
    seed := cur.(rules := Rules([], side));
    r := cur.(rules := Rules(side, side));
    assert [x][..0] == [] && LastMap([x]) == map["a" := x];
    assert IsMatching(side, [], [], [side]) && side == [] + [side][0];
    assert StepAt(side, side, [[], []], 0);
    assert IsMatching([], side, side, [[], []]) && side == side + [[], []][1];
    SeedKeepsInvariantExactly(cur, seed, r);
    assert "a" in AllowIds(cur) && "a" in DenyIds(seed);
  }

  // ------------------------------------------------------------------ seeding the table

  /** A seed for a stored key that is merged. */
  ghost predicate Changes(before: Rows, seed: Policy) {
    var cur := Find(before, PolicyKey(seed));
    cur.Some? && !SameWithCondition(cur.value, seed)
  }

  /** What InitPolicy writes for one seed: the lookup is in the table as it was at the start. */
  ghost predicate SeedWrite(before: Rows, t: Rows, seed: Policy, newId: string, name: string, t': Rows) {
    match Find(before, PolicyKey(seed))
    case None => t' == t[newId := ToRow(seed.(id := newId, accessorName := name))]
    case Some(p) =>
      if SameWithCondition(p, seed) then t' == t
      else p.id in t && exists r :: IsMergeWithCondition(p, seed, r) && t' == t[p.id := WithRules(t[p.id], r)]
  }

  datatype Seeding = Seeding(seeds: seq<Policy>, newIds: seq<string>, names: seq<string>)

  /** tables[i] is the table after the first i seeds. */
  ghost predicate SeedRun(before: Rows, x: Seeding, tables: seq<Rows>) {
    SeedPart(before, x, tables, |x.seeds|)
  }

  ghost predicate SeedPart(before: Rows, x: Seeding, tables: seq<Rows>, n: nat) {
    && |x.newIds| == |x.seeds| == |x.names| && n <= |x.seeds| && |tables| == n + 1 && tables[0] == before
    && forall i :: 0 <= i < n ==> SeedAt(before, x, tables, i)
  }

  ghost predicate SeedAt(before: Rows, x: Seeding, tables: seq<Rows>, i: nat)
    requires i < |x.seeds| == |x.newIds| == |x.names| && i + 1 < |tables|
  {
    SeedWrite(before, tables[i], x.seeds[i], x.newIds[i], x.names[i], tables[i + 1])
  }

  lemma SeedMore(before: Rows, x: Seeding, tables: seq<Rows>, n: nat, t: Rows)
    requires SeedPart(before, x, tables, n) && n < |x.seeds|
    requires SeedWrite(before, tables[n], x.seeds[n], x.newIds[n], x.names[n], t)
    ensures SeedPart(before, x, tables + [t], n + 1)
  {
    forall i | 0 <= i < n + 1 ensures SeedAt(before, x, tables + [t], i) {
      if i < n { assert SeedAt(before, x, tables, i); }
    }
  }

  /** Some of the first n seeds has to be written. */
  ghost predicate SomethingToWrite(before: Rows, seeds: seq<Policy>, n: nat)
    requires n <= |seeds|
  {
    exists i :: 0 <= i < n && ToWrite(before, seeds[i])
  }

  ghost predicate ToWrite(before: Rows, seed: Policy) {
    IsNew(before, seed) || Changes(before, seed)
  }

  predicate IdsFresh(x: Seeding, used: set<string>) {
    && (forall i :: 0 <= i < |x.newIds| ==> x.newIds[i] !in used)
    && (forall i, j :: 0 <= i < j < |x.newIds| ==> x.newIds[i] != x.newIds[j])
  }

  // One row, seed by seed.

  /** The last index below n with the flag set. */
  function LastTrue(hit: seq<bool>, n: nat): (j: Option<nat>)
    requires n <= |hit|
    ensures j.Some? ==> j.value < n && hit[j.value] && forall i :: j.value < i < n ==> !hit[i]
    ensures j.None? ==> forall i :: 0 <= i < n ==> !hit[i]
  {
    if n == 0 then None else if hit[n - 1] then Some(n - 1) else LastTrue(hit, n - 1)
  }

  /** Row r' is r with the merge of policy p and seed j written to it. */
  ghost predicate Rewritten(p: Policy, seeds: seq<Policy>, j: nat, r: Row, r': Row) {
    j < |seeds| && exists m :: IsMergeWithCondition(p, seeds[j], m) && r' == WithRules(r, m)
  }

  lemma RewrittenAgain(p: Policy, seeds: seq<Policy>, j: nat, i: nat, a: Row, b: Row, c: Row)
    requires Rewritten(p, seeds, j, a, b) && Rewritten(p, seeds, i, b, c)
    ensures Rewritten(p, seeds, i, a, c)
  {
    var m :| IsMergeWithCondition(p, seeds[i], m) && c == WithRules(b, m);
    assert c == WithRules(a, m);
  }

  /** One row through the run. */
  ghost predicate RowRun(p: Policy, seeds: seq<Policy>, hit: seq<bool>, rs: seq<Row>) {
    && |rs| == |hit| + 1 == |seeds| + 1
    && forall i :: 0 <= i < |hit| ==> RowTurn(p, seeds, hit[i], i, rs[i], rs[i + 1])
  }

  ghost predicate RowTurn(p: Policy, seeds: seq<Policy>, hit: bool, i: nat, r: Row, r': Row) {
    if hit then Rewritten(p, seeds, i, r, r') else r' == r
  }

  /** Each rewrite forgets the one before: only the last counts. */
  lemma {:induction false} LastHitCounts(p: Policy, seeds: seq<Policy>, hit: seq<bool>, rs: seq<Row>, n: nat)
    requires RowRun(p, seeds, hit, rs) && n <= |hit|
    ensures match LastTrue(hit, n) case None => rs[n] == rs[0] case Some(j) => Rewritten(p, seeds, j, rs[0], rs[n])
  {
    if n > 0 {
      LastHitCounts(p, seeds, hit, rs, n - 1);
      assert RowTurn(p, seeds, hit[n - 1], n - 1, rs[n - 1], rs[n]);
      if hit[n - 1] && LastTrue(hit, n - 1).Some? {
        RewrittenAgain(p, seeds, LastTrue(hit, n - 1).value, n - 1, rs[0], rs[n - 1], rs[n]);
      }
    }
  }

  /** The seeds that change the key of a row. */
  ghost function Hits(before: Rows, seeds: seq<Policy>, k: Key): (hit: seq<bool>)
    ensures |hit| == |seeds| && forall i :: 0 <= i < |seeds| ==> hit[i] == (PolicyKey(seeds[i]) == k && Changes(before, seeds[i]))
  {
    seq(|seeds|, i requires 0 <= i < |seeds| => PolicyKey(seeds[i]) == k && Changes(before, seeds[i]))
  }

  /** A seed with the row's key finds the row, and no other seed does. */
  lemma {:induction false} FindsTheRow(before: Rows, seed: Policy, id: string)
    requires Sound(before) && id in before && Find(before, PolicyKey(seed)).Some?
    ensures Find(before, PolicyKey(seed)).value.id == id <==> PolicyKey(seed) == KeyOf(before[id])
    ensures PolicyKey(seed) == KeyOf(before[id]) ==> Find(before, PolicyKey(seed)) == Load(before[id])
  {
    FindRow(before, PolicyKey(seed));
    FindIs(before, id);
  }

  lemma {:induction false} RowStep(before: Rows, x: Seeding, tables: seq<Rows>, n: nat, id: string, p: Policy)
    requires SeedRun(before, x, tables) && n < |x.seeds| && id in tables[n] && x.newIds[n] != id
    requires Find(before, PolicyKey(x.seeds[n])).Some? ==>
      (Find(before, PolicyKey(x.seeds[n])).value.id == id <==> Find(before, PolicyKey(x.seeds[n])) == Some(p))
    ensures id in tables[n + 1]
    ensures if Find(before, PolicyKey(x.seeds[n])) == Some(p) && Changes(before, x.seeds[n])
      then Rewritten(p, x.seeds, n, tables[n][id], tables[n + 1][id]) else tables[n + 1][id] == tables[n][id]
  {
    assert SeedAt(before, x, tables, n);
  }

  lemma {:induction false} RowMoves(before: Rows, x: Seeding, tables: seq<Rows>, n: nat, id: string)
    requires Sound(before) && IdsFresh(x, before.Keys) && SeedRun(before, x, tables) && n < |x.seeds| && id in before && id in tables[n]
    ensures id in tables[n + 1]
    ensures RowTurn(Load(before[id]).value, x.seeds, Hits(before, x.seeds, KeyOf(before[id]))[n], n, tables[n][id], tables[n + 1][id])
  {
    var seed := x.seeds[n];
    if Find(before, PolicyKey(seed)).Some? {
      FindsTheRow(before, seed, id);
    }
    RowStep(before, x, tables, n, id, Load(before[id]).value);
  }

  lemma {:induction false} RowStays(before: Rows, x: Seeding, tables: seq<Rows>, n: nat, id: string)
    requires Sound(before) && IdsFresh(x, before.Keys) && SeedRun(before, x, tables) && n <= |x.seeds| && id in before
    ensures id in tables[n]
  {
    if n > 0 {
      RowStays(before, x, tables, n - 1, id);
      RowMoves(before, x, tables, n - 1, id);
    }
  }

  /**
    A stored row is as it was, or the merge of its old policy with one seed: of several seeds
    for its key only the last that changes it counts, and what the others asked is lost.
   */
  lemma {:induction false} LastSeedWins(before: Rows, x: Seeding, tables: seq<Rows>, id: string)
    requires Sound(before) && IdsFresh(x, before.Keys) && SeedRun(before, x, tables) && id in before
    ensures id in tables[|x.seeds|]
    ensures match LastTrue(Hits(before, x.seeds, KeyOf(before[id])), |x.seeds|)
      case None => tables[|x.seeds|][id] == before[id]
      case Some(j) => Rewritten(Load(before[id]).value, x.seeds, j, before[id], tables[|x.seeds|][id])
  {
    var p, hit := Load(before[id]).value, Hits(before, x.seeds, KeyOf(before[id]));
    var rs := RowThroughRun(before, x, tables, id);
    LastHitCounts(p, x.seeds, hit, rs, |hit|);
  }

  lemma {:induction false} RowThroughRun(before: Rows, x: Seeding, tables: seq<Rows>, id: string) returns (rs: seq<Row>)
    requires Sound(before) && IdsFresh(x, before.Keys) && SeedRun(before, x, tables) && id in before
    ensures RowRun(Load(before[id]).value, x.seeds, Hits(before, x.seeds, KeyOf(before[id])), rs)
    ensures rs[0] == before[id] && id in tables[|x.seeds|] && rs[|x.seeds|] == tables[|x.seeds|][id]
  {
    forall n | 0 <= n <= |x.seeds| ensures id in tables[n] {
      RowStays(before, x, tables, n, id);
    }
    rs := seq(|tables|, n requires 0 <= n < |tables| => tables[n][id]);
    forall n | 0 <= n < |x.seeds|
      ensures RowTurn(Load(before[id]).value, x.seeds, Hits(before, x.seeds, KeyOf(before[id]))[n], n, rs[n], rs[n + 1])
    {
      RowMoves(before, x, tables, n, id);
    }
  }

  // All keys, seed by seed.

  ghost predicate IsNew(before: Rows, seed: Policy) {
    Find(before, PolicyKey(seed)).None?
  }

  function KeysOf(rows: Rows): (m: map<string, Key>) {
    map id | id in rows :: KeyOf(rows[id])
  }

  ghost predicate Injective(m: map<string, Key>) {
    forall i, j :: i in m && j in m && m[i] == m[j] ==> i == j
  }

  /** Some new ids are entered with their keys, one after the other. */
  ghost function Entered(m: map<string, Key>, ids: seq<string>, keys: seq<Key>, added: seq<bool>, n: nat): (t: map<string, Key>)
    requires n <= |ids| == |keys| == |added|
  {
    if n == 0 then m else
    var t := Entered(m, ids, keys, added, n - 1);
    if added[n - 1] then t[ids[n - 1] := keys[n - 1]] else t
  }

  /** Where the new ones come from. */
  lemma {:induction false} EnteredIds(m: map<string, Key>, ids: seq<string>, keys: seq<Key>, added: seq<bool>, n: nat, id: string)
    requires n <= |ids| == |keys| == |added|
    requires (forall i :: 0 <= i < |ids| ==> ids[i] !in m) && (forall i, j :: 0 <= i < j < |ids| ==> ids[i] != ids[j])
    ensures id in m ==> id in Entered(m, ids, keys, added, n) && Entered(m, ids, keys, added, n)[id] == m[id]
    ensures id !in m ==> (id in Entered(m, ids, keys, added, n) <==> exists j :: 0 <= j < n && added[j] && ids[j] == id)
    ensures forall j :: 0 <= j < n && added[j] && ids[j] == id ==> id in Entered(m, ids, keys, added, n) && Entered(m, ids, keys, added, n)[id] == keys[j]
  {
    if n > 0 {
      EnteredIds(m, ids, keys, added, n - 1, id);
    }
  }

  lemma {:induction false} EnteredInjective(m: map<string, Key>, ids: seq<string>, keys: seq<Key>, added: seq<bool>)
    requires |ids| == |keys| == |added| && Injective(m)
    requires (forall i :: 0 <= i < |ids| ==> ids[i] !in m) && (forall i, j :: 0 <= i < j < |ids| ==> ids[i] != ids[j])
    requires forall i, id :: 0 <= i < |ids| && added[i] && id in m ==> m[id] != keys[i]
    ensures Injective(Entered(m, ids, keys, added, |ids|)) <==>
      forall i, j :: 0 <= i < j < |ids| && added[i] && added[j] ==> keys[i] != keys[j]
  {
    var t := Entered(m, ids, keys, added, |ids|);
    forall id ensures (id in m ==> id in t && t[id] == m[id]) && (id !in m && id in t ==> exists j :: 0 <= j < |ids| && added[j] && ids[j] == id) {
      EnteredIds(m, ids, keys, added, |ids|, id);
    }
    forall j | 0 <= j < |ids| && added[j] ensures ids[j] in t && t[ids[j]] == keys[j] {
      EnteredIds(m, ids, keys, added, |ids|, ids[j]);
    }
  }

  ghost function NewFlags(before: Rows, seeds: seq<Policy>): (added: seq<bool>)
    ensures |added| == |seeds| && forall i :: 0 <= i < |seeds| ==> added[i] == IsNew(before, seeds[i])
  {
    seq(|seeds|, i requires 0 <= i < |seeds| => IsNew(before, seeds[i]))
  }

  lemma {:induction false} KeysStep(before: Rows, x: Seeding, tables: seq<Rows>, n: nat)
    requires SeedRun(before, x, tables) && n < |x.seeds|
    ensures KeysOf(tables[n + 1]) ==
      if IsNew(before, x.seeds[n]) then KeysOf(tables[n])[x.newIds[n] := PolicyKey(x.seeds[n])] else KeysOf(tables[n])
  {
    assert SeedAt(before, x, tables, n);
  }

  lemma {:induction false} KeysRun(before: Rows, x: Seeding, tables: seq<Rows>, n: nat)
    requires SeedRun(before, x, tables) && n <= |x.seeds|
    ensures KeysOf(tables[n]) == Entered(KeysOf(before), x.newIds, Map(PolicyKey, x.seeds), NewFlags(before, x.seeds), n)
  {
    if n > 0 {
      KeysRun(before, x, tables, n - 1);
      KeysStep(before, x, tables, n - 1);
    }
  }

  lemma OnePerKeyIsInjective(rows: Rows)
    ensures OnePerKey(rows) <==> Injective(KeysOf(rows))
  {
    var m := KeysOf(rows);
    assert forall id :: id in rows <==> id in m;
    if Injective(m) {
      forall i, j | i in rows && j in rows && KeyOf(rows[i]) == KeyOf(rows[j]) ensures i == j {
        assert m[i] == m[j];
      }
    }
  }

  /** No key that is not in the table yet comes twice. */
  ghost predicate NewKeysOnce(before: Rows, seeds: seq<Policy>) {
    forall i, j :: 0 <= i < j < |seeds| && PolicyKey(seeds[i]) == PolicyKey(seeds[j]) ==> !IsNew(before, seeds[i])
  }

  lemma NewKeysAreNew(before: Rows, seeds: seq<Policy>)
    requires Sound(before)
    ensures forall i, id :: 0 <= i < |seeds| && NewFlags(before, seeds)[i] && id in KeysOf(before) ==>
      KeysOf(before)[id] != Map(PolicyKey, seeds)[i]
  {
    forall i, id | 0 <= i < |seeds| && IsNew(before, seeds[i]) && id in before ensures KeyOf(before[id]) != PolicyKey(seeds[i]) {
      FindRow(before, PolicyKey(seeds[i]));
    }
  }

  /** Seeding leaves one policy per key exactly when no new key comes twice among the seeds. */
  lemma {:induction false} SeedingKeepsOnePerKeyExactly(before: Rows, x: Seeding, tables: seq<Rows>)
    requires Sound(before) && IdsFresh(x, before.Keys) && SeedRun(before, x, tables)
    ensures OnePerKey(tables[|x.seeds|]) <==> NewKeysOnce(before, x.seeds)
  {
    var keys, added := Map(PolicyKey, x.seeds), NewFlags(before, x.seeds);
    KeysRun(before, x, tables, |x.seeds|);
    NewKeysAreNew(before, x.seeds);
    OnePerKeyIsInjective(before);
    OnePerKeyIsInjective(tables[|x.seeds|]);
    EnteredInjective(KeysOf(before), x.newIds, keys, added);
  }

  // Distinct keys.

  predicate NoKeyTwice(seeds: seq<Policy>) {
    forall i, j :: 0 <= i < j < |seeds| ==> PolicyKey(seeds[i]) != PolicyKey(seeds[j])
  }

  lemma {:induction false} NewRowStep(before: Rows, x: Seeding, tables: seq<Rows>, n: nat, id: string)
    requires Sound(before) && SeedRun(before, x, tables) && n < |x.seeds| && id !in before && id in tables[n] && x.newIds[n] != id
    ensures id in tables[n + 1] && tables[n + 1][id] == tables[n][id]
  {
    assert SeedAt(before, x, tables, n);
    FindRow(before, PolicyKey(x.seeds[n]));
  }

  /** The row of a seed whose key was not there. */
  lemma {:induction false} NewRowStays(before: Rows, x: Seeding, tables: seq<Rows>, i: nat, n: nat)
    requires Sound(before) && IdsFresh(x, before.Keys) && SeedRun(before, x, tables)
    requires i < n <= |x.seeds| && IsNew(before, x.seeds[i])
    ensures x.newIds[i] in tables[n]
    ensures tables[n][x.newIds[i]] == ToRow(x.seeds[i].(id := x.newIds[i], accessorName := x.names[i]))
  {
    if n == i + 1 {
      assert SeedAt(before, x, tables, i);
    } else {
      NewRowStays(before, x, tables, i, n - 1);
      NewRowStep(before, x, tables, n - 1, x.newIds[i]);
    }
  }

  lemma RewrittenLoads(r: Row, seeds: seq<Policy>, j: nat, r': Row)
    requires Load(r).Some? && Rewritten(Load(r).value, seeds, j, r, r')
    ensures KeyOf(r') == KeyOf(r) && r'.id == r.id
    ensures exists m :: IsMergeWithCondition(Load(r).value, seeds[j], m) && Load(r') == Some(Stored(m))
  {
    var m :| IsMergeWithCondition(Load(r).value, seeds[j], m) && r' == WithRules(r, m);
    LoadWithRules(r, m);
  }

  /** A stored key after the run, when no key comes twice. */
  lemma {:induction false} StoredKeyStep(before: Rows, x: Seeding, tables: seq<Rows>, i: nat, id: string)
    requires Sound(before) && IdsFresh(x, before.Keys) && SeedRun(before, x, tables) && NoKeyTwice(x.seeds) && i < |x.seeds|
    requires id in before && KeyOf(before[id]) == PolicyKey(x.seeds[i])
    ensures id in tables[|x.seeds|] && KeyOf(tables[|x.seeds|][id]) == PolicyKey(x.seeds[i])
    ensures SeedStep(Load(before[id]), x.seeds[i], Load(tables[|x.seeds|][id]))
  {
    var hit := Hits(before, x.seeds, KeyOf(before[id]));
    LastSeedWins(before, x, tables, id);
    FindIs(before, id);
    var last := LastTrue(hit, |x.seeds|);
    if last.Some? {
      assert last.value == i;
      RewrittenLoads(before[id], x.seeds, i, tables[|x.seeds|][id]);
    } else {
      assert !hit[i];
    }
  }

  /** A row for each key that takes its step; the other keys keep theirs. */
  lemma {:induction false} DistinctSeedsTakeTheirStep(before: Rows, x: Seeding, tables: seq<Rows>, i: nat) returns (id: string)
    requires Sound(before) && IdsFresh(x, before.Keys) && SeedRun(before, x, tables) && NoKeyTwice(x.seeds) && i < |x.seeds|
    ensures var after := tables[|x.seeds|];
      && OnePerKey(after) && id in after && KeyOf(after[id]) == PolicyKey(x.seeds[i])
      && SeedStep(Find(before, PolicyKey(x.seeds[i])), x.seeds[i], Load(after[id]))
  {
    SeedingKeepsOnePerKeyExactly(before, x, tables);
    FindRow(before, PolicyKey(x.seeds[i]));
    if IsNew(before, x.seeds[i]) {
      id := x.newIds[i];
      NewRowStays(before, x, tables, i, |x.seeds|);
      LoadToRow(x.seeds[i].(id := x.newIds[i], accessorName := x.names[i]));
    } else {
      id := Find(before, PolicyKey(x.seeds[i])).value.id;
      StoredKeyStep(before, x, tables, i, id);
    }
  }
}

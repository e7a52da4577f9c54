/**
  The condition-aware merge and no-change test that InitPolicy uses for its seeds: rules
  are matched by condition, first unused rule first, and each side is merged on its own.
 */
module ConditionMerge {
  import opened Values
  import opened PolicyRules
  import opened PolicyCodec
  import opened PolicyMerge

  // ------------------------------------------------------------------ condition classes

  /** All empty conditions are one class. */
  function ClassOf(c: Json): (k: Json) {
    if EmptyCondition(c) then NO_CONDITION else c
  }

  function RuleClass(r: Rule): (k: Json) { ClassOf(r.condition) }

  /** The source's test: both empty, or deeply equal. */
  predicate SameCondition(a: Json, b: Json) {
    (EmptyCondition(a) && EmptyCondition(b)) || a == b
  }

  /** Both conditions are nil or the empty object, or they are equal. */
  ghost predicate Alike(a: Json, b: Json) {
    a == b || ((a == JNull || a == JObj(map[])) && (b == JNull || b == JObj(map[])))
  }

  lemma ClassesExactly(a: Rule, b: Rule)
    ensures RuleClass(a) == RuleClass(b) <==> Alike(a.condition, b.condition)
  {
  }

  /** Index of the first rule of class k, or the length. */
  function FirstOfClass(side: seq<Rule>, k: Json): (i: nat)
    ensures i <= |side| && (i < |side| ==> RuleClass(side[i]) == k)
    ensures forall j :: 0 <= j < i ==> RuleClass(side[j]) != k
  {
    if side == [] then 0 else if RuleClass(side[0]) == k then 0 else 1 + FirstOfClass(side[1..], k)
  }

  lemma FirstIs(side: seq<Rule>, k: Json, i: nat)
    requires i <= |side| && (i < |side| ==> RuleClass(side[i]) == k)
    requires forall j :: 0 <= j < i ==> RuleClass(side[j]) != k
    ensures FirstOfClass(side, k) == i
  {
  }

  // ------------------------------------------------------------------ merging operations

  function Outside(ops: seq<Operation>, ids: set<string>): (r: seq<Operation>) {
    if ops == [] then [] else
    var last := ops[|ops| - 1];
    Outside(ops[..|ops| - 1], ids) + if last.id in ids then [] else [last]
  }

  /** r is a result of mergeOperations: the asked ones in any order, then the others kept. */
  ghost predicate IsMergedOps(cur: seq<Operation>, asked: seq<Operation>, r: seq<Operation>) {
    if cur == [] then r == asked
    else if asked == [] then r == cur
    else exists front :: Lists(front, LastMap(asked)) && r == front + Outside(cur, Ids(asked))
  }

  method MergeOperations(cur: seq<Operation>, asked: seq<Operation>) returns (r: seq<Operation>)
    ensures IsMergedOps(cur, asked, r)
  {
    if |cur| == 0 {
      return asked;
    }
    if |asked| == 0 {
      return cur;
    }
    var m := BuildMap(asked, {});
    MapFacts(asked);
    assert m == LastMap(asked);
    r := ListEntries(m);
    ghost var front := r;
    for i := 0 to |cur|
      invariant r == front + Outside(cur[..i], Ids(asked))
    {
      assert cur[..i + 1][..i] == cur[..i];
      if cur[i].id !in m {
        r := r + [cur[i]];
      }
    }
    assert cur[..|cur|] == cur;
  }

  lemma {:induction false} LastMapConcat(a: seq<Operation>, b: seq<Operation>)
    ensures LastMap(a + b) == LastMap(a) + LastMap(b)
  {
    if b == [] {
      assert a + b == a;
    } else {
      var init := b[..|b| - 1];
      assert (a + b)[..|a + b| - 1] == a + init;
      LastMapConcat(a, init);
    }
  }

  lemma {:induction false} LastMapSnoc(ops: seq<Operation>, op: Operation)
    ensures LastMap(ops + [op]) == LastMap(ops)[op.id := op]
  {
    assert (ops + [op])[..|ops|] == ops;
  }

  lemma RestrictUpdate<K, V>(m: map<K, V>, k: K, v: V, ks: set<K>)
    ensures m[k := v] - ks == if k in ks then m - ks else (m - ks)[k := v]
  {
  }

  lemma {:induction false} LastMapOutside(ops: seq<Operation>, ids: set<string>)
    ensures LastMap(Outside(ops, ids)) == LastMap(ops) - ids
  {
    if ops != [] {
      var init, last := ops[..|ops| - 1], ops[|ops| - 1];
      LastMapOutside(init, ids);
      RestrictUpdate(LastMap(init), last.id, last, ids);
      if last.id !in ids {
        LastMapSnoc(Outside(init, ids), last);
      } else {
        assert Outside(ops, ids) == Outside(init, ids);
      }
    }
  }

  lemma MapsAround<K, V>(f: map<K, V>, l: map<K, V>)
    ensures l + (f - l.Keys) == f + l
  {
  }

  /** Merging operations is overriding: the asked obligations win, nothing else changes. */
  lemma {:induction false} MergedOpsMeaning(cur: seq<Operation>, asked: seq<Operation>, r: seq<Operation>)
    requires IsMergedOps(cur, asked, r)
    ensures LastMap(r) == LastMap(cur) + LastMap(asked)
    ensures Meaning(r) == Meaning(cur) + Meaning(asked)
    ensures r == [] <==> cur == [] && asked == []
  {
    if cur != [] && asked != [] {
      var front :| Lists(front, LastMap(asked)) && r == front + Outside(cur, Ids(asked));
      ListedMaps(front, LastMap(asked));
      LastMapConcat(front, Outside(cur, Ids(asked)));
      LastMapOutside(cur, Ids(asked));
      MapsAround(LastMap(cur), LastMap(asked));
      assert asked[|asked| - 1].id in LastMap(asked);
      assert front != [];
    }
    DutiesOfSum(LastMap(cur), LastMap(asked), {});
  }

  // ------------------------------------------------------------------ merging rules

  /** One asked rule: merged into the first rule of its class still unused, or added as it is. */
  ghost predicate ItemStep(rest: seq<Rule>, a: Rule, h: Rule, rest': seq<Rule>) {
    var k := FirstOfClass(rest, RuleClass(a));
    if k == |rest| then h == a && rest' == rest
    else
      && h.condition == rest[k].condition && IsMergedOps(rest[k].operations, a.operations, h.operations)
      && rest' == rest[..k] + rest[k + 1..]
  }

  /** heads are the rules made for asked, one by one; rests what is unused before each. */
  ghost predicate IsMatching(cur: seq<Rule>, asked: seq<Rule>, heads: seq<Rule>, rests: seq<seq<Rule>>) {
    && |heads| == |asked| && |rests| == |asked| + 1 && rests[0] == cur
    && forall i :: 0 <= i < |asked| ==> StepAt(asked, heads, rests, i)
  }

  ghost predicate StepAt(asked: seq<Rule>, heads: seq<Rule>, rests: seq<seq<Rule>>, i: nat)
    requires i < |asked| == |heads| && |rests| == |asked| + 1
  {
    ItemStep(rests[i], asked[i], heads[i], rests[i + 1])
  }

  /** mergeRuleItems: the rules made for asked, then the unused ones. */
  ghost predicate IsMergedItems(cur: seq<Rule>, asked: seq<Rule>, out: seq<Rule>) {
    exists heads, rests :: IsMatching(cur, asked, heads, rests) && out == heads + rests[|asked|]
  }

  /** r is a result of mergeNewPolicyWithCondition. */
  ghost predicate IsMergeWithCondition(cur: Policy, seed: Policy, r: Policy) {
    && IsMergedItems(cur.rules.allow, seed.rules.allow, r.rules.allow)
    && IsMergedItems(cur.rules.deny, seed.rules.deny, r.rules.deny)
    && r == cur.(rules := r.rules, endTime := MinEnd(cur.endTime, seed.endTime))
  }

  /** The rules whose flag is not set. */
  function Unused(cur: seq<Rule>, used: seq<bool>): (rest: seq<Rule>)
    requires |cur| == |used|
  {
    if cur == [] then [] else
    var n := |cur| - 1;
    Unused(cur[..n], used[..n]) + if used[n] then [] else [cur[n]]
  }

  lemma {:induction false} UnusedSplit(cur: seq<Rule>, used: seq<bool>, i: nat)
    requires |cur| == |used| && i <= |cur|
    ensures Unused(cur, used) == Unused(cur[..i], used[..i]) + Unused(cur[i..], used[i..])
  {
    var n := |cur| - 1;
    if i == |cur| {
      assert cur[..i] == cur && used[..i] == used && cur[i..] == [] && used[i..] == [];
    } else {
      UnusedSplit(cur[..n], used[..n], i);
      assert cur[..n][..i] == cur[..i] && used[..n][..i] == used[..i];
      assert cur[i..][..n - i] == cur[..n][i..] && used[i..][..n - i] == used[..n][i..];
    }
  }

  lemma {:induction false} UnusedAt(cur: seq<Rule>, used: seq<bool>, i: nat)
    requires |cur| == |used| && i < |cur| && !used[i]
    ensures var front, back := Unused(cur[..i], used[..i]), Unused(cur[i + 1..], used[i + 1..]);
      && Unused(cur, used) == front + [cur[i]] + back
      && Unused(cur, used[i := true]) == front + back
  {
    UnusedSplit(cur, used, i + 1);
    var used' := used[i := true];
    UnusedSplit(cur, used', i + 1);
    assert cur[..i + 1][..i] == cur[..i] && used[..i + 1][..i] == used[..i] == used'[..i + 1][..i];
    assert used'[i + 1..] == used[i + 1..];
  }

  lemma {:induction false} UnusedClasses(cur: seq<Rule>, used: seq<bool>, k: Json)
    requires |cur| == |used| && forall j :: 0 <= j < |cur| && !used[j] ==> RuleClass(cur[j]) != k
    ensures forall r :: r in Unused(cur, used) ==> RuleClass(r) != k
  {
    if cur != [] {
      var n := |cur| - 1;
      UnusedClasses(cur[..n], used[..n], k);
    }
  }

  lemma {:induction false} NothingUsed(cur: seq<Rule>, used: seq<bool>)
    requires |cur| == |used| && forall j :: 0 <= j < |used| ==> !used[j]
    ensures Unused(cur, used) == cur
  {
    if cur != [] {
      var n := |cur| - 1;
      NothingUsed(cur[..n], used[..n]);
    }
  }

  /** The first unused rule with this condition, or the length. */
  method FindOld(cur: seq<Rule>, used: seq<bool>, c: Json) returns (i: nat)
    requires |cur| == |used|
    ensures i <= |cur|
    ensures i < |cur| ==> !used[i] && RuleClass(cur[i]) == ClassOf(c)
    ensures forall j :: 0 <= j < i && !used[j] ==> RuleClass(cur[j]) != ClassOf(c)
  {
    i := 0;
    while i < |cur|
      invariant i <= |cur|
      invariant forall j :: 0 <= j < i && !used[j] ==> RuleClass(cur[j]) != ClassOf(c)
    {
      if !used[i] && SameCondition(cur[i].condition, c) {
        return;
      }
      i := i + 1;
    }
  }

  lemma {:induction false} FirstUnused(cur: seq<Rule>, used: seq<bool>, k: Json, i: nat)
    requires |cur| == |used| && i <= |cur| && (i < |cur| ==> !used[i] && RuleClass(cur[i]) == k)
    requires forall j :: 0 <= j < i && !used[j] ==> RuleClass(cur[j]) != k
    ensures FirstOfClass(Unused(cur, used), k) == |Unused(cur[..i], used[..i])|
    ensures i == |cur| ==> Unused(cur[..i], used[..i]) == Unused(cur, used)
  {
    var rest, front := Unused(cur, used), Unused(cur[..i], used[..i]);
    UnusedClasses(cur[..i], used[..i], k);
    if i < |cur| {
      UnusedAt(cur, used, i);
      assert forall j :: 0 <= j < |front| ==> rest[j] == front[j] && front[j] in front;
      FirstIs(rest, k, |front|);
    } else {
      assert cur[..i] == cur && used[..i] == used;
      assert forall j :: 0 <= j < |rest| ==> rest[j] in rest;
      FirstIs(rest, k, |rest|);
    }
  }

  /** One asked rule: its match is taken and marked used, or it goes in as it is. */
  method MergeOne(cur: seq<Rule>, used: seq<bool>, a: Rule) returns (h: Rule, used': seq<bool>)
    requires |used| == |cur|
    ensures |used'| == |cur| && ItemStep(Unused(cur, used), a, h, Unused(cur, used'))
  {
    var oi := FindOld(cur, used, a.condition);
    FirstUnused(cur, used, RuleClass(a), oi);
    h, used' := a, used;
    if oi < |cur| {
      UnusedAt(cur, used, oi);
      var ops := MergeOperations(cur[oi].operations, a.operations);
      h := Rule(cur[oi].condition, ops);
      used' := used[oi := true];
    }
  }

  method AppendUnused(cur: seq<Rule>, used: seq<bool>, heads: seq<Rule>) returns (out: seq<Rule>)
    requires |used| == |cur|
    ensures out == heads + Unused(cur, used)
  {
    out := heads;
    for i := 0 to |cur|
      invariant out == heads + Unused(cur[..i], used[..i])
    {
      assert cur[..i + 1][..i] == cur[..i] && used[..i + 1][..i] == used[..i];
      if !used[i] {
        out := out + [cur[i]];
      }
    }
    assert cur[..|cur|] == cur && used[..|used|] == used;
  }

  method MergeRuleItems(cur: seq<Rule>, asked: seq<Rule>) returns (out: seq<Rule>)
    ensures IsMergedItems(cur, asked, out)
  {
    out := [];
    var used := seq(|cur|, _ => false);
    NothingUsed(cur, used);
    ghost var rests := [cur];
    for i := 0 to |asked|
      invariant |used| == |cur| && IsMatching(cur, asked[..i], out, rests) && rests[i] == Unused(cur, used)
    {
      var h;
      h, used := MergeOne(cur, used, asked[i]);
      MatchingMore(cur, asked[..i], out, rests, asked[i], h, Unused(cur, used));
      assert asked[..i + 1] == asked[..i] + [asked[i]];
      out, rests := out + [h], rests + [Unused(cur, used)];
    }
    assert asked[..|asked|] == asked;
    out := AppendUnused(cur, used, out);
  }

  lemma {:induction false} MatchingMore(
      cur: seq<Rule>, asked: seq<Rule>, heads: seq<Rule>, rests: seq<seq<Rule>>, a: Rule, h: Rule, rest: seq<Rule>)
    requires IsMatching(cur, asked, heads, rests) && ItemStep(rests[|asked|], a, h, rest)
    ensures IsMatching(cur, asked + [a], heads + [h], rests + [rest])
  {
    var as', hs, rs := asked + [a], heads + [h], rests + [rest];
    forall i | 0 <= i < |as'| ensures StepAt(as', hs, rs, i) {
      if i < |asked| { assert StepAt(asked, heads, rests, i); }
    }
  }

  method MergeNewPolicyWithCondition(cur: Policy, seed: Policy) returns (r: Policy)
    ensures IsMergeWithCondition(cur, seed, r)
  {
    var allow := MergeRuleItems(cur.rules.allow, seed.rules.allow);
    var deny := MergeRuleItems(cur.rules.deny, seed.rules.deny);
    r := cur.(rules := Rules(allow, deny), endTime := MinEnd(cur.endTime, seed.endTime));
  }

  // ------------------------------------------------------------------ conservation

  function CountClass(side: seq<Rule>, k: Json): (n: nat) {
    if side == [] then 0
    else CountClass(side[..|side| - 1], k) + if RuleClass(side[|side| - 1]) == k then 1 else 0
  }

  lemma {:induction false} CountConcat(a: seq<Rule>, b: seq<Rule>, k: Json)
    ensures CountClass(a + b, k) == CountClass(a, k) + CountClass(b, k)
  {
    if b == [] {
      assert a + b == a;
    } else {
      assert (a + b)[..|a + b| - 1] == a + b[..|b| - 1];
      CountConcat(a, b[..|b| - 1], k);
    }
  }

  lemma {:induction false} CountNone(side: seq<Rule>, k: Json)
    requires forall j :: 0 <= j < |side| ==> RuleClass(side[j]) != k
    ensures CountClass(side, k) == 0
  {
    if side != [] { CountNone(side[..|side| - 1], k); }
  }

  lemma {:induction false} CountOne(r: Rule, k: Json)
    ensures CountClass([r], k) == if RuleClass(r) == k then 1 else 0
  {
    assert [r][..0] == [];
  }

  lemma {:induction false} StepCounts(rest: seq<Rule>, a: Rule, h: Rule, rest': seq<Rule>, k: Json)
    requires ItemStep(rest, a, h, rest')
    ensures RuleClass(h) == RuleClass(a)
    ensures CountClass(rest', k) ==
      if RuleClass(a) == k && CountClass(rest, k) > 0 then CountClass(rest, k) - 1 else CountClass(rest, k)
  {
    var i := FirstOfClass(rest, RuleClass(a));
    if i == |rest| {
      if RuleClass(a) == k { CountNone(rest, k); }
    } else {
      assert rest == rest[..i] + [rest[i]] + rest[i + 1..];
      CountConcat(rest[..i] + [rest[i]], rest[i + 1..], k);
      CountConcat(rest[..i], [rest[i]], k);
      CountConcat(rest[..i], rest[i + 1..], k);
      CountOne(rest[i], k);
    }
  }

  function Max(a: int, b: int): (m: int) { if a > b then a else b }

  lemma CountMore(side: seq<Rule>, i: nat, k: Json)
    requires i < |side|
    ensures CountClass(side[..i + 1], k) == CountClass(side[..i], k) + if RuleClass(side[i]) == k then 1 else 0
  {
    assert side[..i + 1][..i] == side[..i];
  }

  lemma {:induction false} MatchingStepCounts(
      cur: seq<Rule>, asked: seq<Rule>, heads: seq<Rule>, rests: seq<seq<Rule>>, i: nat, k: Json)
    requires IsMatching(cur, asked, heads, rests) && i < |asked|
    ensures RuleClass(heads[i]) == RuleClass(asked[i])
    ensures var n := CountClass(rests[i], k);
      CountClass(rests[i + 1], k) == if RuleClass(asked[i]) == k && n > 0 then n - 1 else n
  {
    assert StepAt(asked, heads, rests, i);
    StepCounts(rests[i], asked[i], heads[i], rests[i + 1], k);
  }

  lemma {:induction false} MatchingCounts(
      cur: seq<Rule>, asked: seq<Rule>, heads: seq<Rule>, rests: seq<seq<Rule>>, i: nat, k: Json)
    requires IsMatching(cur, asked, heads, rests) && i <= |asked|
    ensures CountClass(heads[..i], k) == CountClass(asked[..i], k)
    ensures CountClass(rests[i], k) == Max(0, CountClass(cur, k) - CountClass(asked[..i], k))
  {
    if i > 0 {
      MatchingCounts(cur, asked, heads, rests, i - 1, k);
      MatchingStepCounts(cur, asked, heads, rests, i - 1, k);
      CountMore(heads, i - 1, k);
      CountMore(asked, i - 1, k);
    }
  }

  lemma {:induction false} MatchingTotals(
      cur: seq<Rule>, asked: seq<Rule>, heads: seq<Rule>, rests: seq<seq<Rule>>, k: Json)
    requires IsMatching(cur, asked, heads, rests)
    ensures CountClass(heads, k) == CountClass(asked, k)
    ensures CountClass(rests[|asked|], k) == Max(0, CountClass(cur, k) - CountClass(asked, k))
  {
    MatchingCounts(cur, asked, heads, rests, |asked|, k);
    assert heads[..|asked|] == heads && asked[..|asked|] == asked;
  }

  /** Per condition, a merged side has as many rules as the longer of the two had. */
  lemma {:induction false} MergeConservesRules(cur: seq<Rule>, asked: seq<Rule>, out: seq<Rule>, k: Json)
    requires IsMergedItems(cur, asked, out)
    ensures CountClass(out, k) == Max(CountClass(cur, k), CountClass(asked, k))
  {
    var heads: seq<Rule>, rests: seq<seq<Rule>> :| IsMatching(cur, asked, heads, rests) && out == heads + rests[|asked|];
    MatchingTotals(cur, asked, heads, rests, k);
    CountConcat(heads, rests[|asked|], k);
  }

  /** Some rule of class k names operation id. */
  ghost predicate NamesIn(side: seq<Rule>, k: Json, id: string) {
    exists r :: r in side && RuleClass(r) == k && id in Ids(r.operations)
  }

  /** What one step does to the rules, seen as a bag: one goes from rest, one comes to the heads. */
  lemma {:induction false} StepMembers(rest: seq<Rule>, a: Rule, h: Rule, rest': seq<Rule>)
    requires ItemStep(rest, a, h, rest')
    ensures var i := FirstOfClass(rest, RuleClass(a));
      forall r :: r in rest <==> r in rest' || (i < |rest| && r == rest[i])
  {
    var i := FirstOfClass(rest, RuleClass(a));
    if i < |rest| { assert rest == rest[..i] + [rest[i]] + rest[i + 1..]; }
  }

  lemma {:induction false} StepNames(rest: seq<Rule>, a: Rule, h: Rule, rest': seq<Rule>, k: Json, id: string)
    requires ItemStep(rest, a, h, rest')
    ensures NamesIn([h], k, id) || NamesIn(rest', k, id) <==> NamesIn(rest, k, id) || NamesIn([a], k, id)
  {
    StepMembers(rest, a, h, rest');
    var i := FirstOfClass(rest, RuleClass(a));
    if i < |rest| { MergedOpsMeaning(rest[i].operations, a.operations, h.operations); }
    assert h in [h] && a in [a];
  }

  lemma NamesConcat(a: seq<Rule>, b: seq<Rule>, k: Json, id: string)
    ensures NamesIn(a + b, k, id) <==> NamesIn(a, k, id) || NamesIn(b, k, id)
  {
  }

  lemma {:induction false} MatchingNames(
      cur: seq<Rule>, asked: seq<Rule>, heads: seq<Rule>, rests: seq<seq<Rule>>, i: nat, k: Json, id: string)
    requires IsMatching(cur, asked, heads, rests) && i <= |asked|
    ensures NamesIn(heads[..i], k, id) || NamesIn(rests[i], k, id) <==> NamesIn(cur, k, id) || NamesIn(asked[..i], k, id)
  {
    if i > 0 {
      MatchingNames(cur, asked, heads, rests, i - 1, k, id);
      assert StepAt(asked, heads, rests, i - 1);
      StepNames(rests[i - 1], asked[i - 1], heads[i - 1], rests[i], k, id);
      assert heads[..i] == heads[..i - 1] + [heads[i - 1]] && asked[..i] == asked[..i - 1] + [asked[i - 1]];
      NamesConcat(heads[..i - 1], [heads[i - 1]], k, id);
      NamesConcat(asked[..i - 1], [asked[i - 1]], k, id);
    }
  }

  /** Per condition, the operations a merged side names are those either side named. */
  lemma {:induction false} MergeUnitesOperations(cur: seq<Rule>, asked: seq<Rule>, out: seq<Rule>, k: Json, id: string)
    requires IsMergedItems(cur, asked, out)
    ensures NamesIn(out, k, id) <==> NamesIn(cur, k, id) || NamesIn(asked, k, id)
  {
    var heads: seq<Rule>, rests: seq<seq<Rule>> :| IsMatching(cur, asked, heads, rests) && out == heads + rests[|asked|];
    MatchingNames(cur, asked, heads, rests, |asked|, k, id);
    assert heads[..|asked|] == heads && asked[..|asked|] == asked;
    NamesConcat(heads, rests[|asked|], k, id);
  }

  /** Asked rule i comes out at place i with its own obligations, matched or not. */
  lemma {:induction false} AskedObligationsWin(cur: seq<Rule>, asked: seq<Rule>, out: seq<Rule>, i: nat)
    requires IsMergedItems(cur, asked, out) && i < |asked|
    ensures i < |out| && RuleClass(out[i]) == RuleClass(asked[i]) && Alike(out[i].condition, asked[i].condition)
    ensures forall id :: id in Meaning(asked[i].operations) ==>
      id in Meaning(out[i].operations) && Meaning(out[i].operations)[id] == Meaning(asked[i].operations)[id]
  {
    var heads: seq<Rule>, rests: seq<seq<Rule>> :| IsMatching(cur, asked, heads, rests) && out == heads + rests[|asked|];
    assert StepAt(asked, heads, rests, i);
    StepCounts(rests[i], asked[i], heads[i], rests[i + 1], NO_CONDITION);
    var j := FirstOfClass(rests[i], RuleClass(asked[i]));
    if j < |rests[i]| { MergedOpsMeaning(rests[i][j].operations, asked[i].operations, heads[i].operations); }
  }

  // ------------------------------------------------------------------ what a side grants

  /** Under condition class k, rule r grants operation id with obligations d. */
  ghost predicate RuleGrants(r: Rule, k: Json, id: string, d: seq<Obligation>) {
    RuleClass(r) == k && id in Meaning(r.operations) && Meaning(r.operations)[id] == d
  }

  ghost predicate Grants(side: seq<Rule>, k: Json, id: string, d: seq<Obligation>) {
    exists r :: r in side && RuleGrants(r, k, id, d)
  }

  /** Two sides with the same (condition, operation, obligations) triples. */
  ghost predicate SameGrants(a: seq<Rule>, b: seq<Rule>) {
    forall k, id, d :: Grants(a, k, id, d) <==> Grants(b, k, id, d)
  }

  function FirstRule(side: seq<Rule>, k: Json): (r: Option<Rule>) {
    var i := FirstOfClass(side, k);
    if i < |side| then Some(side[i]) else None
  }

  predicate DistinctClasses(side: seq<Rule>) {
    forall i, j :: 0 <= i < j < |side| ==> RuleClass(side[i]) != RuleClass(side[j])
  }

  /** Only the first rule of a class has operations. */
  predicate NoRepeats(side: seq<Rule>) {
    forall i, j :: 0 <= i < j < |side| && RuleClass(side[i]) == RuleClass(side[j]) ==> side[j].operations == []
  }

  /** Merging rule a in would add nothing to what its match grants. */
  predicate Harmless(side: seq<Rule>, a: Rule) {
    var first := FirstRule(side, RuleClass(a));
    || a.operations == []
    || (first.Some? && Meaning(first.value.operations) + Meaning(a.operations) == Meaning(first.value.operations))
  }

  lemma {:induction false} HarmlessStep(
      rest: seq<Rule>, a: Rule, h: Rule, rest': seq<Rule>, k: Json, id: string, d: seq<Obligation>)
    requires ItemStep(rest, a, h, rest') && Harmless(rest, a)
    ensures RuleGrants(h, k, id, d) || Grants(rest', k, id, d) <==> Grants(rest, k, id, d)
  {
    StepMembers(rest, a, h, rest');
    var i := FirstOfClass(rest, RuleClass(a));
    if i < |rest| {
      MergedOpsMeaning(rest[i].operations, a.operations, h.operations);
      assert Meaning(h.operations) == Meaning(rest[i].operations);
      assert RuleGrants(h, k, id, d) <==> RuleGrants(rest[i], k, id, d);
    }
  }

  /** A step leaves the first rule of every other class first. */
  lemma {:induction false} FirstAfterStep(rest: seq<Rule>, a: Rule, h: Rule, rest': seq<Rule>, k: Json)
    requires ItemStep(rest, a, h, rest') && k != RuleClass(a)
    ensures FirstRule(rest', k) == FirstRule(rest, k)
  {
    var i, j := FirstOfClass(rest, RuleClass(a)), FirstOfClass(rest, k);
    if i < |rest| {
      FirstIs(rest', k, if j < i then j else j - 1);
    }
  }

  lemma {:induction false} MatchingFirst(
      cur: seq<Rule>, asked: seq<Rule>, heads: seq<Rule>, rests: seq<seq<Rule>>, i: nat, k: Json)
    requires IsMatching(cur, asked, heads, rests) && i <= |asked|
    requires forall j :: 0 <= j < i ==> RuleClass(asked[j]) != k
    ensures FirstRule(rests[i], k) == FirstRule(cur, k)
  {
    if i > 0 {
      MatchingFirst(cur, asked, heads, rests, i - 1, k);
      assert StepAt(asked, heads, rests, i - 1);
      FirstAfterStep(rests[i - 1], asked[i - 1], heads[i - 1], rests[i], k);
    }
  }

  lemma GrantsSnoc(side: seq<Rule>, r: Rule, k: Json, id: string, d: seq<Obligation>)
    ensures Grants(side + [r], k, id, d) <==> Grants(side, k, id, d) || RuleGrants(r, k, id, d)
  {
    assert r in side + [r];
  }

  lemma GrantsConcat(a: seq<Rule>, b: seq<Rule>, k: Json, id: string, d: seq<Obligation>)
    ensures Grants(a + b, k, id, d) <==> Grants(a, k, id, d) || Grants(b, k, id, d)
  {
  }

  lemma {:induction false} MatchingStepHarmless(
      cur: seq<Rule>, asked: seq<Rule>, heads: seq<Rule>, rests: seq<seq<Rule>>, i: nat, k: Json, id: string, d: seq<Obligation>)
    requires IsMatching(cur, asked, heads, rests) && i < |asked| && NoRepeats(asked) && Harmless(cur, asked[i])
    ensures RuleGrants(heads[i], k, id, d) || Grants(rests[i + 1], k, id, d) <==> Grants(rests[i], k, id, d)
  {
    if asked[i].operations != [] {
      MatchingFirst(cur, asked, heads, rests, i, RuleClass(asked[i]));
    }
    assert StepAt(asked, heads, rests, i);
    HarmlessStep(rests[i], asked[i], heads[i], rests[i + 1], k, id, d);
  }

  lemma GrantsMore(side: seq<Rule>, i: nat, k: Json, id: string, d: seq<Obligation>)
    requires i < |side|
    ensures Grants(side[..i + 1], k, id, d) <==> Grants(side[..i], k, id, d) || RuleGrants(side[i], k, id, d)
  {
    assert side[..i + 1] == side[..i] + [side[i]];
    GrantsSnoc(side[..i], side[i], k, id, d);
  }

  ghost predicate AllHarmless(cur: seq<Rule>, asked: seq<Rule>) {
    forall j :: 0 <= j < |asked| ==> Harmless(cur, asked[j])
  }

  lemma {:induction false} MatchingHarmless(
      cur: seq<Rule>, asked: seq<Rule>, heads: seq<Rule>, rests: seq<seq<Rule>>, i: nat, k: Json, id: string, d: seq<Obligation>)
    requires IsMatching(cur, asked, heads, rests) && i <= |asked| && NoRepeats(asked) && AllHarmless(cur, asked)
    ensures Grants(heads[..i], k, id, d) || Grants(rests[i], k, id, d) <==> Grants(cur, k, id, d)
  {
    if i > 0 {
      MatchingHarmless(cur, asked, heads, rests, i - 1, k, id, d);
      MatchingStepHarmless(cur, asked, heads, rests, i - 1, k, id, d);
      GrantsMore(heads, i - 1, k, id, d);
    }
  }

  /** A side whose rules are all harmless changes nothing that is granted. */
  lemma {:induction false} HarmlessMerge(cur: seq<Rule>, asked: seq<Rule>, out: seq<Rule>)
    requires IsMergedItems(cur, asked, out) && NoRepeats(asked) && AllHarmless(cur, asked)
    ensures SameGrants(out, cur)
  {
    var heads: seq<Rule>, rests: seq<seq<Rule>> :| IsMatching(cur, asked, heads, rests) && out == heads + rests[|asked|];
    forall k, id, d ensures Grants(out, k, id, d) <==> Grants(cur, k, id, d) {
      MatchingHarmless(cur, asked, heads, rests, |asked|, k, id, d);
      assert heads[..|asked|] == heads;
      GrantsConcat(heads, rests[|asked|], k, id, d);
    }
  }

  // ------------------------------------------------------------------ cmpPolicyWithCondition

  /** Every asked rule has a first rule of its class, which covers it. */
  predicate SameSide(cur: seq<Rule>, asked: seq<Rule>) {
    forall i :: 0 <= i < |asked| ==> CoveredRule(cur, asked[i])
  }

  predicate CoveredRule(cur: seq<Rule>, a: Rule) {
    var first := FirstRule(cur, RuleClass(a));
    first.Some? && Covers(first.value.operations, a.operations)
  }

  predicate SameWithCondition(cur: Policy, seed: Policy) {
    cur.endTime == seed.endTime && SameSide(cur.rules.allow, seed.rules.allow) && SameSide(cur.rules.deny, seed.rules.deny)
  }

  /** Rule j is the first one under the condition, and lists all the asked operations as asked. */
  ghost predicate FirstCovers(cur: seq<Rule>, a: Rule, j: nat) {
    && j < |cur| && Alike(cur[j].condition, a.condition)
    && (forall i :: 0 <= i < j ==> !Alike(cur[i].condition, a.condition))
    && AllListed(cur[j].operations, a.operations)
  }

  lemma {:induction false} CoveredExactly(cur: seq<Rule>, a: Rule)
    ensures CoveredRule(cur, a) <==> exists j: nat :: FirstCovers(cur, a, j)
  {
    var i := FirstOfClass(cur, RuleClass(a));
    forall r | r in cur ensures RuleClass(r) == RuleClass(a) <==> Alike(r.condition, a.condition) {
      ClassesExactly(r, a);
    }
    if i < |cur| {
      CoversExactly(cur[i].operations, a.operations);
      assert FirstCovers(cur, a, i) <==> CoveredRule(cur, a);
    }
    forall j: nat | FirstCovers(cur, a, j) ensures i == j {
      FirstIs(cur, RuleClass(a), j);
    }
  }

  /** Every asked rule has a first rule under its condition that covers it. */
  ghost predicate AllCovered(cur: seq<Rule>, asked: seq<Rule>) {
    forall a :: a in asked ==> exists j: nat :: FirstCovers(cur, a, j)
  }

  lemma {:induction false} SideExactly(cur: seq<Rule>, asked: seq<Rule>)
    ensures SameSide(cur, asked) <==> AllCovered(cur, asked)
  {
    forall i | 0 <= i < |asked| ensures CoveredRule(cur, asked[i]) <==> exists j: nat :: FirstCovers(cur, asked[i], j) {
      CoveredExactly(cur, asked[i]);
    }
    if AllCovered(cur, asked) {
      forall i | 0 <= i < |asked| ensures CoveredRule(cur, asked[i]) {
        assert asked[i] in asked;
      }
    }
  }

  /** The comparison written out. */
  lemma SeedTestExactly(cur: Policy, seed: Policy)
    ensures SameWithCondition(cur, seed) <==>
      && cur.endTime == seed.endTime
      && AllCovered(cur.rules.allow, seed.rules.allow) && AllCovered(cur.rules.deny, seed.rules.deny)
  {
    SideExactly(cur.rules.allow, seed.rules.allow);
    SideExactly(cur.rules.deny, seed.rules.deny);
  }

  method CompareSide(cur: seq<Rule>, asked: seq<Rule>) returns (same: bool)
    ensures same <==> SameSide(cur, asked)
  {
    for i := 0 to |asked|
      invariant forall j :: 0 <= j < i ==> CoveredRule(cur, asked[j])
    {
      var j := FindOld(cur, seq(|cur|, _ => false), asked[i].condition);
      FirstIs(cur, RuleClass(asked[i]), j);
      if j == |cur| {
        return false;
      }
      var m := BuildMap(cur[j].operations, {});
      same := CheckCovered(m, asked[i].operations);
      assert same <==> Covers(cur[j].operations, asked[i].operations);
      if !same {
        return false;
      }
    }
    same := true;
  }

  method CmpPolicyWithCondition(cur: Policy, seed: Policy) returns (isSame: bool)
    ensures isSame <==> SameWithCondition(cur, seed)
  {
    if cur.endTime != seed.endTime {
      return false;
    }
    isSame := CompareSide(cur.rules.allow, seed.rules.allow);
    if isSame {
      isSame := CompareSide(cur.rules.deny, seed.rules.deny);
    }
  }

  lemma {:induction false} CoveredIsHarmless(cur: seq<Rule>, asked: seq<Rule>, i: nat)
    requires SameSide(cur, asked) && i < |asked|
    ensures Harmless(cur, asked[i])
  {
    assert CoveredRule(cur, asked[i]);
    CoversMeaning(FirstRule(cur, RuleClass(asked[i])).value.operations, asked[i].operations);
  }

  lemma {:induction false} SideTestIsSound(cur: seq<Rule>, asked: seq<Rule>, out: seq<Rule>)
    requires NoRepeats(asked) && SameSide(cur, asked) && IsMergedItems(cur, asked, out)
    ensures SameGrants(out, cur)
  {
    forall i | 0 <= i < |asked| ensures Harmless(cur, asked[i]) {
      CoveredIsHarmless(cur, asked, i);
    }
    HarmlessMerge(cur, asked, out);
  }

  /** When the test says "same", merging the seed would change no triple and no end time. */
  lemma {:induction false} SeedTestIsSound(cur: Policy, seed: Policy, r: Policy)
    requires NoRepeats(seed.rules.allow) && NoRepeats(seed.rules.deny)
    requires SameWithCondition(cur, seed) && IsMergeWithCondition(cur, seed, r)
    ensures SameGrants(r.rules.allow, cur.rules.allow) && SameGrants(r.rules.deny, cur.rules.deny)
    ensures r.endTime == cur.endTime
  {
    SideTestIsSound(cur.rules.allow, seed.rules.allow, r.rules.allow);
    SideTestIsSound(cur.rules.deny, seed.rules.deny, r.rules.deny);
  }

  // ------------------------------------------------------------------ when the test is sound

  /** On this side, "same" always means that merging changes no triple. */
  ghost predicate TestSound(asked: seq<Rule>) {
    forall cur, out :: SameSide(cur, asked) && IsMergedItems(cur, asked, out) ==> SameGrants(out, cur)
  }

  /** Some rule of class k lists the operation. */
  ghost predicate Entry(side: seq<Rule>, k: Json, op: Operation) {
    exists i :: 0 <= i < |side| && RuleClass(side[i]) == k && op in side[i].operations
  }

  /** Within a condition, all entries of one id ask for the same. */
  ghost predicate Agreeing(side: seq<Rule>) {
    forall k, a, b :: Entry(side, k, a) && Entry(side, k, b) && a.id == b.id ==> Listed(a.obligations) == Listed(b.obligations)
  }

  lemma {:induction false} CoveredEntry(cur: seq<Rule>, asked: seq<Rule>, k: Json, op: Operation)
    requires SameSide(cur, asked) && Entry(asked, k, op)
    ensures FirstRule(cur, k).Some? && op.id in LastMap(FirstRule(cur, k).value.operations)
    ensures Listed(op.obligations) == Listed(LastMap(FirstRule(cur, k).value.operations)[op.id].obligations)
  {
    var i :| 0 <= i < |asked| && RuleClass(asked[i]) == k && op in asked[i].operations;
    assert CoveredRule(cur, asked[i]);
    var j :| 0 <= j < |asked[i].operations| && asked[i].operations[j] == op;
    var m := LastMap(FirstRule(cur, k).value.operations);
    assert op.id in m && ObligationsEqual(op.obligations, m[op.id].obligations);
    ObligationsEqualIsListedEqual(op.obligations, m[op.id].obligations);
  }

  /** A side that passes the test anywhere does not contradict itself. */
  lemma AcceptedAgrees(cur: seq<Rule>, asked: seq<Rule>)
    requires SameSide(cur, asked)
    ensures Agreeing(asked)
  {
    forall k, a, b | Entry(asked, k, a) && Entry(asked, k, b) && a.id == b.id
      ensures Listed(a.obligations) == Listed(b.obligations)
    {
      CoveredEntry(cur, asked, k, a);
      CoveredEntry(cur, asked, k, b);
    }
  }

  /** All operations of the rules of class k. */
  function ClassOps(side: seq<Rule>, k: Json): (ops: seq<Operation>) {
    if side == [] then [] else
    var last := side[|side| - 1];
    ClassOps(side[..|side| - 1], k) + if RuleClass(last) == k then last.operations else []
  }

  lemma {:induction false} ClassOpsEntries(side: seq<Rule>, k: Json, op: Operation)
    ensures op in ClassOps(side, k) <==> Entry(side, k, op)
  {
    if side != [] {
      var n := |side| - 1;
      ClassOpsEntries(side[..n], k, op);
      if Entry(side[..n], k, op) {
        var i :| 0 <= i < n && RuleClass(side[..n][i]) == k && op in side[..n][i].operations;
        assert RuleClass(side[i]) == k && op in side[i].operations;
      }
      if Entry(side, k, op) && !(RuleClass(side[n]) == k && op in side[n].operations) {
        var i :| 0 <= i < |side| && RuleClass(side[i]) == k && op in side[i].operations;
        assert side[..n][i] == side[i];
      }
    }
  }

  /** Whatever a list of entries of class k says of an id is what any entry says. */
  lemma {:induction false} EntriesMeaning(asked: seq<Rule>, k: Json, ops: seq<Operation>, op: Operation)
    requires Agreeing(asked) && Entry(asked, k, op) && forall x :: x in ops ==> Entry(asked, k, x)
    ensures op.id in Meaning(ops) ==> Meaning(ops)[op.id] == Listed(op.obligations)
  {
    MapFacts(ops);
    if op.id in Meaning(ops) {
      assert Entry(asked, k, LastMap(ops)[op.id]);
    }
  }

  lemma {:induction false} ClassOpsCovers(asked: seq<Rule>, i: nat)
    requires Agreeing(asked) && i < |asked|
    ensures Covers(ClassOps(asked, RuleClass(asked[i])), asked[i].operations)
  {
    var k := RuleClass(asked[i]);
    var all := ClassOps(asked, k);
    MapFacts(all);
    forall j | 0 <= j < |asked[i].operations|
      ensures asked[i].operations[j].id in LastMap(all)
      ensures ObligationsEqual(asked[i].operations[j].obligations, LastMap(all)[asked[i].operations[j].id].obligations)
    {
      var op := asked[i].operations[j];
      assert Entry(asked, k, op);
      ClassOpsEntries(asked, k, op);
      var n :| 0 <= n < |all| && all[n] == op;
      var last := LastMap(all)[op.id];
      ClassOpsEntries(asked, k, last);
      ObligationsEqualIsListedEqual(op.obligations, last.obligations);
    }
  }

  /** One rule per asked rule, with all the operations of its class; but rule j asks one operation something else. */
  function Bait(asked: seq<Rule>, j: nat): (cur: seq<Rule>)
    requires j < |asked| && asked[j].operations != []
    ensures |cur| == |asked| && forall i :: 0 <= i < |asked| ==> cur[i] == BaitRule(asked, j, i)
  {
    seq(|asked|, i requires 0 <= i < |asked| => BaitRule(asked, j, i))
  }

  function BaitRule(asked: seq<Rule>, j: nat, i: nat): (r: Rule)
    requires j < |asked| && asked[j].operations != [] && i < |asked|
    ensures RuleClass(r) == RuleClass(asked[i])
  {
    if i == j then Rule(asked[j].condition, [Other(asked[j].operations[0])])
    else Rule(asked[i].condition, ClassOps(asked, RuleClass(asked[i])))
  }

  /** The operation with one more obligation. */
  function Other(op: Operation): (x: Operation)
    ensures x.id == op.id && Listed(x.obligations) != Listed(op.obligations)
  {
    op.(obligations := Some(Listed(op.obligations) + [Obligation("", "", JNull)]))
  }

  lemma {:induction false} BaitPasses(asked: seq<Rule>, i: nat, j: nat)
    requires Agreeing(asked) && i < j < |asked| && RuleClass(asked[i]) == RuleClass(asked[j]) && asked[j].operations != []
    ensures SameSide(Bait(asked, j), asked)
  {
    var cur := Bait(asked, j);
    forall m | 0 <= m < |asked| ensures CoveredRule(cur, asked[m]) {
      var k := RuleClass(asked[m]);
      var f := FirstOfClass(cur, k);
      assert RuleClass(cur[m]) == k;
      assert f < |cur| && f != j by {
        assert RuleClass(cur[i]) == RuleClass(asked[j]) == RuleClass(cur[j]);
      }
      ClassOpsCovers(asked, m);
    }
  }

  lemma {:induction false} SomeMergedOps(cur: seq<Operation>, asked: seq<Operation>) returns (r: seq<Operation>)
    ensures IsMergedOps(cur, asked, r)
  {
    if cur == [] {
      r := asked;
    } else if asked == [] {
      r := cur;
    } else {
      MapFacts(asked);
      var front := SomeListing(LastMap(asked));
      r := front + Outside(cur, Ids(asked));
    }
  }

  /** Rule for rule of the same classes, the merge goes pairwise. */
  lemma {:induction false} PairwiseMerge(cur: seq<Rule>, asked: seq<Rule>, n: nat)
      returns (heads: seq<Rule>, rests: seq<seq<Rule>>)
    requires |cur| == |asked| && n <= |asked| && forall i :: 0 <= i < |cur| ==> RuleClass(cur[i]) == RuleClass(asked[i])
    ensures IsMatching(cur, asked[..n], heads, rests) && rests[n] == cur[n..]
    ensures forall i :: 0 <= i < n ==> IsMergedOps(cur[i].operations, asked[i].operations, heads[i].operations)
  {
    if n == 0 {
      heads, rests := [], [cur];
    } else {
      heads, rests := PairwiseMerge(cur, asked, n - 1);
      var h := PairStep(cur[n - 1..], asked[n - 1]);
      assert cur[n - 1..][1..] == cur[n..];
      MatchingMore(cur, asked[..n - 1], heads, rests, asked[n - 1], h, cur[n..]);
      assert asked[..n] == asked[..n - 1] + [asked[n - 1]];
      heads, rests := heads + [h], rests + [cur[n..]];
    }
  }

  lemma {:induction false} PairStep(rest: seq<Rule>, a: Rule) returns (h: Rule)
    requires rest != [] && RuleClass(rest[0]) == RuleClass(a)
    ensures ItemStep(rest, a, h, rest[1..]) && IsMergedOps(rest[0].operations, a.operations, h.operations)
  {
    var ops := SomeMergedOps(rest[0].operations, a.operations);
    h := Rule(rest[0].condition, ops);
    FirstIs(rest, RuleClass(a), 0);
    assert rest[..0] + rest[1..] == rest[1..];
  }

  /** After the merge no rule of the class asks the other thing any more. */
  lemma {:induction false} BaitTaken(asked: seq<Rule>, j: nat, i: nat, h: Rule)
    requires Agreeing(asked) && j < |asked| && asked[j].operations != [] && i < |asked|
    requires RuleClass(asked[i]) == RuleClass(asked[j])
    requires IsMergedOps(BaitRule(asked, j, i).operations, asked[i].operations, h.operations)
    ensures var op := asked[j].operations[0];
      !(op.id in Meaning(h.operations) && Meaning(h.operations)[op.id] == Listed(Other(op).obligations))
  {
    var k, op := RuleClass(asked[j]), asked[j].operations[0];
    assert Entry(asked, k, op);
    MergedOpsMeaning(BaitRule(asked, j, i).operations, asked[i].operations, h.operations);
    EntriesMeaning(asked, k, asked[i].operations, op);
    if i == j {
      MapFacts(asked[j].operations);
    } else {
      forall x | x in ClassOps(asked, k) ensures Entry(asked, k, x) {
        ClassOpsEntries(asked, k, x);
      }
      EntriesMeaning(asked, k, ClassOps(asked, k), op);
    }
  }

  lemma {:induction false} BaitWorks(asked: seq<Rule>, i: nat, j: nat)
    requires Agreeing(asked) && i < j < |asked| && RuleClass(asked[i]) == RuleClass(asked[j]) && asked[j].operations != []
    ensures !TestSound(asked)
  {
    var cur := Bait(asked, j);
    var heads, rests := PairwiseMerge(cur, asked, |asked|);
    assert asked[..|asked|] == asked && heads == heads + rests[|asked|];
    assert IsMergedItems(cur, asked, heads);
    BaitPasses(asked, i, j);
    BaitLost(asked, j, heads, rests);
  }

  lemma {:induction false} BaitLost(asked: seq<Rule>, j: nat, heads: seq<Rule>, rests: seq<seq<Rule>>)
    requires Agreeing(asked) && j < |asked| && asked[j].operations != []
    requires IsMatching(Bait(asked, j), asked, heads, rests)
    requires forall m :: 0 <= m < |asked| ==> IsMergedOps(Bait(asked, j)[m].operations, asked[m].operations, heads[m].operations)
    ensures !SameGrants(heads, Bait(asked, j))
  {
    var cur, k, op := Bait(asked, j), RuleClass(asked[j]), asked[j].operations[0];
    var d := Listed(Other(op).obligations);
    forall m | 0 <= m < |asked| ensures !RuleGrants(heads[m], k, op.id, d) {
      MatchingStepCounts(cur, asked, heads, rests, m, k);
      if RuleClass(asked[m]) == k {
        BaitTaken(asked, j, m, heads[m]);
      }
    }
    assert !Grants(heads, k, op.id, d);
    assert [Other(op)][..0] == [] && LastMap([Other(op)]) == map[op.id := Other(op)];
    assert RuleGrants(cur[j], k, op.id, d) && cur[j] in cur;
    assert Grants(cur, k, op.id, d);
  }

  /**
    On a side of a seed, "same" always means no change exactly when only the first rule of
    each condition has operations, or the side contradicts itself and never passes.
   */
  lemma {:induction false} SeedTestIsExact(asked: seq<Rule>)
    ensures TestSound(asked) <==> NoRepeats(asked) || !Agreeing(asked)
  {
    if !Agreeing(asked) {
      if !TestSound(asked) {
        var cur, out :| SameSide(cur, asked) && IsMergedItems(cur, asked, out) && !SameGrants(out, cur);
        AcceptedAgrees(cur, asked);
      }
    } else if NoRepeats(asked) {
      forall cur, out | SameSide(cur, asked) && IsMergedItems(cur, asked, out) ensures SameGrants(out, cur) {
        SideTestIsSound(cur, asked, out);
      }
    } else {
      var i, j :| 0 <= i < j < |asked| && RuleClass(asked[i]) == RuleClass(asked[j]) && asked[j].operations != [];
      BaitWorks(asked, i, j);
    }
  }

  /** A seed side that repeats a rule can pass the test and still change what is granted. */
  lemma RepeatedRuleFails(c: Json, x: Operation)
    ensures !TestSound([Rule(c, [x]), Rule(c, [x])])
  {
    var asked := [Rule(c, [x]), Rule(c, [x])];
    assert forall k, op :: Entry(asked, k, op) ==> op == x;
    BaitWorks(asked, 0, 1);
  }

  // ------------------------------------------------------------------ seeding twice

  /** After one merge, asked rule i is the first of its class, with the asked obligations on top. */
  lemma {:induction false} SeededRule(cur: seq<Rule>, asked: seq<Rule>, out: seq<Rule>, i: nat) returns (was: seq<Operation>)
    requires IsMergedItems(cur, asked, out) && DistinctClasses(asked) && i < |asked|
    ensures i < |out| && FirstRule(out, RuleClass(asked[i])) == Some(out[i])
    ensures Meaning(out[i].operations) == Meaning(was) + Meaning(asked[i].operations)
    ensures out[i].operations == [] <==> was == [] && asked[i].operations == []
  {
    var heads: seq<Rule>, rests: seq<seq<Rule>> :| IsMatching(cur, asked, heads, rests) && out == heads + rests[|asked|];
    var k := RuleClass(asked[i]);
    forall j | 0 <= j <= i ensures RuleClass(out[j]) == RuleClass(asked[j]) {
      AskedObligationsWin(cur, asked, out, j);
    }
    FirstIs(out, k, i);
    MatchingFirst(cur, asked, heads, rests, i, k);
    assert StepAt(asked, heads, rests, i);
    var j := FirstOfClass(rests[i], k);
    if j < |rests[i]| {
      was := rests[i][j].operations;
      MergedOpsMeaning(was, asked[i].operations, heads[i].operations);
    } else {
      was := [];
    }
  }

  lemma {:induction false} SeededIsHarmless(cur: seq<Rule>, asked: seq<Rule>, out: seq<Rule>, i: nat)
    requires IsMergedItems(cur, asked, out) && DistinctClasses(asked) && i < |asked|
    ensures Harmless(out, asked[i])
  {
    var was := SeededRule(cur, asked, out, i);
  }

  lemma {:induction false} FirstRuleCons(head: Rule, tail: seq<Rule>, k: Json)
    ensures FirstRule([head] + tail, k) == if RuleClass(head) == k then Some(head) else FirstRule(tail, k)
  {
    assert ([head] + tail)[1..] == tail;
  }

  /** A rule of class k with operations. */
  ghost predicate SomeOperations(side: seq<Rule>, k: Json) {
    exists x :: x in side && RuleClass(x) == k && HasOperations(x)
  }

  lemma SomeOperationsCons(head: Rule, tail: seq<Rule>, k: Json)
    ensures SomeOperations([head] + tail, k) <==> (RuleClass(head) == k && HasOperations(head)) || SomeOperations(tail, k)
  {
    assert head in [head] + tail;
  }

  lemma ClassOfNormRule(r: Rule)
    ensures RuleClass(NormRule(r)) == RuleClass(r)
  {
  }

  /** Storing keeps the first rule of a class when that rule has operations. */
  lemma {:induction false} FirstOfNormSide(side: seq<Rule>, k: Json)
    ensures FirstRule(NormSide(side), k).Some? <==> SomeOperations(side, k)
    ensures KeptFirst(FirstRule(side, k), FirstRule(NormSide(side), k))
  {
    if side == [] {
      assert NormSide(side) == [];
    } else {
      var head, tail := side[0], side[1..];
      FirstOfNormSide(tail, k);
      FirstOfNormCons(head, tail, k);
      assert side == [head] + tail;
    }
  }

  predicate KeptFirst(first: Option<Rule>, stored: Option<Rule>) {
    first.Some? && HasOperations(first.value) ==> stored == Some(NormRule(first.value))
  }

  lemma {:induction false} FirstOfNormCons(head: Rule, tail: seq<Rule>, k: Json)
    requires FirstRule(NormSide(tail), k).Some? <==> SomeOperations(tail, k)
    requires KeptFirst(FirstRule(tail, k), FirstRule(NormSide(tail), k))
    ensures FirstRule(NormSide([head] + tail), k).Some? <==> SomeOperations([head] + tail, k)
    ensures KeptFirst(FirstRule([head] + tail, k), FirstRule(NormSide([head] + tail), k))
  {
    NormSideCons(head, tail);
    SomeOperationsCons(head, tail, k);
    ClassOfNormRule(head);
    FirstRuleCons(head, tail, k);
    FirstRuleCons(NormRule(head), NormSide(tail), k);
  }

  lemma {:induction false} HarmlessStored(side: seq<Rule>, a: Rule)
    requires Harmless(side, a)
    requires FirstRule(side, RuleClass(a)).Some? && (HasOperations(a) ==> HasOperations(FirstRule(side, RuleClass(a)).value))
    ensures Harmless(NormSide(side), a)
  {
    FirstOfNormSide(side, RuleClass(a));
    NormMeaning(FirstRule(side, RuleClass(a)).value.operations);
  }

  lemma {:induction false} SeededIsHarmlessStored(cur: seq<Rule>, asked: seq<Rule>, out: seq<Rule>, i: nat)
    requires IsMergedItems(cur, asked, out) && DistinctClasses(asked) && i < |asked|
    ensures Harmless(NormSide(out), asked[i])
  {
    var was := SeededRule(cur, asked, out, i);
    HarmlessStored(out, asked[i]);
  }

  lemma NormRuleGrants(r: Rule, k: Json, id: string, d: seq<Obligation>)
    ensures RuleGrants(NormRule(r), k, id, d) <==> RuleGrants(r, k, id, d)
    ensures RuleGrants(r, k, id, d) ==> HasOperations(r)
  {
    NormMeaning(r.operations);
  }

  lemma {:induction false} NormGrants(side: seq<Rule>, k: Json, id: string, d: seq<Obligation>)
    ensures Grants(NormSide(side), k, id, d) <==> Grants(side, k, id, d)
  {
    if side == [] {
      assert NormSide(side) == [];
    } else {
      var head, tail := side[0], side[1..];
      NormGrants(tail, k, id, d);
      NormSideCons(head, tail);
      NormRuleGrants(head, k, id, d);
      GrantsCons(head, tail, k, id, d);
      GrantsCons(NormRule(head), NormSide(tail), k, id, d);
      assert side == [head] + tail;
    }
  }

  lemma GrantsCons(r: Rule, side: seq<Rule>, k: Json, id: string, d: seq<Obligation>)
    ensures Grants([r] + side, k, id, d) <==> RuleGrants(r, k, id, d) || Grants(side, k, id, d)
  {
    assert r in [r] + side;
  }

  lemma NormKeepsGrants(side: seq<Rule>)
    ensures SameGrants(NormSide(side), side)
  {
    forall k, id, d ensures Grants(NormSide(side), k, id, d) <==> Grants(side, k, id, d) {
      NormGrants(side, k, id, d);
    }
  }

  ghost predicate OneRulePerClass(p: Policy) {
    DistinctClasses(p.rules.allow) && DistinctClasses(p.rules.deny)
  }

  /** Merging a seed twice grants what merging it once does, stored in between or not. */
  lemma {:induction false} SeedingTwiceIsOnce(cur: Policy, seed: Policy, r: Policy, again: Policy)
    requires OneRulePerClass(seed) && IsMergeWithCondition(cur, seed, r)
    requires IsMergeWithCondition(r, seed, again) || IsMergeWithCondition(Stored(r), seed, again)
    ensures SameGrants(again.rules.allow, r.rules.allow) && SameGrants(again.rules.deny, r.rules.deny)
    ensures again.endTime == r.endTime
  {
    forall i | 0 <= i < |seed.rules.allow|
      ensures Harmless(r.rules.allow, seed.rules.allow[i]) && Harmless(NormSide(r.rules.allow), seed.rules.allow[i])
    {
      SeededIsHarmless(cur.rules.allow, seed.rules.allow, r.rules.allow, i);
      SeededIsHarmlessStored(cur.rules.allow, seed.rules.allow, r.rules.allow, i);
    }
    forall i | 0 <= i < |seed.rules.deny|
      ensures Harmless(r.rules.deny, seed.rules.deny[i]) && Harmless(NormSide(r.rules.deny), seed.rules.deny[i])
    {
      SeededIsHarmless(cur.rules.deny, seed.rules.deny, r.rules.deny, i);
      SeededIsHarmlessStored(cur.rules.deny, seed.rules.deny, r.rules.deny, i);
    }
    NormKeepsGrants(r.rules.allow);
    NormKeepsGrants(r.rules.deny);
    if IsMergeWithCondition(r, seed, again) {
      HarmlessMerge(r.rules.allow, seed.rules.allow, again.rules.allow);
      HarmlessMerge(r.rules.deny, seed.rules.deny, again.rules.deny);
    } else {
      HarmlessMerge(NormSide(r.rules.allow), seed.rules.allow, again.rules.allow);
      HarmlessMerge(NormSide(r.rules.deny), seed.rules.deny, again.rules.deny);
    }
  }

  predicate AllAgree(side: seq<Rule>) {
    forall i :: 0 <= i < |side| ==> Agrees(side[i].operations)
  }

  lemma {:induction false} SideTestAfterSeed(cur: seq<Rule>, asked: seq<Rule>, out: seq<Rule>)
    requires IsMergedItems(cur, asked, out) && DistinctClasses(asked)
    ensures SameSide(out, asked) <==> AllAgree(asked)
  {
    forall i | 0 <= i < |asked| ensures CoveredRule(out, asked[i]) <==> Agrees(asked[i].operations) {
      var was := SeededRule(cur, asked, out, i);
      CoversAgain(out[i].operations, asked[i].operations);
    }
  }

  /** The test accepts a seed right after its merge exactly when the end times meet and no rule contradicts itself. */
  lemma {:induction false} TestAfterSeed(cur: Policy, seed: Policy, r: Policy)
    requires OneRulePerClass(seed) && IsMergeWithCondition(cur, seed, r)
    ensures SameWithCondition(r, seed) <==>
      MinEnd(cur.endTime, seed.endTime) == seed.endTime && AllAgree(seed.rules.allow) && AllAgree(seed.rules.deny)
  {
    SideTestAfterSeed(cur.rules.allow, seed.rules.allow, r.rules.allow);
    SideTestAfterSeed(cur.rules.deny, seed.rules.deny, r.rules.deny);
  }

  /** The asked rule survives storing: it has operations, or meets a rule that has. */
  ghost predicate Survives(cur: seq<Rule>, a: Rule) {
    HasOperations(a) || SomeOperations(cur, RuleClass(a))
  }

  ghost predicate AllSurvive(cur: seq<Rule>, asked: seq<Rule>) {
    forall i :: 0 <= i < |asked| ==> Survives(cur, asked[i])
  }

  lemma {:induction false} StoredSideTestAfterSeed(cur: seq<Rule>, asked: seq<Rule>, out: seq<Rule>)
    requires IsMergedItems(cur, asked, out) && DistinctClasses(asked)
    ensures SameSide(NormSide(out), asked) <==> AllAgree(asked) && AllSurvive(cur, asked)
  {
    forall i | 0 <= i < |asked|
      ensures CoveredRule(NormSide(out), asked[i]) <==> Agrees(asked[i].operations) && Survives(cur, asked[i])
    {
      var a, k := asked[i], RuleClass(asked[i]);
      var was := SeededRule(cur, asked, out, i);
      FirstOfNormSide(out, k);
      if HasOperations(a) {
        CoversNorm(out[i].operations, a.operations);
        CoversAgain(out[i].operations, a.operations);
      } else {
        OperationsInClass(cur, asked, out, k);
        OnlyOneAsked(asked, i);
      }
    }
  }

  lemma SomeOperationsNamed(side: seq<Rule>, k: Json)
    ensures SomeOperations(side, k) <==> exists id :: NamesIn(side, k, id)
  {
    if SomeOperations(side, k) {
      var x :| x in side && RuleClass(x) == k && HasOperations(x);
      assert x.operations[|x.operations| - 1].id in Ids(x.operations);
      assert NamesIn(side, k, x.operations[|x.operations| - 1].id);
    }
  }

  /** Of class k, the merged side has a rule with operations exactly when one of the two sides had. */
  lemma {:induction false} OperationsInClass(cur: seq<Rule>, asked: seq<Rule>, out: seq<Rule>, k: Json)
    requires IsMergedItems(cur, asked, out)
    ensures SomeOperations(out, k) <==> SomeOperations(cur, k) || SomeOperations(asked, k)
  {
    SomeOperationsNamed(cur, k);
    SomeOperationsNamed(asked, k);
    SomeOperationsNamed(out, k);
    forall id ensures NamesIn(out, k, id) <==> NamesIn(cur, k, id) || NamesIn(asked, k, id) {
      MergeUnitesOperations(cur, asked, out, k, id);
    }
  }

  lemma OnlyOneAsked(asked: seq<Rule>, i: nat)
    requires DistinctClasses(asked) && i < |asked|
    ensures forall x :: x in asked && RuleClass(x) == RuleClass(asked[i]) ==> x == asked[i]
  {
  }

  /**
    Once the merged policy has been stored, the test accepts the seed exactly when, besides,
    no rule of the seed is lost for want of operations; else every start rewrites the row.
   */
  lemma {:induction false} StoredTestAfterSeed(cur: Policy, seed: Policy, r: Policy)
    requires OneRulePerClass(seed) && IsMergeWithCondition(cur, seed, r)
    ensures SameWithCondition(Stored(r), seed) <==>
      && MinEnd(cur.endTime, seed.endTime) == seed.endTime && AllAgree(seed.rules.allow) && AllAgree(seed.rules.deny)
      && AllSurvive(cur.rules.allow, seed.rules.allow) && AllSurvive(cur.rules.deny, seed.rules.deny)
  {
    StoredSideTestAfterSeed(cur.rules.allow, seed.rules.allow, r.rules.allow);
    StoredSideTestAfterSeed(cur.rules.deny, seed.rules.deny, r.rules.deny);
  }
}

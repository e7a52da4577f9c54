/** Policies of the Authorization service: rules, operations, obligations, end times. */
module PolicyRules {
  import opened Values

  datatype Obligation = Obligation(typeId: string, id: string, value: Json)

  /** obligations is None for a nil slice. */
  datatype Operation = Operation(id: string, name: string, obligations: Option<seq<Obligation>>)

  datatype Rule = Rule(condition: Json, operations: seq<Operation>)

  datatype Rules = Rules(allow: seq<Rule>, deny: seq<Rule>)

  /** condition is the text column f_condition, which no rule refers to. */
  datatype Policy = Policy(
    id: string, resourceType: string, resourceId: string, resourceName: string,
    accessorId: string, accessorType: int, accessorName: string,
    rules: Rules, condition: string, endTime: int)

  // ------------------------------------------------------------------ conditions

  const NO_CONDITION: Json := JObj(map[])

  /** isConditionEmpty: nil or the empty object. */
  predicate EmptyCondition(c: Json) {
    c == JNull || c == NO_CONDITION
  }

  predicate IsConditional(r: Rule) { !EmptyCondition(r.condition) }

  predicate IsUnconditional(r: Rule) { EmptyCondition(r.condition) }

  function Conditional(side: seq<Rule>): (rs: seq<Rule>) {
    Filter(IsConditional, side)
  }

  predicate AtMostOneUnconditional(side: seq<Rule>) {
    forall i, j :: 0 <= i < j < |side| ==> !(IsUnconditional(side[i]) && IsUnconditional(side[j]))
  }

  /** getPolicyNoConditionOperations, for one side: the first unconditional rule's operations. */
  function Unconditional(side: seq<Rule>): (ops: seq<Operation>) {
    if side == [] then [] else if IsUnconditional(side[0]) then side[0].operations else Unconditional(side[1..])
  }

  /** The rules whose condition is neither nil nor the empty object, in order. */
  ghost function Guarded(side: seq<Rule>): (rs: seq<Rule>) {
    if side == [] then [] else
    (if side[0].condition == JNull || side[0].condition == JObj(map[]) then [] else [side[0]]) + Guarded(side[1..])
  }

  lemma {:induction false} ConditionalIsGuarded(side: seq<Rule>)
    ensures Conditional(side) == Guarded(side)
  {
    if side != [] {
      ConditionalIsGuarded(side[1..]);
      assert side == [side[0]] + side[1..];
      FilterAppend(IsConditional, [side[0]], side[1..]);
      FilterOne(IsConditional, side[0]);
    }
  }

  /** There are none exactly when every condition is nil or the empty object. */
  lemma {:induction false} NothingGuarded(side: seq<Rule>)
    ensures Guarded(side) == [] <==> forall r :: r in side ==> r.condition == JNull || r.condition == JObj(map[])
  {
    if side != [] {
      NothingGuarded(side[1..]);
      assert side == [side[0]] + side[1..];
    }
  }

  lemma {:induction false} UnconditionalAt(side: seq<Rule>, k: nat)
    requires k < |side| && (side[k].condition == JNull || side[k].condition == JObj(map[]))
    requires forall i :: 0 <= i < k ==> side[i].condition != JNull && side[i].condition != JObj(map[])
    ensures Unconditional(side) == side[k].operations
  {
    if k > 0 { UnconditionalAt(side[1..], k - 1); }
  }

  lemma {:induction false} UnconditionalNone(side: seq<Rule>)
    requires forall r :: r in side ==> r.condition != JNull && r.condition != JObj(map[])
    ensures Unconditional(side) == []
  {
    if side != [] {
      assert side[0] in side;
      UnconditionalNone(side[1..]);
    }
  }

  // ------------------------------------------------------------------ operations

  /** The map a loop builds that lets a later entry overwrite an earlier one. */
  function LastMap(ops: seq<Operation>): (m: map<string, Operation>) {
    if ops == [] then map[] else
    var last := ops[|ops| - 1];
    LastMap(ops[..|ops| - 1])[last.id := last]
  }

  /** The map a loop builds that keeps what is already there. */
  function FirstMap(ops: seq<Operation>): (m: map<string, Operation>) {
    if ops == [] then map[] else
    var m, last := FirstMap(ops[..|ops| - 1]), ops[|ops| - 1];
    if last.id in m then m else m[last.id := last]
  }

  function Ids(ops: seq<Operation>): (ids: set<string>) {
    LastMap(ops).Keys
  }

  /** Every entry is under its id and comes from the list. */
  predicate Indexes(m: map<string, Operation>, ops: seq<Operation>) {
    forall k :: k in m ==> m[k].id == k && m[k] in ops
  }

  lemma IndexesMore(m: map<string, Operation>, init: seq<Operation>, last: Operation)
    requires Indexes(m, init)
    ensures Indexes(m, init + [last]) && Indexes(m[last.id := last], init + [last])
  {
    assert last in init + [last];
    assert forall x :: x in init ==> x in init + [last];
  }

  lemma {:induction false} MapIndexes(ops: seq<Operation>)
    ensures Indexes(LastMap(ops), ops) && Indexes(FirstMap(ops), ops)
    ensures FirstMap(ops).Keys == LastMap(ops).Keys
  {
    if ops != [] {
      var init, last := ops[..|ops| - 1], ops[|ops| - 1];
      MapIndexes(init);
      IndexesMore(LastMap(init), init, last);
      IndexesMore(FirstMap(init), init, last);
      assert ops == init + [last];
    }
  }

  lemma {:induction false} MapCovers(ops: seq<Operation>)
    ensures forall i :: 0 <= i < |ops| ==> ops[i].id in LastMap(ops)
  {
    if ops != [] {
      MapCovers(ops[..|ops| - 1]);
    }
  }

  /** A later entry overwrites an earlier one. */
  lemma {:induction false} LastMapHasLast(ops: seq<Operation>, i: nat)
    requires i < |ops| && forall j :: i < j < |ops| ==> ops[j].id != ops[i].id
    ensures ops[i].id in LastMap(ops) && LastMap(ops)[ops[i].id] == ops[i]
  {
    if i < |ops| - 1 { LastMapHasLast(ops[..|ops| - 1], i); }
  }

  /** An earlier entry stays. */
  lemma {:induction false} FirstMapHasFirst(ops: seq<Operation>, i: nat)
    requires i < |ops| && forall j :: 0 <= j < i ==> ops[j].id != ops[i].id
    ensures ops[i].id in FirstMap(ops) && FirstMap(ops)[ops[i].id] == ops[i]
  {
    if i < |ops| - 1 {
      FirstMapHasFirst(ops[..|ops| - 1], i);
    } else {
      MapIndexes(ops[..i]);
      assert ops[i].id !in FirstMap(ops[..i]);
    }
  }

  lemma MapFacts(ops: seq<Operation>)
    ensures FirstMap(ops).Keys == Ids(ops)
    ensures forall i :: 0 <= i < |ops| ==> ops[i].id in Ids(ops)
    ensures forall k :: k in LastMap(ops) ==> LastMap(ops)[k].id == k && LastMap(ops)[k] in ops
    ensures forall k :: k in FirstMap(ops) ==> FirstMap(ops)[k].id == k && FirstMap(ops)[k] in ops
  {
    MapIndexes(ops);
    MapCovers(ops);
  }

  /** A nil list and an empty one ask for the same. */
  function Listed(obligations: Option<seq<Obligation>>): (l: seq<Obligation>) {
    match obligations case None => [] case Some(l) => l
  }

  predicate ObligationsEqual(a: Option<seq<Obligation>>, b: Option<seq<Obligation>>) {
    if |Listed(a)| == 0 && |Listed(b)| == 0 then true else a == b
  }

  /** obligationsEqual compares what the lists ask for. */
  lemma ObligationsEqualIsListedEqual(a: Option<seq<Obligation>>, b: Option<seq<Obligation>>)
    ensures ObligationsEqual(a, b) <==> Listed(a) == Listed(b)
  {
  }

  type Duties = map<string, seq<Obligation>>

  function DutiesOf(m: map<string, Operation>): (d: Duties) {
    map k | k in m :: Listed(m[k].obligations)
  }

  /** What a list of operations means: every listed operation with its obligations. */
  function Meaning(ops: seq<Operation>): (d: Duties)
    ensures d.Keys == Ids(ops)
  {
    DutiesOf(LastMap(ops))
  }

  /** The obligations an operation means are those of its last entry. */
  lemma {:induction false} MeaningIsLast(ops: seq<Operation>, i: nat)
    requires i < |ops| && forall j :: i < j < |ops| ==> ops[j].id != ops[i].id
    ensures ops[i].id in Meaning(ops)
    ensures Meaning(ops)[ops[i].id] == match ops[i].obligations case None => [] case Some(l) => l
  {
    LastMapHasLast(ops, i);
  }

  /** No operation is listed twice with different obligations. */
  predicate Consistent(ops: seq<Operation>) {
    DutiesOf(FirstMap(ops)) == DutiesOf(LastMap(ops))
  }

  /** ops lists the entries of m, each once, in any order (a Go map iteration). */
  predicate Lists(ops: seq<Operation>, m: map<string, Operation>) {
    && Ids(ops) == m.Keys
    && (forall i :: 0 <= i < |ops| ==> ops[i].id in m && m[ops[i].id] == ops[i])
    && (forall i, j :: 0 <= i < j < |ops| ==> ops[i].id != ops[j].id)
  }

  lemma ListedEntry(ops: seq<Operation>, m: map<string, Operation>, x: Operation)
    requires Lists(ops, m) && x in ops
    ensures x.id in m && m[x.id] == x
  {
  }

  lemma {:induction false} ListedMaps(ops: seq<Operation>, m: map<string, Operation>)
    requires Lists(ops, m)
    ensures LastMap(ops) == m && FirstMap(ops) == m && Consistent(ops)
  {
    var l, f := LastMap(ops), FirstMap(ops);
    MapFacts(ops);
    forall k | k in m ensures l[k] == m[k] && f[k] == m[k] {
      ListedEntry(ops, m, l[k]);
      ListedEntry(ops, m, f[k]);
    }
    assert l == m && f == m;
  }

  // ------------------------------------------------------------------ end times

  const FOREVER := -1

  predicate NoLater(a: int, b: int) {
    b == FOREVER || (a != FOREVER && a <= b)
  }

  /** calcMinEndTime */
  function MinEnd(a: int, b: int): (e: int)
    ensures NoLater(e, a) && NoLater(e, b) && (e == a || e == b)
  {
    if a == FOREVER then b else if b == FOREVER then a else if a < b then a else b
  }

  // ------------------------------------------------------------------ grants

  /** What the unconditional part of a policy grants. */
  datatype Grant = Grant(allow: Duties, deny: Duties, endTime: int)

  function GrantOf(p: Policy): (g: Grant) {
    Grant(Meaning(Unconditional(p.rules.allow)), Meaning(Unconditional(p.rules.deny)), p.endTime)
  }

  function AllowIds(p: Policy): (ids: set<string>) { Ids(Unconditional(p.rules.allow)) }

  function DenyIds(p: Policy): (ids: set<string>) { Ids(Unconditional(p.rules.deny)) }

  /** Each side has one unconditional rule at most, and no operation is on both sides. */
  predicate WellSided(p: Policy) {
    && AtMostOneUnconditional(p.rules.allow) && AtMostOneUnconditional(p.rules.deny)
    && AllowIds(p) !! DenyIds(p)
  }
}

/**
  Which obligation types apply to the operations of a resource type, and which obligations
  a query lists for them: nested loops filling buckets, proved to be a relational join.
 */
module ObligationQuery {
  import opened Values

  datatype OperationsScope = OperationsScope(unlimited: bool, operations: seq<string>)

  datatype TypeScope = TypeScope(resourceTypeId: string, operationsScope: OperationsScope)

  datatype ObligationType = ObligationType(id: string, name: string, unlimited: bool, types: seq<TypeScope>)

  datatype ResourceType = ResourceType(operations: seq<string>)

  type Buckets = map<string, seq<ObligationType>>

  // ------------------------------------------------------------------ the scope rules

  /** The first entry for the resource type decides. */
  function ScopeFor(types: seq<TypeScope>, rt: string): (s: Option<OperationsScope>)
    ensures s.None? <==> forall i :: 0 <= i < |types| ==> types[i].resourceTypeId != rt
  {
    if types == [] then None
    else if types[0].resourceTypeId == rt then Some(types[0].operationsScope)
    else ScopeFor(types[1..], rt)
  }

  /** An obligation type applies: everywhere, to every operation of the type, or to the listed ones. */
  predicate Applies(t: ObligationType, rt: string, op: string) {
    t.unlimited || match ScopeFor(t.types, rt)
      case None => false
      case Some(s) => s.unlimited || op in s.operations
  }

  function Applying(rt: string, op: string): (p: ObligationType -> bool) {
    t => Applies(t, rt, op)
  }

  function Occurrences(xs: seq<string>, x: string): (n: nat)
    ensures n > 0 <==> x in xs
  {
    if xs == [] then 0 else Occurrences(xs[..|xs| - 1], x) + if xs[|xs| - 1] == x then 1 else 0
  }

  function Copies(t: ObligationType, n: nat): (r: seq<ObligationType>)
    ensures |r| == n && forall i :: 0 <= i < n ==> r[i] == t
  {
    seq(n, _ => t)
  }

  /** How often the loops append t to the bucket of op. */
  function Times(t: ObligationType, rt: string, ops: seq<string>, op: string): (n: nat) {
    if t.unlimited then Occurrences(ops, op) else
    match ScopeFor(t.types, rt)
    case None => 0
    case Some(s) => if s.unlimited then Occurrences(ops, op) else Occurrences(s.operations, op) * Occurrences(ops, op)
  }

  function Bucket(types: seq<ObligationType>, rt: string, ops: seq<string>, op: string): (r: seq<ObligationType>) {
    if types == [] then [] else
    var t := types[|types| - 1];
    Bucket(types[..|types| - 1], rt, ops, op) + Copies(t, Times(t, rt, ops, op))
  }

  // ------------------------------------------------------------------ getOperationSet

  /** Every bucket of m grew by the given number of copies of t. */
  ghost predicate Grown(m: Buckets, m': Buckets, t: ObligationType, times: string -> nat) {
    m'.Keys == m.Keys && forall k :: k in m ==> m'[k] == m[k] + Copies(t, times(k))
  }

  method AppendToEach(m: Buckets, ops: seq<string>, t: ObligationType) returns (m': Buckets)
    requires forall i :: 0 <= i < |ops| ==> ops[i] in m
    ensures Grown(m, m', t, k => Occurrences(ops, k))
  {
    m' := m;
    for i := 0 to |ops|
      invariant Grown(m, m', t, k => Occurrences(ops[..i], k))
    {
      assert ops[..i + 1][..i] == ops[..i];
      m' := m'[ops[i] := m'[ops[i]] + [t]];
    }
    assert ops[..|ops|] == ops;
  }

  method AppendToEqual(m: Buckets, x: string, ops: seq<string>, t: ObligationType) returns (m': Buckets)
    requires forall i :: 0 <= i < |ops| ==> ops[i] in m
    ensures Grown(m, m', t, k => if k == x then Occurrences(ops, k) else 0)
  {
    m' := m;
    for j := 0 to |ops|
      invariant Grown(m, m', t, k => if k == x then Occurrences(ops[..j], k) else 0)
    {
      assert ops[..j + 1][..j] == ops[..j];
      if x == ops[j] {
        m' := m'[ops[j] := m'[ops[j]] + [t]];
      }
    }
    assert ops[..|ops|] == ops;
  }

  method AppendToMatching(m: Buckets, listed: seq<string>, ops: seq<string>, t: ObligationType) returns (m': Buckets)
    requires forall i :: 0 <= i < |ops| ==> ops[i] in m
    ensures Grown(m, m', t, k => Occurrences(listed, k) * Occurrences(ops, k))
  {
    m' := m;
    for i := 0 to |listed|
      invariant Grown(m, m', t, k => Occurrences(listed[..i], k) * Occurrences(ops, k))
    {
      ghost var before := m';
      m' := AppendToEqual(m', listed[i], ops, t);
      OneMoreRound(m, before, m', t, listed, i, ops);
    }
    assert listed[..|listed|] == listed;
  }

  lemma CopiesAdd(s: seq<ObligationType>, t: ObligationType, a: nat, b: nat)
    ensures s + Copies(t, a) + Copies(t, b) == s + Copies(t, a + b)
  {
  }

  lemma GrownTwice(m: Buckets, before: Buckets, m': Buckets, t: ObligationType, f: string -> nat, g: string -> nat, h: string -> nat)
    requires Grown(m, before, t, f) && Grown(before, m', t, g) && forall k :: k in m ==> h(k) == f(k) + g(k)
    ensures Grown(m, m', t, h)
  {
    forall k | k in m ensures m'[k] == m[k] + Copies(t, h(k)) {
      CopiesAdd(m[k], t, f(k), g(k));
    }
  }

  lemma OneMoreOccurrence(xs: seq<string>, i: nat, k: string, n: nat)
    requires i < |xs|
    ensures Occurrences(xs[..i + 1], k) * n == Occurrences(xs[..i], k) * n + if k == xs[i] then n else 0
  {
    assert xs[..i + 1][..i] == xs[..i];
    var a := Occurrences(xs[..i], k);
    assert (a + 1) * n == a * n + n;
  }

  lemma OneMoreRound(m: Buckets, before: Buckets, m': Buckets, t: ObligationType, listed: seq<string>, i: nat, ops: seq<string>)
    requires i < |listed|
    requires Grown(m, before, t, k => Occurrences(listed[..i], k) * Occurrences(ops, k))
    requires Grown(before, m', t, k => if k == listed[i] then Occurrences(ops, k) else 0)
    ensures Grown(m, m', t, k => Occurrences(listed[..i + 1], k) * Occurrences(ops, k))
  {
    var f := k => Occurrences(listed[..i], k) * Occurrences(ops, k);
    var g := k => if k == listed[i] then Occurrences(ops, k) else 0;
    var h := k => Occurrences(listed[..i + 1], k) * Occurrences(ops, k);
    forall k | k in m ensures h(k) == f(k) + g(k) {
      OneMoreOccurrence(listed, i, k, Occurrences(ops, k));
    }
    GrownTwice(m, before, m', t, f, g, h);
  }

  function Empty(ops: seq<string>): (m: Buckets)
    ensures forall k :: k in m <==> k in ops
    ensures forall k :: k in m ==> m[k] == []
  {
    if ops == [] then map[] else Empty(ops[..|ops| - 1])[ops[|ops| - 1] := []]
  }

  ghost predicate Filled(m: Buckets, types: seq<ObligationType>, rt: string, ops: seq<string>) {
    (forall k :: k in m <==> k in ops) && forall k :: k in m ==> m[k] == Bucket(types, rt, ops, k)
  }

  /** One obligation type: what the body of the outer loop does to the buckets. */
  method AddType(m: Buckets, rt: string, ops: seq<string>, t: ObligationType) returns (m': Buckets)
    requires forall i :: 0 <= i < |ops| ==> ops[i] in m
    ensures Grown(m, m', t, k => Times(t, rt, ops, k))
  {
    if t.unlimited {
      m' := AppendToEach(m, ops, t);
      return;
    }
    var found := FindScope(t.types, rt);
    if found.None? {
      return m;
    }
    if found.value.unlimited {
      m' := AppendToEach(m, ops, t);
      return;
    }
    m' := AppendToMatching(m, found.value.operations, ops, t);
  }

  method FindScope(types: seq<TypeScope>, rt: string) returns (s: Option<OperationsScope>)
    ensures s == ScopeFor(types, rt)
  {
    for i := 0 to |types|
      invariant ScopeFor(types, rt) == ScopeFor(types[i..], rt)
    {
      if types[i].resourceTypeId == rt {
        return Some(types[i].operationsScope);
      }
      assert types[i..][1..] == types[i + 1..];
    }
    s := None;
  }

  lemma FilledMore(m: Buckets, m': Buckets, types: seq<ObligationType>, i: nat, rt: string, ops: seq<string>)
    requires i < |types| && Filled(m, types[..i], rt, ops) && Grown(m, m', types[i], k => Times(types[i], rt, ops, k))
    ensures Filled(m', types[..i + 1], rt, ops)
  {
    assert types[..i + 1][..i] == types[..i];
  }

  method GetOperationSet(rt: string, ops: seq<string>, types: seq<ObligationType>) returns (m: Buckets)
    ensures Filled(m, types, rt, ops)
  {
    m := map[];
    for i := 0 to |ops|
      invariant m == Empty(ops[..i])
    {
      assert ops[..i + 1][..i] == ops[..i];
      m := m[ops[i] := []];
    }
    assert ops[..|ops|] == ops;
    for i := 0 to |types|
      invariant Filled(m, types[..i], rt, ops)
    {
      ghost var before := m;
      m := AddType(m, rt, ops, types[i]);
      FilledMore(before, m, types, i, rt, ops);
    }
    assert types[..|types|] == types;
  }

  // ------------------------------------------------------------------ buckets are filters

  lemma {:induction false} BucketMembers(types: seq<ObligationType>, rt: string, ops: seq<string>, op: string, t: ObligationType)
    requires op in ops
    ensures t in Bucket(types, rt, ops, op) <==> t in types && Applies(t, rt, op)
    ensures t in Bucket(types, rt, ops, op) <==> t in types && InScope(t, rt, op)
  {
    AppliesInScope(t, rt, op);
    if types != [] {
      var init, last := types[..|types| - 1], types[|types| - 1];
      BucketMembers(init, rt, ops, op, t);
      assert t in types <==> t in init || t == last;
      TimesPositive(last, rt, ops, op);
      var more := Copies(last, Times(last, rt, ops, op));
      assert t in more <==> t == last && |more| > 0 by {
        if |more| > 0 { assert more[0] == last; }
      }
    }
  }

  lemma TimesPositive(t: ObligationType, rt: string, ops: seq<string>, op: string)
    requires op in ops
    ensures Times(t, rt, ops, op) > 0 <==> Applies(t, rt, op)
  {
  }

  /** Entry i is the first one for the resource type. */
  ghost predicate DecidesFor(types: seq<TypeScope>, rt: string, i: nat) {
    i < |types| && types[i].resourceTypeId == rt && forall j :: 0 <= j < i ==> types[j].resourceTypeId != rt
  }

  lemma {:induction false} ScopeForIsFirst(types: seq<TypeScope>, rt: string, i: nat)
    requires DecidesFor(types, rt, i)
    ensures ScopeFor(types, rt) == Some(types[i].operationsScope)
  {
    if i > 0 { ScopeForIsFirst(types[1..], rt, i - 1); }
  }

  lemma {:induction false} SomeDecides(types: seq<TypeScope>, rt: string) returns (i: nat)
    requires exists j :: 0 <= j < |types| && types[j].resourceTypeId == rt
    ensures DecidesFor(types, rt, i)
  {
    i := 0;
    if types[0].resourceTypeId != rt {
      var j :| 0 <= j < |types| && types[j].resourceTypeId == rt;
      assert types[1..][j - 1].resourceTypeId == rt;
      i := SomeDecides(types[1..], rt);
      i := i + 1;
      assert forall k :: 0 < k < i ==> types[k] == types[1..][k - 1];
    }
  }

  predicate ScopeCovers(s: OperationsScope, op: string) {
    s.unlimited || op in s.operations
  }

  /** The scope rules written out: everywhere, or as the first entry for the resource type says. */
  ghost predicate InScope(t: ObligationType, rt: string, op: string) {
    t.unlimited || exists i: nat :: DecidesFor(t.types, rt, i) && ScopeCovers(t.types[i].operationsScope, op)
  }

  lemma {:induction false} AppliesInScope(t: ObligationType, rt: string, op: string)
    ensures Applies(t, rt, op) <==> InScope(t, rt, op)
  {
    forall i: nat | DecidesFor(t.types, rt, i) ensures ScopeFor(t.types, rt) == Some(t.types[i].operationsScope) {
      ScopeForIsFirst(t.types, rt, i);
    }
    if exists j :: 0 <= j < |t.types| && t.types[j].resourceTypeId == rt {
      var i := SomeDecides(t.types, rt);
    }
  }

  lemma {:induction false} OccurrencesCount(xs: seq<string>, x: string)
    ensures Occurrences(xs, x) == multiset(xs)[x]
  {
    if xs != [] {
      var init, last := xs[..|xs| - 1], xs[|xs| - 1];
      OccurrencesCount(init, x);
      assert xs == init + [last];
    }
  }

  lemma {:induction false} CopiesCount(t: ObligationType, n: nat, x: ObligationType)
    ensures multiset(Copies(t, n))[x] == if x == t then n else 0
  {
    if n > 0 {
      CopiesCount(t, n - 1, x);
      assert Copies(t, n) == Copies(t, n - 1) + [t];
    }
  }

  /** How often an entry makes the loops append, for one asked operation. */
  function Repeats(s: OperationsScope, op: string): (n: nat) {
    if s.unlimited then 1 else multiset(s.operations)[op]
  }

  lemma {:induction false} TimesAre(t: ObligationType, rt: string, ops: seq<string>, op: string)
    ensures t.unlimited ==> Times(t, rt, ops, op) == multiset(ops)[op]
    ensures forall i: nat :: !t.unlimited && DecidesFor(t.types, rt, i) ==>
      Times(t, rt, ops, op) == Repeats(t.types[i].operationsScope, op) * multiset(ops)[op]
    ensures !t.unlimited && (forall i :: 0 <= i < |t.types| ==> t.types[i].resourceTypeId != rt) ==> Times(t, rt, ops, op) == 0
  {
    OccurrencesCount(ops, op);
    forall i: nat | !t.unlimited && DecidesFor(t.types, rt, i)
      ensures Times(t, rt, ops, op) == Repeats(t.types[i].operationsScope, op) * multiset(ops)[op]
    {
      ScopeForIsFirst(t.types, rt, i);
      OccurrencesCount(t.types[i].operationsScope.operations, op);
    }
  }

  /** How often a bucket lists a type, whatever is named twice: an operation asked or listed twice counts twice. */
  lemma {:induction false} BucketCounts(types: seq<ObligationType>, rt: string, ops: seq<string>, op: string, t: ObligationType)
    ensures var n := multiset(Bucket(types, rt, ops, op))[t];
      && (t.unlimited ==> n == multiset(types)[t] * multiset(ops)[op])
      && (forall i: nat :: !t.unlimited && DecidesFor(t.types, rt, i) ==>
        n == multiset(types)[t] * (Repeats(t.types[i].operationsScope, op) * multiset(ops)[op]))
      && (!t.unlimited && (forall i :: 0 <= i < |t.types| ==> t.types[i].resourceTypeId != rt) ==> n == 0)
  {
    BucketTimes(types, rt, ops, op, t);
    TimesAre(t, rt, ops, op);
  }

  lemma {:induction false} BucketTimes(types: seq<ObligationType>, rt: string, ops: seq<string>, op: string, t: ObligationType)
    ensures multiset(Bucket(types, rt, ops, op))[t] == multiset(types)[t] * Times(t, rt, ops, op)
  {
    if types != [] {
      var init, last := types[..|types| - 1], types[|types| - 1];
      BucketTimes(init, rt, ops, op, t);
      CopiesCount(last, Times(last, rt, ops, op), t);
      CountSnoc(init, last, t);
      CountConcat(Bucket(init, rt, ops, op), Copies(last, Times(last, rt, ops, op)), t);
      assert types == init + [last];
      OneMoreTime(multiset(init)[t], Times(t, rt, ops, op));
    }
  }

  lemma CountSnoc(types: seq<ObligationType>, last: ObligationType, t: ObligationType)
    ensures multiset(types + [last])[t] == multiset(types)[t] + if last == t then 1 else 0
  {
  }

  lemma CountConcat(a: seq<ObligationType>, b: seq<ObligationType>, t: ObligationType)
    ensures multiset(a + b)[t] == multiset(a)[t] + multiset(b)[t]
  {
  }

  lemma OneMoreTime(a: nat, n: nat)
    ensures (a + 1) * n == a * n + n
  {
  }

  predicate Distinct<T(==)>(xs: seq<T>) {
    forall i, j :: 0 <= i < j < |xs| ==> xs[i] != xs[j]
  }

  lemma {:induction false} OccursOnce(xs: seq<string>, x: string)
    requires Distinct(xs)
    ensures Occurrences(xs, x) == if x in xs then 1 else 0
  {
    if xs != [] {
      OccursOnce(xs[..|xs| - 1], x);
    }
  }

  /** No entry lists an operation twice. */
  predicate ScopesDistinct(t: ObligationType) {
    forall i :: 0 <= i < |t.types| ==> Distinct(t.types[i].operationsScope.operations)
  }

  lemma ScopeForIsListed(types: seq<TypeScope>, rt: string)
    ensures ScopeFor(types, rt).Some? ==>
      exists i :: 0 <= i < |types| && types[i].operationsScope == ScopeFor(types, rt).value
  {
    if types != [] && types[0].resourceTypeId != rt {
      ScopeForIsListed(types[1..], rt);
    }
  }

  lemma {:induction false} TimesOnce(t: ObligationType, rt: string, ops: seq<string>, op: string)
    requires op in ops && Distinct(ops) && ScopesDistinct(t)
    ensures Times(t, rt, ops, op) == if Applies(t, rt, op) then 1 else 0
  {
    OccursOnce(ops, op);
    ScopeForIsListed(t.types, rt);
    if !t.unlimited && ScopeFor(t.types, rt).Some? {
      OccursOnce(ScopeFor(t.types, rt).value.operations, op);
    }
  }

  /** With distinct ids the bucket of an operation is the applying types in order. */
  lemma {:induction false} BucketIsFilter(types: seq<ObligationType>, rt: string, ops: seq<string>, op: string)
    requires op in ops && Distinct(ops) && forall i :: 0 <= i < |types| ==> ScopesDistinct(types[i])
    ensures Bucket(types, rt, ops, op) == Filter(Applying(rt, op), types)
  {
    if types != [] {
      var init, last := types[..|types| - 1], types[|types| - 1];
      BucketIsFilter(init, rt, ops, op);
      TimesOnce(last, rt, ops, op);
      assert Copies(last, 1) == [last] && Copies(last, 0) == [];
    }
  }

  // ------------------------------------------------------------------ Query and QueryV2

  function BucketsOf(types: seq<ObligationType>, rt: string, ops: seq<string>): (m: Buckets) {
    map k | k in ops :: Bucket(types, rt, ops, k)
  }

  /** What a query for one resource type answers; no operations asks for all of them. */
  function Queried(known: map<string, ResourceType>, types: seq<ObligationType>, rt: string, ops: seq<string>): (r: Result<Buckets>) {
    if rt !in known then Err("resource type not found")
    else if ops == [] then Ok(BucketsOf(types, rt, known[rt].operations))
    else if exists i :: 0 <= i < |ops| && ops[i] !in known[rt].operations then Err("operation not found")
    else Ok(BucketsOf(types, rt, ops))
  }

  /** GetByIDsInternal: the known ones among the ids. */
  function KnownAmong(known: map<string, ResourceType>, ids: seq<string>): (m: map<string, ResourceType>) {
    map k | k in known && k in ids :: known[k]
  }

  /** Every bucket holds exactly the types that are in scope. */
  ghost predicate ListsScope(m: Buckets, types: seq<ObligationType>, rt: string) {
    forall op, t :: op in m ==> (t in m[op] <==> t in types && InScope(t, rt, op))
  }

  lemma BucketsListScope(types: seq<ObligationType>, rt: string, ops: seq<string>)
    ensures ListsScope(BucketsOf(types, rt, ops), types, rt)
    ensures forall op :: op in BucketsOf(types, rt, ops) <==> op in ops
  {
    var m := BucketsOf(types, rt, ops);
    forall op, t | op in m ensures t in m[op] <==> t in types && InScope(t, rt, op) {
      BucketMembers(types, rt, ops, op, t);
    }
  }

  /** A query succeeds exactly for a known type and operations of it, and lists what is in scope. */
  lemma {:induction false} QuerySucceedsExactly(known: map<string, ResourceType>, types: seq<ObligationType>, rt: string, ops: seq<string>)
    ensures var r := Queried(known, types, rt, ops);
      && (r.Ok? <==> rt in known && forall i :: 0 <= i < |ops| ==> ops[i] in known[rt].operations)
      && (rt !in known ==> r == Err("resource type not found"))
      && (rt in known && r.Err? ==> r == Err("operation not found"))
      && (r.Ok? ==> forall op :: op in r.value <==> if ops == [] then op in known[rt].operations else op in ops)
      && (r.Ok? ==> ListsScope(r.value, types, rt))
  {
    if rt in known {
      BucketsListScope(types, rt, if ops == [] then known[rt].operations else ops);
    }
  }

  method Query(known: map<string, ResourceType>, types: seq<ObligationType>, rt: string, operation: seq<string>)
      returns (r: Result<Buckets>)
    ensures r == Queried(known, types, rt, operation)
  {
    var found := KnownAmong(known, [rt]);
    KnownKeys(known, [rt]);
    if |found| != 1 {
      return Err("resource type not found");
    }
    assert [rt][0] in known;
    var info := found[rt];
    var ops := operation;
    if |operation| == 0 {
      for i := 0 to |info.operations|
        invariant ops == info.operations[..i]
      {
        ops := ops + [info.operations[i]];
      }
      assert info.operations[..|info.operations|] == info.operations;
    } else {
      for i := 0 to |operation|
        invariant forall j :: 0 <= j < i ==> operation[j] in info.operations
      {
        if operation[i] !in info.operations {
          return Err("operation not found");
        }
      }
    }
    var m := GetOperationSet(rt, ops, types);
    assert m == BucketsOf(types, rt, ops);
    return Ok(m);
  }

  /** Every type known, none asked twice. */
  predicate AllKnown(known: map<string, ResourceType>, ids: seq<string>) {
    Distinct(ids) && forall i :: 0 <= i < |ids| ==> ids[i] in known
  }

  /** A query for several resource types, all operations of each. */
  function QueriedV2(known: map<string, ResourceType>, types: seq<ObligationType>, ids: seq<string>): (r: Result<map<string, Buckets>>) {
    if ids == [] then Err("resource type ids is empty")
    else if !AllKnown(known, ids) then Err("some resource types not found")
    else Ok(map k | k in known && k in ids :: BucketsOf(types, k, known[k].operations))
  }

  /** It succeeds exactly for one or more ids, all different and all known, and answers for each. */
  lemma {:induction false} QueryV2SucceedsExactly(known: map<string, ResourceType>, types: seq<ObligationType>, ids: seq<string>)
    ensures var r := QueriedV2(known, types, ids);
      && (r.Ok? <==> ids != [] && (forall i, j :: 0 <= i < j < |ids| ==> ids[i] != ids[j]) && forall i :: 0 <= i < |ids| ==> ids[i] in known)
      && (ids == [] ==> r == Err("resource type ids is empty"))
      && (ids != [] && r.Err? ==> r == Err("some resource types not found"))
      && (r.Ok? ==> forall k :: k in r.value <==> k in ids)
      && (r.Ok? ==> forall k, op :: k in r.value ==> (op in r.value[k] <==> op in known[k].operations))
      && (r.Ok? ==> forall k :: k in r.value ==> ListsScope(r.value[k], types, k))
  {
    forall k | k in known
      ensures ListsScope(BucketsOf(types, k, known[k].operations), types, k)
      ensures forall op :: op in BucketsOf(types, k, known[k].operations) <==> op in known[k].operations
    {
      BucketsListScope(types, k, known[k].operations);
    }
  }

  lemma KnownSnoc(known: map<string, ResourceType>, init: seq<string>, last: string)
    ensures |KnownAmong(known, init + [last])| == |KnownAmong(known, init)| + if last in known && last !in init then 1 else 0
  {
    var m, m' := KnownAmong(known, init), KnownAmong(known, init + [last]);
    if last in known && last !in init {
      assert m' == m[last := known[last]];
    } else {
      assert m' == m;
    }
  }

  lemma AllKnownSnoc(known: map<string, ResourceType>, init: seq<string>, last: string)
    ensures AllKnown(known, init + [last]) <==> AllKnown(known, init) && last in known && last !in init
  {
    var ids := init + [last];
    assert ids[|init|] == last;
    assert forall i :: 0 <= i < |init| ==> ids[i] == init[i];
  }

  lemma {:induction false} KnownKeys(known: map<string, ResourceType>, ids: seq<string>)
    ensures |KnownAmong(known, ids)| <= |ids|
    ensures |KnownAmong(known, ids)| == |ids| <==> AllKnown(known, ids)
  {
    if ids == [] {
      assert KnownAmong(known, ids) == map[];
    } else {
      var init, last := ids[..|ids| - 1], ids[|ids| - 1];
      KnownKeys(known, init);
      KnownSnoc(known, init, last);
      AllKnownSnoc(known, init, last);
      assert ids == init + [last];
    }
  }

  method QueryV2(known: map<string, ResourceType>, types: seq<ObligationType>, ids: seq<string>)
      returns (r: Result<map<string, Buckets>>)
    ensures r == QueriedV2(known, types, ids)
  {
    if |ids| == 0 {
      return Err("resource type ids is empty");
    }
    var found := KnownAmong(known, ids);
    KnownKeys(known, ids);
    if |found| != |ids| {
      return Err("some resource types not found");
    }
    var all: map<string, Buckets> := map[];
    var todo := found.Keys;
    while todo != {}
      invariant todo <= found.Keys
      invariant all == map k | k in found && k !in todo :: BucketsOf(types, k, found[k].operations)
      decreases |todo|
    {
      var k :| k in todo;
      var m := GetOperationSet(k, found[k].operations, types);
      assert m == BucketsOf(types, k, found[k].operations);
      all := all[k := m];
      todo := todo - {k};
    }
    assert all == map k | k in known && k in ids :: BucketsOf(types, k, known[k].operations);
    return Ok(all);
  }

  /** Asking for one resource type is asking for all its operations. */
  lemma V2OnOneType(known: map<string, ResourceType>, types: seq<ObligationType>, rt: string)
    ensures QueriedV2(known, types, [rt]).Ok? <==> Queried(known, types, rt, []).Ok?
    ensures Queried(known, types, rt, []).Ok? ==>
      QueriedV2(known, types, [rt]) == Ok(map[rt := Queried(known, types, rt, []).value])
  {
    assert [rt][0] == rt;
    if rt in known {
      var m := map k | k in known && k in [rt] :: BucketsOf(types, k, known[k].operations);
      assert m == map[rt := BucketsOf(types, rt, known[rt].operations)];
    }
  }

  // ------------------------------------------------------------------ obligations

  datatype ObligationInfo = ObligationInfo(id: string, typeId: string, name: string, value: Json)

  /** Reading a Go map of slices: a missing key is the nil slice. */
  function At<V>(m: map<string, seq<V>>, k: string): (s: seq<V>) {
    if k in m then m[k] else []
  }

  function HavingType(typeId: string): (p: ObligationInfo -> bool) {
    (o: ObligationInfo) => o.typeId == typeId
  }

  function OfType(table: seq<ObligationInfo>, typeId: string): (r: seq<ObligationInfo>) {
    Filter(HavingType(typeId), table)
  }

  predicate Passes(wanted: seq<string>, t: ObligationType) {
    wanted == [] || t.id in wanted
  }

  function Passing(wanted: seq<string>): (p: ObligationType -> bool) {
    t => Passes(wanted, t)
  }

  function Picked(types: seq<ObligationType>, wanted: seq<string>): (r: seq<ObligationType>) {
    Filter(Passing(wanted), types)
  }

  /** The obligations of the types, type by type. */
  function Joined(table: seq<ObligationInfo>, types: seq<ObligationType>): (r: seq<ObligationInfo>) {
    if types == [] then [] else Joined(table, types[..|types| - 1]) + OfType(table, types[|types| - 1].id)
  }

  method PickTypes(types: seq<ObligationType>, wanted: seq<string>, ids: set<string>) returns (r: seq<ObligationType>, ids': set<string>)
    requires wanted != []
    ensures r == Picked(types, wanted)
    ensures ids <= ids' && forall i :: 0 <= i < |r| ==> r[i].id in ids'
  {
    r, ids' := [], ids;
    for i := 0 to |types|
      invariant r == Picked(types[..i], wanted)
      invariant ids <= ids' && forall j :: 0 <= j < |r| ==> r[j].id in ids'
    {
      assert types[..i + 1][..i] == types[..i];
      if types[i].id in wanted {
        ids' := ids' + {types[i].id};
        r := r + [types[i]];
      }
    }
    assert types[..|types|] == types;
  }

  /** The types left after the filter, and their ids; an operation without any may lose its key. */
  ghost predicate Narrowed(m: Buckets, keys: set<string>, wanted: seq<string>, m': Buckets, ids: set<string>) {
    && m'.Keys <= m.Keys
    && (forall k :: k in keys ==> At(m', k) == Picked(At(m, k), wanted))
    && (forall k, i :: k in keys && k in m' && 0 <= i < |m'[k]| ==> m'[k][i].id in ids)
  }

  method CollectIds(types: seq<ObligationType>, ids: set<string>) returns (ids': set<string>)
    ensures ids <= ids' && forall i :: 0 <= i < |types| ==> types[i].id in ids'
  {
    ids' := ids;
    for i := 0 to |types|
      invariant ids <= ids' && forall j :: 0 <= j < i ==> types[j].id in ids'
    {
      ids' := ids' + {types[i].id};
    }
  }

  method NarrowTypes(m: Buckets, wanted: seq<string>) returns (m': Buckets, ids: set<string>)
    ensures Narrowed(m, m.Keys, wanted, m', ids)
  {
    ids := {};
    var todo := m.Keys;
    if |wanted| != 0 {
      m' := map[];
      while todo != {}
        invariant todo <= m.Keys && m'.Keys <= m.Keys - todo
        invariant Narrowed(m, m.Keys - todo, wanted, m', ids)
        decreases |todo|
      {
        var k :| k in todo;
        var picked;
        picked, ids := PickTypes(m[k], wanted, ids);
        if |picked| > 0 {
          m' := m'[k := picked];
        }
        todo := todo - {k};
      }
    } else {
      m' := m;
      while todo != {}
        invariant todo <= m.Keys
        invariant forall k, i :: k in m.Keys - todo && 0 <= i < |m[k]| ==> m[k][i].id in ids
        decreases |todo|
      {
        var k :| k in todo;
        ids := CollectIds(m[k], ids);
        todo := todo - {k};
      }
      forall k | k in m ensures Picked(m[k], wanted) == m[k] {
        FilterAll(Passing(wanted), m[k]);
      }
    }
    assert m.Keys - todo == m.Keys;
  }

  method GetByObligationTypeIDs(table: seq<ObligationInfo>, ids: set<string>) returns (m: map<string, seq<ObligationInfo>>)
    ensures forall id :: id in ids ==> At(m, id) == OfType(table, id)
  {
    m := map[];
    for i := 0 to |table|
      invariant forall id :: id in ids ==> At(m, id) == OfType(table[..i], id)
    {
      assert table[..i + 1][..i] == table[..i];
      var o := table[i];
      if o.typeId in ids {
        m := m[o.typeId := At(m, o.typeId) + [o]];
      }
    }
    assert table[..|table|] == table;
  }

  method JoinTypes(types: seq<ObligationType>, found: map<string, seq<ObligationInfo>>, ghost table: seq<ObligationInfo>)
      returns (r: seq<ObligationInfo>)
    requires forall i :: 0 <= i < |types| ==> At(found, types[i].id) == OfType(table, types[i].id)
    ensures r == Joined(table, types)
  {
    r := [];
    for i := 0 to |types|
      invariant r == Joined(table, types[..i])
    {
      assert types[..i + 1][..i] == types[..i];
      r := r + At(found, types[i].id);
    }
    assert types[..|types|] == types;
  }

  /** Every operation keeps its key; those without types keep an empty list. */
  method JoinAll(keys: set<string>, narrowed: Buckets, found: map<string, seq<ObligationInfo>>, ghost table: seq<ObligationInfo>)
      returns (all: map<string, seq<ObligationInfo>>)
    requires narrowed.Keys <= keys
    requires forall k, i :: k in narrowed && 0 <= i < |narrowed[k]| ==> At(found, narrowed[k][i].id) == OfType(table, narrowed[k][i].id)
    ensures all.Keys == keys && forall k :: k in keys ==> all[k] == Joined(table, At(narrowed, k))
  {
    all := map k | k in keys :: [];
    var todo := narrowed.Keys;
    while todo != {}
      invariant todo <= narrowed.Keys && all.Keys == keys
      invariant forall k :: k in keys ==> all[k] == if k in todo then [] else Joined(table, At(narrowed, k))
      decreases |todo|
    {
      var k :| k in todo;
      var more := JoinTypes(narrowed[k], found, table);
      all := all[k := all[k] + more];
      todo := todo - {k};
    }
  }

  function Answer(known: map<string, ResourceType>, types: seq<ObligationType>, table: seq<ObligationInfo>,
                  rt: string, ops: seq<string>, wanted: seq<string>): (r: Result<map<string, seq<ObligationInfo>>>)
  {
    match Queried(known, types, rt, ops)
    case Err(e) => Err(e)
    case Ok(m) => Ok(JoinedBuckets(m, wanted, table))
  }

  method QueryObligations(known: map<string, ResourceType>, types: seq<ObligationType>, table: seq<ObligationInfo>,
                          rt: string, ops: seq<string>, wanted: seq<string>)
      returns (r: Result<map<string, seq<ObligationInfo>>>)
    ensures r == Answer(known, types, table, rt, ops, wanted)
  {
    var q := Query(known, types, rt, ops);
    if q.Err? {
      return Err(q.message);
    }
    var m := q.value;
    var narrowed, ids := NarrowTypes(m, wanted);
    var all: map<string, seq<ObligationInfo>> := map k | k in m :: [];
    if |ids| != 0 {
      var found := GetByObligationTypeIDs(table, ids);
      all := JoinAll(m.Keys, narrowed, found, table);
    } else {
      NothingToJoin(m, wanted, narrowed, table);
    }
    JoinedMap(m, wanted, table, all);
    return Ok(all);
  }

  /** What is listed for each operation. */
  function JoinedBuckets(m: Buckets, wanted: seq<string>, table: seq<ObligationInfo>): (r: map<string, seq<ObligationInfo>>) {
    map k | k in m :: Joined(table, Picked(m[k], wanted))
  }

  lemma JoinedMap(m: Buckets, wanted: seq<string>, table: seq<ObligationInfo>, all: map<string, seq<ObligationInfo>>)
    requires all.Keys == m.Keys && forall k :: k in m ==> all[k] == Joined(table, Picked(m[k], wanted))
    ensures all == JoinedBuckets(m, wanted, table)
  {
  }

  lemma NothingToJoin(m: Buckets, wanted: seq<string>, narrowed: Buckets, table: seq<ObligationInfo>)
    requires Narrowed(m, m.Keys, wanted, narrowed, {})
    ensures forall k :: k in m ==> Joined(table, Picked(m[k], wanted)) == []
  {
    forall k | k in m ensures Joined(table, Picked(m[k], wanted)) == [] {
      var left := At(narrowed, k);
      assert left == Picked(m[k], wanted);
      if left != [] {
        HasIds(m, wanted, narrowed, {}, k);
      }
    }
  }

  lemma HasIds(m: Buckets, wanted: seq<string>, narrowed: Buckets, ids: set<string>, k: string)
    requires Narrowed(m, m.Keys, wanted, narrowed, ids) && k in m && At(narrowed, k) != []
    ensures ids != {}
  {
    assert narrowed[k][0].id in ids;
  }

  // ------------------------------------------------------------------ the query is a join

  lemma {:induction false} JoinedMembers(table: seq<ObligationInfo>, types: seq<ObligationType>, o: ObligationInfo)
    ensures o in Joined(table, types) <==> o in table && exists t :: t in types && t.id == o.typeId
  {
    if types != [] {
      var init, last := types[..|types| - 1], types[|types| - 1];
      JoinedMembers(table, init, o);
      assert types == init + [last];
      assert o in OfType(table, last.id) <==> o in table && o.typeId == last.id;
    }
  }

  /** Types in order, and within a type the rows in order. */
  lemma {:induction false} JoinedInOrder(table: seq<ObligationInfo>, a: seq<ObligationType>, t: ObligationType, b: seq<ObligationType>)
    ensures Joined(table, a + [t] + b) == Joined(table, a) + OfType(table, t.id) + Joined(table, b)
  {
    if b == [] {
      assert (a + [t] + b)[..|a|] == a;
    } else {
      var init, last := b[..|b| - 1], b[|b| - 1];
      JoinedInOrder(table, a, t, init);
      assert (a + [t] + b)[..|a + [t] + b| - 1] == a + [t] + init;
    }
  }

  /** The operations a successful query answers for. */
  function Asked(known: map<string, ResourceType>, rt: string, ops: seq<string>): (r: seq<string>)
    requires rt in known
  {
    if ops == [] then known[rt].operations else ops
  }

  lemma {:induction false} AnswerAt(known: map<string, ResourceType>, types: seq<ObligationType>, table: seq<ObligationInfo>,
                                    rt: string, ops: seq<string>, wanted: seq<string>)
    requires Answer(known, types, table, rt, ops, wanted).Ok?
    ensures rt in known
    ensures var r, all := Answer(known, types, table, rt, ops, wanted).value, Asked(known, rt, ops);
      && (forall op :: op in r <==> op in all)
      && (forall op :: op in r ==> r[op] == Joined(table, Picked(Bucket(types, rt, all, op), wanted)))
  {
    assert Queried(known, types, rt, ops) == Ok(BucketsOf(types, rt, Asked(known, rt, ops)));
  }

  lemma PickedMembers(types: seq<ObligationType>, rt: string, ops: seq<string>, op: string, wanted: seq<string>, t: ObligationType)
    requires op in ops
    ensures t in Picked(Bucket(types, rt, ops, op), wanted) <==> t in types && InScope(t, rt, op) && (wanted == [] || t.id in wanted)
  {
    BucketMembers(types, rt, ops, op, t);
  }

  /**
    The query succeeds exactly for a known type and operations of it; an obligation is then
    listed for an operation exactly when some type of it is in scope there and passes the filter.
   */
  lemma {:induction false} QueryIsJoin(known: map<string, ResourceType>, types: seq<ObligationType>, table: seq<ObligationInfo>,
                                       rt: string, ops: seq<string>, wanted: seq<string>, op: string, o: ObligationInfo)
    ensures Answer(known, types, table, rt, ops, wanted).Ok? <==> rt in known && forall i :: 0 <= i < |ops| ==> ops[i] in known[rt].operations
    ensures var r := Answer(known, types, table, rt, ops, wanted);
      && (r.Ok? ==> (op in r.value <==> if ops == [] then op in known[rt].operations else op in ops))
      && (r.Ok? && op in r.value ==> (o in r.value[op] <==> o in table && Related(types, rt, op, wanted, o)))
  {
    QuerySucceedsExactly(known, types, rt, ops);
    if Answer(known, types, table, rt, ops, wanted).Ok? {
      AnswerAt(known, types, table, rt, ops, wanted);
      var all := Asked(known, rt, ops);
      if op in all {
        JoinedMembers(table, Picked(Bucket(types, rt, all, op), wanted), o);
        forall t ensures t in Picked(Bucket(types, rt, all, op), wanted) <==> t in types && InScope(t, rt, op) && (wanted == [] || t.id in wanted) {
          PickedMembers(types, rt, all, op, wanted, t);
        }
      }
    }
  }

  ghost predicate Related(types: seq<ObligationType>, rt: string, op: string, wanted: seq<string>, o: ObligationInfo) {
    exists t :: t in types && t.id == o.typeId && InScope(t, rt, op) && (wanted == [] || t.id in wanted)
  }

  // ------------------------------------------------------------------ nothing is listed twice

  predicate DistinctIds(types: seq<ObligationType>) {
    forall i, j :: 0 <= i < j < |types| ==> types[i].id != types[j].id
  }

  lemma {:induction false} FilterDistinctIds(p: ObligationType -> bool, types: seq<ObligationType>)
    requires DistinctIds(types)
    ensures DistinctIds(Filter(p, types))
  {
    if types != [] {
      FilterDistinctIds(p, types[..|types| - 1]);
    }
  }

  lemma {:induction false} FilterDistinct<T>(p: T -> bool, xs: seq<T>)
    requires Distinct(xs)
    ensures Distinct(Filter(p, xs))
  {
    if xs != [] {
      FilterDistinct(p, xs[..|xs| - 1]);
    }
  }

  lemma DistinctConcat<T>(a: seq<T>, b: seq<T>)
    requires Distinct(a) && Distinct(b) && forall x :: x in a ==> x !in b
    ensures Distinct(a + b)
  {
    var c := a + b;
    forall i, j | 0 <= i < j < |c| ensures c[i] != c[j] {
      if i < |a| <= j {
        assert c[i] in a && c[j] == b[j - |a|];
      }
    }
  }

  lemma {:induction false} JoinedOnce(table: seq<ObligationInfo>, types: seq<ObligationType>)
    requires Distinct(table) && DistinctIds(types)
    ensures Distinct(Joined(table, types))
  {
    if types != [] {
      var init, last := types[..|types| - 1], types[|types| - 1];
      JoinedOnce(table, init);
      FilterDistinct(HavingType(last.id), table);
      forall o | o in Joined(table, init) ensures o !in OfType(table, last.id) {
        JoinedMembers(table, init, o);
      }
      DistinctConcat(Joined(table, init), OfType(table, last.id));
    }
  }

  /** When no id is repeated, a query lists every obligation at most once per operation. */
  lemma {:induction false} ListedOnce(known: map<string, ResourceType>, types: seq<ObligationType>, table: seq<ObligationInfo>,
                                      rt: string, ops: seq<string>, wanted: seq<string>, op: string)
    requires Answer(known, types, table, rt, ops, wanted).Ok? && op in Answer(known, types, table, rt, ops, wanted).value
    requires Distinct(table) && DistinctIds(types) && forall i :: 0 <= i < |types| ==> ScopesDistinct(types[i])
    requires rt in known && Distinct(Asked(known, rt, ops))
    ensures Distinct(Answer(known, types, table, rt, ops, wanted).value[op])
  {
    AnswerAt(known, types, table, rt, ops, wanted);
    PickedDistinct(types, rt, Asked(known, rt, ops), op, wanted);
    JoinedOnce(table, Picked(Bucket(types, rt, Asked(known, rt, ops), op), wanted));
  }

  lemma {:induction false} PickedDistinct(types: seq<ObligationType>, rt: string, ops: seq<string>, op: string, wanted: seq<string>)
    requires op in ops && Distinct(ops) && DistinctIds(types) && forall i :: 0 <= i < |types| ==> ScopesDistinct(types[i])
    ensures DistinctIds(Picked(Bucket(types, rt, ops, op), wanted))
  {
    BucketIsFilter(types, rt, ops, op);
    FilterDistinctIds(Applying(rt, op), types);
    var bucket := Bucket(types, rt, ops, op);
    assert DistinctIds(bucket);
    FilterDistinctIds(Passing(wanted), bucket);
    assert Picked(bucket, wanted) == Filter(Passing(wanted), bucket);
  }
}

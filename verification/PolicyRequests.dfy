/**
  What a whole sequence of Create and CreatePrivate requests leaves on one
  (resource type, resource, accessor), skipped requests included.
 */
module PolicyRequests {
  import opened Values
  import opened PolicyRules
  import opened PolicyMerge

  /** One request on one key: insert, skip, or merge; then the policy is as storage shows it. */
  ghost predicate CreateStep(s: Option<Policy>, req: Policy, t: Option<Policy>) {
    && t.Some?
    && match s
       case None => t.value == Stored(req.(id := t.value.id, accessorName := t.value.accessorName))
       case Some(p) => if SamePolicy(p, req) then t == s else exists r :: IsMerge(p, req, r) && t.value == Stored(r)
  }

  lemma {:induction false} StoredShows(p: Policy)
    requires WellSided(p)
    ensures WellSided(Stored(p)) && GrantOf(Stored(p)) == GrantOf(p)
    ensures AllowIds(Stored(p)) == AllowIds(p) && DenyIds(Stored(p)) == DenyIds(p)
    ensures ConsistentPolicy(Stored(p)) <==> ConsistentPolicy(p)
  {
    StoredSideShows(p.rules.allow);
    StoredSideShows(p.rules.deny);
  }

  function AllowedBy(s: Option<Policy>): (ids: set<string>) {
    match s case None => {} case Some(p) => AllowIds(p)
  }

  function DeniedBy(s: Option<Policy>): (ids: set<string>) {
    match s case None => {} case Some(p) => DenyIds(p)
  }

  lemma {:induction false} CreateStepIds(s: Option<Policy>, req: Policy, t: Option<Policy>)
    requires (s.Some? ==> WellSided(s.value)) && WellSided(req) && CreateStep(s, req, t)
    ensures WellSided(t.value)
    ensures DenyIds(t.value) == DeniedBy(s) + DenyIds(req)
    ensures AllowIds(t.value) == (AllowedBy(s) + AllowIds(req)) - DenyIds(t.value)
    ensures t.value.endTime == if s.None? then req.endTime else MinEnd(s.value.endTime, req.endTime)
  {
    if s.None? {
      StoredShows(req.(id := t.value.id, accessorName := t.value.accessorName));
    } else if SamePolicy(s.value, req) {
      CoversMeaning(Unconditional(s.value.rules.allow), Unconditional(req.rules.allow));
      CoversMeaning(Unconditional(s.value.rules.deny), Unconditional(req.rules.deny));
    } else {
      var r :| IsMerge(s.value, req, r) && t.value == Stored(r);
      MergeShows(s.value, req, r);
      MergeIds(s.value, req, r);
      StoredShows(r);
    }
  }

  lemma {:induction false} SkipIsCombine(cur: Policy, req: Policy)
    requires WellSided(cur) && SamePolicy(cur, req)
    ensures Combine(GrantOf(cur), GrantOf(req)) == GrantOf(cur)
  {
    CoversMeaning(Unconditional(cur.rules.allow), Unconditional(req.rules.allow));
    CoversMeaning(Unconditional(cur.rules.deny), Unconditional(req.rules.deny));
    var g, r := GrantOf(cur), GrantOf(req);
    assert g.deny + r.deny == g.deny && g.allow + r.allow == g.allow;
    RemoveNothing(g.allow, g.deny.Keys);
  }

  /** Skipped or merged, a request acts on the grant as Combine. */
  lemma {:induction false} CreateStepGrant(s: Option<Policy>, req: Policy, t: Option<Policy>)
    requires (s.Some? ==> WellSided(s.value) && ConsistentPolicy(s.value)) && CreateStep(s, req, t)
    requires WellSided(req) && ConsistentPolicy(req)
    ensures WellSided(t.value) && ConsistentPolicy(t.value)
    ensures GrantOf(t.value) == if s.None? then GrantOf(req) else Combine(GrantOf(s.value), GrantOf(req))
  {
    if s.None? {
      StoredShows(req.(id := t.value.id, accessorName := t.value.accessorName));
    } else if SamePolicy(s.value, req) {
      SkipIsCombine(s.value, req);
    } else {
      var r :| IsMerge(s.value, req, r) && t.value == Stored(r);
      MergeShows(s.value, req, r);
      MergeIsCombine(s.value, req, r);
      StoredShows(r);
    }
  }

  // ------------------------------------------------------------------ sequences of requests

  /** states[k] is what the key holds after the first k requests; nothing is there at first. */
  ghost predicate IsRun(states: seq<Option<Policy>>, reqs: seq<Policy>) {
    && |states| == |reqs| + 1 && states[0] == None
    && (forall i :: 0 <= i < |reqs| ==> WellSided(reqs[i]))
    && (forall i :: 0 <= i < |reqs| ==> CreateStep(states[i], reqs[i], states[i + 1]))
  }

  lemma {:induction false} RunMore(states: seq<Option<Policy>>, reqs: seq<Policy>, req: Policy, t: Option<Policy>)
    requires IsRun(states, reqs) && WellSided(req) && CreateStep(states[|reqs|], req, t)
    ensures IsRun(states + [t], reqs + [req])
  {
    var all, ss := reqs + [req], states + [t];
    forall i | 0 <= i < |all| ensures WellSided(all[i]) && CreateStep(ss[i], all[i], ss[i + 1]) {
      if i < |reqs| { assert CreateStep(states[i], reqs[i], states[i + 1]); }
    }
  }

  ghost predicate SomeDenies(reqs: seq<Policy>, k: string) {
    exists r :: r in reqs && k in DenyIds(r)
  }

  ghost predicate SomeAllows(reqs: seq<Policy>, k: string) {
    exists r :: r in reqs && k in AllowIds(r)
  }

  /** e is the earliest end time of the requests, -1 being later than all. */
  ghost predicate IsEarliestEnd(reqs: seq<Policy>, e: int) {
    && (exists r :: r in reqs && r.endTime == e)
    && (forall r :: r in reqs ==> NoLater(e, r.endTime))
  }

  ghost predicate Summed(reqs: seq<Policy>, p: Policy) {
    && (forall k :: k in DenyIds(p) <==> SomeDenies(reqs, k))
    && (forall k :: k in AllowIds(p) <==> SomeAllows(reqs, k) && !SomeDenies(reqs, k))
    && IsEarliestEnd(reqs, p.endTime)
  }

  lemma {:induction false} SummedAppend(reqs: seq<Policy>, req: Policy, k: string)
    ensures SomeDenies(reqs + [req], k) <==> SomeDenies(reqs, k) || k in DenyIds(req)
    ensures SomeAllows(reqs + [req], k) <==> SomeAllows(reqs, k) || k in AllowIds(req)
  {
    assert forall r :: r in reqs + [req] <==> r in reqs || r == req;
  }

  lemma {:induction false} EarliestEndAppend(reqs: seq<Policy>, req: Policy, e: int)
    requires IsEarliestEnd(reqs, e)
    ensures IsEarliestEnd(reqs + [req], MinEnd(e, req.endTime))
  {
    assert forall r :: r in reqs + [req] <==> r in reqs || r == req;
  }

  /**
    After any sequence of requests the denied operations are all that was ever denied, the
    allowed ones all that was ever allowed and never denied, the end time the earliest.
   */
  lemma {:induction false} RequestsSumUp(states: seq<Option<Policy>>, reqs: seq<Policy>, k: nat)
    requires IsRun(states, reqs) && 0 < k < |states|
    ensures states[k].Some? && WellSided(states[k].value) && Summed(reqs[..k], states[k].value)
  {
    var req, t := reqs[k - 1], states[k].value;
    var done := reqs[..k - 1];
    assert reqs[..k] == done + [req];
    assert CreateStep(states[k - 1], req, states[k]);
    if k == 1 {
      assert states[0] == None && done == [];
      assert req in reqs[..1] && forall r :: r in reqs[..1] ==> r == req;
    } else {
      RequestsSumUp(states, reqs, k - 1);
      EarliestEndAppend(done, req, states[k - 1].value.endTime);
    }
    CreateStepIds(states[k - 1], req, states[k]);
    forall x ensures x in DenyIds(t) <==> SomeDenies(reqs[..k], x) { SummedAppend(done, req, x); }
    forall x ensures x in AllowIds(t) <==> SomeAllows(reqs[..k], x) && !SomeDenies(reqs[..k], x) {
      SummedAppend(done, req, x);
    }
  }

  /** No later request lifts a denial. */
  lemma {:induction false} DenialsStay(states: seq<Option<Policy>>, reqs: seq<Policy>, i: nat, k: nat, x: string)
    requires IsRun(states, reqs) && i < k < |states| && x in DenyIds(reqs[i])
    ensures states[k].Some? && x in DenyIds(states[k].value) && x !in AllowIds(states[k].value)
  {
    RequestsSumUp(states, reqs, k);
    assert reqs[..k][i] == reqs[i] && reqs[i] in reqs[..k];
    assert SomeDenies(reqs[..k], x);
  }

  /** Two runs over the same requests, in any order and any number of times, agree. */
  lemma {:induction false} OrderDoesNotMatter(
      states: seq<Option<Policy>>, reqs: seq<Policy>, states': seq<Option<Policy>>, reqs': seq<Policy>)
    requires IsRun(states, reqs) && IsRun(states', reqs') && reqs != []
    requires forall r :: r in reqs <==> r in reqs'
    ensures var s, s' := states[|reqs|], states'[|reqs'|];
      && s.Some? && s'.Some? && DenyIds(s.value) == DenyIds(s'.value) && AllowIds(s.value) == AllowIds(s'.value)
      && s.value.endTime == s'.value.endTime
  {
    assert reqs[0] in reqs';
    RequestsSumUp(states, reqs, |reqs|);
    RequestsSumUp(states', reqs', |reqs'|);
    assert reqs[..|reqs|] == reqs && reqs'[..|reqs'|] == reqs';
    assert forall x :: SomeDenies(reqs, x) <==> SomeDenies(reqs', x);
    assert forall x :: SomeAllows(reqs, x) <==> SomeAllows(reqs', x);
  }

  // ------------------------------------------------------------------ obligations

  /** Nothing stored yet, or a policy whose sides are in order and list no id two ways. */
  ghost predicate InOrder(s: Option<Policy>) {
    s.Some? ==> WellSided(s.value) && ConsistentPolicy(s.value)
  }

  lemma {:induction false} InOrderStep(s: Option<Policy>, req: Policy, s': Option<Policy>)
    requires InOrder(s) && WellSided(req) && ConsistentPolicy(req) && CreateStep(s, req, s')
    ensures s'.Some? && InOrder(s')
  {
    CreateStepGrant(s, req, s');
  }

  lemma {:induction false} ConsistentAlong(states: seq<Option<Policy>>, reqs: seq<Policy>, k: nat)
    requires IsRun(states, reqs) && k < |states|
    requires forall i :: 0 <= i < |reqs| ==> ConsistentPolicy(reqs[i])
    ensures k > 0 ==> states[k].Some?
    ensures InOrder(states[k])
  {
    if k > 0 {
      ConsistentAlong(states, reqs, k - 1);
      InOrderStep(states[k - 1], reqs[k - 1], states[k]);
    }
  }

  function GrantIn(s: Option<Policy>): (g: Option<Grant>) {
    match s case None => None case Some(p) => Some(GrantOf(p))
  }

  /** A request sets the obligations of what it names and leaves the rest. */
  ghost predicate Follows(h: Option<Grant>, r: Grant, g: Option<Grant>) {
    && g.Some?
    && (forall x :: x in g.value.allow && x in r.allow ==> g.value.allow[x] == r.allow[x])
    && (forall x :: x in r.deny ==> x in g.value.deny && g.value.deny[x] == r.deny[x])
    && (h.Some? ==>
        && (forall x :: x in g.value.allow && x !in r.allow ==> x in h.value.allow && g.value.allow[x] == h.value.allow[x])
        && (forall x :: x in h.value.deny && x !in r.deny ==> x in g.value.deny && g.value.deny[x] == h.value.deny[x]))
  }

  lemma CombineFollows(h: Option<Grant>, r: Grant)
    ensures Follows(h, r, Some(if h.None? then r else Combine(h.value, r)))
  {
  }

  lemma {:induction false} GrantsFollow(states: seq<Option<Policy>>, reqs: seq<Policy>, k: nat)
    requires IsRun(states, reqs) && k < |reqs|
    requires forall i :: 0 <= i < |reqs| ==> ConsistentPolicy(reqs[i])
    ensures Follows(GrantIn(states[k]), GrantOf(reqs[k]), GrantIn(states[k + 1]))
  {
    ConsistentAlong(states, reqs, k);
    CreateStepGrant(states[k], reqs[k], states[k + 1]);
    CombineFollows(GrantIn(states[k]), GrantOf(reqs[k]));
  }

  lemma {:induction false} LatestGrantWins(gs: seq<Option<Grant>>, rs: seq<Grant>, i: nat, k: nat, x: string)
    requires |gs| == |rs| + 1 && i < k < |gs|
    requires forall j :: 0 <= j < |rs| ==> Follows(gs[j], rs[j], gs[j + 1])
    ensures gs[k].Some?
    ensures x in rs[i].allow && x in gs[k].value.allow && (forall j :: i < j < k ==> x !in rs[j].allow)
      ==> gs[k].value.allow[x] == rs[i].allow[x]
    ensures x in rs[i].deny && (forall j :: i < j < k ==> x !in rs[j].deny)
      ==> x in gs[k].value.deny && gs[k].value.deny[x] == rs[i].deny[x]
  {
    assert Follows(gs[k - 1], rs[k - 1], gs[k]);
    if i < k - 1 {
      LatestGrantWins(gs, rs, i, k - 1, x);
    }
  }

  /** An operation carries the obligations of the latest request that named it on its side. */
  lemma {:induction false} LatestRequestWins(states: seq<Option<Policy>>, reqs: seq<Policy>, i: nat, k: nat, x: string)
    requires IsRun(states, reqs) && i < k < |states|
    requires forall j :: 0 <= j < |reqs| ==> ConsistentPolicy(reqs[j])
    ensures states[k].Some?
    ensures var g, r := GrantOf(states[k].value), GrantOf(reqs[i]);
      && (x in r.allow && x in g.allow && (forall j :: i < j < k ==> x !in GrantOf(reqs[j]).allow)
          ==> g.allow[x] == r.allow[x])
      && (x in r.deny && (forall j :: i < j < k ==> x !in GrantOf(reqs[j]).deny)
          ==> x in g.deny && g.deny[x] == r.deny[x])
  {
    var gs, rs := Map(GrantIn, states), Map(GrantOf, reqs);
    forall j | 0 <= j < |rs| ensures Follows(gs[j], rs[j], gs[j + 1]) {
      GrantsFollow(states, reqs, j);
    }
    LatestGrantWins(gs, rs, i, k, x);
  }
}

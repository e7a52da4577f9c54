/** JSON values and the small vocabulary the other modules share. */
module Values {
  datatype Option<+T> = None | Some(value: T)

  datatype Result<+T> = Ok(value: T) | Err(message: string)

  type Bytes = seq<bv8>

  /** A value as a JSON decoder yields it; JNull is also Go's nil interface. */
  datatype Json =
    | JNull
    | JBool(b: bool)
    | JNum(n: real)
    | JStr(s: string)
    | JArr(items: seq<Json>)
    | JObj(fields: map<string, Json>)

  function Map<A, B>(f: A -> B, xs: seq<A>): (ys: seq<B>)
    ensures |ys| == |xs| && forall i :: 0 <= i < |xs| ==> ys[i] == f(xs[i])
  {
    seq(|xs|, i requires 0 <= i < |xs| => f(xs[i]))
  }

  lemma MapSnoc<A, B>(f: A -> B, xs: seq<A>, x: A)
    ensures Map(f, xs + [x]) == Map(f, xs) + [f(x)]
  {
  }

  lemma TakeAll<A>(xs: seq<A>)
    ensures xs[..|xs|] == xs && xs[..0] == []
  {
  }

  lemma TakeSnoc<A>(xs: seq<A>, i: nat)
    requires i < |xs|
    ensures xs[..i + 1] == xs[..i] + [xs[i]]
  {
  }

  function Filter<A>(p: A -> bool, xs: seq<A>): (ys: seq<A>)
    ensures forall i :: 0 <= i < |ys| ==> ys[i] in xs && p(ys[i])
    ensures forall i :: 0 <= i < |xs| && p(xs[i]) ==> xs[i] in ys
  {
    if xs == [] then [] else
    var init, last := xs[..|xs| - 1], xs[|xs| - 1];
    assert xs == init + [last];
    if p(last) then Filter(p, init) + [last] else Filter(p, init)
  }

  /** All the results of f, or nothing when one of them is missing. */
  function Traverse<A, B>(f: A -> Option<B>, xs: seq<A>): (r: Option<seq<B>>)
    ensures r.Some? ==> |r.value| == |xs| && forall i :: 0 <= i < |xs| ==> f(xs[i]) == Some(r.value[i])
    ensures r.None? ==> exists i :: 0 <= i < |xs| && f(xs[i]) == None
  {
    if xs == [] then Some([]) else
    var last := xs[|xs| - 1];
    match Traverse(f, xs[..|xs| - 1])
    case None => None
    case Some(ys) => match f(last) case None => None case Some(y) => Some(ys + [y])
  }

  lemma {:induction false} FilterAppend<A>(p: A -> bool, xs: seq<A>, ys: seq<A>)
    ensures Filter(p, xs + ys) == Filter(p, xs) + Filter(p, ys)
  {
    if ys == [] {
      assert xs + ys == xs;
    } else {
      var init := ys[..|ys| - 1];
      assert (xs + ys)[..|xs + ys| - 1] == xs + init;
      FilterAppend(p, xs, init);
    }
  }

  lemma {:induction false} FilterAll<A>(p: A -> bool, xs: seq<A>)
    requires forall x :: x in xs ==> p(x)
    ensures Filter(p, xs) == xs
  {
    if xs != [] {
      var init := xs[..|xs| - 1];
      assert forall x :: x in init ==> x in xs;
      FilterAll(p, init);
      assert xs == init + [xs[|xs| - 1]];
    }
  }

  lemma {:induction false} FilterNone<A>(p: A -> bool, xs: seq<A>)
    requires forall x :: x in xs ==> !p(x)
    ensures Filter(p, xs) == []
  {
    if xs != [] {
      var init := xs[..|xs| - 1];
      assert forall x :: x in init ==> x in xs;
      FilterNone(p, init);
    }
  }

  lemma FilterOne<A>(p: A -> bool, x: A)
    ensures Filter(p, [x]) == if p(x) then [x] else []
  {
    assert [x][..0] == [];
  }

  // ------------------------------------------------------------------ tables

  /** Run a list of updates by key; a key that is not in the table is passed over. */
  function Patch<R, Q>(f: (R, Q) -> R, key: Q -> string, rows: map<string, R>, qs: seq<Q>): (t: map<string, R>) {
    if qs == [] then rows else
    var t, q := Patch(f, key, rows, qs[..|qs| - 1]), qs[|qs| - 1];
    if key(q) in t then t[key(q) := f(t[key(q)], q)] else t
  }

  lemma {:induction false} PatchAppend<R, Q>(f: (R, Q) -> R, key: Q -> string, rows: map<string, R>, qs: seq<Q>, q: Q)
    ensures var t := Patch(f, key, rows, qs);
      Patch(f, key, rows, qs + [q]) == if key(q) in t then t[key(q) := f(t[key(q)], q)] else t
  {
    assert (qs + [q])[..|qs|] == qs;
  }

  /** With no key twice, each named row is updated once and no other row changes. */
  lemma {:induction false} PatchAt<R, Q>(f: (R, Q) -> R, key: Q -> string, rows: map<string, R>, qs: seq<Q>)
    requires forall i, j :: 0 <= i < j < |qs| ==> key(qs[i]) != key(qs[j])
    ensures var t := Patch(f, key, rows, qs);
      && t.Keys == rows.Keys
      && (forall i :: 0 <= i < |qs| && key(qs[i]) in rows ==> t[key(qs[i])] == f(rows[key(qs[i])], qs[i]))
      && (forall id :: id in rows && (forall i :: 0 <= i < |qs| ==> key(qs[i]) != id) ==> t[id] == rows[id])
  {
    if qs != [] {
      var init := qs[..|qs| - 1];
      PatchAt(f, key, rows, init);
      assert forall i :: 0 <= i < |init| ==> init[i] == qs[i];
    }
  }

  /** Of the named rows, keep the ones that keep, trimmed; leave the others alone. */
  function Trim<R>(keep: R -> bool, trim: R -> R, rows: map<string, R>, ids: set<string>): (t: map<string, R>) {
    map id | id in rows && (id !in ids || keep(rows[id])) :: if id in ids then trim(rows[id]) else rows[id]
  }

  lemma TrimMore<R>(keep: R -> bool, trim: R -> R, rows: map<string, R>, ids: set<string>, id: string)
    requires id in rows && id !in ids
    ensures var t := Trim(keep, trim, rows, ids);
      && id in t && t[id] == rows[id]
      && Trim(keep, trim, rows, ids + {id}) == if keep(rows[id]) then t[id := trim(rows[id])] else t - {id}
  {
  }

  lemma TrimNothing<R>(keep: R -> bool, trim: R -> R, rows: map<string, R>, ids: set<string>)
    requires ids !! rows.Keys
    ensures Trim(keep, trim, rows, ids) == rows
  {
  }

  lemma OneLessLeft<T>(all: set<T>, left: set<T>, x: T)
    requires x in left && left <= all
    ensures all - (left - {x}) == (all - left) + {x}
  {
  }
}

/**
  The storage form of rules: the JSON value written to f_operation, and the reader that
  turns it back.  Writing drops rules without operations and operation names, and writes a
  missing condition as {} and a nil obligation list as [].
 */
module PolicyCodec {
  import opened Values
  import opened PolicyRules

  // ------------------------------------------------------------------ writing

  function EncodeObligation(o: Obligation): (j: Json) {
    JObj(map["type_id" := JStr(o.typeId), "id" := JStr(o.id), "value" := o.value])
  }

  function EncodeOperation(op: Operation): (j: Json) {
    JObj(map["id" := JStr(op.id), "obligations" := JArr(Map(EncodeObligation, Listed(op.obligations)))])
  }

  /** makeConditionItem */
  function EncodeRule(r: Rule): (j: Json) {
    JObj(map["condition" := if r.condition == JNull then NO_CONDITION else r.condition,
             "operations" := JArr(Map(EncodeOperation, r.operations))])
  }

  predicate HasOperations(r: Rule) { |r.operations| > 0 }

  function EncodeSide(side: seq<Rule>): (js: seq<Json>) {
    Map(EncodeRule, Filter(HasOperations, side))
  }

  function EncodeRules(rules: Rules): (j: Json) {
    JObj(map["allow" := JArr(EncodeSide(rules.allow)), "deny" := JArr(EncodeSide(rules.deny))])
  }

  // ------------------------------------------------------------------ reading

  // A reader returns None where a type assertion of the source panics.

  function StringField(j: Json, key: string): (s: Option<string>) {
    if j.JObj? && key in j.fields && j.fields[key].JStr? then Some(j.fields[key].s) else None
  }

  function ArrayField(j: Json, key: string): (a: Option<seq<Json>>) {
    if j.JObj? && key in j.fields && j.fields[key].JArr? then Some(j.fields[key].items) else None
  }

  /** A missing key reads as nil. */
  function AnyField(j: Json, key: string): (v: Json) {
    if j.JObj? && key in j.fields then j.fields[key] else JNull
  }

  function DecodeObligation(j: Json): (o: Option<Obligation>) {
    match (StringField(j, "type_id"), StringField(j, "id"))
    case (Some(t), Some(id)) => Some(Obligation(t, id, AnyField(j, "value")))
    case _ => None
  }

  /** Rows written before obligations existed have no such key and read as nil. */
  function DecodeOperation(j: Json): (op: Option<Operation>) {
    match StringField(j, "id")
    case None => None
    case Some(id) =>
      if "obligations" !in j.fields then Some(Operation(id, "", None)) else
      match ArrayField(j, "obligations")
      case None => None
      case Some(items) =>
        match Traverse(DecodeObligation, items)
        case None => None
        case Some(l) => Some(Operation(id, "", Some(l)))
  }

  /** parseConditionItem */
  function DecodeRule(j: Json): (r: Option<Rule>) {
    match ArrayField(j, "operations")
    case None => None
    case Some(items) =>
      match Traverse(DecodeOperation, items)
      case None => None
      case Some(ops) =>
        var c := AnyField(j, "condition");
        Some(Rule(if c == JNull then NO_CONDITION else c, ops))
  }

  function DecodeRules(j: Json): (rules: Option<Rules>) {
    match (ArrayField(j, "allow"), ArrayField(j, "deny"))
    case (Some(a), Some(d)) =>
      (match (Traverse(DecodeRule, a), Traverse(DecodeRule, d))
       case (Some(allow), Some(deny)) => Some(Rules(allow, deny))
       case _ => None)
    case _ => None
  }

  // ------------------------------------------------------------------ the normal form

  function NormOperation(op: Operation): (n: Operation) {
    Operation(op.id, "", Some(Listed(op.obligations)))
  }

  function NormRule(r: Rule): (n: Rule) {
    Rule(if r.condition == JNull then NO_CONDITION else r.condition, Map(NormOperation, r.operations))
  }

  function NormSide(side: seq<Rule>): (n: seq<Rule>) {
    Map(NormRule, Filter(HasOperations, side))
  }

  /** Empty rules dropped, nil conditions {}, names dropped, nil obligations [], order kept. */
  function Norm(rules: Rules): (n: Rules) {
    Rules(NormSide(rules.allow), NormSide(rules.deny))
  }

  /** The same conditions, operation ids and obligations, in the same order. */
  ghost predicate SameRules(a: seq<Rule>, b: seq<Rule>) {
    |a| == |b| && forall i :: 0 <= i < |a| ==> SameRule(a[i], b[i])
  }

  ghost predicate SameRule(a: Rule, b: Rule) {
    && a.condition == b.condition && |a.operations| == |b.operations|
    && forall j :: 0 <= j < |a.operations| ==>
      a.operations[j].id == b.operations[j].id && Listed(a.operations[j].obligations) == Listed(b.operations[j].obligations)
  }

  /** A side with no rule that storing drops or changes reads back as it was. */
  lemma {:induction false} StoredSameRules(side: seq<Rule>)
    requires forall r :: r in side ==> |r.operations| > 0 && r.condition != JNull
    ensures SameRules(NormSide(side), side)
  {
    FilterAll(HasOperations, side);
  }

  /** Rows written before obligations existed are read with nil obligations, whatever else they hold. */
  lemma OldOperationsRead(fields: map<string, Json>, id: string)
    requires "id" in fields && fields["id"] == JStr(id) && "obligations" !in fields
    ensures DecodeOperation(JObj(fields)) == Some(Operation(id, "", None))
  {
  }

  /** An entry the obligation reader accepts. */
  ghost predicate ReadableObligation(o: Json) {
    o.JObj? && "type_id" in o.fields && o.fields["type_id"].JStr? && "id" in o.fields && o.fields["id"].JStr?
  }

  /** Its obligations, if it has any, are a list of those. */
  ghost predicate ReadableList(fields: map<string, Json>) {
    "obligations" in fields ==>
      fields["obligations"].JArr? && forall o :: o in fields["obligations"].items ==> ReadableObligation(o)
  }

  /** An operation can be read exactly with a string id and, if there are obligations, a list of readable ones. */
  lemma OperationReadable(j: Json)
    ensures DecodeOperation(j).Some? <==> j.JObj? && "id" in j.fields && j.fields["id"].JStr? && ReadableList(j.fields)
  {
    if j.JObj? && "obligations" in j.fields && j.fields["obligations"].JArr? {
      var items := j.fields["obligations"].items;
      if Traverse(DecodeObligation, items).Some? {
        forall o | o in items ensures DecodeObligation(o).Some? {
          var i :| 0 <= i < |items| && items[i] == o;
        }
      } else {
        var i :| 0 <= i < |items| && DecodeObligation(items[i]) == None;
        assert items[i] in items;
      }
    }
  }

  lemma {:induction false} TraverseMap<A(!new), J, B>(f: J -> Option<B>, g: A -> J, h: A -> B, xs: seq<A>)
    requires forall x :: f(g(x)) == Some(h(x))
    ensures Traverse(f, Map(g, xs)) == Some(Map(h, xs))
  {
    var r := Traverse(f, Map(g, xs));
    assert forall i :: 0 <= i < |xs| ==> f(Map(g, xs)[i]) == Some(h(xs[i]));
    assert r.value == Map(h, xs);
  }

  lemma DecodeEncodeOperation(op: Operation)
    ensures DecodeOperation(EncodeOperation(op)) == Some(NormOperation(op))
  {
    var items := Map(EncodeObligation, Listed(op.obligations));
    var j := EncodeOperation(op);
    assert StringField(j, "id") == Some(op.id) && ArrayField(j, "obligations") == Some(items);
    forall o ensures DecodeObligation(EncodeObligation(o)) == Some(Id(o)) {
      var e := EncodeObligation(o);
      assert StringField(e, "type_id") == Some(o.typeId) && StringField(e, "id") == Some(o.id);
      assert AnyField(e, "value") == o.value;
    }
    TraverseMap(DecodeObligation, EncodeObligation, Id, Listed(op.obligations));
    assert Map(Id, Listed(op.obligations)) == Listed(op.obligations);
  }

  function Id<T>(x: T): (y: T) { x }

  lemma DecodeEncodeRule(r: Rule)
    ensures DecodeRule(EncodeRule(r)) == Some(NormRule(r))
  {
    var j := EncodeRule(r);
    forall op ensures DecodeOperation(EncodeOperation(op)) == Some(NormOperation(op)) {
      DecodeEncodeOperation(op);
    }
    TraverseMap(DecodeOperation, EncodeOperation, NormOperation, r.operations);
    assert ArrayField(j, "operations") == Some(Map(EncodeOperation, r.operations));
    assert AnyField(j, "condition") == if r.condition == JNull then NO_CONDITION else r.condition;
  }

  /** Reading back what was written gives the normal form, for all rules. */
  lemma DecodeEncode(rules: Rules)
    ensures DecodeRules(EncodeRules(rules)) == Some(Norm(rules))
  {
    forall r ensures DecodeRule(EncodeRule(r)) == Some(NormRule(r)) {
      DecodeEncodeRule(r);
    }
    TraverseMap(DecodeRule, EncodeRule, NormRule, Filter(HasOperations, rules.allow));
    TraverseMap(DecodeRule, EncodeRule, NormRule, Filter(HasOperations, rules.deny));
    var j := EncodeRules(rules);
    assert ArrayField(j, "allow") == Some(EncodeSide(rules.allow));
    assert ArrayField(j, "deny") == Some(EncodeSide(rules.deny));
  }

  lemma EncodeNormRule(r: Rule)
    ensures EncodeRule(NormRule(r)) == EncodeRule(r) && NormRule(NormRule(r)) == NormRule(r)
  {
    var n := NormRule(r);
    assert Map(EncodeOperation, n.operations) == Map(EncodeOperation, r.operations);
    assert Map(NormOperation, n.operations) == n.operations;
  }

  lemma NormalSide(side: seq<Rule>)
    ensures NormSide(NormSide(side)) == NormSide(side) && EncodeSide(NormSide(side)) == EncodeSide(side)
  {
    var kept := Filter(HasOperations, side);
    FilterAll(HasOperations, NormSide(side));
    forall i | 0 <= i < |kept|
      ensures EncodeRule(NormRule(kept[i])) == EncodeRule(kept[i]) && NormRule(NormRule(kept[i])) == NormRule(kept[i])
    {
      EncodeNormRule(kept[i]);
    }
    assert NormSide(NormSide(side)) == NormSide(side);
    assert EncodeSide(NormSide(side)) == EncodeSide(side);
  }

  /** A normal form is what storing it again reads back, and both have the same stored form. */
  lemma NormIsStable(rules: Rules)
    ensures Norm(Norm(rules)) == Norm(rules) && EncodeRules(Norm(rules)) == EncodeRules(rules)
    ensures DecodeRules(EncodeRules(Norm(rules))) == Some(Norm(rules))
  {
    NormalSide(rules.allow);
    NormalSide(rules.deny);
    DecodeEncode(Norm(rules));
  }

  // ------------------------------------------------------------------ what storing keeps

  function NormMap(m: map<string, Operation>): (n: map<string, Operation>) {
    map k | k in m :: NormOperation(m[k])
  }

  lemma {:induction false} NormLastMap(ops: seq<Operation>)
    ensures LastMap(Map(NormOperation, ops)) == NormMap(LastMap(ops))
  {
    if ops != [] {
      var init, n := ops[..|ops| - 1], Map(NormOperation, ops);
      NormLastMap(init);
      assert n[..|n| - 1] == Map(NormOperation, init);
    }
  }

  lemma {:induction false} NormFirstMap(ops: seq<Operation>)
    ensures FirstMap(Map(NormOperation, ops)) == NormMap(FirstMap(ops))
  {
    if ops != [] {
      var init, n := ops[..|ops| - 1], Map(NormOperation, ops);
      NormFirstMap(init);
      assert n[..|n| - 1] == Map(NormOperation, init);
    }
  }

  lemma NormMeaning(ops: seq<Operation>)
    ensures Meaning(Map(NormOperation, ops)) == Meaning(ops)
    ensures Ids(Map(NormOperation, ops)) == Ids(ops)
    ensures Consistent(Map(NormOperation, ops)) <==> Consistent(ops)
  {
    NormLastMap(ops);
    NormFirstMap(ops);
    assert DutiesOf(NormMap(LastMap(ops))) == DutiesOf(LastMap(ops));
    assert DutiesOf(NormMap(FirstMap(ops))) == DutiesOf(FirstMap(ops));
  }

  /** The first unconditional rule that storing does not drop. */
  function Shown(side: seq<Rule>): (ops: seq<Operation>) {
    if side == [] then []
    else if IsUnconditional(side[0]) && HasOperations(side[0]) then side[0].operations
    else Shown(side[1..])
  }

  lemma {:induction false} NormSideAppend(side: seq<Rule>, more: seq<Rule>)
    ensures NormSide(side + more) == NormSide(side) + NormSide(more)
  {
    FilterAppend(HasOperations, side, more);
  }

  lemma {:induction false} NormSideOne(r: Rule)
    ensures NormSide([r]) == if HasOperations(r) then [NormRule(r)] else []
  {
    FilterOne(HasOperations, r);
  }

  lemma {:induction false} UnconditionalNormSide(side: seq<Rule>)
    ensures Unconditional(NormSide(side)) == Map(NormOperation, Shown(side))
  {
    if side == [] {
      assert NormSide(side) == [];
    } else {
      var head, tail := side[0], side[1..];
      UnconditionalNormSide(tail);
      NormSideCons(head, tail);
      assert side == [head] + tail;
      if HasOperations(head) {
        UnconditionalCons(NormRule(head), NormSide(tail));
      } else {
        assert NormSide(side) == NormSide(tail);
      }
    }
  }

  lemma {:induction false} NormSideCons(head: Rule, tail: seq<Rule>)
    ensures NormSide([head] + tail) == if HasOperations(head) then [NormRule(head)] + NormSide(tail) else NormSide(tail)
  {
    NormSideAppend([head], tail);
    NormSideOne(head);
  }

  lemma {:induction false} UnconditionalCons(r: Rule, rest: seq<Rule>)
    ensures Unconditional([r] + rest) == if IsUnconditional(r) then r.operations else Unconditional(rest)
  {
    assert ([r] + rest)[1..] == rest;
  }

  /** An unconditional rule without operations is not followed by one that has some. */
  predicate FirstCounts(side: seq<Rule>) {
    Unconditional(side) != [] || forall i :: 0 <= i < |side| && IsUnconditional(side[i]) ==> !HasOperations(side[i])
  }

  /** Storing shows the same unconditional operations exactly when the first such rule counts. */
  lemma {:induction false} ShownIsUnconditional(side: seq<Rule>)
    ensures Shown(side) == Unconditional(side) <==> FirstCounts(side)
    ensures AtMostOneUnconditional(side) ==> Shown(side) == Unconditional(side)
  {
    if side != [] {
      var head, tail := side[0], side[1..];
      ShownIsUnconditional(tail);
      if IsUnconditional(head) && !HasOperations(head) {
        ShownNothing(tail);
        assert forall i :: 0 <= i < |tail| ==> tail[i] == side[i + 1];
        assert FirstCounts(side) <==> forall i :: 0 <= i < |tail| && IsUnconditional(tail[i]) ==> !HasOperations(tail[i]);
      } else if IsConditional(head) {
        assert FirstCounts(side) <==> FirstCounts(tail);
      }
    }
  }

  lemma {:induction false} ShownNothing(side: seq<Rule>)
    ensures Shown(side) == [] <==> forall i :: 0 <= i < |side| && IsUnconditional(side[i]) ==> !HasOperations(side[i])
  {
    if side != [] {
      var tail := side[1..];
      ShownNothing(tail);
      assert forall i :: 0 <= i < |tail| ==> tail[i] == side[i + 1];
    }
  }

  // ------------------------------------------------------------------ the loops of the codec

  method MakeObligations(result: seq<Obligation>) returns (js: seq<Json>)
    ensures js == Map(EncodeObligation, result)
  {
    js := [];
    for i := 0 to |result|
      invariant js == Map(EncodeObligation, result[..i])
    {
      js := js + [EncodeObligation(result[i])];
    }
    assert result[..|result|] == result;
  }

  method MakeConditionItem(item: Rule) returns (j: Json)
    ensures j == EncodeRule(item)
  {
    var condition := if item.condition == JNull then JObj(map[]) else item.condition;
    var operations: seq<Json> := [];
    for i := 0 to |item.operations|
      invariant operations == Map(EncodeOperation, item.operations[..i])
    {
      var op := item.operations[i];
      var obligations := MakeObligations(Listed(op.obligations));
      operations := operations + [JObj(map["id" := JStr(op.id), "obligations" := JArr(obligations)])];
    }
    assert item.operations[..|item.operations|] == item.operations;
    j := JObj(map["condition" := condition, "operations" := JArr(operations)]);
  }

  lemma {:induction false} EncodeSideMore(side: seq<Rule>, i: nat)
    requires i < |side|
    ensures EncodeSide(side[..i + 1]) == EncodeSide(side[..i]) + if HasOperations(side[i]) then [EncodeRule(side[i])] else []
  {
    FilterAppend(HasOperations, side[..i], [side[i]]);
    FilterOne(HasOperations, side[i]);
    MapSnoc(EncodeRule, Filter(HasOperations, side[..i]), side[i]);
    assert side[..i + 1] == side[..i] + [side[i]];
  }

  method MakeSide(side: seq<Rule>) returns (js: seq<Json>)
    ensures js == EncodeSide(side)
  {
    js := [];
    for i := 0 to |side|
      invariant js == EncodeSide(side[..i])
    {
      EncodeSideMore(side, i);
      if |side[i].operations| == 0 {
        continue;
      }
      var item := MakeConditionItem(side[i]);
      js := js + [item];
    }
    assert side[..|side|] == side;
  }

  method RulesInfoToString(rules: Rules) returns (j: Json)
    ensures j == EncodeRules(rules)
  {
    var allow := MakeSide(rules.allow);
    var deny := MakeSide(rules.deny);
    j := JObj(map["allow" := JArr(allow), "deny" := JArr(deny)]);
  }

  lemma {:induction false} TraverseSnoc<A, B>(f: A -> Option<B>, xs: seq<A>, x: A, ys: seq<B>)
    requires Traverse(f, xs) == Some(ys) && f(x).Some?
    ensures Traverse(f, xs + [x]) == Some(ys + [f(x).value])
  {
    assert (xs + [x])[..|xs|] == xs;
  }

  /** One more element read. */
  lemma {:induction false} TraverseMore<A, B>(f: A -> Option<B>, xs: seq<A>, i: nat, ys: seq<B>)
    requires i < |xs| && Traverse(f, xs[..i]) == Some(ys)
    ensures f(xs[i]).Some? ==> Traverse(f, xs[..i + 1]) == Some(ys + [f(xs[i]).value])
    ensures f(xs[i]).None? ==> Traverse(f, xs) == None
  {
    if f(xs[i]).Some? {
      TraverseSnoc(f, xs[..i], xs[i], ys);
      assert xs[..i + 1] == xs[..i] + [xs[i]];
    }
  }

  /** None where the source panics. */
  method GetObligations(items: seq<Json>) returns (r: Option<seq<Obligation>>)
    ensures r == Traverse(DecodeObligation, items)
  {
    var result: seq<Obligation> := [];
    for i := 0 to |items|
      invariant Traverse(DecodeObligation, items[..i]) == Some(result)
    {
      TraverseMore(DecodeObligation, items, i, result);
      var typeId, id := StringField(items[i], "type_id"), StringField(items[i], "id");
      if typeId.None? || id.None? {
        return None;
      }
      result := result + [Obligation(typeId.value, id.value, AnyField(items[i], "value"))];
    }
    assert items[..|items|] == items;
    r := Some(result);
  }

  method ParseOperation(op: Json) returns (r: Option<Operation>)
    ensures r == DecodeOperation(op)
  {
    var id := StringField(op, "id");
    if id.None? {
      return None;
    }
    var item := Operation(id.value, "", None);
    if "obligations" in op.fields {
      var items := ArrayField(op, "obligations");
      if items.None? {
        return None;
      }
      var obligations := GetObligations(items.value);
      if obligations.None? {
        return None;
      }
      item := item.(obligations := Some(obligations.value));
    }
    r := Some(item);
  }

  method ParseConditionItem(v: Json) returns (r: Option<Rule>)
    ensures r == DecodeRule(v)
  {
    var opsList := ArrayField(v, "operations");
    if opsList.None? {
      return None;
    }
    var items := opsList.value;
    var operations: seq<Operation> := [];
    for i := 0 to |items|
      invariant Traverse(DecodeOperation, items[..i]) == Some(operations)
    {
      TraverseMore(DecodeOperation, items, i, operations);
      var op := ParseOperation(items[i]);
      if op.None? {
        return None;
      }
      operations := operations + [op.value];
    }
    assert items[..|items|] == items;
    var condition := AnyField(v, "condition");
    if condition == JNull {
      condition := NO_CONDITION;
    }
    r := Some(Rule(condition, operations));
  }

  method ParseSide(items: seq<Json>) returns (r: Option<seq<Rule>>)
    ensures r == Traverse(DecodeRule, items)
  {
    var side: seq<Rule> := [];
    for i := 0 to |items|
      invariant Traverse(DecodeRule, items[..i]) == Some(side)
    {
      TraverseMore(DecodeRule, items, i, side);
      var item := ParseConditionItem(items[i]);
      if item.None? {
        return None;
      }
      side := side + [item.value];
    }
    assert items[..|items|] == items;
    r := Some(side);
  }

  method RulesStrToInfo(j: Json) returns (r: Option<Rules>)
    ensures r == DecodeRules(j)
  {
    var allowJson, denyJson := ArrayField(j, "allow"), ArrayField(j, "deny");
    if allowJson.None? || denyJson.None? {
      return None;
    }
    var allow := ParseSide(allowJson.value);
    if allow.None? {
      return None;
    }
    var deny := ParseSide(denyJson.value);
    if deny.None? {
      return None;
    }
    r := Some(Rules(allow.value, deny.value));
  }
}

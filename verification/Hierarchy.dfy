/**
  The resource type hierarchy: the recursive codec of its stored form, lenient when it
  reads, and the strict parser of requests.  Storing and reading a tree gives it back, and
  the two readers agree wherever the strict one accepts.
 */
module Hierarchy {
  import opened Values

  datatype Tree = Tree(resourceTypeId: string, children: Children)

  /** A slice of trees, or nil. */
  datatype Children = Nil | Slice(trees: seq<Tree>)

  // ------------------------------------------------------------------ writing

  function Encode(t: Tree): (j: Json)
    decreases t
  {
    JObj(map["resource_type_id" := JStr(t.resourceTypeId),
             "children" := JArr(if t.children.Nil? then [] else EncodeAll(t.children.trees))])
  }

  /** convertHierarchyToJSONItems */
  function EncodeAll(trees: seq<Tree>): (js: seq<Json>)
    ensures |js| == |trees|
    decreases trees
  {
    if trees == [] then [] else EncodeAll(trees[..|trees| - 1]) + [Encode(trees[|trees| - 1])]
  }

  // ------------------------------------------------------------------ reading leniently

  function Decode(j: Json): (t: Tree)
    requires j.JObj?
    decreases j
  {
    var id := if "resource_type_id" in j.fields && j.fields["resource_type_id"].JStr? then j.fields["resource_type_id"].s else "";
    var children := if "children" in j.fields && j.fields["children"].JArr? then Slice(DecodeAll(j.fields["children"].items)) else Nil;
    Tree(id, children)
  }

  /** convertJSONItemsToHierarchy: items that are no objects are skipped. */
  function DecodeAll(items: seq<Json>): (trees: seq<Tree>)
    decreases items
  {
    if items == [] then [] else
    var last := items[|items| - 1];
    DecodeAll(items[..|items| - 1]) + if last.JObj? then [Decode(last)] else []
  }

  // ------------------------------------------------------------------ reading strictly

  /** parseHierarchy */
  function Parse(j: Json): (r: Result<Tree>)
    decreases j
  {
    if !j.JObj? then Err("invalid hierarchy format: expected object")
    else if "resource_type_id" !in j.fields || !j.fields["resource_type_id"].JStr? then Err("invalid resource_type_id: expected string")
    else if "children" !in j.fields || !j.fields["children"].JArr? then Err("invalid children: expected array")
    else
      match ParseAll(j.fields["children"].items)
      case Err(e) => Err(e)
      case Ok(children) => Ok(Tree(j.fields["resource_type_id"].s, Slice(children)))
  }

  /** The first error, in order of the items. */
  function ParseAll(items: seq<Json>): (r: Result<seq<Tree>>)
    decreases items
  {
    if items == [] then Ok([]) else
    match ParseAll(items[..|items| - 1])
    case Err(e) => Err(e)
    case Ok(init) =>
      match Parse(items[|items| - 1])
      case Err(e) => Err(e)
      case Ok(last) => Ok(init + [last])
  }

  // ------------------------------------------------------------------ the normal form

  /** nil children as empty ones. */
  function Norm(t: Tree): (n: Tree)
    decreases t
  {
    Tree(t.resourceTypeId, Slice(if t.children.Nil? then [] else NormAll(t.children.trees)))
  }

  function NormAll(trees: seq<Tree>): (ns: seq<Tree>)
    decreases trees
  {
    if trees == [] then [] else NormAll(trees[..|trees| - 1]) + [Norm(trees[|trees| - 1])]
  }

  /** Equal but for nil against empty children. */
  predicate Same(a: Tree, b: Tree)
    decreases a
  {
    a.resourceTypeId == b.resourceTypeId && SameAll(a.children, b.children)
  }

  predicate SameAll(a: Children, b: Children)
    decreases a
  {
    if a.Nil? || a.trees == [] then b.Nil? || b.trees == []
    else b.Slice? && |a.trees| == |b.trees| && forall i :: 0 <= i < |a.trees| ==> Same(a.trees[i], b.trees[i])
  }

  // ------------------------------------------------------------------ round trips

  lemma {:induction false} DecodeEncodeAll(trees: seq<Tree>)
    ensures DecodeAll(EncodeAll(trees)) == NormAll(trees)
    ensures ParseAll(EncodeAll(trees)) == Ok(NormAll(trees))
    decreases trees
  {
    if trees != [] {
      var init, last := trees[..|trees| - 1], trees[|trees| - 1];
      DecodeEncodeAll(init);
      DecodeEncode(last);
      assert EncodeAll(trees)[..|init|] == EncodeAll(init);
    }
  }

  lemma {:induction false} DecodeEncode(t: Tree)
    ensures Decode(Encode(t)) == Norm(t)
    ensures Parse(Encode(t)) == Ok(Norm(t))
    decreases t
  {
    if t.children.Slice? {
      DecodeEncodeAll(t.children.trees);
    }
  }

  lemma {:induction false} ParseAgrees(j: Json)
    ensures Parse(j).Ok? ==> j.JObj? && Decode(j) == Parse(j).value == Norm(Parse(j).value)
    decreases j
  {
    if Parse(j).Ok? {
      ParseAllAgrees(j.fields["children"].items);
    }
  }

  /** Whatever the strict parser accepts, the lenient reader reads as the same, normal trees. */
  lemma {:induction false} ParseAllAgrees(items: seq<Json>)
    ensures ParseAll(items).Ok? ==> DecodeAll(items) == ParseAll(items).value == NormAll(ParseAll(items).value)
    decreases items
  {
    if items != [] && ParseAll(items).Ok? {
      var init, last := items[..|items| - 1], items[|items| - 1];
      ParseAllAgrees(init);
      ParseAgrees(last);
      var trees := ParseAll(items).value;
      assert trees[..|trees| - 1] == ParseAll(init).value;
    }
  }

  /** An accepted request is stored and read back unchanged. */
  lemma AcceptedRoundTrip(items: seq<Json>)
    requires ParseAll(items).Ok?
    ensures DecodeAll(EncodeAll(ParseAll(items).value)) == ParseAll(items).value
  {
    ParseAllAgrees(items);
    DecodeEncodeAll(ParseAll(items).value);
  }

  lemma {:induction false} NormIsSame(t: Tree)
    ensures Same(Norm(t), t) && Norm(Norm(t)) == Norm(t)
    decreases t
  {
    if t.children.Slice? {
      NormAllIsSame(t.children.trees);
    }
  }

  lemma NormAllSnoc(init: seq<Tree>, last: Tree)
    ensures NormAll(init + [last]) == NormAll(init) + [Norm(last)]
  {
    assert (init + [last])[..|init|] == init;
  }

  lemma {:induction false} NormAllIsSame(trees: seq<Tree>)
    ensures |NormAll(trees)| == |trees| && forall i :: 0 <= i < |trees| ==> Same(NormAll(trees)[i], trees[i])
    ensures NormAll(NormAll(trees)) == NormAll(trees)
    decreases trees
  {
    if trees != [] {
      var init, last := trees[..|trees| - 1], trees[|trees| - 1];
      NormAllIsSame(init);
      NormIsSame(last);
      NormAllSnoc(init, last);
      NormAllSnoc(NormAll(init), Norm(last));
      assert trees == init + [last];
    }
  }

  lemma {:induction false} NormAllAt(trees: seq<Tree>)
    ensures |NormAll(trees)| == |trees| && forall i :: 0 <= i < |trees| ==> NormAll(trees)[i] == Norm(trees[i])
  {
    if trees != [] {
      NormAllAt(trees[..|trees| - 1]);
    }
  }

  /** Two trees read back alike exactly when they differ in nil against empty only. */
  lemma {:induction false} SameNorm(a: Tree, b: Tree)
    ensures Same(a, b) <==> Norm(a) == Norm(b)
    decreases a
  {
    if a.children.Slice? {
      NormAllAt(a.children.trees);
    }
    if b.children.Slice? {
      NormAllAt(b.children.trees);
    }
    if a.children.Slice? && b.children.Slice? {
      var x, y := a.children.trees, b.children.trees;
      forall i | 0 <= i < |x| && i < |y| ensures Same(x[i], y[i]) <==> NormAll(x)[i] == NormAll(y)[i] {
        SameNorm(x[i], y[i]);
      }
      assert SameAll(a.children, b.children) <==> NormAll(x) == NormAll(y);
    }
  }
}

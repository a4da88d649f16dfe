/** The part of an XML document tree that merging and parsing MPDs navigates. */
module Xml {
  import opened Wrappers

  datatype Node =
    | Element(name: string, attrs: map<string, string>, children: seq<Node>)
    | Text(value: string)

  predicate Named(n: Node, name: string) {
    n.Element? && n.name == name
  }

  // FirstChildElement(name): its index, or the number of children.
  function FindFirst(children: seq<Node>, name: string): (i: nat)
    ensures i <= |children|
    ensures i < |children| ==> Named(children[i], name)
  {
    FindFrom(children, 0, name)
  }

  function FindFrom(children: seq<Node>, from: nat, name: string): (i: nat)
    requires from <= |children|
    ensures from <= i <= |children|
    ensures i < |children| ==> Named(children[i], name)
    decreases |children| - from
  {
    if from == |children| || Named(children[from], name) then from else FindFrom(children, from + 1, name)
  }

  ghost predicate NoneNamed(children: seq<Node>, name: string) {
    forall k :: 0 <= k < |children| ==> !Named(children[k], name)
  }

  lemma {:induction false} FindFromMeans(children: seq<Node>, from: nat, name: string, k: nat)
    requires from <= |children| && from <= k < FindFrom(children, from, name)
    ensures !Named(children[k], name)
    decreases |children| - from
  {
    if from < k { FindFromMeans(children, from + 1, name, k); }
  }

  lemma {:induction false} FindFirstMeans(children: seq<Node>, name: string)
    ensures NoneNamed(children[..FindFirst(children, name)], name)
  {
    forall k | 0 <= k < FindFirst(children, name) ensures !Named(children[k], name) {
      FindFromMeans(children, 0, name, k);
    }
  }

  lemma {:induction false} FindFromUnique(children: seq<Node>, from: nat, name: string, i: nat)
    requires from <= i <= |children| && (i < |children| ==> Named(children[i], name))
    requires forall k :: from <= k < i ==> !Named(children[k], name)
    ensures FindFrom(children, from, name) == i
    decreases |children| - from
  {
    if from < i { FindFromUnique(children, from + 1, name, i); }
  }

  // LastChildElement(name): its index, or the number of children.
  function FindLast(children: seq<Node>, name: string): (i: nat)
    ensures i <= |children|
    ensures i < |children| ==> Named(children[i], name)
  {
    FindBelow(children, |children|, name)
  }

  function FindBelow(children: seq<Node>, below: nat, name: string): (i: nat)
    requires below <= |children|
    ensures i < below || i == |children|
    ensures i < |children| ==> Named(children[i], name)
  {
    if below == 0 then |children|
    else if Named(children[below - 1], name) then below - 1
    else FindBelow(children, below - 1, name)
  }

  lemma {:induction false} FindBelowUnique(children: seq<Node>, below: nat, name: string, i: nat)
    requires i < below <= |children| && Named(children[i], name)
    requires forall k :: i < k < below ==> !Named(children[k], name)
    ensures FindBelow(children, below, name) == i
  {
    if i < below - 1 { FindBelowUnique(children, below - 1, name, i); }
  }

  predicate Has(n: Node, name: string) {
    n.Element? && FindFirst(n.children, name) < |n.children|
  }

  function Child(n: Node, name: string): (c: Node)
    requires Has(n, name)
    ensures Named(c, name)
  {
    n.children[FindFirst(n.children, name)]
  }

  function ShallowClone(n: Node): Node {
    if n.Element? then n.(children := []) else n
  }

  // All children of that name, in order.
  function Select(children: seq<Node>, name: string): (r: seq<Node>)
  {
    if children == [] then []
    else Select(children[..|children| - 1], name) + if Named(children[|children| - 1], name) then [children[|children| - 1]] else []
  }

  lemma {:induction false} SelectConcat(a: seq<Node>, b: seq<Node>, name: string)
    ensures Select(a + b, name) == Select(a, name) + Select(b, name)
  {
    if b == [] {
      assert a + b == a;
    } else {
      var n := |b| - 1;
      SelectConcat(a, b[..n], name);
      assert (a + b)[..|a + b| - 1] == a + b[..n];
    }
  }

  function Single(n: Node, name: string): (r: seq<Node>) {
    if Named(n, name) then [n] else []
  }

  lemma {:induction false} SelectSingle(n: Node, name: string)
    ensures Select([n], name) == Single(n, name)
  {
    assert [n][..0] == [];
  }

  // Selecting sees a child through its place among the others.
  lemma {:induction false} SelectAround(children: seq<Node>, i: nat, x: Node, name: string)
    requires i < |children|
    ensures Select(children, name) ==
            Select(children[..i], name) + Single(children[i], name) + Select(children[i + 1..], name)
    ensures Select(children[i := x], name) ==
            Select(children[..i], name) + Single(x, name) + Select(children[i + 1..], name)
    ensures Select(RemoveAt(children, i), name) == Select(children[..i], name) + Select(children[i + 1..], name)
  {
    var before, after := children[..i], children[i + 1..];
    assert children == before + [children[i]] + after;
    assert children[i := x] == before + [x] + after;
    SelectSingle(children[i], name);
    SelectSingle(x, name);
    SelectConcat(before, [children[i]], name);
    SelectConcat(before + [children[i]], after, name);
    SelectConcat(before, [x], name);
    SelectConcat(before + [x], after, name);
    SelectConcat(before, after, name);
  }

  function RemoveAt(children: seq<Node>, i: nat): seq<Node>
    requires i < |children|
  {
    children[..i] + children[i + 1..]
  }

  lemma {:induction false} SelectNone(children: seq<Node>, name: string)
    requires NoneNamed(children, name)
    ensures Select(children, name) == []
  {
    if children != [] { SelectNone(children[..|children| - 1], name); }
  }

  ghost predicate AllNamed(children: seq<Node>, name: string) {
    forall k :: 0 <= k < |children| ==> Named(children[k], name)
  }

  lemma {:induction false} SelectAll(children: seq<Node>, name: string)
    requires AllNamed(children, name)
    ensures Select(children, name) == children
  {
    if children != [] {
      var n := |children| - 1;
      SelectAll(children[..n], name);
      assert children[..n] + [children[n]] == children;
    }
  }

  lemma {:induction false} SelectEmpty(children: seq<Node>, name: string)
    requires Select(children, name) == []
    ensures NoneNamed(children, name)
  {
    if children != [] {
      var n := |children| - 1;
      SelectEmpty(children[..n], name);
      forall k | 0 <= k < |children| ensures !Named(children[k], name) {
        if k < n { assert children[..n][k] == children[k]; }
      }
    }
  }
}

/** Merging one MPD per tile and quality into a single MPD (multimedia/command.cpp). */
module MpdMerge {
  import opened Wrappers
  import opened Decimal
  import opened Sequences
  import opened Xml
  import TileText

  const MPD := "MPD"
  const PERIOD := "Period"
  const SET := "AdaptationSet"
  const REP := "Representation"
  const TEMPLATE := "SegmentTemplate"
  const INFO := "ProgramInformation"
  const TITLE := "Title"
  const SUPPLEMENT := "SupplementalProperty"

  type Coordinate = (int, int)

  // The source documents of one tile, one per quality.
  datatype Group = Group(coordinate: Coordinate, docs: seq<Node>)

  // ---------- Source documents ----------

  // Every source has one AdaptationSet with one Representation, and a SegmentTemplate at one
  // of the two levels at least.
  predicate SourceOk(d: Node) {
    && Named(d, MPD) && Has(d, PERIOD) && Has(Child(d, PERIOD), SET)
    && |Select(SetOf(d).children, REP)| == 1
    && Has(SetOf(d), REP)
    && (Has(SetOf(d), TEMPLATE) || Has(RepOf(d), TEMPLATE))
  }

  function SetOf(d: Node): (s: Node)
    requires Named(d, MPD) && Has(d, PERIOD) && Has(Child(d, PERIOD), SET)
    ensures Named(s, SET)
  {
    Child(Child(d, PERIOD), SET)
  }

  function RepOf(d: Node): (r: Node)
    requires Named(d, MPD) && Has(d, PERIOD) && Has(Child(d, PERIOD), SET) && Has(SetOf(d), REP)
    ensures Named(r, REP)
  {
    Child(SetOf(d), REP)
  }

  // The SegmentTemplate that governs the source's Representation: its own, else the inherited one.
  function Effective(d: Node): Node
    requires SourceOk(d)
  {
    if Has(RepOf(d), TEMPLATE) then Child(RepOf(d), TEMPLATE) else Child(SetOf(d), TEMPLATE)
  }

  // The template that governs a merged Representation: the first of a coordinate gets the
  // inherited one, if there is one, in front of its own.
  function Governing(d: Node, first: bool): Node
    requires SourceOk(d)
  {
    if first && Has(SetOf(d), TEMPLATE) then Child(SetOf(d), TEMPLATE) else Effective(d)
  }

  // Two different templates compete.
  predicate Competing(d: Node)
    requires SourceOk(d)
  {
    Has(RepOf(d), TEMPLATE) && Has(SetOf(d), TEMPLATE) && Child(RepOf(d), TEMPLATE) != Child(SetOf(d), TEMPLATE)
  }

  predicate AllOk(docs: seq<Node>) {
    forall k :: 0 <= k < |docs| ==> SourceOk(docs[k])
  }

  // The first source of all describes the program, by a title among other things.
  predicate Informed(d: Node) {
    Has(d, INFO) && Has(Child(d, INFO), TITLE)
  }

  predicate GroupsOk(groups: seq<Group>) {
    && (forall g :: 0 <= g < |groups| ==> groups[g].docs != [])
    && (forall g :: 0 <= g < |groups| ==> AllOk(groups[g].docs))
    && (groups != [] ==>
    Informed(groups[0].docs[0]))
  }

  // ---------- The merge, operation by operation ----------

  function Supplement(wcrop: int, hcrop: int, coordinate: Coordinate): Node {
    Element(SUPPLEMENT, map["schemeIdUri" := "urn:mpeg:dash:srd:2014",
                            "value" := TileText.SpatialRelationship(wcrop, hcrop, coordinate.0, coordinate.1)], [])
  }

  // The children of the first AdaptationSet of a coordinate: marked with their place, with an
  // inherited template moved into the Representation.
  function OpenChildren(supplement: Node, source: seq<Node>): seq<Node> {
    var children := [supplement] + source;
    var t, r := FindFirst(children, TEMPLATE), FindFirst(children, REP);
    if t == |children| || r == |children| then children
    else
      var rep := children[r].(children := [children[t]] + children[r].children);
      RemoveAt(children[r := rep], t)
  }

  function OpenSet(supplement: Node, set_: Node): Node
    requires set_.Element?
  {
    set_.(children := OpenChildren(supplement, set_.children))
  }

  // A later source of the same coordinate: its Representation, completed with the inherited template.
  function AddRepresentation(set_: Node, d: Node): Node
    requires SourceOk(d) && set_.Element?
  {
    set_.(children := set_.children + [Completed(d)])
  }

  function Completed(d: Node): (r: Node)
    requires SourceOk(d)
    ensures Named(r, REP)
  {
    var rep := RepOf(d);
    if Has(rep, TEMPLATE) then rep else rep.(children := rep.children + [Child(SetOf(d), TEMPLATE)])
  }

  function WithId(rep: Node, id: int): Node
    requires rep.Element?
  {
    rep.(attrs := rep.attrs["id" := PrintInt(id)])
  }

  function NumberLast(set_: Node, id: int): Node
    requires set_.Element? && FindLast(set_.children, REP) < |set_.children|
  {
    var i := FindLast(set_.children, REP);
    set_.(children := set_.children[i := WithId(set_.children[i], id)])
  }

  // ---------- What a merged AdaptationSet looks like ----------

  datatype Parts = Parts(head: seq<Node>, rep: Node, tail: seq<Node>)

  // The children of an opened set: before, at and after its Representation.
  function Opened(supplement: Node, source: seq<Node>): Parts
    requires FindFirst(source, REP) < |source|
  {
    var r, t := FindFirst(source, REP), FindFirst(source, TEMPLATE);
    var before, after := source[..r], source[r + 1..];
    if t == |source| then Parts([supplement] + before, source[r], after)
    else
      var full := source[r].(children := [source[t]] + source[r].children);
      if t < r then Parts([supplement] + RemoveAt(before, t), full, after)
      else
        assert t != r;
        Parts([supplement] + before, full, RemoveAt(after, t - r - 1))
  }

  // The source's children behind its Representation, without a template moved away.
  function Behind(source: seq<Node>): seq<Node>
    requires FindFirst(source, REP) < |source|
  {
    var r, t := FindFirst(source, REP), FindFirst(source, TEMPLATE);
    if r < t < |source| then RemoveAt(source[r + 1..], t - r - 1) else source[r + 1..]
  }

  lemma {:induction false} OpenedTail(supplement: Node, source: seq<Node>)
    requires FindFirst(source, REP) < |source|
    ensures Opened(supplement, source).tail == Behind(source)
  {
    hide FindFirst;
  }

  lemma {:induction false} FindFirstBehind(x: Node, children: seq<Node>, name: string)
    requires !Named(x, name)
    ensures FindFirst([x] + children, name) == FindFirst(children, name) + 1
  {
    var i := FindFirst(children, name);
    FindFirstMeans(children, name);
    forall k | 0 <= k < i + 1 ensures !Named(([x] + children)[k], name) {
      assert k > 0 ==> children[..i][k - 1] == ([x] + children)[k];
    }
    FindFromUnique([x] + children, 0, name, i + 1);
  }

  lemma {:induction false} ReplaceThenRemove(x: Node, c: seq<Node>, r: nat, t: nat, y: Node)
    requires r < |c| && t < |c| && r != t
    ensures t < r ==> RemoveAt(([x] + c)[r + 1 := y], t + 1) == [x] + RemoveAt(c[..r], t) + [y] + c[r + 1..]
    ensures t > r ==> RemoveAt(([x] + c)[r + 1 := y], t + 1) == [x] + c[..r] + [y] + RemoveAt(c[r + 1..], t - r - 1)
  {
    var lhs := RemoveAt(([x] + c)[r + 1 := y], t + 1);
    if t < r {
      assert |lhs| == |[x] + RemoveAt(c[..r], t) + [y] + c[r + 1..]|;
    } else {
      assert |lhs| == |[x] + c[..r] + [y] + RemoveAt(c[r + 1..], t - r - 1)|;
    }
  }

  lemma {:induction false} AroundBehind(x: Node, c: seq<Node>, r: nat)
    requires r < |c|
    ensures [x] + c == [x] + c[..r] + [c[r]] + c[r + 1..]
  {
  }

  lemma {:induction false} OpenChildrenMoves(supplement: Node, source: seq<Node>)
    requires FindFirst(source, REP) < |source| && !Named(supplement, REP) && !Named(supplement, TEMPLATE)
    requires FindFirst(source, TEMPLATE) < |source|
    ensures OpenChildren(supplement, source) ==
            RemoveAt(([supplement] + source)[FindFirst(source, REP) + 1 := Opened(supplement, source).rep], FindFirst(source, TEMPLATE) + 1)
  {
    FindFirstBehind(supplement, source, REP);
    FindFirstBehind(supplement, source, TEMPLATE);
    var r, t := FindFirst(source, REP), FindFirst(source, TEMPLATE);
    assert ([supplement] + source)[r + 1] == source[r];
    assert ([supplement] + source)[t + 1] == source[t];
  }

  lemma {:induction false} OpenChildrenStays(supplement: Node, source: seq<Node>)
    requires FindFirst(source, REP) < |source| && !Named(supplement, REP) && !Named(supplement, TEMPLATE)
    requires FindFirst(source, TEMPLATE) == |source|
    ensures var p := Opened(supplement, source);
            OpenChildren(supplement, source) == p.head + [p.rep] + p.tail
  {
    FindFirstBehind(supplement, source, TEMPLATE);
    AroundBehind(supplement, source, FindFirst(source, REP));
  }

  lemma {:induction false} OpenChildrenParts(supplement: Node, source: seq<Node>)
    requires FindFirst(source, REP) < |source| && !Named(supplement, REP) && !Named(supplement, TEMPLATE)
    ensures var p := Opened(supplement, source);
            OpenChildren(supplement, source) == p.head + [p.rep] + p.tail
  {
    if FindFirst(source, TEMPLATE) == |source| {
      OpenChildrenStays(supplement, source);
    } else {
      OpenChildrenMoves(supplement, source);
      OpenedSplits(supplement, source);
    }
  }

  lemma {:induction false} OpenedSplits(supplement: Node, source: seq<Node>)
    requires FindFirst(source, REP) < |source| && FindFirst(source, TEMPLATE) < |source|
    ensures var p := Opened(supplement, source);
            RemoveAt(([supplement] + source)[FindFirst(source, REP) + 1 := p.rep], FindFirst(source, TEMPLATE) + 1) ==
            p.head + [p.rep] + p.tail
  {
    ReplaceThenRemove(supplement, source, FindFirst(source, REP), FindFirst(source, TEMPLATE), Opened(supplement, source).rep);
  }

  lemma {:induction false} RemoveKeepsNone(children: seq<Node>, i: nat, name: string)
    requires i < |children| && NoneNamed(children, name)
    ensures NoneNamed(RemoveAt(children, i), name)
  {
  }

  lemma {:induction false} PrependKeepsNone(x: Node, children: seq<Node>, name: string)
    requires !Named(x, name) && NoneNamed(children, name)
    ensures NoneNamed([x] + children, name)
  {
  }

  lemma {:induction false} OnlyOne(children: seq<Node>, name: string)
    requires |Select(children, name)| == 1 && FindFirst(children, name) < |children|
    ensures var r := FindFirst(children, name);
            NoneNamed(children[..r], name) && NoneNamed(children[r + 1..], name)
  {
    var r := FindFirst(children, name);
    FindFirstMeans(children, name);
    SelectNone(children[..r], name);
    SelectAround(children, r, children[r], name);
    SelectEmpty(children[r + 1..], name);
  }

  // No other Representation stands beside the one of a source.
  lemma {:induction false} OpenedHasOneRep(supplement: Node, source: seq<Node>)
    requires |Select(source, REP)| == 1 && FindFirst(source, REP) < |source| && !Named(supplement, REP)
    ensures var p := Opened(supplement, source);
            Named(p.rep, REP) && NoneNamed(p.head, REP) && NoneNamed(p.tail, REP)
  {
    OnlyOne(source, REP);
    var r, t := FindFirst(source, REP), FindFirst(source, TEMPLATE);
    PrependKeepsNone(supplement, source[..r], REP);
    if t < r {
      RemoveKeepsNone(source[..r], t, REP);
      PrependKeepsNone(supplement, RemoveAt(source[..r], t), REP);
    } else if r < t < |source| {
      RemoveKeepsNone(source[r + 1..], t - r - 1, REP);
    }
  }

  // ---------- The AdaptationSet of one coordinate ----------

  // The Representation that stands for a source in the merged document.
  function MergedRep(supplement: Node, d: Node, first: bool, id: int): (r: Node)
    requires SourceOk(d)
    ensures Named(r, REP)
  {
    WithId(if first then Opened(supplement, SetOf(d).children).rep else Completed(d), id)
  }

  // docs[0..n] merged, their Representations numbered from start + 1.
  function MergedSet(supplement: Node, docs: seq<Node>, n: nat, start: int): (r: Node)
    requires 0 < n <= |docs| && AllOk(docs) && !Named(supplement, REP) && !Named(supplement, TEMPLATE)
    ensures r.Element?
    decreases n
  {
    if n == 1 then
      OpenSetHasRep(supplement, docs[0]);
      NumberLast(OpenSet(supplement, SetOf(docs[0])), start + 1)
    else
      var more := AddRepresentation(MergedSet(supplement, docs, n - 1, start), docs[n - 1]);
      AddedIsLast(MergedSet(supplement, docs, n - 1, start).children, Completed(docs[n - 1]));
      NumberLast(more, start + n)
  }

  // The Representation of the k-th source: numbered k + 1 after the start.
  function RepAt(supplement: Node, docs: seq<Node>, k: nat, start: int): (r: Node)
    requires k < |docs| && AllOk(docs)
    ensures Named(r, REP)
  {
    MergedRep(supplement, docs[k], k == 0, start + k + 1)
  }

  // The merged Representations of docs[from..n], in order.
  function Reps(supplement: Node, docs: seq<Node>, from: nat, n: nat, start: int): (r: seq<Node>)
    requires from <= n <= |docs| && AllOk(docs)
    ensures |r| == n - from && AllNamed(r, REP)
    decreases n
  {
    if n == from then []
    else Reps(supplement, docs, from, n - 1, start) + [RepAt(supplement, docs, n - 1, start)]
  }

  lemma {:induction false} AddedIsLast(children: seq<Node>, rep: Node)
    requires Named(rep, REP)
    ensures FindLast(children + [rep], REP) == |children|
  {
    FindBelowUnique(children + [rep], |children| + 1, REP, |children|);
  }

  lemma {:induction false} LastAmong(head: seq<Node>, rep: Node, tail: seq<Node>)
    requires Named(rep, REP) && NoneNamed(tail, REP)
    ensures FindLast(head + [rep] + tail, REP) == |head|
  {
    var all := head + [rep] + tail;
    forall k | |head| < k < |all| ensures !Named(all[k], REP) {
      assert all[k] == tail[k - |head| - 1];
    }
    FindBelowUnique(all, |all|, REP, |head|);
  }

  lemma {:induction false} OpenSetHasRep(supplement: Node, d: Node)
    requires SourceOk(d) && !Named(supplement, REP) && !Named(supplement, TEMPLATE)
    ensures var p := Opened(supplement, SetOf(d).children);
            && OpenSet(supplement, SetOf(d)).children == p.head + [p.rep] + p.tail
            && FindLast(OpenSet(supplement, SetOf(d)).children, REP) == |p.head| < |OpenSet(supplement, SetOf(d)).children|
  {
    var p := Opened(supplement, SetOf(d).children);
    OpenChildrenParts(supplement, SetOf(d).children);
    OpenedHasOneRep(supplement, SetOf(d).children);
    LastAmong(p.head, p.rep, p.tail);
  }

  /**
    Everything beside the Representations comes from the first source; the Representations
    follow in the order of the sources, the first in its old place and the others at the end.
   */
  lemma {:induction false} SetShape(supplement: Node, docs: seq<Node>, n: nat, start: int)
    requires 0 < n <= |docs| && AllOk(docs) && !Named(supplement, REP) && !Named(supplement, TEMPLATE)
    ensures var p := Opened(supplement, SetOf(docs[0]).children);
            MergedSet(supplement, docs, n, start) ==
            SetOf(docs[0]).(children := p.head + [RepAt(supplement, docs, 0, start)] + p.tail
                                        + Reps(supplement, docs, 1, n, start))
    decreases n
  {
    var p := Opened(supplement, SetOf(docs[0]).children);
    var head := p.head + [RepAt(supplement, docs, 0, start)] + p.tail;
    if n == 1 {
      OpenSetHasRep(supplement, docs[0]);
      ReplaceMiddle(p.head, p.rep, p.tail, WithId(p.rep, start + 1));
      AppendNothing(head);
    } else {
      SetShape(supplement, docs, n - 1, start);
      SetGrows(supplement, docs, n, start);
      AppendAssociates(head, Reps(supplement, docs, 1, n - 1, start), [RepAt(supplement, docs, n - 1, start)]);
    }
  }

  lemma {:induction false} SetGrows(supplement: Node, docs: seq<Node>, n: nat, start: int)
    requires 1 < n <= |docs| && AllOk(docs) && !Named(supplement, REP) && !Named(supplement, TEMPLATE)
    ensures var before := MergedSet(supplement, docs, n - 1, start);
            MergedSet(supplement, docs, n, start) == before.(children := before.children + [RepAt(supplement, docs, n - 1, start)])
  {
    var before, rep := MergedSet(supplement, docs, n - 1, start), Completed(docs[n - 1]);
    AddedIsLast(before.children, rep);
    ReplaceLast(before.children, rep, WithId(rep, start + n));
  }

  lemma {:induction false} ReplaceMiddle(head: seq<Node>, x: Node, tail: seq<Node>, y: Node)
    ensures (head + [x] + tail)[|head| := y] == head + [y] + tail
  {
  }

  lemma {:induction false} ReplaceLast(head: seq<Node>, x: Node, y: Node)
    ensures (head + [x])[|head| := y] == head + [y]
  {
  }

  lemma {:induction false} RepsFromFirst(supplement: Node, docs: seq<Node>, n: nat, start: int)
    requires 0 < n <= |docs| && AllOk(docs)
    ensures Reps(supplement, docs, 0, n, start) ==
            [RepAt(supplement, docs, 0, start)] + Reps(supplement, docs, 1, n, start)
    decreases n
  {
    if n > 1 {
      RepsFromFirst(supplement, docs, n - 1, start);
      AppendAssociates([RepAt(supplement, docs, 0, start)], Reps(supplement, docs, 1, n - 1, start),
                       [RepAt(supplement, docs, n - 1, start)]);
    } else {
      assert Reps(supplement, docs, 0, 0, start) == [];
    }
  }

  lemma {:induction false} AppendedAt(before: seq<Node>, last: Node)
    ensures forall k :: 0 <= k < |before| ==> (before + [last])[k] == before[k]
    ensures (before + [last])[|before|] == last
  {
  }

  lemma {:induction false} RepsAt(supplement: Node, docs: seq<Node>, n: nat, start: int, k: nat)
    requires k < n <= |docs| && AllOk(docs)
    ensures Reps(supplement, docs, 0, n, start)[k] == RepAt(supplement, docs, k, start)
    decreases n
  {
    hide SourceOk, RepAt;
    AppendedAt(Reps(supplement, docs, 0, n - 1, start), RepAt(supplement, docs, n - 1, start));
    if k < n - 1 { RepsAt(supplement, docs, n - 1, start, k); }
  }

  /**
    One Representation per source, in the order of the sources: none is lost, added or
    reordered, whatever else the first AdaptationSet holds.
   */
  lemma {:induction false} SetHoldsReps(supplement: Node, docs: seq<Node>, start: int)
    requires docs != [] && AllOk(docs) && !Named(supplement, REP) && !Named(supplement, TEMPLATE)
    ensures Select(MergedSet(supplement, docs, |docs|, start).children, REP) == Reps(supplement, docs, 0, |docs|, start)
  {
    var p := Opened(supplement, SetOf(docs[0]).children);
    var rep := RepAt(supplement, docs, 0, start);
    SetShape(supplement, docs, |docs|, start);
    OpenedHasOneRep(supplement, SetOf(docs[0]).children);
    SelectNone(p.head, REP);
    SelectNone(p.tail, REP);
    SelectSingle(rep, REP);
    SelectConcat(p.head, [rep], REP);
    SelectConcat(p.head + [rep], p.tail, REP);
    SelectConcat(p.head + [rep] + p.tail, Reps(supplement, docs, 1, |docs|, start), REP);
    SelectAll(Reps(supplement, docs, 1, |docs|, start), REP);
    RepsFromFirst(supplement, docs, |docs|, start);
  }

  // ---------- The template of a merged Representation ----------

  lemma {:induction false} FoundFirst(x: Node, children: seq<Node>, name: string)
    requires Named(x, name)
    ensures FindFirst([x] + children, name) == 0
  {
  }

  lemma {:induction false} FoundLast(children: seq<Node>, x: Node, name: string)
    requires Named(x, name) && FindFirst(children, name) == |children|
    ensures FindFirst(children + [x], name) == |children|
  {
    FindFirstMeans(children, name);
    forall k | 0 <= k < |children| ensures !Named((children + [x])[k], name) {
      assert children[..|children|][k] == (children + [x])[k];
    }
    FindFromUnique(children + [x], 0, name, |children|);
  }

  /**
    A merged Representation carries the very template that governed its source, except when it
    is the first of its coordinate and its source had two different templates: the inherited
    one is then put before its own.
   */
  lemma {:induction false} TemplatePreserved(supplement: Node, d: Node, first: bool, id: int)
    requires SourceOk(d)
    ensures Has(MergedRep(supplement, d, first, id), TEMPLATE)
    ensures Child(MergedRep(supplement, d, first, id), TEMPLATE) == Governing(d, first)
    ensures Child(MergedRep(supplement, d, first, id), TEMPLATE) == Effective(d) <==> !(first && Competing(d))
  {
    var source := SetOf(d).children;
    if first {
      if Has(SetOf(d), TEMPLATE) { FoundFirst(Child(SetOf(d), TEMPLATE), RepOf(d).children, TEMPLATE); }
    } else {
      if !Has(RepOf(d), TEMPLATE) { FoundLast(RepOf(d).children, Child(SetOf(d), TEMPLATE), TEMPLATE); }
    }
  }

  // A source document with these children of its AdaptationSet.
  function Minimal(children: seq<Node>): Node {
    Element(MPD, map[], [Element(PERIOD, map[], [Element(SET, map[], children)])])
  }

  lemma {:induction false} MinimalOk(before: seq<Node>, rep: Node, after: seq<Node>)
    requires Named(rep, REP) && NoneNamed(before, REP) && NoneNamed(after, REP)
    requires Has(rep, TEMPLATE) || FindFirst(before + [rep] + after, TEMPLATE) < |before + [rep] + after|
    ensures var d := Minimal(before + [rep] + after);
            && SourceOk(d) && SetOf(d).children == before + [rep] + after && RepOf(d) == rep
            && FindFirst(SetOf(d).children, REP) == |before|
  {
    hide Select, FindFirst, FindFrom;
    var all := before + [rep] + after;
    var set_ := Element(SET, map[], all);
    var period := Element(PERIOD, map[], [set_]);
    var d := Element(MPD, map[], [period]);
    FirstHere([], set_, [], SET);
    FirstHere([], period, [], PERIOD);
    FirstHere(before, rep, after, REP);
    assert [] + [set_] + [] == [set_] && [] + [period] + [] == [period];
    SelectNone(before, REP);
    SelectNone(after, REP);
    SelectSingle(rep, REP);
    SelectConcat(before, [rep], REP);
    SelectConcat(before + [rep], after, REP);
    assert all[|before|] == rep;
    assert Child(d, PERIOD) == period && Child(period, SET) == set_;
  }

  lemma {:induction false} FirstHere(before: seq<Node>, x: Node, after: seq<Node>, name: string)
    requires Named(x, name) && NoneNamed(before, name)
    ensures FindFirst(before + [x] + after, name) == |before|
  {
    var all := before + [x] + after;
    assert all[|before|] == x;
    forall k | 0 <= k < |before| ensures !Named(all[k], name) { assert all[k] == before[k]; }
    FindFromUnique(all, 0, name, |before|);
  }

  // Two different templates in one source do occur.
  lemma {:induction false} CompetingOccurs()
    ensures exists d :: SourceOk(d) && Competing(d)
  {
    var inherited := Element(TEMPLATE, map["media" := "a"], []);
    var own := Element(TEMPLATE, map["media" := "b"], []);
    var rep := Element(REP, map[], [own]);
    FirstHere([], inherited, [rep], TEMPLATE);
    FirstHere([], own, [], TEMPLATE);
    assert [] + [inherited] + [rep] == [inherited] + [rep] + [] && [] + [own] + [] == [own];
    MinimalOk([inherited], rep, []);
    var d := Minimal([inherited] + [rep] + []);
    assert Child(SetOf(d), TEMPLATE) == inherited && Child(rep, TEMPLATE) == own;
    assert inherited.attrs["media"] == "a" && own.attrs["media"] == "b";
    assert Competing(d);
  }

  // Apart from its id and an inherited template, a merged Representation is its source's.
  lemma {:induction false} RestPreserved(supplement: Node, d: Node, first: bool, id: int)
    requires SourceOk(d)
    ensures var r, own := MergedRep(supplement, d, first, id), RepOf(d);
            && r.attrs == own.attrs["id" := PrintInt(id)]
            && if first && Has(SetOf(d), TEMPLATE) then r.children == [Child(SetOf(d), TEMPLATE)] + own.children
               else if Has(own, TEMPLATE) then r.children == own.children
               else r.children == own.children + [Child(SetOf(d), TEMPLATE)]
  {
  }

  // ---------- The whole document ----------

  function File(d: Node): Node {
    Element("", map[], [d])
  }

  // clone_element_if_null: copies the last element of the path, and whatever of the way to it is
  // missing, to the end of its parent.
  predicate HasPath(n: Node, path: seq<string>) {
    path == [] || (Has(n, path[0]) && HasPath(Child(n, path[0]), path[1..]))
  }

  function CloneElement(dest: Node, source: Node, path: seq<string>): (r: Node)
    requires dest.Element? && path != [] && HasPath(source, path)
    ensures r.Element? && r.name == dest.name && r.attrs == dest.attrs
    decreases |path|
  {
    var next := Child(source, path[0]);
    if |path| == 1 then dest.(children := dest.children + [next])
    else if Has(dest, path[0]) then
      var i := FindFirst(dest.children, path[0]);
      dest.(children := dest.children[i := CloneElement(dest.children[i], next, path[1..])])
    else dest.(children := dest.children + [CloneElement(ShallowClone(next), next, path[1..])])
  }

  // The text of the first Title becomes the name of the merged file.
  function Retitle(info: Node, title: string): Node
    requires Has(info, TITLE)
  {
    var i := FindFirst(info.children, TITLE);
    info.(children := info.children[i := SetText(info.children[i], title)])
  }

  // SetText: the first child is replaced if it is a text, else a text is put before it.
  function SetText(n: Node, text: string): Node
    requires n.Element?
  {
    if n.children != [] && n.children[0].Text? then n.(children := n.children[0 := Text(text)])
    else n.(children := [Text(text)] + n.children)
  }

  // The place of an element under its parents' positions: what a pointer into the document names.
  predicate HasPlace(n: Node, place: seq<nat>) {
    place == [] || (n.Element? && place[0] < |n.children| && HasPlace(n.children[place[0]], place[1..]))
  }

  function At(n: Node, place: seq<nat>): Node
    requires HasPlace(n, place)
    decreases |place|
  {
    if place == [] then n else At(n.children[place[0]], place[1..])
  }

  function Put(n: Node, place: seq<nat>, x: Node): Node
    requires HasPlace(n, place)
    decreases |place|
  {
    if place == [] then x
    else n.(children := n.children[place[0] := Put(n.children[place[0]], place[1..], x)])
  }

  // The merged document while sets holds the AdaptationSets made so far; d is the first source.
  function Document(d: Node, title: string, sets: seq<Node>): Node
    requires SourceOk(d) && Informed(d)
  {
    var info := Retitle(Child(d, INFO), title);
    File(d.(children := if sets == [] then [info] else [info, PeriodOf(d).(children := sets)]))
  }

  function PeriodOf(d: Node): (p: Node)
    requires SourceOk(d)
    ensures Named(p, PERIOD)
  {
    Child(d, PERIOD)
  }

  lemma {:induction false} FileChild(d: Node)
    requires Named(d, MPD)
    ensures Has(File(d), MPD) && FindFirst([d], MPD) == 0 && Child(File(d), MPD) == d
  {
  }

  lemma {:induction false} CloneLast(dest: Node, source: Node, name: string)
    requires dest.Element? && Has(source, name)
    ensures HasPath(source, [name])
    ensures CloneElement(dest, source, [name]) == dest.(children := dest.children + [Child(source, name)])
  {
    assert [name][1..] == [];
  }

  lemma {:induction false} CloneInfo(d: Node, title: string)
    requires SourceOk(d) && Informed(d)
    ensures HasPath(File(d), [MPD, INFO])
    ensures var doc := CloneElement(Element("", map[], []), File(d), [MPD, INFO]);
            && HasPlace(doc, [0, 0]) && At(doc, [0, 0]) == Child(d, INFO)
            && Put(doc, [0, 0], Retitle(Child(d, INFO), title)) == Document(d, title, [])
  {
    FileChild(d);
    PathOfTwo(d, INFO);
    assert [MPD, INFO][1..] == [INFO];
    assert !Has(Element("", map[], []), MPD);
    var doc := CloneElement(Element("", map[], []), File(d), [MPD, INFO]);
    CloneLast(ShallowClone(d), d, INFO);
    var info, bare := Child(d, INFO), d.(children := [Child(d, INFO)]);
    PrependNothing([bare]);
    PrependNothing([info]);
    assert doc == File(bare);
    PlaceOfTwo(doc, 0, 0);
    assert [info][0 := Retitle(info, title)] == [Retitle(info, title)];
    assert [bare][0 := bare.(children := [Retitle(info, title)])] == [bare.(children := [Retitle(info, title)])];
  }

  lemma {:induction false} PathOfTwo(d: Node, name: string)
    requires Named(d, MPD) && Has(d, name)
    ensures HasPath(File(d), [MPD, name])
  {
    FileChild(d);
    assert [MPD, name][1..] == [name];
    assert [name][1..] == [];
    assert HasPath(d, [name]);
  }

  lemma {:induction false} PlaceOfTwo(n: Node, i: nat, j: nat)
    requires n.Element? && i < |n.children| && n.children[i].Element? && j < |n.children[i].children|
    ensures HasPlace(n, [i, j]) && At(n, [i, j]) == n.children[i].children[j]
    ensures forall x :: Put(n, [i, j], x) ==
                        n.(children := n.children[i := n.children[i].(children := n.children[i].children[j := x])])
  {
    assert [i, j][1..] == [j];
    assert [j][1..] == [];
    var inner := n.children[i];
    assert HasPlace(inner.children[j], []) && HasPlace(inner, [j]);
    assert At(inner, [j]) == inner.children[j];
    assert forall x :: Put(inner, [j], x) == inner.(children := inner.children[j := x]);
  }

  lemma {:induction false} PathToSet(d: Node)
    requires SourceOk(d)
    ensures HasPath(File(d), [MPD, PERIOD, SET])
  {
    FileChild(d);
    assert [MPD, PERIOD, SET][1..] == [PERIOD, SET];
    assert [PERIOD, SET][1..] == [SET];
    assert [SET][1..] == [];
    assert HasPath(PeriodOf(d), [SET]) && HasPath(d, [PERIOD, SET]);
  }

  // The way to a new AdaptationSet through the document made so far.
  lemma {:induction false} CloneSet(d: Node, title: string, sets: seq<Node>, source: Node)
    requires SourceOk(d) && Informed(d) && SourceOk(source) && (sets == [] ==> source == d)
    ensures HasPath(File(source), [MPD, PERIOD, SET])
    ensures CloneElement(Document(d, title, sets), File(source), [MPD, PERIOD, SET]) ==
            Document(d, title, sets + [SetOf(source)])
  {
    PathToSet(source);
    FileChild(source);
    assert [MPD, PERIOD, SET][1..] == [PERIOD, SET];
    var doc := Document(d, title, sets);
    FileChild(doc.children[0]);
    ClonePeriod(d, title, sets, source);
    var mpd := CloneElement(doc.children[0], source, [PERIOD, SET]);
    assert [doc.children[0]][0 := mpd] == [mpd];
  }

  lemma {:induction false} ClonePeriod(d: Node, title: string, sets: seq<Node>, source: Node)
    requires SourceOk(d) && Informed(d) && SourceOk(source) && (sets == [] ==> source == d)
    requires HasPath(source, [PERIOD, SET])
    ensures CloneElement(Document(d, title, sets).children[0], source, [PERIOD, SET]) ==
            Document(d, title, sets + [SetOf(source)]).children[0]
  {
    assert [PERIOD, SET][1..] == [SET];
    var mpd := Document(d, title, sets).children[0];
    var info := Retitle(Child(d, INFO), title);
    if sets == [] {
      CloneLast(ShallowClone(PeriodOf(d)), PeriodOf(d), SET);
      assert FindFirst([info], PERIOD) == 1;
      assert [] + [SetOf(d)] == [SetOf(d)];
      assert [info] + [PeriodOf(d).(children := [SetOf(d)])] == [info, PeriodOf(d).(children := [SetOf(d)])];
    } else {
      var period := PeriodOf(d).(children := sets);
      CloneLast(period, PeriodOf(source), SET);
      FindFirstBehind(info, [period], PERIOD);
      assert [info] + [period] == [info, period];
      assert FindFirst([info, period], PERIOD) == 1;
      var more := PeriodOf(d).(children := sets + [SetOf(source)]);
      assert [info, period][1 := more] == [info, more];
    }
  }

  // The place of the last AdaptationSet.
  function PlaceOfLast(count: nat): seq<nat>
    requires count > 0
  {
    [0, 1, count - 1]
  }

  lemma {:induction false} PutLast(d: Node, title: string, sets: seq<Node>, x: Node, y: Node)
    requires SourceOk(d) && Informed(d)
    ensures var doc, place := Document(d, title, sets + [x]), PlaceOfLast(|sets| + 1);
            && HasPlace(doc, place) && At(doc, place) == x
            && Put(doc, place, y) == Document(d, title, sets + [y])
  {
    var doc, place := Document(d, title, sets + [x]), PlaceOfLast(|sets| + 1);
    assert place[1..] == [1, |sets|];
    var mpd := doc.children[0];
    var info := Retitle(Child(d, INFO), title);
    PlaceOfTwo(mpd, 1, |sets|);
    assert (sets + [x])[|sets| := y] == sets + [y];
    var period, period' := PeriodOf(d).(children := sets + [x]), PeriodOf(d).(children := sets + [y]);
    assert [info, period][1 := period'] == [info, period'];
    var mpd' := d.(children := [info, period']);
    assert [mpd][0 := mpd'] == [mpd'];
  }

  // How many sources come before the g-th coordinate.
  function Before(groups: seq<Group>, g: nat): nat
    requires g <= |groups|
  {
    if g == 0 then 0 else Before(groups, g - 1) + |groups[g - 1].docs|
  }

  function SetAt(groups: seq<Group>, wcrop: int, hcrop: int, g: nat): Node
    requires g < |groups| && GroupsOk(groups)
  {
    MergedSet(Supplement(wcrop, hcrop, groups[g].coordinate), groups[g].docs, |groups[g].docs|, Before(groups, g))
  }

  // The AdaptationSets of the first coordinates, in their order.
  function MergedSets(groups: seq<Group>, wcrop: int, hcrop: int, g: nat): (r: seq<Node>)
    requires g <= |groups| && GroupsOk(groups)
    ensures |r| == g
  {
    if g == 0 then [] else MergedSets(groups, wcrop, hcrop, g - 1) + [SetAt(groups, wcrop, hcrop, g - 1)]
  }

  function Merged(groups: seq<Group>, wcrop: int, hcrop: int, title: string): Node
    requires GroupsOk(groups)
  {
    if groups == [] then Element("", map[], [])
    else Document(groups[0].docs[0], title, MergedSets(groups, wcrop, hcrop, |groups|))
  }

  // What the destination document is after the first k sources of the g-th coordinate.
  function Progress(groups: seq<Group>, wcrop: int, hcrop: int, title: string, g: nat, k: nat): Node
    requires GroupsOk(groups) && g <= |groups| && if g < |groups| then k <= |groups[g].docs| else k == 0
  {
    if g == 0 && k == 0 then Element("", map[], [])
    else Document(groups[0].docs[0], title, MergedSets(groups, wcrop, hcrop, g) +
                                            if k == 0 then [] else [PartialSet(groups, wcrop, hcrop, g, k)])
  }

  function PartialSet(groups: seq<Group>, wcrop: int, hcrop: int, g: nat, k: nat): Node
    requires GroupsOk(groups) && g < |groups| && 0 < k <= |groups[g].docs|
  {
    MergedSet(Supplement(wcrop, hcrop, groups[g].coordinate), groups[g].docs, k, Before(groups, g))
  }

  lemma {:induction false} GroupDone(groups: seq<Group>, wcrop: int, hcrop: int, title: string, g: nat)
    requires GroupsOk(groups) && g < |groups|
    ensures Progress(groups, wcrop, hcrop, title, g, |groups[g].docs|) == Progress(groups, wcrop, hcrop, title, g + 1, 0)
  {
    assert PartialSet(groups, wcrop, hcrop, g, |groups[g].docs|) == SetAt(groups, wcrop, hcrop, g);
    AppendNothing(MergedSets(groups, wcrop, hcrop, g + 1));
  }

  lemma {:induction false} AllDone(groups: seq<Group>, wcrop: int, hcrop: int, title: string)
    requires GroupsOk(groups)
    ensures Progress(groups, wcrop, hcrop, title, |groups|, 0) == Merged(groups, wcrop, hcrop, title)
  {
    AppendNothing(MergedSets(groups, wcrop, hcrop, |groups|));
  }

  /** merge_dash_mpd: builds the destination document in place, source after source. */
  method MergeDashMpd(groups: seq<Group>, wcrop: int, hcrop: int, title: string) returns (document: Node)
    requires GroupsOk(groups)
    ensures document == Merged(groups, wcrop, hcrop, title)
  {
    hide SourceOk, MergedSet, Document;
    document := Element("", map[], []);
    var programInformation, representIndex := false, 0;
    var g := 0;
    while g < |groups|
      invariant 0 <= g <= |groups|
      invariant representIndex == Before(groups, g) && programInformation == (g > 0)
      invariant document == Progress(groups, wcrop, hcrop, title, g, 0)
    {
      var adaptationSet: Option<seq<nat>> := None;
      var k := 0;
      while k < |groups[g].docs|
        invariant 0 <= k <= |groups[g].docs|
        invariant representIndex == Before(groups, g) + k && programInformation == (g + k > 0)
        invariant adaptationSet == if k == 0 then None else Some(PlaceOfLast(g + 1))
        invariant document == Progress(groups, wcrop, hcrop, title, g, k)
      {
        document, programInformation, adaptationSet, representIndex :=
          MergeSource(groups, wcrop, hcrop, title, g, k, document, programInformation, adaptationSet, representIndex);
        k := k + 1;
      }
      GroupDone(groups, wcrop, hcrop, title, g);
      g := g + 1;
    }
    AllDone(groups, wcrop, hcrop, title);
  }

  // One round of the inner loop.
  method MergeSource(groups: seq<Group>, wcrop: int, hcrop: int, title: string, g: nat, k: nat,
                     start: Node, informed: bool, open: Option<seq<nat>>, index: int)
    returns (document: Node, programInformation: bool, adaptationSet: Option<seq<nat>>, representIndex: int)
    requires GroupsOk(groups) && g < |groups| && k < |groups[g].docs|
    requires index == Before(groups, g) + k && informed == (g + k > 0)
    requires open == if k == 0 then None else Some(PlaceOfLast(g + 1))
    requires start == Progress(groups, wcrop, hcrop, title, g, k)
    ensures representIndex == index + 1 && programInformation && adaptationSet == Some(PlaceOfLast(g + 1))
    ensures document == Progress(groups, wcrop, hcrop, title, g, k + 1)
  {
    document, programInformation, adaptationSet := start, true, open;
    if !informed {
      document := StartDocument(groups, title, document);
    } else if k == 0 {
      AppendNothing(MergedSets(groups, wcrop, hcrop, g));
    }
    if adaptationSet == None {
      document, adaptationSet := OpenAdaptationSet(groups, wcrop, hcrop, title, g, document);
    } else {
      document := AddSource(groups, wcrop, hcrop, title, g, k, document, adaptationSet.value);
    }
    representIndex := index + 1;
    document := NumberSource(groups, wcrop, hcrop, title, g, k, document, adaptationSet.value, representIndex);
  }

  method StartDocument(groups: seq<Group>, title: string, start: Node) returns (document: Node)
    requires GroupsOk(groups) && groups != [] && start == Element("", map[], [])
    ensures document == Document(groups[0].docs[0], title, [])
  {
    var source := groups[0].docs[0];
    CloneInfo(source, title);
    document := CloneElement(start, File(source), [MPD, INFO]);
    document := Put(document, [0, 0], Retitle(At(document, [0, 0]), title));
  }

  method OpenAdaptationSet(groups: seq<Group>, wcrop: int, hcrop: int, title: string, g: nat, start: Node)
    returns (document: Node, adaptationSet: Option<seq<nat>>)
    requires GroupsOk(groups) && g < |groups|
    requires start == Document(groups[0].docs[0], title, MergedSets(groups, wcrop, hcrop, g))
    ensures adaptationSet == Some(PlaceOfLast(g + 1))
    ensures document == Document(groups[0].docs[0], title, MergedSets(groups, wcrop, hcrop, g) +
                                 [OpenSet(Supplement(wcrop, hcrop, groups[g].coordinate), SetOf(groups[g].docs[0]))])
  {
    var source := groups[g].docs[0];
    var supplement := Supplement(wcrop, hcrop, groups[g].coordinate);
    ghost var d, sets := groups[0].docs[0], MergedSets(groups, wcrop, hcrop, g);
    CloneSet(d, title, sets, source);
    document, adaptationSet := CloneElement(start, File(source), [MPD, PERIOD, SET]), Some(PlaceOfLast(g + 1));
    PutLast(d, title, sets, SetOf(source), OpenSet(supplement, SetOf(source)));
    document := Put(document, adaptationSet.value, OpenSet(supplement, At(document, adaptationSet.value)));
  }

  method AddSource(groups: seq<Group>, wcrop: int, hcrop: int, title: string, g: nat, k: nat, start: Node, adaptationSet: seq<nat>)
    returns (document: Node)
    requires GroupsOk(groups) && g < |groups| && 0 < k < |groups[g].docs|
    requires start == Progress(groups, wcrop, hcrop, title, g, k) && adaptationSet == PlaceOfLast(g + 1)
    ensures document == Document(groups[0].docs[0], title, MergedSets(groups, wcrop, hcrop, g) +
                                 [AddRepresentation(PartialSet(groups, wcrop, hcrop, g, k), groups[g].docs[k])])
  {
    ghost var d, sets := groups[0].docs[0], MergedSets(groups, wcrop, hcrop, g);
    ghost var open := PartialSet(groups, wcrop, hcrop, g, k);
    PutLast(d, title, sets, open, AddRepresentation(open, groups[g].docs[k]));
    document := Put(start, adaptationSet, AddRepresentation(At(start, adaptationSet), groups[g].docs[k]));
  }

  // The AdaptationSet in hand before its last Representation is numbered.
  function Unnumbered(groups: seq<Group>, wcrop: int, hcrop: int, g: nat, k: nat): Node
    requires GroupsOk(groups) && g < |groups| && k < |groups[g].docs|
  {
    if k == 0 then OpenSet(Supplement(wcrop, hcrop, groups[g].coordinate), SetOf(groups[g].docs[0]))
    else AddRepresentation(PartialSet(groups, wcrop, hcrop, g, k), groups[g].docs[k])
  }

  lemma {:induction false} NumberedIsPartial(groups: seq<Group>, wcrop: int, hcrop: int, g: nat, k: nat)
    requires GroupsOk(groups) && g < |groups| && k < |groups[g].docs|
    ensures var u := Unnumbered(groups, wcrop, hcrop, g, k);
            && u.Element? && FindLast(u.children, REP) < |u.children|
            && NumberLast(u, Before(groups, g) + k + 1) == PartialSet(groups, wcrop, hcrop, g, k + 1)
  {
    hide SourceOk, OpenChildren, NumberLast, FindLast, Select;
    if k == 0 {
      OpenSetHasRep(Supplement(wcrop, hcrop, groups[g].coordinate), groups[g].docs[0]);
    } else {
      AddedIsLast(PartialSet(groups, wcrop, hcrop, g, k).children, Completed(groups[g].docs[k]));
    }
  }

  method NumberSource(groups: seq<Group>, wcrop: int, hcrop: int, title: string, g: nat, k: nat, start: Node,
                      adaptationSet: seq<nat>, representIndex: int)
    returns (document: Node)
    requires GroupsOk(groups) && g < |groups| && k < |groups[g].docs|
    requires start == Document(groups[0].docs[0], title, MergedSets(groups, wcrop, hcrop, g) + [Unnumbered(groups, wcrop, hcrop, g, k)])
    requires adaptationSet == PlaceOfLast(g + 1) && representIndex == Before(groups, g) + k + 1
    ensures document == Progress(groups, wcrop, hcrop, title, g, k + 1)
  {
    hide SourceOk, Document, MergedSets, Before, Unnumbered, PartialSet, NumberLast, At, Put, HasPlace;
    ghost var d, sets := groups[0].docs[0], MergedSets(groups, wcrop, hcrop, g);
    ghost var u, numbered := Unnumbered(groups, wcrop, hcrop, g, k), PartialSet(groups, wcrop, hcrop, g, k + 1);
    NumberedIsPartial(groups, wcrop, hcrop, g, k);
    PutLast(d, title, sets, u, numbered);
    document := Put(start, adaptationSet, NumberLast(At(start, adaptationSet), representIndex));
  }

  // ---------- Ids ----------

  // The AdaptationSets of a document's first Period, and all their Representations in document order.
  function SetsIn(document: Node): seq<Node> {
    if !Has(document, MPD) || !Has(Child(document, MPD), PERIOD) then []
    else Select(Child(Child(document, MPD), PERIOD).children, SET)
  }

  function RepsOf(sets: seq<Node>): seq<Node> {
    if sets == [] then []
    else
      var last := sets[|sets| - 1];
      RepsOf(sets[..|sets| - 1]) + if last.Element? then Select(last.children, REP) else []
  }

  ghost predicate Numbered(reps: seq<Node>, start: int) {
    forall k :: 0 <= k < |reps| ==> Identified(reps[k], start + k + 1)
  }

  predicate Identified(rep: Node, id: int) {
    rep.Element? && "id" in rep.attrs && rep.attrs["id"] == PrintInt(id)
  }

  lemma {:induction false} NumberedJoin(a: seq<Node>, b: seq<Node>, start: int)
    requires Numbered(a, start) && Numbered(b, start + |a|)
    ensures Numbered(a + b, start)
  {
    hide Identified;
    forall k | 0 <= k < |a + b| ensures Identified((a + b)[k], start + k + 1) {
      if k >= |a| { assert (a + b)[k] == b[k - |a|]; }
    }
  }

  lemma {:induction false} SetNumbered(supplement: Node, docs: seq<Node>, start: int)
    requires docs != [] && AllOk(docs) && !Named(supplement, REP) && !Named(supplement, TEMPLATE)
    ensures var set_ := MergedSet(supplement, docs, |docs|, start);
            && Named(set_, SET)
            && |Select(set_.children, REP)| == |docs| && Numbered(Select(set_.children, REP), start)
  {
    hide SourceOk, MergedSet, Select, Opened;
    SetShape(supplement, docs, |docs|, start);
    SetHoldsReps(supplement, docs, start);
    var reps := Reps(supplement, docs, 0, |docs|, start);
    forall k | 0 <= k < |reps| ensures Identified(reps[k], start + k + 1) {
      RepsAt(supplement, docs, |docs|, start, k);
      RestPreserved(supplement, docs[k], k == 0, start + k + 1);
    }
  }

  lemma {:induction false} SetsNumbered(groups: seq<Group>, wcrop: int, hcrop: int, g: nat)
    requires g <= |groups| && GroupsOk(groups)
    ensures var sets := MergedSets(groups, wcrop, hcrop, g);
            && AllNamed(sets, SET) && |RepsOf(sets)| == Before(groups, g) && Numbered(RepsOf(sets), 0)
  {
    hide SourceOk, MergedSet, Select, Numbered;
    if g > 0 {
      SetsNumbered(groups, wcrop, hcrop, g - 1);
      var before, set_ := MergedSets(groups, wcrop, hcrop, g - 1), SetAt(groups, wcrop, hcrop, g - 1);
      SetNumbered(Supplement(wcrop, hcrop, groups[g - 1].coordinate), groups[g - 1].docs, Before(groups, g - 1));
      hide Supplement, SetAt, GroupsOk, Before;
      assert (before + [set_])[..g - 1] == before;
      NumberedJoin(RepsOf(before), Select(set_.children, REP), 0);
    } else {
      assert Numbered([], 0) by { NothingNumbered(); }
    }
  }

  lemma {:induction false} NothingNumbered()
    ensures Numbered([], 0)
  {
  }

  lemma {:induction false} DocumentParts(d: Node, title: string, sets: seq<Node>)
    requires SourceOk(d) && Informed(d) && sets != []
    ensures var root := d.(children := [Retitle(Child(d, INFO), title), PeriodOf(d).(children := sets)]);
            && Document(d, title, sets) == File(root) && Has(File(root), MPD) && Child(File(root), MPD) == root
            && Has(root, INFO) && Child(root, INFO) == Retitle(Child(d, INFO), title)
            && Has(root, PERIOD) && Child(root, PERIOD) == PeriodOf(d).(children := sets)
  {
    assert Named(PeriodOf(d), PERIOD);
    var info, period := Retitle(Child(d, INFO), title), PeriodOf(d).(children := sets);
    FindFromUnique([info, period], 0, INFO, 0);
    FindFromUnique([info, period], 0, PERIOD, 1);
    FileChild(d.(children := [info, period]));
  }

  /**
    Through the whole merged document the Representations are numbered 1, 2, 3, ... in document
    order, as many as there are sources, in one AdaptationSet per coordinate.
   */
  lemma {:induction false} IdsInOrder(groups: seq<Group>, wcrop: int, hcrop: int, title: string)
    requires GroupsOk(groups)
    ensures var sets := SetsIn(Merged(groups, wcrop, hcrop, title));
            && sets == MergedSets(groups, wcrop, hcrop, |groups|) && |sets| == |groups|
            && |RepsOf(sets)| == Before(groups, |groups|) && Numbered(RepsOf(sets), 0)
  {
    hide SourceOk, Document, Retitle, MergedSets, FindFirst, Select, RepsOf, Numbered;
    SetsNumbered(groups, wcrop, hcrop, |groups|);
    var sets := MergedSets(groups, wcrop, hcrop, |groups|);
    if groups == [] {
      assert !Has(Element("", map[], []), MPD) by { NothingIn(MPD); }
    } else {
      DocumentParts(groups[0].docs[0], title, sets);
      SelectAll(sets, SET);
    }
  }

  lemma {:induction false} NothingIn(name: string)
    ensures !Has(Element("", map[], []), name)
  {
  }
}

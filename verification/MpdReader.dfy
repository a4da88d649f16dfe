/**
  The reader of a merged document (network/dash.protocal.cpp), and what it recovers from the
  output of MpdMerge.
 */
module MpdReader {
  import opened Decimal
  import opened MpdMerge
  import opened Sequences
  import opened Wrappers
  import opened Xml
  import TileText

  datatype Represent = Represent(id: int, bandwidth: int, media: string, initial: string)

  datatype VideoSet = VideoSet(codecs: string, mimeType: string, width: int, height: int,
                               col: int, row: int, represents: seq<Represent>)

  datatype Parsed = Parsed(title: string, videoSets: map<Coordinate, VideoSet>, grid: Coordinate)

  // ---------- Sibling lists ----------

  // The first element from a place on, or the number of children.
  function NextElement(children: seq<Node>, from: nat): (i: nat)
    requires from <= |children|
    ensures from <= i <= |children|
    decreases |children| - from
  {
    if from == |children| || children[from].Element? then from else NextElement(children, from + 1)
  }

  function NamedFrom(children: seq<Node>, from: nat, name: string): seq<Node>
    requires from <= |children|
    decreases |children| - from
  {
    if from == |children| then []
    else Single(children[from], name) + NamedFrom(children, from + 1, name)
  }

  // The child at a place and those of the name behind it.
  function FromPlace(children: seq<Node>, i: nat, name: string): seq<Node>
    requires i <= |children|
  {
    if i == |children| then [] else [children[i]] + NamedFrom(children, i + 1, name)
  }

  // What list_next_sibling collects: the second element is taken whatever its name.
  function Siblings(children: seq<Node>, name: string): seq<Node>
    requires FindFirst(children, name) < |children|
  {
    var i := FindFirst(children, name);
    [children[i]] + FromPlace(children, NextElement(children, i + 1), name)
  }

  method ListNextSibling(children: seq<Node>, name: string) returns (sibling: seq<Node>)
    requires FindFirst(children, name) < |children|
    ensures sibling == Siblings(children, name)
  {
    hide NamedFrom, NextElement, FindFirst;
    var i := FindFirst(children, name);
    sibling := [children[i]];
    var next := NextElement(children, i + 1);
    while next < |children|
      invariant next <= |children|
      invariant sibling + FromPlace(children, next, name) == Siblings(children, name)
    {
      var after := FindFrom(children, next + 1, name);
      NamedFromFirst(children, next + 1, name);
      AppendAssociates(sibling, [children[next]], FromPlace(children, after, name));
      sibling := sibling + [children[next]];
      next := after;
    }
    AppendNothing(sibling);
  }

  lemma {:induction false} NamedFromFirst(children: seq<Node>, from: nat, name: string)
    requires from <= |children|
    ensures var i := FindFrom(children, from, name);
            NamedFrom(children, from, name) == FromPlace(children, i, name)
    decreases |children| - from
  {
    if from < |children| && !Named(children[from], name) {
      NamedFromFirst(children, from + 1, name);
      PrependNothing(NamedFrom(children, from + 1, name));
    }
  }

  lemma {:induction false} NamedFromIsSelect(children: seq<Node>, from: nat, name: string)
    requires from <= |children|
    ensures NamedFrom(children, from, name) == Select(children[from..], name)
    decreases |children| - from
  {
    hide Select;
    if from < |children| {
      NamedFromIsSelect(children, from + 1, name);
      SelectSingle(children[from], name);
      SelectConcat([children[from]], children[from + 1..], name);
      assert [children[from]] + children[from + 1..] == children[from..];
    } else {
      SelectNone(children[from..], name);
    }
  }

  lemma {:induction false} SelectFromFirst(children: seq<Node>, name: string)
    requires FindFirst(children, name) < |children|
    ensures var i := FindFirst(children, name);
            Select(children, name) == [children[i]] + NamedFrom(children, i + 1, name)
  {
    hide Select, NamedFrom;
    var i := FindFirst(children, name);
    FindFirstMeans(children, name);
    SelectNone(children[..i], name);
    SelectAround(children, i, children[i], name);
    NamedFromIsSelect(children, i + 1, name);
    PrependNothing([children[i]]);
  }

  lemma {:induction false} PlaceIsNamed(children: seq<Node>, i: nat, name: string)
    requires i <= |children|
    ensures FromPlace(children, i, name) == NamedFrom(children, i, name) <==> i == |children| || Named(children[i], name)
  {
    if i < |children| {
      var more := NamedFrom(children, i + 1, name);
      PrependNothing(more);
      assert |[children[i]] + more| == 1 + |more|;
    }
  }

  // The list is all the elements of that name exactly when the first of them is followed by
  // another of the same name, or by no element at all.
  lemma {:induction false} SiblingsAreAll(children: seq<Node>, name: string)
    requires FindFirst(children, name) < |children|
    ensures var next := NextElement(children, FindFirst(children, name) + 1);
            Siblings(children, name) == Select(children, name) <==>
            (next == |children| || Named(children[next], name))
  {
    hide Select, NextElement, FindFirst, NamedFrom, FromPlace, Named;
    var i := FindFirst(children, name);
    var next := NextElement(children, i + 1);
    SelectFromFirst(children, name);
    SkipTexts(children, i + 1, name);
    PlaceIsNamed(children, next, name);
    SameBehind(children[i], FromPlace(children, next, name), NamedFrom(children, next, name));
  }

  lemma {:induction false} SameBehind(x: Node, a: seq<Node>, b: seq<Node>)
    ensures [x] + a == [x] + b <==> a == b
  {
    assert ([x] + a)[1..] == a && ([x] + b)[1..] == b;
  }

  lemma {:induction false} SkipTexts(children: seq<Node>, from: nat, name: string)
    requires from <= |children|
    ensures NamedFrom(children, from, name) == NamedFrom(children, NextElement(children, from), name)
    decreases |children| - from
  {
    if from < |children| && !children[from].Element? {
      SkipTexts(children, from + 1, name);
      PrependNothing(NamedFrom(children, from + 1, name));
    }
  }

  // ---------- Reading elements ----------

  // A missing attribute is a null pointer in the source; here it is a failure.
  function Attribute(n: Node, name: string): Option<string> {
    if n.Element? && name in n.attrs then Some(n.attrs[name]) else None
  }

  function IntAttribute(n: Node, name: string): Option<int> {
    match Attribute(n, name)
    case Some(text) => ParseInt(text)
    case None => None
  }

  const NUMBER := "$Number$"

  // The first occurrence of a text at or after a place, or the end.
  function FindText(s: string, text: string, from: nat): (i: nat)
    requires from <= |s|
    ensures from <= i <= |s|
    ensures i < |s| ==> i + |text| <= |s| && s[i..i + |text|] == text
    decreases |s| - from
  {
    if from == |s| then from
    else if from + |text| <= |s| && s[from..from + |text|] == text then from
    else FindText(s, text, from + 1)
  }

  predicate Occurs(s: string, text: string, k: nat) {
    k + |text| <= |s| && s[k..k + |text|] == text
  }

  /** What is found is an occurrence with none before it; the length says that there is none at all. */
  lemma {:induction false} FindTextMeans(s: string, text: string, from: nat)
    requires from <= |s| && text != []
    ensures var i := FindText(s, text, from);
            && (i < |s| <==> exists k :: from <= k && Occurs(s, text, k))
            && (i < |s| ==> Occurs(s, text, i))
            && forall k :: from <= k < i ==> !Occurs(s, text, k)
    decreases |s| - from
  {
    if from < |s| && !Occurs(s, text, from) { FindTextMeans(s, text, from + 1); }
  }

  // Replaces the number's place in a media pattern; having none fails an assertion in the source.
  function Format(media: string): Option<string> {
    var i := FindText(media, NUMBER, 0);
    if i == |media| then None else Some(media[..i] + "{}" + media[i + |NUMBER|..])
  }

  lemma {:induction false} FormatExample()
    ensures Format("tile-$Number$.m4s") == Some("tile-{}.m4s")
  {
    hide FindText;
    var s := "tile-$Number$.m4s";
    FindTextMeans(s, NUMBER, 0);
    forall k: nat | k < 5 ensures !Occurs(s, NUMBER, k) {
      if Occurs(s, NUMBER, k) { StartsWith(s, NUMBER, k); }
    }
    assert s[5..13] == NUMBER;
    assert Occurs(s, NUMBER, 5);
    assert FindText(s, NUMBER, 0) == 5;
    assert s[..5] + "{}" + s[13..] == "tile-{}.m4s";
  }

  lemma {:induction false} StartsWith(s: string, text: string, k: nat)
    requires text != [] && Occurs(s, text, k)
    ensures k < |s| && s[k] == text[0]
  {
    assert s[k..k + |text|][0] == s[k];
  }

  function ReadRepresent(id: Option<int>, rep: Node, template: Node): Option<Represent> {
    match (id, IntAttribute(rep, "bandwidth"), Attribute(template, "media"), Attribute(template, "initialization"))
    case (Some(n), Some(bandwidth), Some(media), Some(initial)) =>
      (match Format(media)
       case Some(pattern) => Some(Represent(n, bandwidth, pattern, initial))
       case None => None)
    case _ => None
  }

  function ParseRepresent(rep: Node): Option<Represent> {
    if Has(rep, TEMPLATE) then ReadRepresent(IntAttribute(rep, "id"), rep, Child(rep, TEMPLATE)) else None
  }

  function ParseRepresents(reps: seq<Node>): Option<seq<Represent>> {
    if reps == [] then Some([])
    else Append(ParseRepresents(reps[..|reps| - 1]), ParseRepresent(reps[|reps| - 1]))
  }

  function Append<T>(front: Option<seq<T>>, last: Option<T>): Option<seq<T>> {
    match (front, last)
    case (Some(ts), Some(t)) => Some(ts + [t])
    case _ => None
  }

  function Spatial(set_: Node): Option<seq<int>>
    ensures Spatial(set_).Some? ==> |Spatial(set_).value| == 6
  {
    if !Has(set_, SUPPLEMENT) then None
    else
      match Attribute(Child(set_, SUPPLEMENT), "value")
      case Some(srd) => TileText.SplitSpatialDescription(srd)
      case None => None
  }

  // The AdaptationSet's fields, its first Representation's fields, its place and Representations.
  function MakeVideoSet(set_: Node, rep: Node, spatial: Option<seq<int>>, represents: Option<seq<Represent>>): (r: Option<VideoSet>)
    requires spatial.Some? ==> |spatial.value| == 6
    ensures r.Some? ==> spatial.Some? && r.value.col == spatial.value[0] && r.value.row == spatial.value[1]
  {
    match (Attribute(rep, "codecs"), Attribute(rep, "mimeType"), IntAttribute(set_, "maxWidth"), IntAttribute(set_, "maxHeight"))
    case (Some(codecs), Some(mimeType), Some(width), Some(height)) =>
      (match (spatial, represents)
       case (Some(place), Some(rs)) => Some(VideoSet(codecs, mimeType, width, height, place[0], place[1], rs))
       case _ => None)
    case _ => None
  }

  function ParseVideoSet(set_: Node): Option<VideoSet> {
    if !Has(set_, REP) then None
    else MakeVideoSet(set_, Child(set_, REP), Spatial(set_), ParseRepresents(Siblings(set_.children, REP)))
  }

  // Adds a set under its coordinate; a second one there fails an assertion in the source.
  function Emplace(sets: Option<map<Coordinate, VideoSet>>, added: Option<VideoSet>): Option<map<Coordinate, VideoSet>> {
    match (sets, added)
    case (Some(m), Some(s)) => if (s.col, s.row) in m then None else Some(m[(s.col, s.row) := s])
    case _ => None
  }

  predicate IsAudio(rep: Node) {
    match Attribute(rep, "mimeType")
    case Some(mime) => FindText(mime, "audio", 0) < |mime|
    case None => false
  }

  /** A Representation is audio exactly if its mimeType contains that word. */
  lemma {:induction false} AudioMeans(rep: Node)
    ensures IsAudio(rep) <==>
            rep.Element? && "mimeType" in rep.attrs && exists k: nat :: Occurs(rep.attrs["mimeType"], "audio", k)
  {
    hide FindText;
    if rep.Element? && "mimeType" in rep.attrs { FindTextMeans(rep.attrs["mimeType"], "audio", 0); }
  }

  lemma {:induction false} Mp4IsVideo(rep: Node)
    requires rep.Element? && "mimeType" in rep.attrs && rep.attrs["mimeType"] == "video/mp4"
    ensures !IsAudio(rep)
  {
    AudioMeans(rep);
    var m := "video/mp4";
    forall k: nat ensures !Occurs(m, "audio", k) {
      if k + 5 <= |m| { assert m[k] != 'a' && m[k..k + 5][0] == m[k]; }
    }
  }

  // parse_video_adaptation_set over the sets that are not audio.
  function ParseVideoSets(sets: seq<Node>): Option<map<Coordinate, VideoSet>>
    requires forall k :: 0 <= k < |sets| ==> Has(sets[k], REP)
  {
    if sets == [] then Some(map[])
    else
      var set_ := sets[|sets| - 1];
      var before := ParseVideoSets(sets[..|sets| - 1]);
      if IsAudio(Child(set_, REP)) then before else Emplace(before, ParseVideoSet(set_))
  }

  // ---------- Merging, then reading ----------

  // In a source's AdaptationSet nothing but the template moved away follows the Representation.
  predicate NothingBehind(source: seq<Node>) {
    forall k :: FindFirst(source, REP) < k < |source| && source[k].Element? ==> k == FindFirst(source, TEMPLATE)
  }

  ghost predicate NoElements(children: seq<Node>) {
    forall k :: 0 <= k < |children| ==> !children[k].Element?
  }

  lemma {:induction false} TailIsBare(source: seq<Node>)
    requires FindFirst(source, REP) < |source|
    ensures NoElements(Behind(source)) <==> NothingBehind(source)
  {
    var r, t := FindFirst(source, REP), FindFirst(source, TEMPLATE);
    var tail, after := Behind(source), source[r + 1..];
    assert forall k :: r < k < |source| ==> after[k - r - 1] == source[k];
    if r < t < |source| {
      assert tail == RemoveAt(after, t - r - 1);
      assert forall k :: 0 <= k < t - r - 1 ==> tail[k] == source[r + 1 + k];
      assert forall k :: t - r - 1 <= k < |tail| ==> tail[k] == source[r + 2 + k];
      assert forall k :: r < k < t ==> tail[k - r - 1] == source[k];
      assert forall k :: t < k < |source| ==> tail[k - r - 2] == source[k];
    } else {
      assert tail == after;
      assert forall k :: 0 <= k < |tail| ==> tail[k] == source[r + 1 + k];
    }
  }

  // The element, if any, that the reader takes for the second Representation of a source's set.
  function Stray(source: seq<Node>): seq<Node>
    requires FindFirst(source, REP) < |source|
  {
    var tail := Behind(source);
    var i := NextElement(tail, 0);
    if i == |tail| then [] else [tail[i]]
  }

  lemma {:induction false} NoStray(source: seq<Node>)
    requires FindFirst(source, REP) < |source|
    ensures Stray(source) == [] <==> NothingBehind(source)
  {
    hide Behind, NothingBehind, FindFirst;
    TailIsBare(source);
    var tail := Behind(source);
    if NoElements(tail) {
      NextAfter(tail, 0, |tail|);
    } else {
      var k :| 0 <= k < |tail| && tail[k].Element?;
      NextIsBefore(tail, 0, k);
    }
  }

  lemma {:induction false} NextAfter(children: seq<Node>, from: nat, i: nat)
    requires from <= i <= |children| && (i < |children| ==> children[i].Element?)
    requires forall k :: from <= k < i ==> !children[k].Element?
    ensures NextElement(children, from) == i
    decreases |children| - from
  {
    if from < i { NextAfter(children, from + 1, i); }
  }

  lemma {:induction false} NextShifts(before: seq<Node>, children: seq<Node>, from: nat)
    requires from <= |children|
    ensures NextElement(before + children, |before| + from) == |before| + NextElement(children, from)
    decreases |children| - from
  {
    if from < |children| {
      assert (before + children)[|before| + from] == children[from];
      if !children[from].Element? { NextShifts(before, children, from + 1); }
    }
  }

  lemma {:induction false} NextStaysWithin(children: seq<Node>, more: seq<Node>, from: nat)
    requires from <= |children|
    ensures NextElement(children, from) < |children| ==> NextElement(children + more, from) == NextElement(children, from)
    decreases |children| - from
  {
    if from < |children| {
      assert (children + more)[from] == children[from];
      if !children[from].Element? { NextStaysWithin(children, more, from + 1); }
    }
  }

  lemma {:induction false} NextAmong(head: seq<Node>, rep: Node, tail: seq<Node>, later: seq<Node>)
    requires NoneNamed(tail, REP) && AllNamed(later, REP)
    ensures var all := head + [rep] + tail + later;
            var next := NextElement(all, |head| + 1);
            (next == |all| || Named(all[next], REP)) <==> NoElements(tail)
  {
    hide NextElement;
    var all, rest := head + [rep] + tail + later, tail + later;
    assert all == (head + [rep]) + rest;
    NextShifts(head + [rep], rest, 0);
    var i := NextElement(rest, 0);
    assert i < |rest| ==> all[|head| + 1 + i] == rest[i];
    if NoElements(tail) {
      NextBehind(tail, later);
    } else {
      var k :| 0 <= k < |tail| && tail[k].Element?;
      NextIsBefore(tail, 0, k);
      NextStaysWithin(tail, later, 0);
      assert rest[i] == tail[i];
    }
  }

  lemma {:induction false} NextBehind(tail: seq<Node>, later: seq<Node>)
    requires NoElements(tail) && AllNamed(later, REP)
    ensures NextElement(tail + later, 0) == |tail| && (later != [] ==> Named((tail + later)[|tail|], REP))
  {
    var rest := tail + later;
    forall k | 0 <= k < |tail| ensures !rest[k].Element? { assert rest[k] == tail[k]; }
    if later != [] { assert rest[|tail|] == later[0]; }
    NextAfter(rest, 0, |tail|);
  }

  lemma {:induction false} NextIsBefore(children: seq<Node>, from: nat, k: nat)
    requires from <= k < |children| && children[k].Element?
    ensures NextElement(children, from) <= k && children[NextElement(children, from)].Element?
    decreases |children| - from
  {
    if !children[from].Element? { NextIsBefore(children, from + 1, k); }
  }

  /**
    The reader lists exactly the merged Representations, in the order of the sources, if and
    only if nothing but its template follows the Representation in the first source.
   */
  lemma {:induction false} ReaderSeesReps(supplement: Node, docs: seq<Node>, start: int)
    requires docs != [] && AllOk(docs) && !Named(supplement, REP) && !Named(supplement, TEMPLATE)
    ensures var set_ := MergedSet(supplement, docs, |docs|, start);
            && Has(set_, REP) && Child(set_, REP) == RepAt(supplement, docs, 0, start)
            && (Siblings(set_.children, REP) == Reps(supplement, docs, 0, |docs|, start) <==>
                NothingBehind(SetOf(docs[0]).children))
  {
    hide MergedSet, Reps, RepAt, Opened, Behind, Select, Siblings, NextElement, FindFirst;
    var p := Opened(supplement, SetOf(docs[0]).children);
    var rep, later := RepAt(supplement, docs, 0, start), Reps(supplement, docs, 1, |docs|, start);
    var set_ := MergedSet(supplement, docs, |docs|, start);
    SetShape(supplement, docs, |docs|, start);
    SetHoldsReps(supplement, docs, start);
    OpenedHasOneRep(supplement, SetOf(docs[0]).children);
    AppendAssociates(p.head + [rep], p.tail, later);
    FirstHere(p.head, rep, p.tail + later, REP);
    NextAmong(p.head, rep, p.tail, later);
    SiblingsAreAll(set_.children, REP);
    OpenedTail(supplement, SetOf(docs[0]).children);
    TailIsBare(SetOf(docs[0]).children);
  }

  lemma {:induction false} SelectLater(tail: seq<Node>, later: seq<Node>, i: nat)
    requires i <= |tail| && NoneNamed(tail, REP) && AllNamed(later, REP)
    ensures Select(tail[i..] + later, REP) == later
  {
    hide Select;
    SelectNone(tail[i..], REP);
    SelectAll(later, REP);
    SelectConcat(tail[i..], later, REP);
    PrependNothing(later);
  }

  // What the list of siblings is, whatever stands between the first Representation and the others.
  lemma {:induction false} SiblingsAmong(head: seq<Node>, rep: Node, tail: seq<Node>, later: seq<Node>)
    requires Named(rep, REP) && NoneNamed(head, REP) && NoneNamed(tail, REP) && AllNamed(later, REP)
    ensures var all := head + [rep] + tail + later;
            var i := NextElement(tail, 0);
            FindFirst(all, REP) == |head| &&
            Siblings(all, REP) == [rep] + (if i == |tail| then [] else [tail[i]]) + later
  {
    var all, i := head + [rep] + tail + later, NextElement(tail, 0);
    assert head + [rep] + (tail + later) == all && all[|head|] == rep;
    FirstHere(head, rep, tail + later, REP);
    if i == |tail| {
      AppendNothing([rep]);
      SiblingsBare(head, rep, tail, later);
    } else {
      SiblingsStray(head, rep, tail, later);
    }
  }

  lemma {:induction false} SiblingsBare(head: seq<Node>, rep: Node, tail: seq<Node>, later: seq<Node>)
    requires Named(rep, REP) && NoneNamed(head, REP) && NoneNamed(tail, REP) && AllNamed(later, REP)
    requires NextElement(tail, 0) == |tail| && FindFirst(head + [rep] + tail + later, REP) == |head|
    ensures Siblings(head + [rep] + tail + later, REP) == [rep] + later
  {
    hide Select, Siblings, NextElement, FindFirst;
    var all := head + [rep] + tail + later;
    NoElementBefore(tail, |tail|);
    NextAmong(head, rep, tail, later);
    SiblingsAreAll(all, REP);
    SelectNone(head, REP);
    SelectNone(tail, REP);
    SelectAll(later, REP);
    SelectSingle(rep, REP);
    SelectConcat(head, [rep], REP);
    SelectConcat(head + [rep], tail, REP);
    SelectConcat(head + [rep] + tail, later, REP);
    PrependNothing([rep]);
    AppendNothing([rep]);
  }

  lemma {:induction false} SiblingsStray(head: seq<Node>, rep: Node, tail: seq<Node>, later: seq<Node>)
    requires Named(rep, REP) && NoneNamed(tail, REP) && AllNamed(later, REP)
    requires NextElement(tail, 0) < |tail| && FindFirst(head + [rep] + tail + later, REP) == |head|
    ensures Siblings(head + [rep] + tail + later, REP) == [rep] + [tail[NextElement(tail, 0)]] + later
  {
    hide Select, NextElement, FindFirst, NamedFrom;
    var all, i := head + [rep] + tail + later, NextElement(tail, 0);
    assert all == (head + [rep]) + (tail + later);
    NextShifts(head + [rep], tail + later, 0);
    NextStaysWithin(tail, later, 0);
    var next := |head| + 1 + i;
    assert all[next] == tail[i] && all[|head|] == rep;
    NamedFromIsSelect(all, next + 1, REP);
    assert all[next + 1..] == tail[i + 1..] + later;
    SelectLater(tail, later, i + 1);
    AppendAssociates([rep], [tail[i]], later);
  }

  lemma {:induction false} NoElementBefore(children: seq<Node>, n: nat)
    requires n <= |children| && NextElement(children, 0) >= n
    ensures forall k :: 0 <= k < n ==> !children[k].Element?
  {
    forall k | 0 <= k < n ensures !children[k].Element? {
      if children[k].Element? { NextIsBefore(children, 0, k); }
    }
  }

  /** What the reader lists in a merged set, for any sources. */
  lemma {:induction false} ReaderLists(supplement: Node, docs: seq<Node>, start: int)
    requires docs != [] && AllOk(docs) && !Named(supplement, REP) && !Named(supplement, TEMPLATE)
    ensures var set_ := MergedSet(supplement, docs, |docs|, start);
            && Has(set_, REP) && Child(set_, REP) == RepAt(supplement, docs, 0, start)
            && Siblings(set_.children, REP) ==
               [RepAt(supplement, docs, 0, start)] + Stray(SetOf(docs[0]).children) + Reps(supplement, docs, 1, |docs|, start)
  {
    hide MergedSet, Reps, RepAt, Opened, Behind, Select, Siblings, NextElement, FindFirst;
    var p := Opened(supplement, SetOf(docs[0]).children);
    ReaderSeesReps(supplement, docs, start);
    SetShape(supplement, docs, |docs|, start);
    OpenedHasOneRep(supplement, SetOf(docs[0]).children);
    OpenedTail(supplement, SetOf(docs[0]).children);
    SiblingsAmong(p.head, RepAt(supplement, docs, 0, start), p.tail, Reps(supplement, docs, 1, |docs|, start));
  }

  // A merged Representation reads as its source's, by the template that governs it now.
  lemma {:induction false} ReadsAsSource(supplement: Node, d: Node, first: bool, id: int)
    requires SourceOk(d) && IsInt(id)
    ensures ParseRepresent(MergedRep(supplement, d, first, id)) == ReadRepresent(Some(id), RepOf(d), Governing(d, first))
  {
    hide Opened, Completed, Format, ParseInt, PrintInt, Governing;
    TemplatePreserved(supplement, d, first, id);
    RestPreserved(supplement, d, first, id);
    ParsePrinted(id);
    var rep := MergedRep(supplement, d, first, id);
    assert Attribute(rep, "bandwidth") == Attribute(RepOf(d), "bandwidth");
    assert Attribute(rep, "id") == Some(PrintInt(id));
  }

  function SourceRepresent(docs: seq<Node>, k: nat, start: int): Option<Represent>
    requires k < |docs| && AllOk(docs)
  {
    ReadRepresent(Some(start + k + 1), RepOf(docs[k]), Governing(docs[k], k == 0))
  }

  function SourceRepresents(docs: seq<Node>, from: nat, n: nat, start: int): Option<seq<Represent>>
    requires from <= n <= |docs| && AllOk(docs)
    decreases n
  {
    if n == from then Some([])
    else Append(SourceRepresents(docs, from, n - 1, start), SourceRepresent(docs, n - 1, start))
  }

  lemma {:induction false} ReadReps(supplement: Node, docs: seq<Node>, from: nat, n: nat, start: int)
    requires from <= n <= |docs| && AllOk(docs)
    requires 0 <= start && start + n <= INT_MAX
    ensures ParseRepresents(Reps(supplement, docs, from, n, start)) == SourceRepresents(docs, from, n, start)
    decreases n
  {
    hide SourceOk, RepAt, SourceRepresent, ParseRepresent;
    if n > from {
      var before, rep := Reps(supplement, docs, from, n - 1, start), RepAt(supplement, docs, n - 1, start);
      ReadReps(supplement, docs, from, n - 1, start);
      ReadsRepAt(supplement, docs, n - 1, start);
      assert (before + [rep])[..n - 1 - from] == before;
    }
  }

  lemma {:induction false} ReadsRepAt(supplement: Node, docs: seq<Node>, k: nat, start: int)
    requires k < |docs| && AllOk(docs) && 0 <= start && start + k + 1 <= INT_MAX
    ensures ParseRepresent(RepAt(supplement, docs, k, start)) == SourceRepresent(docs, k, start)
  {
    hide ReadRepresent, ParseRepresent, MergedRep, Governing;
    ReadsAsSource(supplement, docs[k], k == 0, start + k + 1);
  }

  function Both<T>(a: Option<seq<T>>, b: Option<seq<T>>): Option<seq<T>> {
    match (a, b)
    case (Some(x), Some(y)) => Some(x + y)
    case _ => None
  }

  lemma {:induction false} ParseConcat(a: seq<Node>, b: seq<Node>)
    ensures ParseRepresents(a + b) == Both(ParseRepresents(a), ParseRepresents(b))
    decreases |b|
  {
    hide ParseRepresent;
    if b == [] {
      AppendNothing(a);
      if ParseRepresents(a).Some? { AppendNothing(ParseRepresents(a).value); }
    } else {
      var n := |b| - 1;
      ParseConcat(a, b[..n]);
      assert (a + b)[..|a + b| - 1] == a + b[..n];
      if ParseRepresents(a).Some? && ParseRepresents(b).Some? {
        AppendAssociates(ParseRepresents(a).value, ParseRepresents(b[..n]).value, [ParseRepresent(b[n]).value]);
      }
    }
  }

  // What the reader finds for the sources of one coordinate: their Represents, and behind the
  // first whatever it makes of a stray element.
  function Listed(docs: seq<Node>, start: int): Option<seq<Represent>>
    requires docs != [] && AllOk(docs)
  {
    Both(Both(SourceRepresents(docs, 0, 1, start), ParseRepresents(Stray(SetOf(docs[0]).children))),
         SourceRepresents(docs, 1, |docs|, start))
  }

  lemma {:induction false} ReadsItsList(supplement: Node, docs: seq<Node>, start: int)
    requires docs != [] && AllOk(docs) && !Named(supplement, REP) && !Named(supplement, TEMPLATE)
    requires 0 <= start && start + |docs| <= INT_MAX
    ensures var set_ := MergedSet(supplement, docs, |docs|, start);
            Has(set_, REP) && ParseRepresents(Siblings(set_.children, REP)) == Listed(docs, start)
  {
    var first, stray, later :=
      [RepAt(supplement, docs, 0, start)], Stray(SetOf(docs[0]).children), Reps(supplement, docs, 1, |docs|, start);
    assert Reps(supplement, docs, 0, 1, start) == first by { OneRep(supplement, docs, start); }
    hide SourceOk, MergedSet, Reps, RepAt, Stray, Siblings, SourceRepresents, ParseRepresents;
    ReaderLists(supplement, docs, start);
    ReadReps(supplement, docs, 0, 1, start);
    ReadReps(supplement, docs, 1, |docs|, start);
    ParseConcat(first, stray);
    ParseConcat(first + stray, later);
  }

  lemma {:induction false} OneRep(supplement: Node, docs: seq<Node>, start: int)
    requires docs != [] && AllOk(docs)
    ensures Reps(supplement, docs, 0, 1, start) == [RepAt(supplement, docs, 0, start)]
  {
    hide SourceOk, RepAt;
    PrependNothing([RepAt(supplement, docs, 0, start)]);
  }

  // What the sources of one coordinate say by themselves.
  function SourceSet(wcrop: int, hcrop: int, group: Group, start: int): Option<VideoSet>
    requires group.docs != [] && AllOk(group.docs)
  {
    MakeVideoSet(SetOf(group.docs[0]), RepOf(group.docs[0]),
                 Some([group.coordinate.0, group.coordinate.1, 1, 1, wcrop, hcrop]), Listed(group.docs, start))
  }

  lemma {:induction false} SourceSetPlace(wcrop: int, hcrop: int, group: Group, start: int)
    requires group.docs != [] && AllOk(group.docs)
    ensures var r := SourceSet(wcrop, hcrop, group, start); r.Some? ==> (r.value.col, r.value.row) == group.coordinate
  {
    hide Select, Listed, MakeVideoSet;
  }

  predicate GroupReadable(group: Group) {
    && group.docs != [] && AllOk(group.docs)
    && IsInt(group.coordinate.0) && IsInt(group.coordinate.1)
  }

  lemma {:induction false} ReadsItsPlace(wcrop: int, hcrop: int, group: Group, start: int)
    requires group.docs != [] && AllOk(group.docs) && IsInt(group.coordinate.0) && IsInt(group.coordinate.1)
    requires IsInt(wcrop) && IsInt(hcrop)
    ensures var set_ := MergedSet(Supplement(wcrop, hcrop, group.coordinate), group.docs, |group.docs|, start);
            && Spatial(set_) == Some([group.coordinate.0, group.coordinate.1, 1, 1, wcrop, hcrop])
            && Attribute(Child(set_, SUPPLEMENT), "schemeIdUri") == Some("urn:mpeg:dash:srd:2014")
  {
    hide SourceOk, MergedSet, RepAt, Reps, TileText.SpatialRelationship, TileText.SplitSpatialDescription;
    var supplement := Supplement(wcrop, hcrop, group.coordinate);
    var set_ := MergedSet(supplement, group.docs, |group.docs|, start);
    SetShape(supplement, group.docs, |group.docs|, start);
    assert set_.children[0] == supplement;
    FindFromUnique(set_.children, 0, SUPPLEMENT, 0);
    TileText.SpatialRoundTrip(wcrop, hcrop, group.coordinate.0, group.coordinate.1);
  }

  lemma {:induction false} ReadsItsSet(wcrop: int, hcrop: int, group: Group, start: int)
    requires GroupReadable(group) && IsInt(wcrop) && IsInt(hcrop) && 0 <= start && start + |group.docs| <= INT_MAX
    ensures var set_ := MergedSet(Supplement(wcrop, hcrop, group.coordinate), group.docs, |group.docs|, start);
            ParseVideoSet(set_) == SourceSet(wcrop, hcrop, group, start)
  {
    hide SourceOk, MergedSet, Reps, Opened, Spatial, Siblings, Stray, ParseRepresents, Listed;
    var supplement := Supplement(wcrop, hcrop, group.coordinate);
    ReaderLists(supplement, group.docs, start);
    ReadsItsPlace(wcrop, hcrop, group, start);
    ReadsItsList(supplement, group.docs, start);
    SetShape(supplement, group.docs, |group.docs|, start);
    RestPreserved(supplement, group.docs[0], true, start + 1);
  }

  // ---------- The whole document ----------

  function TitleText(info: Node): Option<string> {
    if !Has(info, TITLE) then None
    else
      var title := Child(info, TITLE);
      if title.children != [] && title.children[0].Text? then Some(title.children[0].value) else None
  }

  // The first set that is not audio, or else the first: what stands in front after remove_if.
  function Front(sets: seq<Node>): (r: Node)
    requires sets != [] && forall k :: 0 <= k < |sets| ==> Has(sets[k], REP)
    ensures r in sets
  {
    if !IsAudio(Child(sets[0], REP)) || |sets| == 1 || forall k :: 0 <= k < |sets| ==> IsAudio(Child(sets[k], REP)) then sets[0]
    else
      assert exists k :: 1 <= k < |sets| && !IsAudio(Child(sets[k], REP));
      Front(sets[1..])
  }

  function Grid(set_: Node): Option<Coordinate> {
    match Spatial(set_)
    case Some(place) => Some((place[4], place[5]))
    case None => None
  }

  function Assemble(title: Option<string>, sets: Option<map<Coordinate, VideoSet>>, grid: Option<Coordinate>): Option<Parsed> {
    match (title, sets, grid)
    case (Some(t), Some(m), Some(g)) => Some(Parsed(t, m, g))
    case _ => None
  }

  function ParseRoot(root: Node): Option<Parsed> {
    if !Has(root, INFO) || !Has(root, PERIOD) || !Has(Child(root, PERIOD), SET) then None
    else
      var sets := Siblings(Child(root, PERIOD).children, SET);
      if exists k :: 0 <= k < |sets| && !Has(sets[k], REP) then None
      else Assemble(TitleText(Child(root, INFO)), ParseVideoSets(sets), Grid(Front(sets)))
  }

  function ParseMpd(document: Node): Option<Parsed> {
    if !document.Element? || NextElement(document.children, 0) == |document.children| then None
    else ParseRoot(document.children[NextElement(document.children, 0)])
  }

  // What the sources say by themselves, coordinate after coordinate.
  function SourceSets(groups: seq<Group>, wcrop: int, hcrop: int, n: nat): Option<map<Coordinate, VideoSet>>
    requires n <= |groups| && GroupsOk(groups)
  {
    if n == 0 then Some(map[])
    else
      var before := SourceSets(groups, wcrop, hcrop, n - 1);
      if IsAudio(RepOf(groups[n - 1].docs[0])) then before
      else Emplace(before, SourceSet(wcrop, hcrop, groups[n - 1], Before(groups, n - 1)))
  }

  ghost predicate AllReadable(groups: seq<Group>, wcrop: int, hcrop: int) {
    && groups != [] && IsInt(wcrop) && IsInt(hcrop) && Before(groups, |groups|) <= INT_MAX
    && forall g :: 0 <= g < |groups| ==> GroupReadable(groups[g])
  }

  lemma {:induction false} BeforeGrows(groups: seq<Group>, g: nat, n: nat)
    requires g <= n <= |groups|
    ensures Before(groups, g) <= Before(groups, n)
  {
    if g < n { BeforeGrows(groups, g, n - 1); }
  }

  lemma {:induction false} MergedSetsAt(groups: seq<Group>, wcrop: int, hcrop: int, n: nat, g: nat)
    requires g < n <= |groups| && GroupsOk(groups)
    ensures MergedSets(groups, wcrop, hcrop, n)[g] == SetAt(groups, wcrop, hcrop, g)
  {
    hide GroupsOk, SetAt;
    if g < n - 1 { MergedSetsAt(groups, wcrop, hcrop, n - 1, g); }
  }

  lemma {:induction false} GroupReads(wcrop: int, hcrop: int, group: Group, start: int)
    requires GroupReadable(group) && IsInt(wcrop) && IsInt(hcrop) && 0 <= start && start + |group.docs| <= INT_MAX
    ensures var set_ := MergedSet(Supplement(wcrop, hcrop, group.coordinate), group.docs, |group.docs|, start);
            && Has(set_, REP) && Named(set_, SET) && Grid(set_) == Some((wcrop, hcrop))
            && IsAudio(Child(set_, REP)) == IsAudio(RepOf(group.docs[0]))
  {
    hide SourceOk, MergedSet, Opened, Spatial, Siblings, Stray, Reps, FindText;
    var supplement := Supplement(wcrop, hcrop, group.coordinate);
    ReadsItsPlace(wcrop, hcrop, group, start);
    ReaderLists(supplement, group.docs, start);
    SetShape(supplement, group.docs, |group.docs|, start);
    RestPreserved(supplement, group.docs[0], true, start + 1);
  }

  lemma {:induction false} SetReads(groups: seq<Group>, wcrop: int, hcrop: int, g: nat)
    requires g < |groups| && GroupsOk(groups) && AllReadable(groups, wcrop, hcrop)
    ensures var set_, start := SetAt(groups, wcrop, hcrop, g), Before(groups, g);
            && Has(set_, REP) && Named(set_, SET) && Grid(set_) == Some((wcrop, hcrop))
            && IsAudio(Child(set_, REP)) == IsAudio(RepOf(groups[g].docs[0]))
            && ParseVideoSet(set_) == SourceSet(wcrop, hcrop, groups[g], start)
  {
    hide SourceOk, MergedSet, Spatial, ParseVideoSet, SourceSet, IsAudio, Grid, FindFirst, GroupReadable;
    BeforeGrows(groups, g + 1, |groups|);
    ReadsItsSet(wcrop, hcrop, groups[g], Before(groups, g));
    GroupReads(wcrop, hcrop, groups[g], Before(groups, g));
  }

  ghost predicate Readable(set_: Node, wcrop: int, hcrop: int) {
    Has(set_, REP) && Named(set_, SET) && Grid(set_) == Some((wcrop, hcrop))
  }

  lemma {:induction false} SetsReadable(groups: seq<Group>, wcrop: int, hcrop: int, n: nat)
    requires n <= |groups| && GroupsOk(groups) && AllReadable(groups, wcrop, hcrop)
    ensures var sets := MergedSets(groups, wcrop, hcrop, n);
            forall k :: 0 <= k < |sets| ==> Readable(sets[k], wcrop, hcrop)
  {
    hide GroupsOk, AllReadable, MergedSets, SetAt, ParseVideoSet, SourceSet, Grid;
    forall k | 0 <= k < n ensures Readable(MergedSets(groups, wcrop, hcrop, n)[k], wcrop, hcrop) {
      MergedSetsAt(groups, wcrop, hcrop, n, k);
      SetReads(groups, wcrop, hcrop, k);
    }
  }

  lemma {:induction false} SetsRead(groups: seq<Group>, wcrop: int, hcrop: int, n: nat)
    requires n <= |groups| && GroupsOk(groups) && AllReadable(groups, wcrop, hcrop)
    ensures var sets := MergedSets(groups, wcrop, hcrop, n);
            && (forall k :: 0 <= k < |sets| ==> Has(sets[k], REP))
            && ParseVideoSets(sets) == SourceSets(groups, wcrop, hcrop, n)
  {
    hide SourceOk, SetAt, ParseVideoSet, SourceSet, Grid, AllReadable, Has, FindFirst;
    SetsReadable(groups, wcrop, hcrop, n);
    if n > 0 {
      SetsRead(groups, wcrop, hcrop, n - 1);
      SetReads(groups, wcrop, hcrop, n - 1);
      assert MergedSets(groups, wcrop, hcrop, n)[..n - 1] == MergedSets(groups, wcrop, hcrop, n - 1);
    }
  }

  lemma {:induction false} ReadsTitle(info: Node, title: string)
    requires Has(info, TITLE)
    ensures TitleText(Retitle(info, title)) == Some(title)
  {
    var i := FindFirst(info.children, TITLE);
    var info' := Retitle(info, title);
    FindFirstMeans(info.children, TITLE);
    forall k | 0 <= k < i ensures !Named(info'.children[k], TITLE) {
      assert info'.children[k] == info.children[..i][k];
    }
    FindFromUnique(info'.children, 0, TITLE, i);
  }

  // Among elements of one name the list of siblings leaves none out.
  lemma {:induction false} SiblingsOfAlike(children: seq<Node>, name: string)
    requires children != [] && AllNamed(children, name)
    ensures FindFirst(children, name) == 0 && Siblings(children, name) == children
  {
    FindFromUnique(children, 0, name, 0);
    SiblingsAreAll(children, name);
    SelectAll(children, name);
  }

  /**
    Merging and then reading gives, for any sources, one video set per coordinate, holding one
    Represent per source in the order of the sources, each with the template that governs it,
    numbered from 1 on through the whole document, with the title given and the grid of the
    merge; and between the first two what the reader makes of a stray element.  CleanRepresents
    says which sources are read as they are.
   */
  lemma {:induction false} MergeThenRead(groups: seq<Group>, wcrop: int, hcrop: int, title: string)
    requires GroupsOk(groups) && AllReadable(groups, wcrop, hcrop)
    ensures ParseMpd(Merged(groups, wcrop, hcrop, title)) ==
            Assemble(Some(title), SourceSets(groups, wcrop, hcrop, |groups|), Some((wcrop, hcrop)))
  {
    hide SourceOk, Document, Retitle, TitleText, MergedSets, SourceSets, ParseVideoSets, FindFirst, Siblings, NextElement, Grid;
    var d, sets := groups[0].docs[0], MergedSets(groups, wcrop, hcrop, |groups|);
    SetsReadable(groups, wcrop, hcrop, |groups|);
    SetsRead(groups, wcrop, hcrop, |groups|);
    SiblingsOfAlike(sets, SET);
    DocumentParts(d, title, sets);
    assert NextElement([Child(Document(d, title, sets), MPD)], 0) == 0 by { FirstElement(Child(Document(d, title, sets), MPD)); }
    ReadsTitle(Child(d, INFO), title);
    var front := Front(sets);
    assert exists k :: 0 <= k < |sets| && front == sets[k];
    assert Readable(front, wcrop, hcrop);
  }

  lemma {:induction false} FirstElement(n: Node)
    requires n.Element?
    ensures NextElement([n], 0) == 0
  {
  }

  // ---------- What the sources say ----------

  ghost predicate Distinct(groups: seq<Group>) {
    forall g, h :: 0 <= g < h < |groups| ==> groups[g].coordinate != groups[h].coordinate
  }

  predicate IsVideo(group: Group)
    requires group.docs != [] && AllOk(group.docs)
  {
    !IsAudio(RepOf(group.docs[0]))
  }

  ghost predicate Taken(groups: seq<Group>, n: nat, c: Coordinate) {
    exists g :: 0 <= g < n <= |groups| && groups[g].coordinate == c
  }

  lemma {:induction false} TakenGrows(groups: seq<Group>, n: nat)
    requires 0 < n <= |groups|
    ensures forall c :: Taken(groups, n, c) <==> Taken(groups, n - 1, c) || c == groups[n - 1].coordinate
    ensures Distinct(groups) ==> !Taken(groups, n - 1, groups[n - 1].coordinate)
  {
  }

  // The reader finds no coordinate but those of the sources.
  lemma {:induction false} SourceSetsTaken(groups: seq<Group>, wcrop: int, hcrop: int, n: nat)
    requires n <= |groups| && GroupsOk(groups) && SourceSets(groups, wcrop, hcrop, n).Some?
    ensures forall c :: c in SourceSets(groups, wcrop, hcrop, n).value ==> Taken(groups, n, c)
  {
    hide SourceOk, SourceSet, Before, FindText, Taken;
    if n > 0 {
      SourceSetsTaken(groups, wcrop, hcrop, n - 1);
      SourceSetPlace(wcrop, hcrop, groups[n - 1], Before(groups, n - 1));
      TakenGrows(groups, n);
    }
  }

  // The reader accepts when every video set is complete and no two share a coordinate.
  lemma {:induction false} SourceSetsAccepted(groups: seq<Group>, wcrop: int, hcrop: int, n: nat)
    requires n <= |groups| && GroupsOk(groups) && Distinct(groups)
    requires forall g :: 0 <= g < n && IsVideo(groups[g]) ==> SourceSet(wcrop, hcrop, groups[g], Before(groups, g)).Some?
    ensures var m := SourceSets(groups, wcrop, hcrop, n);
            m.Some? && forall c :: c in m.value ==> Taken(groups, n, c)
  {
    hide SourceOk, SourceSet, Before, FindText, Taken, Distinct;
    if n > 0 {
      SourceSetsAccepted(groups, wcrop, hcrop, n - 1);
      SourceSetPlace(wcrop, hcrop, groups[n - 1], Before(groups, n - 1));
      TakenGrows(groups, n);
    }
  }

  // Under each video coordinate stands what its own sources say.
  lemma {:induction false} SourceSetsHold(groups: seq<Group>, wcrop: int, hcrop: int, n: nat, g: nat)
    requires g < n <= |groups| && GroupsOk(groups)
    ensures var m, s := SourceSets(groups, wcrop, hcrop, n), SourceSet(wcrop, hcrop, groups[g], Before(groups, g));
            m.Some? && IsVideo(groups[g]) ==>
              s.Some? && groups[g].coordinate in m.value && m.value[groups[g].coordinate] == s.value
  {
    hide SourceOk, SourceSet, Before, FindText;
    SourceSetPlace(wcrop, hcrop, groups[n - 1], Before(groups, n - 1));
    if g < n - 1 { SourceSetsHold(groups, wcrop, hcrop, n - 1, g); }
  }

  ghost predicate VideoAt(groups: seq<Group>, n: nat, c: Coordinate)
    requires GroupsOk(groups)
  {
    exists g :: 0 <= g < n <= |groups| && groups[g].coordinate == c && IsVideo(groups[g])
  }

  lemma {:induction false} VideoAtGrows(groups: seq<Group>, n: nat, c: Coordinate)
    requires 0 < n <= |groups| && GroupsOk(groups)
    ensures VideoAt(groups, n, c) <==>
            VideoAt(groups, n - 1, c) || (c == groups[n - 1].coordinate && IsVideo(groups[n - 1]))
  {
  }

  lemma {:induction false} SourceSetsAt(groups: seq<Group>, wcrop: int, hcrop: int, n: nat, c: Coordinate)
    requires n <= |groups| && GroupsOk(groups)
    ensures var m := SourceSets(groups, wcrop, hcrop, n); m.Some? ==> (c in m.value <==> VideoAt(groups, n, c))
  {
    hide SourceOk, SourceSet, Before, FindText, VideoAt;
    if n > 0 {
      SourceSetsAt(groups, wcrop, hcrop, n - 1, c);
      SourceSetPlace(wcrop, hcrop, groups[n - 1], Before(groups, n - 1));
      VideoAtGrows(groups, n, c);
    } else {
      assert !VideoAt(groups, 0, c) by { NoneYet(groups, c); }
    }
  }

  lemma {:induction false} NoneYet(groups: seq<Group>, c: Coordinate)
    requires GroupsOk(groups)
    ensures !VideoAt(groups, 0, c)
  {
  }

  // The first source of a coordinate says that it is sound.
  ghost predicate SaysAudio(group: Group)
    requires group.docs != [] && AllOk(group.docs)
  {
    var rep := RepOf(group.docs[0]);
    "mimeType" in rep.attrs && exists k: nat :: Occurs(rep.attrs["mimeType"], "audio", k)
  }

  /**
    Whenever the merged document is read, the video sets found stand at exactly the coordinates
    whose first source's mimeType does not contain the word audio.
   */
  lemma {:induction false} VideoSetsAre(groups: seq<Group>, wcrop: int, hcrop: int, title: string, c: Coordinate)
    requires GroupsOk(groups) && AllReadable(groups, wcrop, hcrop)
    ensures var p := ParseMpd(Merged(groups, wcrop, hcrop, title));
            p.Some? ==> (c in p.value.videoSets <==>
                         exists g :: 0 <= g < |groups| && groups[g].coordinate == c && !SaysAudio(groups[g]))
  {
    hide SourceOk, ParseMpd, Merged, SourceSets, SaysAudio;
    MergeThenRead(groups, wcrop, hcrop, title);
    SourceSetsAt(groups, wcrop, hcrop, |groups|, c);
    forall g | 0 <= g < |groups| ensures IsVideo(groups[g]) <==> !SaysAudio(groups[g]) { SaysIsAudio(groups[g]); }
  }

  lemma {:induction false} SaysIsAudio(group: Group)
    requires group.docs != [] && AllOk(group.docs)
    ensures IsVideo(group) <==> !SaysAudio(group)
  {
    hide IsAudio, Occurs;
    AudioMeans(RepOf(group.docs[0]));
  }

  predicate SaysMp4(group: Group)
    requires group.docs != [] && AllOk(group.docs)
  {
    var attrs := RepOf(group.docs[0]).attrs;
    "mimeType" in attrs && attrs["mimeType"] == "video/mp4"
  }

  // In particular none is missing when all of them are video/mp4.
  lemma {:induction false} Mp4SetsAre(groups: seq<Group>, wcrop: int, hcrop: int, title: string, c: Coordinate)
    requires GroupsOk(groups) && AllReadable(groups, wcrop, hcrop)
    requires forall g :: 0 <= g < |groups| ==> SaysMp4(groups[g])
    ensures var p := ParseMpd(Merged(groups, wcrop, hcrop, title));
            p.Some? ==> (c in p.value.videoSets <==> Taken(groups, |groups|, c))
  {
    hide SourceOk, ParseMpd, Merged, SourceSets, SaysMp4;
    MergeThenRead(groups, wcrop, hcrop, title);
    SourceSetsAt(groups, wcrop, hcrop, |groups|, c);
    forall g | 0 <= g < |groups| ensures IsVideo(groups[g]) { Mp4GroupIsVideo(groups[g]); }
  }

  lemma {:induction false} Mp4GroupIsVideo(group: Group)
    requires group.docs != [] && AllOk(group.docs) && SaysMp4(group)
    ensures IsVideo(group)
  {
    hide IsAudio;
    Mp4IsVideo(RepOf(group.docs[0]));
  }

  lemma {:induction false} SourceRepresentsAt(docs: seq<Node>, from: nat, n: nat, start: int, k: nat)
    requires from <= n <= |docs| && AllOk(docs) && SourceRepresents(docs, from, n, start).Some?
    ensures |SourceRepresents(docs, from, n, start).value| == n - from
    ensures from <= k < n ==> Some(SourceRepresents(docs, from, n, start).value[k - from]) == SourceRepresent(docs, k, start)
    decreases n
  {
    hide SourceOk, SourceRepresent;
    if n > from { SourceRepresentsAt(docs, from, n - 1, start, k); }
  }

  // No two different templates, and nothing but a template behind the Representation.
  predicate Clean(d: Node)
    requires SourceOk(d)
  {
    !Competing(d) && NothingBehind(SetOf(d).children)
  }

  /**
    Without competing templates and stray elements in the first source of a coordinate, the k-th
    Represent is the k-th source's, with the template that governed it there, numbered k + 1
    after the sources before.
   */
  lemma {:induction false} CleanRepresents(docs: seq<Node>, start: int, k: nat)
    requires docs != [] && AllOk(docs) && k < |docs|
    ensures var l := Listed(docs, start);
            Clean(docs[0]) && l.Some? ==>
              && |l.value| == |docs|
              && Some(l.value[k]) == ReadRepresent(Some(start + k + 1), RepOf(docs[k]), Effective(docs[k]))
  {
    hide Select, SourceRepresents, Listed, NothingBehind, ReadRepresent, Competing, Governing, Effective;
    if Clean(docs[0]) && Listed(docs, start).Some? {
      CleanList(docs, start);
      SourceRepresentsAt(docs, 0, 1, start, k);
      SourceRepresentsAt(docs, 1, |docs|, start, k);
      SourceOnly(docs[0]);
      SourceOnly(docs[k]);
    }
  }

  lemma {:induction false} CleanList(docs: seq<Node>, start: int)
    requires docs != [] && AllOk(docs) && NothingBehind(SetOf(docs[0]).children)
    ensures Listed(docs, start) == Both(SourceRepresents(docs, 0, 1, start), SourceRepresents(docs, 1, |docs|, start))
  {
    hide SourceRepresents, Stray, NothingBehind;
    NoStray(SetOf(docs[0]).children);
    assert ParseRepresents([]) == Some([]);
    if SourceRepresents(docs, 0, 1, start).Some? { AppendNothing(SourceRepresents(docs, 0, 1, start).value); }
  }

  lemma {:induction false} SourceOnly(d: Node)
    requires SourceOk(d)
    ensures Governing(d, true) == Effective(d) <==> !Competing(d)
    ensures Governing(d, false) == Effective(d)
  {
  }

  // An element behind the Representation does occur, and then the list is not the Representations.
  lemma {:induction false} StrayOccurs()
    ensures exists d :: SourceOk(d) && !NothingBehind(SetOf(d).children)
  {
    var template := Element(TEMPLATE, map[], []);
    var rep := Element(REP, map[], [template]);
    var other := Element("Label", map[], []);
    FirstHere([], template, [], TEMPLATE);
    assert [] + [template] + [] == [template];
    MinimalOk([], rep, [other]);
    var d := Minimal([] + [rep] + [other]);
    var children := SetOf(d).children;
    FindFromUnique(children, 0, TEMPLATE, 2);
    assert children[1] == other;
    assert !NothingBehind(children);
  }

  // ---------- What a source's attributes mean ----------

  // Numbers and texts written into a source are what the reader reports for it.
  lemma {:induction false} RepresentMeans(id: int, rep: Node, template: Node, bandwidth: int, media: string, initial: string)
    requires rep.Element? && template.Element? && IsInt(bandwidth) && FindText(media, NUMBER, 0) < |media|
    requires "bandwidth" in rep.attrs && rep.attrs["bandwidth"] == PrintInt(bandwidth)
    requires "media" in template.attrs && template.attrs["media"] == media
    requires "initialization" in template.attrs && template.attrs["initialization"] == initial
    ensures var i := FindText(media, NUMBER, 0);
            ReadRepresent(Some(id), rep, template) == Some(Represent(id, bandwidth, media[..i] + "{}" + media[i + 8..], initial))
  {
    hide ParseInt, PrintInt, FindText;
    ParsePrinted(bandwidth);
  }

  lemma {:induction false} VideoSetMeans(group: Group, wcrop: int, hcrop: int, start: int,
                                         width: int, height: int, codecs: string, mimeType: string)
    requires group.docs != [] && AllOk(group.docs) && IsInt(width) && IsInt(height)
    requires Listed(group.docs, start).Some?
    requires var a := SetOf(group.docs[0]).attrs;
             && "maxWidth" in a && a["maxWidth"] == PrintInt(width)
             && "maxHeight" in a && a["maxHeight"] == PrintInt(height)
    requires var a := RepOf(group.docs[0]).attrs;
             && "codecs" in a && a["codecs"] == codecs && "mimeType" in a && a["mimeType"] == mimeType
    ensures SourceSet(wcrop, hcrop, group, start) ==
            Some(VideoSet(codecs, mimeType, width, height, group.coordinate.0, group.coordinate.1,
                          Listed(group.docs, start).value))
  {
    hide SourceOk, ParseInt, PrintInt, Listed;
    ParsePrinted(width);
    ParsePrinted(height);
  }
}

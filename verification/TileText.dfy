/**
  The two texts by which a tile's place travels between components: the value of the spatial
  relationship property (Annex H of ISO/IEC 23009-1), written by multimedia/command.cpp and
  read by network/dash.protocal.cpp, and the name of a tile's MPD file.
 */
module TileText {
  import opened Wrappers
  import opened Decimal

  // ---------- Spatial relationship ----------

  function Join(parts: seq<string>): string {
    if parts == [] then []
    else if |parts| == 1 then parts[0]
    else parts[0] + "," + Join(parts[1..])
  }

  // Index of the first comma, or the length.
  function FindComma(s: string): (i: nat)
    ensures i <= |s|
    ensures i < |s| ==> s[i] == ','
    ensures ',' !in s[..i]
  {
    if s == [] || s[0] == ',' then 0 else
      var i := FindComma(s[1..]) + 1;
      assert s[..i] == [s[0]] + s[1..][..i - 1];
      i
  }

  function Split(s: string): (parts: seq<string>)
    ensures parts != []
    decreases |s|
  {
    var i := FindComma(s);
    if i == |s| then [s] else [s[..i]] + Split(s[i + 1..])
  }

  predicate NoComma(part: string) {
    ',' !in part
  }

  lemma {:induction false} FindCommaAfter(part: string, rest: string)
    requires NoComma(part)
    ensures FindComma(part + "," + rest) == |part|
  {
    var s := part + "," + rest;
    var i := FindComma(s);
    assert s[|part|] == ',' && s[..|part|] == part;
    assert forall k :: 0 <= k < i ==> s[..i][k] == s[k];
  }

  lemma {:induction false} FindNoComma(part: string)
    requires NoComma(part)
    ensures FindComma(part) == |part|
  {
  }

  lemma {:induction false} SplitJoined(parts: seq<string>)
    requires parts != [] && forall i :: 0 <= i < |parts| ==> NoComma(parts[i])
    ensures Split(Join(parts)) == parts
  {
    if |parts| == 1 {
      FindNoComma(parts[0]);
    } else {
      var s := Join(parts);
      var rest := Join(parts[1..]);
      FindCommaAfter(parts[0], rest);
      assert s[..|parts[0]|] == parts[0] && s[|parts[0]| + 1..] == rest;
      SplitJoined(parts[1..]);
    }
  }

  // source_id, object_x, object_y, object_width, object_height, total_width, total_height
  function SpatialRelationship(wcrop: int, hcrop: int, col: int, row: int): string {
    Join(PrintAll([0] + Placement(wcrop, hcrop, col, row)))
  }

  function Placement(wcrop: int, hcrop: int, col: int, row: int): (ns: seq<int>)
    ensures |ns| == 6
  {
    [col, row, 1, 1, wcrop, hcrop]
  }

  function ParseAll(parts: seq<string>): Option<seq<int>> {
    if parts == [] then Some([])
    else
      match (ParseInt(parts[0]), ParseAll(parts[1..]))
      case (Some(n), Some(rest)) => Some([n] + rest)
      case _ => None
  }

  function Pad(ns: seq<int>): (r: seq<int>)
    requires |ns| <= 6
    ensures |r| == 6 && ns <= r && forall k :: |ns| <= k < 6 ==> r[k] == 0
    decreases 6 - |ns|
  {
    if |ns| == 6 then ns else Pad(ns + [0])
  }

  // Drops the first field and parses the others into an array of six, padded with zeros.
  // More than six fields overrun the array in the source; here that is a failure.
  function SplitSpatialDescription(srd: string): (r: Option<seq<int>>)
    ensures r.Some? ==> |r.value| == 6
  {
    var i := FindComma(srd);
    var rest := if i == |srd| then srd else srd[i + 1..];
    match ParseAll(Split(rest))
    case None => None
    case Some(ns) => if |ns| > 6 then None else Some(Pad(ns))
  }

  lemma {:induction false} PrintedHasNoComma(n: int)
    ensures NoComma(PrintInt(n))
  {
    var digits := Digits(if n < 0 then -n else n);
    assert forall c :: c in digits ==> IsDigit(c);
  }

  function PrintAll(ns: seq<int>): (r: seq<string>)
    ensures |r| == |ns| && forall i :: 0 <= i < |ns| ==> r[i] == PrintInt(ns[i])
  {
    if ns == [] then [] else [PrintInt(ns[0])] + PrintAll(ns[1..])
  }

  lemma {:induction false} ParsePrintedAll(ns: seq<int>)
    requires forall i :: 0 <= i < |ns| ==> IsInt(ns[i])
    ensures ParseAll(PrintAll(ns)) == Some(ns)
  {
    if ns != [] {
      ParsePrinted(ns[0]);
      ParsePrintedAll(ns[1..]);
      assert PrintAll(ns)[1..] == PrintAll(ns[1..]);
      assert [ns[0]] + ns[1..] == ns;
    }
  }

  // Whatever place and grid are written, the reader recovers.
  lemma {:induction false} SpatialRoundTrip(wcrop: int, hcrop: int, col: int, row: int)
    requires IsInt(wcrop) && IsInt(hcrop) && IsInt(col) && IsInt(row)
    ensures SplitSpatialDescription(SpatialRelationship(wcrop, hcrop, col, row)) == Some([col, row, 1, 1, wcrop, hcrop])
  {
    FieldsRoundTrip(0, Placement(wcrop, hcrop, col, row));
  }

  lemma {:induction false} FieldsRoundTrip(first: int, ns: seq<int>)
    requires |ns| == 6 && forall i :: 0 <= i < |ns| ==> IsInt(ns[i])
    ensures SplitSpatialDescription(Join(PrintAll([first] + ns))) == Some(ns)
  {
    PrintedJoin(first, ns);
    ParsePrintedAll(ns);
    var srd := Join(PrintAll([first] + ns));
    assert ParseAll(Split(srd[FindComma(srd) + 1..])) == Some(ns);
  }

  /** Fewer fields are filled up with zeros, more do not fit. */
  lemma {:induction false} FieldsPadded(first: int, ns: seq<int>)
    requires ns != [] && forall i :: 0 <= i < |ns| ==> IsInt(ns[i])
    ensures var r := SplitSpatialDescription(Join(PrintAll([first] + ns)));
            if |ns| > 6 then r == None
            else r.Some? && ns <= r.value && forall k :: |ns| <= k < 6 ==> r.value[k] == 0
  {
    PrintedJoin(first, ns);
    ParsePrintedAll(ns);
  }

  // A description of one field only is that field.
  lemma {:induction false} LoneField(n: int)
    requires IsInt(n)
    ensures var r := SplitSpatialDescription(PrintInt(n)); r == Some([n, 0, 0, 0, 0, 0])
  {
    PrintedHasNoComma(n);
    FindNoComma(PrintInt(n));
    ParsePrintedAll([n]);
    assert PrintAll([n]) == [PrintInt(n)];
    assert Pad([n]) == [n, 0, 0, 0, 0, 0];
  }

  // Dropping the first field of a printed list and splitting the rest gives the other fields.
  lemma {:induction false} PrintedJoin(first: int, ns: seq<int>)
    requires ns != []
    ensures var s := Join(PrintAll([first] + ns));
            var i := FindComma(s);
            i < |s| && Split(s[i + 1..]) == PrintAll(ns)
  {
    var parts := PrintAll(ns);
    forall i | 0 <= i < |parts| ensures NoComma(parts[i]) { PrintedHasNoComma(ns[i]); }
    SplitJoined(parts);
    PrintedHasNoComma(first);
    FindCommaAfter(PrintInt(first), Join(parts));
    assert ([first] + ns)[1..] == ns;
    var all := PrintAll([first] + ns);
    assert all[0] == PrintInt(first) && all[1..] == parts;
    var s := Join(all);
    assert s == PrintInt(first) + "," + Join(parts);
    assert s[|PrintInt(first)| + 1..] == Join(parts);
  }

  lemma {:induction false} JoinStep(n: int, ns: seq<int>)
    requires ns != []
    ensures Join(PrintAll([n] + ns)) == PrintInt(n) + "," + Join(PrintAll(ns))
  {
    assert ([n] + ns)[1..] == ns;
    var parts := PrintAll([n] + ns);
    assert parts[0] == PrintInt(n) && parts[1..] == PrintAll(ns);
  }

  lemma {:induction false} LastFields(wcrop: int, hcrop: int)
    ensures Join(PrintAll([1, 1, wcrop, hcrop])) == "1," + ("1," + (PrintInt(wcrop) + "," + PrintInt(hcrop)))
  {
    hide PrintInt;
    assert PrintAll([hcrop]) == [PrintInt(hcrop)];
    JoinStep(wcrop, [hcrop]);
    hide Join, PrintAll;
    assert [wcrop] + [hcrop] == [wcrop, hcrop];
    JoinStep(1, [wcrop, hcrop]);
    assert [1] + [wcrop, hcrop] == [1, wcrop, hcrop];
    JoinStep(1, [1, wcrop, hcrop]);
    assert [1] + [1, wcrop, hcrop] == [1, 1, wcrop, hcrop];
    assert PrintInt(1) == "1" by { OneIsPrinted(); }
    assert ['1'] + "," == "1,";
  }

  lemma {:induction false} OneIsPrinted()
    ensures PrintInt(0) == "0" && PrintInt(1) == "1"
  {
  }

  // Source 0, the tile's place, one by one tiles, of so many.
  lemma {:induction false} SpatialText(wcrop: int, hcrop: int, col: int, row: int)
    ensures SpatialRelationship(wcrop, hcrop, col, row) ==
            "0" + "," + (PrintInt(col) + "," + (PrintInt(row) + "," + ("1," + ("1," + (PrintInt(wcrop) + "," + PrintInt(hcrop))))))
  {
    hide Join, PrintAll, PrintInt;
    var rest := [1, 1, wcrop, hcrop];
    LastFields(wcrop, hcrop);
    JoinStep(row, rest);
    JoinStep(col, [row] + rest);
    JoinStep(0, [col] + ([row] + rest));
    assert [0] + Placement(wcrop, hcrop, col, row) == [0] + ([col] + ([row] + rest));
    assert PrintInt(0) == "0" by { OneIsPrinted(); }
  }

  // ---------- Names of tile MPD files ----------

  predicate IsWordChar(c: char) {
    IsDigit(c) || 'a' <= c <= 'z' || 'A' <= c <= 'Z' || c == '_'
  }

  predicate IsWord(s: string) {
    s != [] && forall i :: 0 <= i < |s| ==> IsWordChar(s[i])
  }

  predicate IsNumber(s: string) {
    s != [] && AllDigits(s)
  }

  function Compose(stem: string, col: string, row: string, qp: string, ending: string): string {
    stem + "_" + "c" + col + "r" + row + "_q" + "p" + qp + ending
  }

  // The name matches \w+_c(\d+)r(\d+)_qp\d+.mpd with these parts; the dot stands for any character.
  ghost predicate Matches(name: string, stem: string, col: string, row: string, qp: string, any: char) {
    && IsWord(stem) && IsNumber(col) && IsNumber(row) && IsNumber(qp) && any != '\n'
    && name == Compose(stem, col, row, qp, [any] + "mpd")
  }

  lemma {:induction false} PeelDigits(a: string, p: char, d: string, b: string, q: char, e: string)
    requires a + [p] + d == b + [q] + e
    requires !IsDigit(p) && !IsDigit(q) && AllDigits(d) && AllDigits(e)
    ensures a == b && p == q && d == e
  {
    var s, t := a + [p] + d, b + [q] + e;
    assert s[|a|] == p && t[|b|] == q;
    assert s[|b|] == t[|b|] && s[|a|] == t[|a|];
    assert s[..|a|] == a && t[..|b|] == b;
    assert s[|a| + 1..] == d && t[|b| + 1..] == e;
  }

  lemma {:induction false} StripEnd(a: string, b: string, e: string, f: string)
    requires a + e == b + f && |e| == |f|
    ensures a == b && e == f
  {
    assert (a + e)[..|a|] == a && (b + f)[..|a|] == b;
    assert (a + e)[|a|..] == e && (b + f)[|a|..] == f;
  }

  // A name decomposes in at most one way, so greediness of the pattern does not matter.
  lemma {:induction false} ComposeInjective(stem: string, col: string, row: string, qp: string, ending: string,
                         stem': string, col': string, row': string, qp': string, ending': string)
    requires Compose(stem, col, row, qp, ending) == Compose(stem', col', row', qp', ending')
    requires AllDigits(col) && AllDigits(row) && AllDigits(qp) && AllDigits(col') && AllDigits(row') && AllDigits(qp')
    requires |ending| == |ending'|
    ensures stem == stem' && col == col' && row == row' && qp == qp' && ending == ending'
  {
    var c, c' := stem + "_" + "c" + col, stem' + "_" + "c" + col';
    var r, r' := c + "r" + row, c' + "r" + row';
    StripEnd(r + "_q" + "p" + qp, r' + "_q" + "p" + qp', ending, ending');
    PeelDigits(r + "_q", 'p', qp, r' + "_q", 'p', qp');
    StripEnd(r, r', "_q", "_q");
    PeelDigits(c, 'r', row, c', 'r', row');
    PeelDigits(stem + "_", 'c', col, stem' + "_", 'c', col');
    StripEnd(stem, stem', "_", "_");
  }

  datatype NotReachable = NotReachable

  // tile_mpd_coordinate; numbers too large for an int count as no match.
  ghost function TileMpdCoordinate(name: string): Result<(int, int), NotReachable> {
    if exists stem, col, row, qp, any ::
         Matches(name, stem, col, row, qp, any) && Value(col) <= INT_MAX && Value(row) <= INT_MAX
    then
      var stem, col, row, qp, any :|
        Matches(name, stem, col, row, qp, any) && Value(col) <= INT_MAX && Value(row) <= INT_MAX;
      Ok((Value(col), Value(row)))
    else Err(NotReachable)
  }

  // The name under which the packaging step stores a tile's MPD.
  function TileMpdName(stem: string, col: nat, row: nat, qp: nat): string {
    Compose(stem, Digits(col), Digits(row), Digits(qp), ".mpd")
  }

  /**
    Reading the coordinate back from a tile's file name succeeds exactly when the stem is a
    non-empty word, whatever it looks like otherwise, and gives the coordinate written.
   */
  lemma {:induction false} CoordinateRoundTrip(stem: string, col: nat, row: nat, qp: nat)
    requires col <= INT_MAX && row <= INT_MAX
    ensures TileMpdCoordinate(TileMpdName(stem, col, row, qp)) == if IsWord(stem) then Ok((col, row)) else Err(NotReachable)
  {
    var name := TileMpdName(stem, col, row, qp);
    ValueOfDigits(col);
    ValueOfDigits(row);
    forall stem', col', row', qp', any | Matches(name, stem', col', row', qp', any)
      ensures stem' == stem && Value(col') == col && Value(row') == row
    {
      ComposeInjective(stem, Digits(col), Digits(row), Digits(qp), ".mpd", stem', col', row', qp', [any] + "mpd");
    }
    assert ".mpd" == ['.'] + "mpd";
    if IsWord(stem) {
      assert Matches(name, stem, Digits(col), Digits(row), Digits(qp), '.');
    }
  }

  // A hyphen in the stem is enough to lose the coordinate.
  lemma {:induction false} HyphenFails()
    ensures TileMpdCoordinate(TileMpdName("a-b", 1, 2, 30)) == Err(NotReachable)
  {
    assert !IsWordChar("a-b"[1]);
    CoordinateRoundTrip("a-b", 1, 2, 30);
  }
}

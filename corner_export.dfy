/** The row selection of `printToFile` in the CSS analyzer: which boundary,
    smoothed-boundary, curvature and corner-candidate rows are written out. */
module CornerExport {

  /** A Point32f of the detector's debug output. */
  datatype Point32 = Point32(x: real, y: real)

  /** The parts of CornerDetectorCSS's debug information that are written out.
      The smoothed boundary and the curvature are padded by `offset` entries
      on each side of the `|boundary|` proper ones. */
  datatype DebugInfo = DebugInfo(
    boundary: seq<Point32>,
    smoothedBoundary: seq<Point32>,
    kurvature: seq<real>,
    extrema: seq<int>,
    maxima: seq<int>,
    maximaWithoutRoundCorners: seq<int>,
    maximaWithoutFalseCorners: seq<int>,
    offset: int)

  /** A line of corners.txt: the header "index type", or an index and its
      candidate type (0 extrema, 1 maxima, 2 without round corners, 3 without
      false corners). */
  datatype Row = Header | Entry(index: int, kind: nat)

  /** What the four files receive, line by line. */
  datatype Export = Export(
    boundary: seq<Point32>,
    smoothedBoundary: seq<Point32>,
    kurvature: seq<real>,
    corners: seq<Row>)

  /** The rows one candidate list contributes: each candidate shifted back by
      `offset`, kept when the shifted index is inside [0, n), in list order. */
  function Group(cands: seq<int>, offset: int, n: int, kind: nat): (rows: seq<Row>)
    ensures |rows| <= |cands|
    ensures forall q :: 0 <= q < |rows| ==> rows[q].Entry? && rows[q].kind == kind && 0 <= rows[q].index < n
  {
    if cands == [] then []
    else
      var index := cands[0] - offset;
      (if 0 <= index < n then [Entry(index, kind)] else []) + Group(cands[1..], offset, n, kind)
  }

  /** A group of a concatenation is the concatenation of the groups: the
      filter keeps the order of its list. */
  lemma {:induction false} GroupAppend(a: seq<int>, b: seq<int>, offset: int, n: int, kind: nat)
    ensures Group(a + b, offset, n, kind) == Group(a, offset, n, kind) + Group(b, offset, n, kind)
    decreases |a|
  {
    if a == [] {
      assert a + b == b;
    } else {
      assert (a + b)[1..] == a[1..] + b;
      GroupAppend(a[1..], b, offset, n, kind);
    }
  }

  /** A candidate is written, as `c − offset` with its type, exactly when
      0 ≤ c − offset < n. */
  lemma {:induction false} GroupMembership(cands: seq<int>, offset: int, n: int, kind: nat, index: int)
    ensures Entry(index, kind) in Group(cands, offset, n, kind)
        <==> 0 <= index < n && index + offset in cands
    decreases |cands|
  {
    if cands != [] {
      GroupMembership(cands[1..], offset, n, kind, index);
      assert cands == [cands[0]] + cands[1..];
    }
  }

  /** The whole of corners.txt: the header, then types 0, 1, 2 and 3 in turn. */
  function CornerRows(info: DebugInfo): seq<Row>
  {
    var n, offset := |info.boundary|, info.offset;
    [Header]
    + Group(info.extrema, offset, n, 0)
    + Group(info.maxima, offset, n, 1)
    + Group(info.maximaWithoutRoundCorners, offset, n, 2)
    + Group(info.maximaWithoutFalseCorners, offset, n, 3)
  }

  function TotalCandidates(info: DebugInfo): nat
  {
    |info.extrema| + |info.maxima| + |info.maximaWithoutRoundCorners| + |info.maximaWithoutFalseCorners|
  }

  /** The header comes first and only there; every other row is an index in
      [0, |boundary|) of type at most 3; types never decrease down the file;
      and there are no more rows than candidates. */
  lemma CornerRowsShape(info: DebugInfo)
    ensures var rows := CornerRows(info);
      && rows[0] == Header
      && |rows| <= 1 + TotalCandidates(info)
      && (forall q :: 1 <= q < |rows| ==> rows[q].Entry? && rows[q].kind <= 3 && 0 <= rows[q].index < |info.boundary|)
      && (forall p, q :: 1 <= p < q < |rows| ==> rows[p].kind <= rows[q].kind)
  {
  }

  /** A candidate of list k (0 extrema … 3 without false corners) appears as
      row (c − offset, k) exactly when 0 ≤ c − offset < |boundary|. */
  lemma CornerRowsMembership(info: DebugInfo, index: int, kind: nat)
    requires kind <= 3
    ensures Entry(index, kind) in CornerRows(info)
        <==> 0 <= index < |info.boundary|
             && index + info.offset in (if kind == 0 then info.extrema
                                        else if kind == 1 then info.maxima
                                        else if kind == 2 then info.maximaWithoutRoundCorners
                                        else info.maximaWithoutFalseCorners)
  {
    var n, offset := |info.boundary|, info.offset;
    var gs := [Group(info.extrema, offset, n, 0), Group(info.maxima, offset, n, 1),
               Group(info.maximaWithoutRoundCorners, offset, n, 2),
               Group(info.maximaWithoutFalseCorners, offset, n, 3)];
    assert CornerRows(info) == [Header] + gs[0] + gs[1] + gs[2] + gs[3];
    var cands := if kind == 0 then info.extrema
                 else if kind == 1 then info.maxima
                 else if kind == 2 then info.maximaWithoutRoundCorners
                 else info.maximaWithoutFalseCorners;
    assert gs[kind] == Group(cands, offset, n, kind);
    GroupMembership(cands, offset, n, kind, index);
  }

  lemma GroupSnoc(cands: seq<int>, i: nat, offset: int, n: int, kind: nat)
    requires i < |cands|
    ensures Group(cands[..i + 1], offset, n, kind)
         == Group(cands[..i], offset, n, kind)
            + (if 0 <= cands[i] - offset < n then [Entry(cands[i] - offset, kind)] else [])
  {
    assert cands[..i + 1] == cands[..i] + [cands[i]];
    GroupAppend(cands[..i], [cands[i]], offset, n, kind);
    assert [cands[i]][1..] == [];
  }

  /** One of the four candidate loops: append the in-range shifted candidates
      of `cands` to `rows`. */
  method AppendGroup(rows: seq<Row>, cands: seq<int>, offset: int, n: int, kind: nat) returns (out: seq<Row>)
    ensures out == rows + Group(cands, offset, n, kind)
  {
    out := rows;
    var i := 0;
    while i < |cands|
      invariant 0 <= i <= |cands|
      invariant out == rows + Group(cands[..i], offset, n, kind)
    {
      var index := cands[i] - offset;
      GroupSnoc(cands, i, offset, n, kind);
      if 0 <= index && index < n {
        out := out + [Entry(index, kind)];
      }
      i := i + 1;
    }
    assert cands[..i] == cands;
  }

  /** The smoothed-boundary and curvature loops: entries offset … n+offset−1,
      which the source reads without a bounds check. */
  method DumpWindow<T>(s: seq<T>, offset: int, n: int) returns (rows: seq<T>)
    requires 0 <= offset && 0 <= n && offset + n <= |s|
    ensures |rows| == n
    ensures forall k :: 0 <= k < n ==> rows[k] == s[offset + k]
  {
    rows := [];
    var i := offset;
    while i < n + offset
      invariant offset <= i <= n + offset
      invariant |rows| == i - offset
      invariant forall k :: 0 <= k < |rows| ==> rows[k] == s[offset + k]
    {
      rows := rows + [s[i]];
      i := i + 1;
    }
  }

  /** printToFile, without the files: the boundary as it is, the unpadded
      windows of the smoothed boundary and the curvature, and the corner rows. */
  method PrintToFile(info: DebugInfo) returns (e: Export)
    requires 0 <= info.offset
    requires info.offset + |info.boundary| <= |info.smoothedBoundary|
    requires info.offset + |info.boundary| <= |info.kurvature|
    ensures e.boundary == info.boundary
    ensures |e.smoothedBoundary| == |info.boundary| && |e.kurvature| == |info.boundary|
    ensures forall k :: 0 <= k < |info.boundary| ==> e.smoothedBoundary[k] == info.smoothedBoundary[info.offset + k]
    ensures forall k :: 0 <= k < |info.boundary| ==> e.kurvature[k] == info.kurvature[info.offset + k]
    ensures e.corners == CornerRows(info)
  {
    var n := |info.boundary|;
    var offset := info.offset;
    var boundary := [];
    var i := 0;
    while i < n
      invariant 0 <= i <= n
      invariant boundary == info.boundary[..i]
    {
      boundary := boundary + [info.boundary[i]];
      i := i + 1;
    }
    var smoothed := DumpWindow(info.smoothedBoundary, offset, n);
    var kurvature := DumpWindow(info.kurvature, offset, n);
    var corners := [Header];
    corners := AppendGroup(corners, info.extrema, offset, n, 0);
    corners := AppendGroup(corners, info.maxima, offset, n, 1);
    corners := AppendGroup(corners, info.maximaWithoutRoundCorners, offset, n, 2);
    corners := AppendGroup(corners, info.maximaWithoutFalseCorners, offset, n, 3);
    e := Export(boundary, smoothed, kurvature, corners);
  }
}

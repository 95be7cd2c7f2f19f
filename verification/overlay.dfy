/** The overlay display modes, cycled by a key binding. */
module OverlayModes {

  datatype OverlayMode = Minimal | Compact | Detailed | GraphOnly

  /** values(), in declaration order. */
  const AllModes: seq<OverlayMode> := [Minimal, Compact, Detailed, GraphOnly]

  function Ordinal(m: OverlayMode): (o: nat)
    ensures o < |AllModes| && AllModes[o] == m
  {
    match m
    case Minimal => 0
    case Compact => 1
    case Detailed => 2
    case GraphOnly => 3
  }

  /** getNext: the mode at ordinal + 1, wrapping round after the last. */
  function Next(m: OverlayMode): (r: OverlayMode)
    ensures Ordinal(r) == (Ordinal(m) + 1) % |AllModes|
  {
    AllModes[(Ordinal(m) + 1) % |AllModes|]
  }

  /** getPrevious: the mode at ordinal - 1, wrapping round before the first. */
  function Previous(m: OverlayMode): (r: OverlayMode)
    ensures Ordinal(r) == (Ordinal(m) - 1 + |AllModes|) % |AllModes|
  {
    AllModes[(Ordinal(m) - 1 + |AllModes|) % |AllModes|]
  }

  /** Stepping forward then back (or back then forward) returns to the start,
      GRAPH_ONLY steps forward to MINIMAL, and four steps forward are a full cycle. */
  lemma CycleLaws(m: OverlayMode)
    ensures Previous(Next(m)) == m && Next(Previous(m)) == m
    ensures Next(GraphOnly) == Minimal && Previous(Minimal) == GraphOnly
    ensures Next(Next(Next(Next(m)))) == m
  {
    NextTable();
    PreviousTable();
  }

  /** The successor of each mode: the next in declaration order, GRAPH_ONLY
      wrapping round to MINIMAL. */
  lemma NextTable()
    ensures Next(Minimal) == Compact && Next(Compact) == Detailed
    ensures Next(Detailed) == GraphOnly && Next(GraphOnly) == Minimal
  {
    assert Next(Minimal) == AllModes[1];
    assert Next(Compact) == AllModes[2];
    assert Next(Detailed) == AllModes[3];
    assert Next(GraphOnly) == AllModes[0];
  }

  /** The predecessor of each mode, MINIMAL wrapping round to GRAPH_ONLY. */
  lemma PreviousTable()
    ensures Previous(Minimal) == GraphOnly && Previous(Compact) == Minimal
    ensures Previous(Detailed) == Compact && Previous(GraphOnly) == Detailed
  {
    assert Previous(Minimal) == AllModes[3];
    assert Previous(Compact) == AllModes[0];
    assert Previous(Detailed) == AllModes[1];
    assert Previous(GraphOnly) == AllModes[2];
  }
}

/** The five screen anchors of the overlay and their side predicates. */
module OverlayPositions {

  datatype OverlayPosition = TopLeft | TopRight | BottomLeft | BottomRight | Center

  const AllPositions: seq<OverlayPosition> := [TopLeft, TopRight, BottomLeft, BottomRight, Center]

  function Ordinal(p: OverlayPosition): (o: nat)
    ensures o < |AllPositions| && AllPositions[o] == p
  {
    match p
    case TopLeft => 0
    case TopRight => 1
    case BottomLeft => 2
    case BottomRight => 3
    case Center => 4
  }

  /** getNext: the position at ordinal + 1, wrapping round after CENTER. */
  function Next(p: OverlayPosition): (r: OverlayPosition)
    ensures Ordinal(r) == (Ordinal(p) + 1) % |AllPositions|
  {
    AllPositions[(Ordinal(p) + 1) % |AllPositions|]
  }

  /** getPrevious: the position at ordinal - 1, wrapping round before TOP_LEFT. */
  function Previous(p: OverlayPosition): (r: OverlayPosition)
    ensures Ordinal(r) == (Ordinal(p) - 1 + |AllPositions|) % |AllPositions|
  {
    AllPositions[(Ordinal(p) - 1 + |AllPositions|) % |AllPositions|]
  }

  /** Stepping forward then back (or back then forward) returns to the start,
      and five steps forward are a full cycle. */
  lemma CycleLaws(p: OverlayPosition)
    ensures Previous(Next(p)) == p && Next(Previous(p)) == p
    ensures Next(Next(Next(Next(Next(p))))) == p
  {
    NextTable();
    PreviousTable();
  }

  /** The successor of each position: the next in declaration order, CENTER
      wrapping round to TOP_LEFT. */
  lemma NextTable()
    ensures Next(TopLeft) == TopRight && Next(TopRight) == BottomLeft
    ensures Next(BottomLeft) == BottomRight && Next(BottomRight) == Center
    ensures Next(Center) == TopLeft
  {
    assert Next(TopLeft) == AllPositions[1];
    assert Next(TopRight) == AllPositions[2];
    assert Next(BottomLeft) == AllPositions[3];
    assert Next(BottomRight) == AllPositions[4];
    assert Next(Center) == AllPositions[0];
  }

  /** The predecessor of each position, TOP_LEFT wrapping round to CENTER. */
  lemma PreviousTable()
    ensures Previous(TopLeft) == Center && Previous(TopRight) == TopLeft
    ensures Previous(BottomLeft) == TopRight && Previous(BottomRight) == BottomLeft
    ensures Previous(Center) == BottomRight
  {
    assert Previous(TopLeft) == AllPositions[4];
    assert Previous(TopRight) == AllPositions[0];
    assert Previous(BottomLeft) == AllPositions[1];
    assert Previous(BottomRight) == AllPositions[2];
    assert Previous(Center) == AllPositions[3];
  }

  predicate IsLeftSide(p: OverlayPosition) { p == TopLeft || p == BottomLeft }

  predicate IsRightSide(p: OverlayPosition) { p == TopRight || p == BottomRight }

  predicate IsTopSide(p: OverlayPosition) { p == TopLeft || p == TopRight }

  predicate IsBottomSide(p: OverlayPosition) { p == BottomLeft || p == BottomRight }

  /** No position is on two opposite sides; every corner is on exactly one
      horizontal and one vertical side; CENTER is on none. */
  lemma SidesAreConsistent(p: OverlayPosition)
    ensures !(IsLeftSide(p) && IsRightSide(p)) && !(IsTopSide(p) && IsBottomSide(p))
    ensures p != Center <==> (IsLeftSide(p) != IsRightSide(p))
    ensures p != Center <==> (IsTopSide(p) != IsBottomSide(p))
  {
  }
}

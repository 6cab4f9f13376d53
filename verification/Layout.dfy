/** Box layout of a component tree with nested clipping and scrolling, and the pruned hit test. What components
    measure and what stacks allocate are arbitrary. */
module Layout {

  import opened Wrappers

  datatype Rect = Rect(x: real, y: real, width: real, height: real)

  type ScrollViewId = nat

  datatype Align = Stretch | Start | Center | End

  /** A component with what it measures: the number of lines of a leaf for a width; for a scroll view the width of its
      content, its scroll offset before the layout and the one it takes for a content and a viewport height; for a
      stack the sizes allocated to its entries and, in a row, the entries' own heights. */
  datatype Component =
    | Leaf(lines: real -> nat)
    | Scroll(id: ScrollViewId, content: Component, contentWidth: real -> real, before: real, after: (real, real) -> real)
    | Column(entries: seq<Component>, gap: real, sizes: (real, Option<real>, nat) -> real)
    | Row(entries: seq<Component>, gap: real, align: Align, widths: (real, nat) -> real, heights: (real, nat) -> real)

  datatype Box = Box(rect: Rect, clip: Rect, children: seq<Box>, scrollView: Option<ScrollViewId>)

  // ---------------------------------------------------------------------------------------------
  // Rectangles
  // ---------------------------------------------------------------------------------------------

  function Max(a: real, b: real): real { if a < b then b else a }

  function Min(a: real, b: real): real { if a < b then a else b }

  function Floor(a: real): real { a.Floor as real }

  predicate Contains(r: Rect, px: real, py: real) {
    px >= r.x && px < r.x + r.width && py >= r.y && py < r.y + r.height
  }

  function Intersect(a: Rect, b: Rect): Rect {
    var x, y := Max(a.x, b.x), Max(a.y, b.y);
    var right, bottom := Min(a.x + a.width, b.x + b.width), Min(a.y + a.height, b.y + b.height);
    Rect(x, y, Max(0.0, right - x), Max(0.0, bottom - y))
  }

  /** `clip` covers exactly the points of both rectangles. */
  ghost predicate Meets(clip: Rect, a: Rect, b: Rect) {
    forall px, py :: Contains(clip, px, py) <==> Contains(a, px, py) && Contains(b, px, py)
  }

  lemma IntersectMeets(a: Rect, b: Rect)
    ensures Meets(Intersect(a, b), a, b)
  {
    forall px, py
      ensures Contains(Intersect(a, b), px, py) <==> Contains(a, px, py) && Contains(b, px, py)
    {
    }
  }

  // ---------------------------------------------------------------------------------------------
  // Layout
  // ---------------------------------------------------------------------------------------------

  function Translate(box: Box, deltaY: real): Box {
    box.(rect := box.rect.(y := box.rect.y + deltaY),
         children := seq(|box.children|, i requires 0 <= i < |box.children| => Translate(box.children[i], deltaY)))
  }

  function UpdateClips(box: Box, parentClip: Rect): Box {
    var clip := Intersect(parentClip, box.rect);
    box.(clip := clip,
         children := seq(|box.children|, i requires 0 <= i < |box.children| => UpdateClips(box.children[i], clip)))
  }

  /** Where the `i`-th entry of a stack starts: after the sizes and gaps of those before it. */
  function Offset(size: nat -> real, gap: real, i: nat): real {
    if i == 0 then 0.0 else Offset(size, gap, i - 1) + size(i - 1) + gap
  }

  function SafeWidth(width: real): real { Max(1.0, Floor(width)) }

  function NaturalHeight(size: nat -> real, gap: real, n: nat): real {
    Sum(size, n) + Max(0.0, n as real - 1.0) * gap
  }

  function Sum(size: nat -> real, n: nat): real { if n == 0 then 0.0 else Sum(size, n - 1) + size(n - 1) }

  function Tallest(size: nat -> real, n: nat): real { if n == 0 then 0.0 else Max(Tallest(size, n - 1), size(n - 1)) }

  function Allocated(height: Option<real>, natural: real): real {
    if height.None? then natural else Max(0.0, Floor(height.value))
  }

  /** The vertical offset of a row's entry. */
  function Shift(align: Align, room: real): real {
    match align
    case Center => Floor(room / 2.0)
    case End => room
    case Stretch => 0.0
    case Start => 0.0
  }

  /** The sizes allocated to the entries of a stack. */
  function Sizes(c: Component, w: real, height: Option<real>): nat -> real
    requires c.Column? || c.Row?
  {
    if c.Column? then (i: nat) => c.sizes(w, height, i) else (i: nat) => c.widths(w, i)
  }

  /** The entries' own heights in a row. */
  function Heights(c: Component, w: real, height: Option<real>): nat -> real
    requires c.Row?
  {
    var size := Sizes(c, w, height);
    (i: nat) => c.heights(Max(1.0, size(i)), i)
  }

  /** The rectangle of a stack. */
  function StackRect(c: Component, x: real, y: real, w: real, height: Option<real>): Rect
    requires c.Column? || c.Row?
  {
    if c.Column? then Rect(x, y, w, Allocated(height, NaturalHeight(Sizes(c, w, height), c.gap, |c.entries|)))
    else Rect(x, y, w, if height.None? then Tallest(Heights(c, w, height), |c.entries|) else Max(0.0, height.value))
  }

  function EntryHeight(c: Component, rect: Rect, height: Option<real>, i: nat): real
    requires c.Row?
  {
    if c.align == Stretch then rect.height else Min(rect.height, Heights(c, rect.width, height)(i))
  }

  /** An entry without room is not laid out. */
  function EmptyBox(x: real, y: real, h: real): Box { Box(Rect(x, y, 0.0, h), Rect(x, y, 0.0, 0.0), [], None) }

  /** Where a stack puts an entry; an entry without room is skipped. */
  datatype Place = Place(x: real, y: real, width: real, height: real, skipped: bool)

  function EntryPlace(c: Component, rect: Rect, height: Option<real>, i: nat): Place
    requires c.Column? || c.Row?
  {
    var size := Sizes(c, rect.width, height);
    var offset := Offset(size, c.gap, i);
    if c.Column? then Place(rect.x, rect.y + offset, rect.width, size(i), false)
    else
      var h := EntryHeight(c, rect, height, i);
      Place(rect.x + offset, rect.y + Shift(c.align, rect.height - h), size(i), h, size(i) == 0.0)
  }

  function PlacedBox(c: Component, p: Place, inner: Rect): Box
    decreases c, 2
  {
    if p.skipped then EmptyBox(p.x, p.y, p.height) else LayoutBox(c, p.x, p.y, p.width, Some(p.height), inner)
  }

  /** The content of a scroll view, moved to the offset the view takes and clipped again. */
  function ContentBox(c: Component, x: real, y: real, w: real, height: Option<real>, clip: Rect): Box
    requires c.Scroll?
    decreases c, 0
  {
    var child := LayoutBox(c.content, x, y - c.before, c.contentWidth(w), None, clip);
    var viewport := Allocated(height, child.rect.height);
    UpdateClips(Translate(child, c.before - c.after(child.rect.height, viewport)), Intersect(clip, Rect(x, y, w, viewport)))
  }

  function LayoutBox(c: Component, x: real, y: real, width: real, height: Option<real>, clip: Rect): Box
    decreases c, 1
  {
    var w := SafeWidth(width);
    match c
    case Leaf(lines) =>
      var rect := Rect(x, y, w, Allocated(height, lines(w) as real));
      Box(rect, Intersect(clip, rect), [], None)
    case Scroll(id, _, _, _, _) =>
      var content := ContentBox(c, x, y, w, height, clip);
      var rect := Rect(x, y, w, Allocated(height, content.rect.height));
      Box(rect, Intersect(clip, rect), [content], Some(id))
    case _ =>
      var rect := StackRect(c, x, y, w, height);
      var inner := Intersect(clip, rect);
      Box(rect, inner, seq(|c.entries|, i requires 0 <= i < |c.entries| =>
        PlacedBox(c.entries[i], EntryPlace(c, rect, height, i), inner)), None)
  }

  /** `layoutComponent`: a stack places its entries one after the other. */
  method LayoutComponent(c: Component, x: real, y: real, width: real, height: Option<real>, clip: Rect) returns (box: Box)
    ensures box == LayoutBox(c, x, y, width, height, clip)
    decreases c, 1, 0
  {
    var w := SafeWidth(width);
    if c.Leaf? {
      var rect := Rect(x, y, w, Allocated(height, c.lines(w) as real));
      box := Box(rect, Intersect(clip, rect), [], None);
    } else if c.Scroll? {
      var child := LayoutComponent(c.content, x, y - c.before, c.contentWidth(w), None, clip);
      var viewport := Allocated(height, child.rect.height);
      child := Translate(child, c.before - c.after(child.rect.height, viewport));
      var rect := Rect(x, y, w, viewport);
      var inner := Intersect(clip, rect);
      box := Box(rect, inner, [UpdateClips(child, inner)], Some(c.id));
    } else {
      var rect := StackRect(c, x, y, w, height);
      var inner := Intersect(clip, rect);
      var children := LayoutEntries(c, rect, height, inner);
      box := Box(rect, inner, children, None);
      assert children == LayoutBox(c, x, y, width, height, clip).children;
    }
  }

  /** The `i`-th entry of a stack, which starts at `at`. */
  method LayoutEntry(c: Component, rect: Rect, height: Option<real>, inner: Rect, i: nat, at: real) returns (child: Box)
    requires (c.Column? || c.Row?) && i < |c.entries| && at == Offset(Sizes(c, rect.width, height), c.gap, i)
    ensures child == PlacedBox(c.entries[i], EntryPlace(c, rect, height, i), inner)
    decreases c, 0, 0
  {
    var place := PlaceEntry(c, rect, height, i, at);
    child := LayoutPlaced(c.entries[i], place, inner);
  }

  method PlaceEntry(c: Component, rect: Rect, height: Option<real>, i: nat, at: real) returns (place: Place)
    requires (c.Column? || c.Row?) && at == Offset(Sizes(c, rect.width, height), c.gap, i)
    ensures place == EntryPlace(c, rect, height, i)
  {
    var size := Sizes(c, rect.width, height)(i);
    if c.Column? {
      place := Place(rect.x, rect.y + at, rect.width, size, false);
    } else {
      var h := EntryHeight(c, rect, height, i);
      place := Place(rect.x + at, rect.y + Shift(c.align, rect.height - h), size, h, size == 0.0);
    }
  }

  method LayoutPlaced(c: Component, p: Place, inner: Rect) returns (box: Box)
    ensures box == PlacedBox(c, p, inner)
    decreases c, 2, 0
  {
    if p.skipped {
      box := EmptyBox(p.x, p.y, p.height);
    } else {
      box := LayoutComponent(c, p.x, p.y, p.width, Some(p.height), inner);
    }
  }

  method LayoutEntries(c: Component, rect: Rect, height: Option<real>, inner: Rect) returns (children: seq<Box>)
    requires c.Column? || c.Row?
    ensures |children| == |c.entries|
    ensures forall i :: 0 <= i < |c.entries| ==> children[i] == PlacedBox(c.entries[i], EntryPlace(c, rect, height, i), inner)
    decreases c, 0, 1
  {
    var size := Sizes(c, rect.width, height);
    children := [];
    var at := 0.0;
    var i := 0;
    while i < |c.entries|
      invariant 0 <= i == |children| <= |c.entries| && at == Offset(size, c.gap, i)
      invariant forall j :: 0 <= j < i ==> children[j] == PlacedBox(c.entries[j], EntryPlace(c, rect, height, j), inner)
    {
      var child := LayoutEntry(c, rect, height, inner, i, at);
      children := children + [child];
      at := at + size(i) + c.gap;
      i := i + 1;
    }
  }

  // ---------------------------------------------------------------------------------------------
  // Where boxes lie
  // ---------------------------------------------------------------------------------------------

  /** A box starts where it is put, a whole number of columns wide, and at least one; it scrolls if its component does. */
  lemma BoxStarts(c: Component, x: real, y: real, width: real, height: Option<real>, clip: Rect)
    ensures LayoutBox(c, x, y, width, height, clip).scrollView == if c.Scroll? then Some(c.id) else None
    ensures var r := LayoutBox(c, x, y, width, height, clip).rect;
            && r.x == x && r.y == y && r.width >= 1.0 && r.width == Floor(r.width)
            && (width >= 1.0 ==> r.width <= width < r.width + 1.0)
  {
  }

  /** A box that is given a height takes it, cut to whole lines, and none when it is negative; a row alone takes it
      uncut. */
  lemma GivenHeight(c: Component, x: real, y: real, width: real, given: real, clip: Rect)
    ensures var h := LayoutBox(c, x, y, width, Some(given), clip).rect.height;
            && (given < 0.0 ==> h == 0.0)
            && (given >= 0.0 && c.Row? ==> h == given)
            && (given >= 0.0 && !c.Row? ==> h == Floor(h) && h <= given < h + 1.0)
  {
  }

  /** Left to itself, a leaf is as high as its lines, a scroll view as its content, a column ends where its last entry
      ends, and a row is as high as its highest entry. */
  lemma NaturalHeights(c: Component, x: real, y: real, width: real, clip: Rect)
    ensures var b := LayoutBox(c, x, y, width, None, clip);
            && (c.Leaf? ==> b.rect.height == c.lines(b.rect.width) as real)
            && (c.Scroll? ==> |b.children| == 1 && b.rect.height == b.children[0].rect.height)
            && (c.Column? && c.entries == [] ==> b.rect.height == 0.0)
            && (c.Column? && c.entries != [] ==>
                  var last := |c.entries| - 1;
                  |b.children| == last + 1
                  && b.children[last].rect.y + c.sizes(b.rect.width, None, last) == b.rect.y + b.rect.height)
            && (c.Row? ==>
                  (forall i :: 0 <= i < |c.entries| ==> Heights(c, b.rect.width, None)(i) <= b.rect.height)
                  && (b.rect.height == 0.0 || exists i :: 0 <= i < |c.entries| && Heights(c, b.rect.width, None)(i) == b.rect.height))
  {
    var w := SafeWidth(width);
    if c.Column? && c.entries != [] {
      EntryLies(c, x, y, width, None, clip, |c.entries| - 1);
      ColumnEnds(Sizes(c, w, None), c.gap, |c.entries|);
    } else if c.Row? {
      TallestIs(Heights(c, w, None), |c.entries|);
    }
  }

  lemma {:induction false} ColumnEnds(size: nat -> real, gap: real, n: nat)
    requires n > 0
    ensures Offset(size, gap, n - 1) + size(n - 1) == NaturalHeight(size, gap, n)
  {
    if n == 1 {
      assert Sum(size, 0) == 0.0;
    } else {
      ColumnEnds(size, gap, n - 1);
    }
  }

  lemma {:induction false} TallestIs(size: nat -> real, n: nat)
    ensures forall i :: 0 <= i < n ==> size(i) <= Tallest(size, n)
    ensures Tallest(size, n) == 0.0 || exists i :: 0 <= i < n && size(i) == Tallest(size, n)
  {
    if n > 0 {
      TallestIs(size, n - 1);
    }
  }

  /** An entry lies where its stack puts it. */
  lemma EntryLies(c: Component, x: real, y: real, width: real, height: Option<real>, clip: Rect, i: nat)
    requires (c.Column? || c.Row?) && i < |c.entries|
    ensures var b := LayoutBox(c, x, y, width, height, clip);
            var p := EntryPlace(c, b.rect, height, i);
            && |b.children| == |c.entries| && b.children[i].rect.x == p.x && b.children[i].rect.y == p.y
            && (!p.skipped ==> b.children[i].rect.width == SafeWidth(p.width)
                               && b.children[i] == LayoutBox(c.entries[i], p.x, p.y, p.width, Some(p.height), b.clip))
  {
    var b := LayoutBox(c, x, y, width, height, clip);
    var p := EntryPlace(c, b.rect, height, i);
    assert b.children[i] == PlacedBox(c.entries[i], p, b.clip);
    if !p.skipped {
      BoxStarts(c.entries[i], p.x, p.y, p.width, Some(p.height), b.clip);
    }
  }

  /** The entries of a column follow one another at the distance of their sizes and the gap, each as wide as the column. */
  lemma ColumnFollows(c: Component, x: real, y: real, width: real, height: Option<real>, clip: Rect, i: nat)
    requires c.Column? && i < |c.entries|
    ensures var b := LayoutBox(c, x, y, width, height, clip);
            && |b.children| == |c.entries|
            && b.children[i].rect.x == b.rect.x && b.children[i].rect.width == b.rect.width
            && b.children[i].rect.y
               == (if i == 0 then b.rect.y
                   else b.children[i - 1].rect.y + c.sizes(b.rect.width, height, i - 1) + c.gap)
  {
    EntryLies(c, x, y, width, height, clip, i);
    if i > 0 {
      EntryLies(c, x, y, width, height, clip, i - 1);
    }
  }

  /** The entries of a row follow one another at the distance of their widths and the gap; they lie at the top, in the
      middle or at the bottom of the row as it aligns them, or stretch over its whole height. */
  lemma RowFollows(c: Component, x: real, y: real, width: real, height: Option<real>, clip: Rect, i: nat)
    requires c.Row? && i < |c.entries|
    ensures var b := LayoutBox(c, x, y, width, height, clip);
            && |b.children| == |c.entries|
            && b.children[i].rect.x
               == (if i == 0 then b.rect.x else b.children[i - 1].rect.x + c.widths(b.rect.width, i - 1) + c.gap)
            && (c.align in {Stretch, Start} ==> b.children[i].rect.y == b.rect.y)
  {
    EntryLies(c, x, y, width, height, clip, i);
    if i > 0 {
      EntryLies(c, x, y, width, height, clip, i - 1);
    }
  }

  /** How high a row's entry is given to be, and where that leaves it. */
  lemma RowAligns(c: Component, rect: Rect, height: Option<real>, i: nat)
    requires c.Row?
    ensures var p := EntryPlace(c, rect, height, i);
            var above, below := p.y - rect.y, rect.y + rect.height - (p.y + p.height);
            && p.height == (if c.align == Stretch then rect.height else Min(rect.height, Heights(c, rect.width, height)(i)))
            && (c.align == End ==> below == 0.0)
            && (c.align == Center ==> above <= below < above + 2.0)
            && (c.align in {Stretch, Start} ==> above == 0.0)
            && (p.skipped <==> c.widths(rect.width, i) == 0.0)
  {
  }

  // ---------------------------------------------------------------------------------------------
  // Clips
  // ---------------------------------------------------------------------------------------------

  /** Every box's clip is exactly the part of its rectangle inside its parent's clip. */
  ghost predicate ClipsOk(box: Box, parentClip: Rect) {
    && Meets(box.clip, parentClip, box.rect)
    && forall i :: 0 <= i < |box.children| ==> ClipsOk(box.children[i], box.clip)
  }

  lemma {:induction false} UpdateClipsOk(box: Box, parentClip: Rect)
    ensures ClipsOk(UpdateClips(box, parentClip), parentClip)
  {
    var clip := Intersect(parentClip, box.rect);
    IntersectMeets(parentClip, box.rect);
    forall i | 0 <= i < |box.children|
      ensures ClipsOk(UpdateClips(box.children[i], clip), clip)
    {
      UpdateClipsOk(box.children[i], clip);
    }
  }

  /** Every laid-out box is clipped right, whatever scrolled. */
  lemma {:induction false} LayoutClips(c: Component, x: real, y: real, width: real, height: Option<real>, clip: Rect)
    ensures ClipsOk(LayoutBox(c, x, y, width, height, clip), clip)
    decreases c, 1
  {
    var box := LayoutBox(c, x, y, width, height, clip);
    IntersectMeets(clip, box.rect);
    forall i | 0 <= i < |box.children|
      ensures ClipsOk(box.children[i], box.clip)
    {
      if c.Scroll? {
        ContentClips(c, x, y, SafeWidth(width), height, clip);
      } else {
        PlacedClips(c.entries[i], EntryPlace(c, box.rect, height, i), box.clip);
      }
    }
  }

  lemma ContentClips(c: Component, x: real, y: real, w: real, height: Option<real>, clip: Rect)
    requires c.Scroll?
    ensures var content := ContentBox(c, x, y, w, height, clip);
            ClipsOk(content, Intersect(clip, Rect(x, y, w, Allocated(height, content.rect.height))))
  {
    var child := LayoutBox(c.content, x, y - c.before, c.contentWidth(w), None, clip);
    var viewport := Allocated(height, child.rect.height);
    var moved, inner := Translate(child, c.before - c.after(child.rect.height, viewport)), Intersect(clip, Rect(x, y, w, viewport));
    assert ContentBox(c, x, y, w, height, clip) == UpdateClips(moved, inner);
    UpdateClipsOk(moved, inner);
  }

  lemma {:induction false} PlacedClips(c: Component, p: Place, inner: Rect)
    ensures ClipsOk(PlacedBox(c, p, inner), inner)
    decreases c, 2
  {
    if p.skipped {
      EmptyClips(p.x, p.y, p.height, inner);
    } else {
      LayoutClips(c, p.x, p.y, p.width, Some(p.height), inner);
    }
  }

  lemma EmptyClips(x: real, y: real, h: real, inner: Rect)
    ensures ClipsOk(EmptyBox(x, y, h), inner)
  {
    var box := EmptyBox(x, y, h);
    forall px, py
      ensures !Contains(box.clip, px, py) && !Contains(box.rect, px, py)
    {
    }
  }

  // ---------------------------------------------------------------------------------------------
  // Scrolling
  // ---------------------------------------------------------------------------------------------

  /** The same boxes, clips aside. */
  ghost predicate SameBoxes(a: Box, b: Box) {
    && a.rect == b.rect && a.scrollView == b.scrollView && |a.children| == |b.children|
    && forall i :: 0 <= i < |a.children| ==> SameBoxes(a.children[i], b.children[i])
  }

  lemma {:induction false} SameTrans(a: Box, b: Box, c: Box)
    requires SameBoxes(a, b) && SameBoxes(b, c)
    ensures SameBoxes(a, c)
  {
    forall i | 0 <= i < |a.children|
      ensures SameBoxes(a.children[i], c.children[i])
    {
      SameTrans(a.children[i], b.children[i], c.children[i]);
    }
  }

  lemma {:induction false} ClippingMovesNothing(box: Box, clip: Rect)
    ensures SameBoxes(UpdateClips(box, clip), box)
  {
    forall i | 0 <= i < |box.children|
      ensures SameBoxes(UpdateClips(box, clip).children[i], box.children[i])
    {
      ClippingMovesNothing(box.children[i], Intersect(clip, box.rect));
    }
  }

  lemma {:induction false} TranslateSame(a: Box, b: Box, d: real)
    requires SameBoxes(a, b)
    ensures SameBoxes(Translate(a, d), Translate(b, d))
  {
    forall i | 0 <= i < |a.children|
      ensures SameBoxes(Translate(a, d).children[i], Translate(b, d).children[i])
    {
      TranslateSame(a.children[i], b.children[i], d);
    }
  }

  lemma SameAs(a: Box, b: Box, c: Box)
    requires SameBoxes(a, b) && SameBoxes(c, b)
    ensures SameBoxes(a, c)
  {
    SameSym(c, b);
    SameTrans(a, b, c);
  }

  /** Laying a component out further down moves all its boxes and changes nothing else. */
  lemma {:induction false} LayoutMoves(c: Component, x: real, y: real, width: real, height: Option<real>, clip: Rect, clip': Rect, d: real)
    ensures SameBoxes(Translate(LayoutBox(c, x, y, width, height, clip), d), LayoutBox(c, x, y + d, width, height, clip'))
    decreases c, 2, 0
  {
    var a, b := LayoutBox(c, x, y, width, height, clip), LayoutBox(c, x, y + d, width, height, clip');
    if c.Scroll? {
      ContentMoves(c, x, y, SafeWidth(width), height, clip, clip', d);
    } else if !c.Leaf? {
      forall i | 0 <= i < |a.children|
        ensures SameBoxes(Translate(a, d).children[i], b.children[i])
      {
        PlacedMoves(c.entries[i], EntryPlace(c, a.rect, height, i), EntryPlace(c, b.rect, height, i), a.clip, b.clip, d);
      }
    }
  }

  lemma {:induction false} PlacedMoves(c: Component, p: Place, p': Place, clip: Rect, clip': Rect, d: real)
    requires p' == p.(y := p.y + d)
    ensures SameBoxes(Translate(PlacedBox(c, p, clip), d), PlacedBox(c, p', clip'))
    decreases c, 3
  {
    if !p.skipped {
      LayoutMoves(c, p.x, p.y, p.width, Some(p.height), clip, clip', d);
    }
  }

  /** The offset a scroll view takes. */
  function ScrollTop(c: Component, x: real, y: real, w: real, height: Option<real>, clip: Rect): real
    requires c.Scroll?
  {
    var child := LayoutBox(c.content, x, y - c.before, c.contentWidth(w), None, clip);
    c.after(child.rect.height, Allocated(height, child.rect.height))
  }

  lemma ContentIsMoved(c: Component, x: real, y: real, w: real, height: Option<real>, clip: Rect) returns (content: Box, child: Box)
    requires c.Scroll?
    ensures content == ContentBox(c, x, y, w, height, clip)
    ensures child == LayoutBox(c.content, x, y - c.before, c.contentWidth(w), None, clip)
    ensures SameBoxes(content, Translate(child, c.before - ScrollTop(c, x, y, w, height, clip)))
  {
    content, child := ContentBox(c, x, y, w, height, clip), LayoutBox(c.content, x, y - c.before, c.contentWidth(w), None, clip);
    var moved := Translate(child, c.before - ScrollTop(c, x, y, w, height, clip));
    ClippingMovesNothing(moved, Intersect(clip, Rect(x, y, w, Allocated(height, child.rect.height))));
  }

  lemma {:induction false} MovedTo(c: Component, x: real, y: real, width: real, clip: Rect, clip': Rect, d: real, at: real)
    returns (there: Box)
    requires at == y + d
    ensures there == LayoutBox(c, x, at, width, None, clip')
    ensures SameBoxes(Translate(LayoutBox(c, x, y, width, None, clip), d), there)
    decreases c, 2, 1
  {
    LayoutMoves(c, x, y, width, None, clip, clip', d);
    there := LayoutBox(c, x, at, width, None, clip');
  }

  lemma {:induction false} Rejoins(c: Component, x: real, y: real, width: real, clip: Rect, clip': Rect, d: real, at: real,
                                   content: Box, child: Box)
    requires at == y + d && child == LayoutBox(c, x, y, width, None, clip) && SameBoxes(content, Translate(child, d))
    ensures SameBoxes(content, LayoutBox(c, x, at, width, None, clip'))
    decreases c, 2, 2
  {
    var there := MovedTo(c, x, y, width, clip, clip', d, at);
    SameTrans(content, Translate(child, d), there);
  }

  /** A scroll view's content, laid out at the old offset and then moved, is where a layout at the new offset puts it. */
  lemma {:induction false} ScrolledContent(c: Component, x: real, y: real, w: real, height: Option<real>, clip: Rect, clip': Rect)
    requires c.Scroll?
    ensures SameBoxes(ContentBox(c, x, y, w, height, clip),
                      LayoutBox(c.content, x, y - ScrollTop(c, x, y, w, height, clip), c.contentWidth(w), None, clip'))
    decreases c, 0
  {
    var top := ScrollTop(c, x, y, w, height, clip);
    var content, child := ContentIsMoved(c, x, y, w, height, clip);
    Rejoins(c.content, x, y - c.before, c.contentWidth(w), clip, clip', c.before - top, y - top, content, child);
  }

  lemma {:induction false} ContentMoves(c: Component, x: real, y: real, w: real, height: Option<real>, clip: Rect, clip': Rect, d: real)
    requires c.Scroll?
    ensures SameBoxes(Translate(ContentBox(c, x, y, w, height, clip), d), ContentBox(c, x, y + d, w, height, clip'))
    decreases c, 1, 1
  {
    var at := y - ScrollTop(c, x, y, w, height, clip) + d;
    TopStays(c, x, y, w, height, clip, clip', d);
    var content, there := ContentMovesPlainly(c, x, y, w, height, clip, d, at);
    var content' := ScrolledTo(c, x, y + d, w, height, clip', clip, at, there);
    SameAs(Translate(content, d), there, content');
  }

  lemma {:induction false} ScrolledTo(c: Component, x: real, y: real, w: real, height: Option<real>, clip: Rect, clip': Rect,
                                      at: real, there: Box)
    returns (content: Box)
    requires c.Scroll? && at == y - ScrollTop(c, x, y, w, height, clip)
    requires there == LayoutBox(c.content, x, at, c.contentWidth(w), None, clip')
    ensures content == ContentBox(c, x, y, w, height, clip) && SameBoxes(content, there)
    decreases c, 1, 0
  {
    ScrolledContent(c, x, y, w, height, clip, clip');
    content := ContentBox(c, x, y, w, height, clip);
  }

  lemma {:induction false} ContentMovesPlainly(c: Component, x: real, y: real, w: real, height: Option<real>, clip: Rect, d: real, at: real)
    returns (content: Box, there: Box)
    requires c.Scroll? && at == y - ScrollTop(c, x, y, w, height, clip) + d
    ensures content == ContentBox(c, x, y, w, height, clip)
    ensures there == LayoutBox(c.content, x, at, c.contentWidth(w), None, clip)
    ensures SameBoxes(Translate(content, d), there)
    decreases c, 1, 0
  {
    var top := ScrollTop(c, x, y, w, height, clip);
    var plain := LayoutBox(c.content, x, y - top, c.contentWidth(w), None, clip);
    content := ContentBox(c, x, y, w, height, clip);
    ScrolledContent(c, x, y, w, height, clip, clip);
    TranslateSame(content, plain, d);
    there := MovedTo(c.content, x, y - top, c.contentWidth(w), clip, clip, d, at);
    SameTrans(Translate(content, d), Translate(plain, d), there);
  }

  lemma {:induction false} TopStays(c: Component, x: real, y: real, w: real, height: Option<real>, clip: Rect, clip': Rect, d: real)
    requires c.Scroll?
    ensures ScrollTop(c, x, y + d, w, height, clip') == ScrollTop(c, x, y, w, height, clip)
    decreases c, 0
  {
    LayoutMoves(c.content, x, y - c.before, c.contentWidth(w), None, clip, clip', d);
    assert y - c.before + d == y + d - c.before;
  }

  lemma {:induction false} SameSym(a: Box, b: Box)
    requires SameBoxes(a, b)
    ensures SameBoxes(b, a)
  {
    forall i | 0 <= i < |a.children|
      ensures SameBoxes(b.children[i], a.children[i])
    {
      SameSym(a.children[i], b.children[i]);
    }
  }

  // ---------------------------------------------------------------------------------------------
  // Hit test
  // ---------------------------------------------------------------------------------------------

  datatype Hit = Hit(scrollView: ScrollViewId, depth: nat)

  /** The pruned search of `getScrollViewsAt`: a box whose clip misses the point is left with all below it. */
  function Visit(box: Box, depth: nat, px: real, py: real): seq<Hit>
    decreases box, 1, 0
  {
    if !Contains(box.clip, px, py) then []
    else (if box.scrollView.Some? && Contains(box.rect, px, py) then [Hit(box.scrollView.value, depth)] else [])
         + VisitAll(box, |box.children|, depth, px, py)
  }

  function VisitAll(box: Box, n: nat, depth: nat, px: real, py: real): seq<Hit>
    requires n <= |box.children|
    decreases box, 0, n
  {
    if n == 0 then [] else VisitAll(box, n - 1, depth, px, py) + Visit(box.children[n - 1], depth + 1, px, py)
  }

  /** The exhaustive search: every scroll view of the tree whose own clip contains the point. */
  ghost function Search(box: Box, depth: nat, px: real, py: real): seq<Hit>
    decreases box, 1, 0
  {
    (if box.scrollView.Some? && Contains(box.clip, px, py) then [Hit(box.scrollView.value, depth)] else [])
    + SearchAll(box, |box.children|, depth, px, py)
  }

  ghost function SearchAll(box: Box, n: nat, depth: nat, px: real, py: real): seq<Hit>
    requires n <= |box.children|
    decreases box, 0, n
  {
    if n == 0 then [] else SearchAll(box, n - 1, depth, px, py) + Search(box.children[n - 1], depth + 1, px, py)
  }

  /** Nothing below a clip that misses the point can be hit. */
  lemma {:induction false} MissedBelow(box: Box, parentClip: Rect, depth: nat, px: real, py: real)
    requires ClipsOk(box, parentClip) && !Contains(parentClip, px, py)
    ensures Search(box, depth, px, py) == []
    decreases box, 1, 0
  {
    MissedAll(box, |box.children|, depth, px, py);
  }

  lemma {:induction false} MissedAll(box: Box, n: nat, depth: nat, px: real, py: real)
    requires n <= |box.children| && !Contains(box.clip, px, py)
    requires forall i :: 0 <= i < |box.children| ==> ClipsOk(box.children[i], box.clip)
    ensures SearchAll(box, n, depth, px, py) == []
    decreases box, 0, n
  {
    if n > 0 {
      MissedAll(box, n - 1, depth, px, py);
      MissedBelow(box.children[n - 1], box.clip, depth + 1, px, py);
    }
  }

  /** The pruned search finds what the exhaustive one finds. */
  lemma {:induction false} PruningIsExact(box: Box, parentClip: Rect, depth: nat, px: real, py: real)
    requires ClipsOk(box, parentClip)
    ensures Visit(box, depth, px, py) == Search(box, depth, px, py)
    decreases box, 1, 0
  {
    if Contains(box.clip, px, py) {
      PruningAll(box, |box.children|, depth, px, py);
    } else {
      MissedAll(box, |box.children|, depth, px, py);
    }
  }

  lemma {:induction false} PruningAll(box: Box, n: nat, depth: nat, px: real, py: real)
    requires n <= |box.children|
    requires forall i :: 0 <= i < |box.children| ==> ClipsOk(box.children[i], box.clip)
    ensures VisitAll(box, n, depth, px, py) == SearchAll(box, n, depth, px, py)
    decreases box, 0, n
  {
    if n > 0 {
      PruningAll(box, n - 1, depth, px, py);
      PruningIsExact(box.children[n - 1], box.clip, depth + 1, px, py);
    }
  }

  /** The hits of one depth, in order. */
  function AtDepth(hits: seq<Hit>, depth: nat): seq<Hit> {
    if hits == [] then []
    else
      var n := |hits| - 1;
      AtDepth(hits[..n], depth) + if hits[n].depth == depth then [hits[n]] else []
  }

  /** The stable sort, deepest first: the hits of each depth below `limit` in their order, from the deepest up. */
  function DeepestFirst(hits: seq<Hit>, limit: nat): seq<Hit> {
    if limit == 0 then [] else AtDepth(hits, limit - 1) + DeepestFirst(hits, limit - 1)
  }

  ghost predicate Below(hits: seq<Hit>, limit: nat) { forall i :: 0 <= i < |hits| ==> hits[i].depth < limit }

  ghost predicate Descending(hits: seq<Hit>) { forall i, j :: 0 <= i < j < |hits| ==> hits[i].depth >= hits[j].depth }

  lemma {:induction false} AtDepthIs(hits: seq<Hit>, depth: nat)
    ensures forall i :: 0 <= i < |AtDepth(hits, depth)| ==> AtDepth(hits, depth)[i].depth == depth
  {
    if hits != [] {
      AtDepthIs(hits[..|hits| - 1], depth);
    }
  }

  lemma {:induction false} DeepestFirstDescends(hits: seq<Hit>, limit: nat)
    ensures Descending(DeepestFirst(hits, limit)) && Below(DeepestFirst(hits, limit), limit)
  {
    if limit > 0 {
      AtDepthIs(hits, limit - 1);
      DeepestFirstDescends(hits, limit - 1);
    }
  }

  /** How often a hit occurs. */
  ghost function Count(hits: seq<Hit>, h: Hit): nat {
    if hits == [] then 0 else Count(hits[..|hits| - 1], h) + if hits[|hits| - 1] == h then 1 else 0
  }

  lemma {:induction false} CountJoins(a: seq<Hit>, b: seq<Hit>, h: Hit)
    ensures Count(a + b, h) == Count(a, h) + Count(b, h)
    decreases |b|
  {
    if b == [] {
      assert a + b == a;
    } else {
      CountJoins(a, b[..|b| - 1], h);
      assert (a + b)[..|a + b| - 1] == a + b[..|b| - 1];
    }
  }

  lemma {:induction false} AtDepthCount(hits: seq<Hit>, depth: nat, h: Hit)
    ensures Count(AtDepth(hits, depth), h) == if h.depth == depth then Count(hits, h) else 0
  {
    if hits != [] {
      var n := |hits| - 1;
      var more := if hits[n].depth == depth then [hits[n]] else [];
      AtDepthCount(hits[..n], depth, h);
      CountJoins(AtDepth(hits[..n], depth), more, h);
      assert more != [] ==> more[..0] == [] && Count(more[..0], h) == 0;
    }
  }

  lemma {:induction false} DeepestFirstCount(hits: seq<Hit>, limit: nat, h: Hit)
    ensures Count(DeepestFirst(hits, limit), h) == if h.depth < limit then Count(hits, h) else 0
  {
    if limit > 0 {
      DeepestFirstCount(hits, limit - 1, h);
      AtDepthCount(hits, limit - 1, h);
      CountJoins(AtDepth(hits, limit - 1), DeepestFirst(hits, limit - 1), h);
    }
  }

  lemma {:induction false} CountsOnlyPresent(hits: seq<Hit>, h: Hit)
    ensures Count(hits, h) > 0 <==> h in hits
  {
    if hits != [] {
      CountsOnlyPresent(hits[..|hits| - 1], h);
      assert hits == hits[..|hits| - 1] + [hits[|hits| - 1]];
    }
  }

  lemma {:induction false} AtDepthJoins(a: seq<Hit>, b: seq<Hit>, depth: nat)
    ensures AtDepth(a + b, depth) == AtDepth(a, depth) + AtDepth(b, depth)
    decreases |b|
  {
    if b == [] {
      assert a + b == a;
    } else {
      AtDepthJoins(a, b[..|b| - 1], depth);
      assert (a + b)[..|a + b| - 1] == a + b[..|b| - 1];
    }
  }

  lemma {:induction false} AtDepthOf(hits: seq<Hit>, depth: nat, d: nat)
    requires forall i :: 0 <= i < |hits| ==> hits[i].depth == depth
    ensures AtDepth(hits, d) == if d == depth then hits else []
  {
    if hits != [] {
      AtDepthOf(hits[..|hits| - 1], depth, d);
      assert hits == hits[..|hits| - 1] + [hits[|hits| - 1]];
    }
  }

  /** Sorting keeps the order of hits of the same depth. */
  lemma {:induction false} DeepestFirstIsStable(hits: seq<Hit>, limit: nat, d: nat)
    ensures AtDepth(DeepestFirst(hits, limit), d) == if d < limit then AtDepth(hits, d) else []
  {
    if limit > 0 {
      DeepestFirstIsStable(hits, limit - 1, d);
      AtDepthIs(hits, limit - 1);
      AtDepthOf(AtDepth(hits, limit - 1), limit - 1, d);
      AtDepthJoins(AtDepth(hits, limit - 1), DeepestFirst(hits, limit - 1), d);
    }
  }

  /** Sorting loses nothing and adds nothing. */
  lemma DeepestFirstPermutes(hits: seq<Hit>, limit: nat, h: Hit)
    requires Below(hits, limit)
    ensures Count(DeepestFirst(hits, limit), h) == Count(hits, h)
  {
    DeepestFirstCount(hits, limit, h);
    CountsOnlyPresent(hits, h);
  }

  /** One more than the depth of any hit. */
  function Limit(hits: seq<Hit>): (n: nat)
    ensures Below(hits, n)
  {
    if hits == [] then 0
    else
      var n := Limit(hits[..|hits| - 1]);
      if hits[|hits| - 1].depth < n then n else hits[|hits| - 1].depth + 1
  }

  /** The search as it is run: hits are pushed as boxes are visited. */
  method Collect(box: Box, depth: nat, px: real, py: real, found: seq<Hit>) returns (hits: seq<Hit>)
    ensures hits == found + Visit(box, depth, px, py)
    decreases box
  {
    hits := found;
    if !Contains(box.clip, px, py) {
      return;
    }
    if box.scrollView.Some? && Contains(box.rect, px, py) {
      hits := hits + [Hit(box.scrollView.value, depth)];
    }
    ghost var own := hits;
    var i := 0;
    while i < |box.children|
      invariant 0 <= i <= |box.children| && hits == own + VisitAll(box, i, depth, px, py)
    {
      hits := Collect(box.children[i], depth + 1, px, py, hits);
      i := i + 1;
    }
  }

  /** The scroll views of the hits, deepest first and otherwise in their order. */
  ghost predicate Ranks(views: seq<ScrollViewId>, hits: seq<Hit>) {
    var sorted := DeepestFirst(hits, Limit(hits));
    && |views| == |sorted| && (forall i :: 0 <= i < |views| ==> views[i] == sorted[i].scrollView)
    && Descending(sorted) && (forall h :: Count(sorted, h) == Count(hits, h))
  }

  /** `getScrollViewsAt` on a laid-out frame: exactly the scroll views whose own clip contains the point, deepest
      first and otherwise in the order of the tree. */
  method GetScrollViewsAt(root: Box, frame: Rect, px: real, py: real) returns (views: seq<ScrollViewId>)
    requires ClipsOk(root, frame)
    ensures Ranks(views, Search(root, 0, px, py))
  {
    var hits := Collect(root, 0, px, py, []);
    PruningIsExact(root, frame, 0, px, py);
    assert hits == Search(root, 0, px, py);
    views := Rank(hits);
  }

  method Rank(hits: seq<Hit>) returns (views: seq<ScrollViewId>)
    ensures Ranks(views, hits)
  {
    var sorted := DeepestFirst(hits, Limit(hits));
    DeepestFirstDescends(hits, Limit(hits));
    forall h
      ensures Count(sorted, h) == Count(hits, h)
    {
      DeepestFirstPermutes(hits, Limit(hits), h);
    }
    views := seq(|sorted|, i requires 0 <= i < |sorted| => sorted[i].scrollView);
  }

  /** The root box of a frame, and the frame itself. */
  function Frame(width: real, height: real): Rect { Rect(0.0, 0.0, SafeWidth(width), SafeWidth(height)) }

  function FrameBox(c: Component, width: real, height: real): Box {
    LayoutBox(c, 0.0, 0.0, SafeWidth(width), Some(SafeWidth(height)), Frame(width, height))
  }

  /** Every frame satisfies what the hit test relies on. */
  lemma FrameClips(c: Component, width: real, height: real)
    ensures ClipsOk(FrameBox(c, width, height), Frame(width, height))
  {
    LayoutClips(c, 0.0, 0.0, SafeWidth(width), Some(SafeWidth(height)), Frame(width, height));
  }

  /** The pruned hit test on any frame finds exactly what the exhaustive search finds. */
  lemma HitTestIsExact(c: Component, width: real, height: real, px: real, py: real)
    ensures Visit(FrameBox(c, width, height), 0, px, py) == Search(FrameBox(c, width, height), 0, px, py)
  {
    FrameClips(c, width, height);
    PruningIsExact(FrameBox(c, width, height), Frame(width, height), 0, px, py);
  }
}

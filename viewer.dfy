/**
 * The PDF viewer of components/tutor/pdf-viewer.tsx: which annotations a
 * page shows, deleting and clearing, page and zoom stepping, and the
 * mouse-driven machine that draws a new annotation.
 */
module Viewer {
  import opened Options
  import opened Text
  import opened Seqs
  import opened Annotations
  import opened Tutor

  const PlaceholderPageCount: nat := 10
  const HighlightColor: string := "#fbbf24"
  const ShapeColor: string := "#dc2626"
  const MinZoom: real := 0.5
  const MaxZoom: real := 3.0
  const ZoomStep: real := 0.25

  // ------------------------------------------------------------- filters

  /** The visibility test of one page: tagged with it, or global. */
  function ShownOn(page: nat): Annotation -> bool {
    (a: Annotation) => OnPage(a, page) || IsGlobal(a)
  }

  function NotId(id: string): Annotation -> bool {
    (a: Annotation) => a.id != id
  }

  function NotOnPage(page: nat): Annotation -> bool {
    (a: Annotation) => !OnPage(a, page)
  }

  function Global(): Annotation -> bool {
    (a: Annotation) => IsGlobal(a)
  }

  /** The annotations page `page` shows, in store order. */
  function VisibleOn(annotations: seq<Annotation>, page: nat): (r: seq<Annotation>)
    ensures |r| <= |annotations|
    ensures forall a :: a in r <==> a in annotations && (OnPage(a, page) || IsGlobal(a))
  {
    Filter(annotations, ShownOn(page))
  }

  /** `handleDeleteAnnotation`: drop every annotation with `id`. */
  function DeleteById(annotations: seq<Annotation>, id: string): (r: seq<Annotation>)
    ensures |r| <= |annotations|
    ensures forall a :: a in r <==> a in annotations && a.id != id
  {
    Filter(annotations, NotId(id))
  }

  /** `handleClearAnnotations`: drop the annotations tagged with `page`. */
  function ClearPage(annotations: seq<Annotation>, page: nat): (r: seq<Annotation>)
    ensures |r| <= |annotations|
    ensures forall a :: a in r <==> a in annotations && !OnPage(a, page)
  {
    Filter(annotations, NotOnPage(page))
  }

  /** Delete keeps the others in their order: it acts on each part of a concatenation separately. */
  lemma DeleteKeepsOrder(a: seq<Annotation>, b: seq<Annotation>, id: string)
    ensures DeleteById(a + b, id) == DeleteById(a, id) + DeleteById(b, id)
  {
    FilterAppend(a, b, NotId(id));
  }

  /** Deleting an id nobody carries changes nothing. */
  lemma DeleteAbsentId(annotations: seq<Annotation>, id: string)
    requires forall i :: 0 <= i < |annotations| ==> annotations[i].id != id
    ensures DeleteById(annotations, id) == annotations
  {
    FilterKeepsAll(annotations, NotId(id));
  }

  /** After a delete no annotation carries the id. */
  lemma DeleteRemovesAll(annotations: seq<Annotation>, id: string)
    ensures IdCount(DeleteById(annotations, id), id) == 0
  {
    var r := DeleteById(annotations, id);
    forall i | 0 <= i < |r| ensures r[i].id != id {
      assert r[i] in r;
    }
  }

  /** A page-tagged id contains `page-`, so a tagged annotation is never global. */
  lemma OnPageNotGlobal(a: Annotation, page: nat)
    requires OnPage(a, page)
    ensures !IsGlobal(a)
  {
    assert PageTag(page)[..5] == "page-";
    assert a.id[0..5] == PageTag(page)[..5];
    ContainsAt(a.id, "page-", 0);
  }

  /** A digit string followed by `-` is determined by any text it prefixes. */
  lemma DashEndedDigits(np: string, nq: string, tail: string)
    requires AllDigits(np) && AllDigits(nq)
    requires |nq| + 1 <= |np + "-" + tail|
    requires (np + "-" + tail)[..|nq| + 1] == nq + "-"
    ensures np == nq
  {
    var u := np + "-" + tail;
    var w := nq + "-";
    assert forall k :: 0 <= k < |np| ==> u[k] == np[k];
    assert u[|np|] == '-';
    assert forall k :: 0 <= k <= |nq| ==> u[k] == w[k];
    assert forall k :: 0 <= k < |nq| ==> w[k] == nq[k];
    assert w[|nq|] == '-';
    assert |np| == |nq|;
    assert np == u[..|np|] == w[..|nq|] == nq;
  }

  /**
   * A drawn id `page-<p>-<ts>` is on page `q` exactly when `p == q`; the
   * dash after the number keeps page 1 from matching `page-12-…`.
   */
  lemma DrawnIdOnPage(p: nat, ts: nat, q: nat, a: Annotation)
    requires a.id == PageTag(p) + NatToString(ts)
    ensures OnPage(a, q) <==> p == q
  {
    var np, nq := NatToString(p), NatToString(q);
    var id := a.id;
    var rest := np + "-" + NatToString(ts);
    assert id == "page-" + rest;
    if p == q {
      assert id[..|PageTag(q)|] == PageTag(q);
    } else if OnPage(a, q) {
      var tq := PageTag(q);
      assert tq == "page-" + (nq + "-");
      assert id[..|tq|] == tq;
      assert rest[..|nq| + 1] == id[..|tq|][5..] == nq + "-";
      DashEndedDigits(np, nq, NatToString(ts));
      NatToStringInjective(p, q);
    }
  }

  /** Clear then view: the page shows exactly the global annotations, in order. */
  lemma ClearedPageShowsGlobals(annotations: seq<Annotation>, page: nat)
    ensures VisibleOn(ClearPage(annotations, page), page) == Filter(annotations, Global())
  {
    forall i | 0 <= i < |annotations|
      ensures (NotOnPage(page)(annotations[i]) && ShownOn(page)(annotations[i])) == Global()(annotations[i])
    {
      if OnPage(annotations[i], page) {
        OnPageNotGlobal(annotations[i], page);
      }
    }
    var both := (a: Annotation) => NotOnPage(page)(a) && ShownOn(page)(a);
    FilterTwice(annotations, NotOnPage(page), ShownOn(page), both);
    FilterAgree(annotations, both, Global());
  }

  /** Clear never removes a global annotation. */
  lemma ClearKeepsGlobals(annotations: seq<Annotation>, page: nat, a: Annotation)
    requires a in annotations && IsGlobal(a)
    ensures a in ClearPage(annotations, page)
  {
    if OnPage(a, page) {
      OnPageNotGlobal(a, page);
    }
  }

  /** On page 3, `page-3-xyz` and the global `abc` show; `page-4-xyz` does not. */
  lemma ThirdPageExample(a3: Annotation, a4: Annotation, g: Annotation)
    requires a3.id == "page-3-xyz" && a4.id == "page-4-xyz" && g.id == "abc"
    ensures VisibleOn([a3, a4, g], 3) == [a3, g]
  {
    assert PageTag(3) == "page-3-";
    assert OnPage(a3, 3);
    assert a4.id[..7][5] == '4';
    assert !OnPage(a4, 3);
    assert !OnPage(g, 3);
    assert IsGlobal(g) by {
      assert IndexOfFrom("abc", "page-", 0) == None;
    }
    var s := [a3, a4, g];
    assert s[1..] == [a4, g] && s[1..][1..] == [g] && [g][1..] == [];
    assert Filter([g], ShownOn(3)) == [g];
    assert Filter([a4, g], ShownOn(3)) == [g];
  }

  // --------------------------------------------------- paging and zoom

  /** `handlePrevPage`: one back, never below 1. */
  function PrevPage(current: nat): (r: nat)
    ensures current > 1 ==> r == current - 1
    ensures current <= 1 ==> r == current
  {
    if current > 1 then current - 1 else current
  }

  /** `handleNextPage`: one on, never beyond the last page. */
  function NextPage(current: nat, numPages: nat): (r: nat)
    ensures current < numPages ==> r == current + 1
    ensures current >= numPages ==> r == current
  {
    if current < numPages then current + 1 else current
  }

  /** Stepping keeps a page that was in range in range. */
  lemma PagingStaysInRange(current: nat, numPages: nat)
    requires 1 <= current <= numPages
    ensures 1 <= PrevPage(current) <= numPages
    ensures 1 <= NextPage(current, numPages) <= numPages
  {
  }

  /** `handleZoomIn`. */
  function ZoomIn(zoom: real): (r: real)
    ensures r <= MaxZoom
    ensures zoom + ZoomStep <= MaxZoom ==> r == zoom + ZoomStep
    ensures zoom + ZoomStep > MaxZoom ==> r == MaxZoom
  {
    if zoom + ZoomStep < MaxZoom then zoom + ZoomStep else MaxZoom
  }

  /** `handleZoomOut`. */
  function ZoomOut(zoom: real): (r: real)
    ensures r >= MinZoom
    ensures zoom - ZoomStep >= MinZoom ==> r == zoom - ZoomStep
    ensures zoom - ZoomStep < MinZoom ==> r == MinZoom
  {
    if zoom - ZoomStep > MinZoom then zoom - ZoomStep else MinZoom
  }

  /** Zoom levels stay on the quarter grid between 2/4 and 12/4. */
  lemma ZoomStaysOnGrid(quarters: int)
    requires 2 <= quarters <= 12
    ensures ZoomIn(quarters as real / 4.0) == (if quarters < 12 then quarters + 1 else 12) as real / 4.0
    ensures ZoomOut(quarters as real / 4.0) == (if quarters > 2 then quarters - 1 else 2) as real / 4.0
  {
  }

  // ------------------------------------------------------- the draw machine

  datatype Tool = Select | Highlight | Circle | Rectangle

  function ToolKind(tool: Tool): string {
    match tool
    case Select => "select"
    case Highlight => "highlight"
    case Circle => "circle"
    case Rectangle => "rectangle"
  }

  /** The candidate a mouse down starts: zero-sized at the pointer, tagged with the page. */
  function NewCandidate(tool: Tool, page: nat, x: real, y: real, now: nat): (a: Annotation)
    ensures a.id == PageTag(page) + NatToString(now) && OnPage(a, page)
    ensures a.kind == ToolKind(tool)
    ensures a.x == x && a.y == y && a.width == 0.0 && a.height == 0.0
    ensures a.color == (if tool == Highlight then HighlightColor else ShapeColor)
    ensures a.createdBy == User && a.text == None && a.timestamp == now
  {
    var id := PageTag(page) + NatToString(now);
    assert id[..|PageTag(page)|] == PageTag(page);
    Annotation(id, ToolKind(tool), x, y, 0.0, 0.0,
      if tool == Highlight then HighlightColor else ShapeColor, None, User, now)
  }

  function Abs(v: real): real {
    if v < 0.0 then -v else v
  }

  function Min(a: real, b: real): real {
    if a <= b then a else b
  }

  /**
   * One move: the smallest box holding the pointer and the candidate's
   * current corner (not the original anchor). Nothing but the box changes.
   */
  function Stretch(c: Annotation, cx: real, cy: real): (r: Annotation)
    ensures r.width >= 0.0 && r.height >= 0.0
    ensures r.x <= cx <= r.x + r.width && r.x <= c.x <= r.x + r.width
    ensures r.y <= cy <= r.y + r.height && r.y <= c.y <= r.y + r.height
    ensures (r.x == cx || r.x == c.x) && (r.x + r.width == cx || r.x + r.width == c.x)
    ensures (r.y == cy || r.y == c.y) && (r.y + r.height == cy || r.y + r.height == c.y)
    ensures r.(x := c.x, y := c.y, width := c.width, height := c.height) == c
  {
    c.(x := Min(cx, c.x), y := Min(cy, c.y), width := Abs(cx - c.x), height := Abs(cy - c.y))
  }

  /** A single move from (50, 50) to (10, 10) draws the box (10, 10, 40, 40). */
  lemma SingleMoveExample(c: Annotation)
    requires c.x == 50.0 && c.y == 50.0
    ensures var r := Stretch(c, 10.0, 10.0);
            r.x == 10.0 && r.y == 10.0 && r.width == 40.0 && r.height == 40.0
  {
  }

  /**
   * Two moves lose the anchor: down at (50, 50), moves to (40, 40) and then
   * (30, 30) give a 10 by 10 box at (30, 30) that no longer reaches the point
   * where the drag started; a single move to (30, 30) gives 20 by 20.
   */
  lemma TwoMovesLoseAnchor(c: Annotation)
    requires c.x == 50.0 && c.y == 50.0
    ensures var r := Stretch(Stretch(c, 40.0, 40.0), 30.0, 30.0);
            r.x == 30.0 && r.width == 10.0 && r.y == 30.0 && r.height == 10.0 &&
            r.x + r.width < c.x
    ensures Stretch(c, 30.0, 30.0).width == 20.0
  {
  }

  /** The size threshold a candidate must pass on mouse up to be saved. */
  predicate Commits(c: Annotation): (r: bool)
    ensures r ==> c.width * c.height > 1.0
    ensures c.width <= 1.0 || c.height <= 1.0 ==> !r
    ensures c.width > 1.0 && c.height > 1.0 ==> r
  {
    c.width > 1.0 && c.height > 1.0
  }

  /** A click without a drag leaves a zero-sized candidate, which is never saved. */
  lemma ClickAloneCommitsNothing(tool: Tool, page: nat, x: real, y: real, now: nat)
    ensures !Commits(NewCandidate(tool, page, x, y, now))
  {
  }

  class PdfViewer {
    var numPages: nat
    var zoom: real
    var isLoading: bool
    var tool: Tool
    var isDrawing: bool
    var candidate: Option<Annotation>

    /** Drawing and the candidate go together; zoom and page count stay in range. */
    predicate Valid()
      reads this
    {
      isDrawing == candidate.Some? && MinZoom <= zoom <= MaxZoom && numPages >= 1
    }

    /** One page, zoom 1, loading, the select tool, idle. */
    constructor ()
      ensures Valid()
      ensures numPages == 1 && zoom == 1.0 && isLoading && tool == Select
      ensures !isDrawing && candidate == None
    {
      numPages := 1;
      zoom := 1.0;
      isLoading := true;
      tool := Select;
      isDrawing := false;
      candidate := None;
    }

    /** The file-change effect: loading ends and the page count becomes the placeholder 10. */
    method Load()
      modifies this
      requires Valid()
      ensures Valid()
      ensures !isLoading && numPages == PlaceholderPageCount
      ensures zoom == old(zoom) && tool == old(tool) && isDrawing == old(isDrawing) && candidate == old(candidate)
    {
      isLoading := false;
      numPages := PlaceholderPageCount;
    }

    method SelectTool(t: Tool)
      modifies this
      requires Valid()
      ensures Valid()
      ensures tool == t
      ensures numPages == old(numPages) && zoom == old(zoom) && isLoading == old(isLoading)
      ensures isDrawing == old(isDrawing) && candidate == old(candidate)
    {
      tool := t;
    }

    method ZoomInClicked()
      modifies this
      requires Valid()
      ensures Valid()
      ensures zoom == ZoomIn(old(zoom))
      ensures numPages == old(numPages) && isLoading == old(isLoading) && tool == old(tool)
      ensures isDrawing == old(isDrawing) && candidate == old(candidate)
    {
      zoom := ZoomIn(zoom);
    }

    method ZoomOutClicked()
      modifies this
      requires Valid()
      ensures Valid()
      ensures zoom == ZoomOut(old(zoom))
      ensures numPages == old(numPages) && isLoading == old(isLoading) && tool == old(tool)
      ensures isDrawing == old(isDrawing) && candidate == old(candidate)
    {
      zoom := ZoomOut(zoom);
    }

    method PrevClicked(tutor: TutorSession)
      modifies tutor
      ensures tutor.currentPage == PrevPage(old(tutor.currentPage))
      ensures tutor.annotations == old(tutor.annotations)
    {
      if tutor.currentPage > 1 {
        tutor.SetPage(tutor.currentPage - 1);
      }
    }

    method NextClicked(tutor: TutorSession)
      modifies tutor
      ensures tutor.currentPage == NextPage(old(tutor.currentPage), numPages)
      ensures tutor.annotations == old(tutor.annotations)
    {
      if tutor.currentPage < numPages {
        tutor.SetPage(tutor.currentPage + 1);
      }
    }

    /**
     * `handleMouseDown` with the pointer at (x, y) percent: the select tool
     * ignores it, any other starts a candidate tagged with the session's
     * current page.
     */
    method MouseDown(x: real, y: real, now: nat, tutor: TutorSession)
      modifies this
      requires Valid()
      ensures Valid()
      ensures old(tool) == Select ==> isDrawing == old(isDrawing) && candidate == old(candidate)
      ensures old(tool) != Select ==> isDrawing && candidate == Some(NewCandidate(tool, tutor.currentPage, x, y, now))
      ensures tutor.currentPage == old(tutor.currentPage) && tutor.annotations == old(tutor.annotations)
      ensures numPages == old(numPages) && zoom == old(zoom) && isLoading == old(isLoading) && tool == old(tool)
    {
      if tool == Select {
        return;
      }
      candidate := Some(NewCandidate(tool, tutor.currentPage, x, y, now));
      isDrawing := true;
    }

    /** `handleMouseMove`: while drawing, stretch the candidate to the pointer. */
    method MouseMove(cx: real, cy: real)
      modifies this
      requires Valid()
      ensures Valid()
      ensures !old(isDrawing) || old(candidate).None? ==> candidate == old(candidate)
      ensures old(isDrawing) && old(candidate).Some? ==> candidate == Some(Stretch(old(candidate).value, cx, cy))
      ensures isDrawing == old(isDrawing)
      ensures numPages == old(numPages) && zoom == old(zoom) && isLoading == old(isLoading) && tool == old(tool)
    {
      if !isDrawing || candidate.None? {
        return;
      }
      candidate := Some(Stretch(candidate.value, cx, cy));
    }

    /**
     * `handleMouseUp`: while drawing, the candidate is appended to the store
     * if it passes the size threshold; the machine is idle afterwards.
     */
    method MouseUp(tutor: TutorSession)
      modifies this, tutor
      requires Valid()
      ensures Valid()
      ensures tutor.currentPage == old(tutor.currentPage)
      ensures !old(isDrawing) || old(candidate).None? ==>
                isDrawing == old(isDrawing) && candidate == old(candidate) &&
                tutor.annotations == old(tutor.annotations)
      ensures old(isDrawing) && old(candidate).Some? ==>
                !isDrawing && candidate == None &&
                tutor.annotations ==
                  old(tutor.annotations) + (if Commits(old(candidate).value) then [old(candidate).value] else [])
      ensures numPages == old(numPages) && zoom == old(zoom) && isLoading == old(isLoading) && tool == old(tool)
    {
      if !isDrawing || candidate.None? {
        return;
      }
      var c := candidate.value;
      if Commits(c) {
        tutor.ChangeAnnotations(tutor.annotations + [c]);
      }
      isDrawing := false;
      candidate := None;
    }

    /** The overlay's delete button. */
    method DeleteClicked(id: string, tutor: TutorSession)
      modifies tutor
      ensures tutor.annotations == DeleteById(old(tutor.annotations), id)
      ensures tutor.currentPage == old(tutor.currentPage)
    {
      tutor.ChangeAnnotations(DeleteById(tutor.annotations, id));
    }

    /** The toolbar's clear button: removes the current page's annotations. */
    method ClearClicked(tutor: TutorSession)
      modifies tutor
      ensures tutor.annotations == ClearPage(old(tutor.annotations), old(tutor.currentPage))
      ensures tutor.currentPage == old(tutor.currentPage)
    {
      tutor.ChangeAnnotations(ClearPage(tutor.annotations, tutor.currentPage));
    }
  }
}

/** The sheet controller and the export coordinator (script.js lines
    133-160, 414-498 and 662-686): the 54 slots, their rebuild from the
    current settings, the input dispatch, and the 6 x 9 export that forces a
    grid layout, rasterizes the front and the back, and restores the view and
    the layout on every path. */
module SheetController {
  import opened Cards
  import opened Settings
  import opened Render
  import opened StyleProjection

  const ExportDisplay: string := "grid"
  const ExportColumns: string := "repeat(6, auto)"
  const ExportGap: string := "0"
  const FrontFile: string := "deck-front-6x9.png"
  const BackFile: string := "deck-back-6x9.png"

  predicate AllRenderable(slots: seq<Card>) {
    forall k :: 0 <= k < |slots| ==> Renderable(slots[k].suit)
  }

  /** Every slot rendered from the same settings. */
  function RenderAll(slots: seq<Card>, st: State): (faces: seq<Face>)
    requires AllRenderable(slots)
    ensures |faces| == |slots|
    ensures forall k :: 0 <= k < |slots| ==> faces[k] == RenderCard(slots[k], st)
  {
    seq(|slots|, k requires 0 <= k < |slots| => RenderCard(slots[k], st))
  }

  /** What the rasterizer is given: the slots' content and the grid's inline
      layout style at that moment. */
  datatype Snapshot = Snapshot(faces: seq<Face>, display: string, columns: string, gap: string)

  datatype Download = Download(filename: string, image: Snapshot)

  /** How an export ends: refused because the rasterizer is not loaded or
      the sheet element is gone, completed with both downloads, or failed
      after the downloads that had already been triggered. */
  datatype ExportOutcome =
    | RasterizerMissing
    | SheetMissing
    | Exported(downloads: seq<Download>)
    | Failed(downloads: seq<Download>)

  /** The image of one export pass: every slot rendered in the given view,
      laid out in the forced six-column grid without gaps. */
  function ExportImage(slots: seq<Card>, st: State, view: string): Snapshot
    requires AllRenderable(slots)
  {
    Snapshot(RenderAll(slots, st.(view := view)), ExportDisplay, ExportColumns, ExportGap)
  }

  /** The outcome of an export that got past its two checks, given whether
      each rasterization pass succeeds; a failing front pass stops the export
      before the back pass. */
  function ExportResult(slots: seq<Card>, st: State, frontSucceeds: bool, backSucceeds: bool): (r: ExportOutcome)
    requires AllRenderable(slots)
    ensures r.Exported? || r.Failed?
    ensures r.Exported? <==> frontSucceeds && backSucceeds
  {
    var front := Download(FrontFile, ExportImage(slots, st, Front));
    var back := Download(BackFile, ExportImage(slots, st, Back));
    if !frontSucceeds then Failed([])
    else if !backSucceeds then Failed([front])
    else Exported([front, back])
  }

  /** In back view every slot shows the back pattern and nothing else; in
      any other view every slot shows its front. */
  lemma ViewDecidesSide(slots: seq<Card>, st: State)
    requires AllRenderable(slots)
    ensures st.view == Back ==> forall k :: 0 <= k < |slots| ==> RenderAll(slots, st)[k] == BackFace
    ensures st.view != Back ==> forall k :: 0 <= k < |slots| ==> RenderAll(slots, st)[k].FrontFace?
  {
    forall k | 0 <= k < |slots|
      ensures st.view != Back ==> RenderAll(slots, st)[k].FrontFace?
    {
      if st.view != Back {
        assert RenderAll(slots, st)[k] == RenderFront(slots[k], st);
      }
    }
  }

  /** A completed export downloads the front sheet, then the back sheet:
      the first image shows every slot's front, the second every slot's back,
      both in the six-column grid without gaps. A failed export has
      downloaded only what came before the failing pass. */
  lemma ExportDownloads(slots: seq<Card>, st: State, frontSucceeds: bool, backSucceeds: bool)
    requires AllRenderable(slots)
    ensures var r := ExportResult(slots, st, frontSucceeds, backSucceeds);
      && (r.Exported? <==> frontSucceeds && backSucceeds)
      && |r.downloads| == (if !frontSucceeds then 0 else if !backSucceeds then 1 else 2)
      && (forall d :: d in r.downloads ==>
            |d.image.faces| == |slots| && d.image.columns == ExportColumns && d.image.gap == ExportGap)
      && (|r.downloads| >= 1 ==>
            && r.downloads[0].filename == FrontFile
            && forall k :: 0 <= k < |slots| ==> r.downloads[0].image.faces[k].FrontFace?)
      && (|r.downloads| == 2 ==>
            && r.downloads[1].filename == BackFile
            && forall k :: 0 <= k < |slots| ==> r.downloads[1].image.faces[k] == BackFace)
  {
    ViewDecidesSide(slots, st.(view := Front));
    ViewDecidesSide(slots, st.(view := Back));
  }

  class Sheet {
    /** The identities of the slots, in grid order (`data-suit`, `data-rank`). */
    var slots: seq<Card>
    /** What each slot currently shows. */
    var rendered: seq<Face>
    /** The shared settings record. */
    var state: State
    /** The `--card-width` (pixels) and `--card-scale` root style values. */
    var widthPx: real
    var scale: real
    /** The grid container's inline `display`, `gridTemplateColumns` and `gap`. */
    var display: string
    var gridTemplate: string
    var gap: string
    /** The sheet element's scroll offsets. */
    var scrollTop: int
    var scrollLeft: int

    /** Between events: the slots are the deck, the settings are well formed,
        and every slot and root style value reflects the settings. */
    ghost predicate Valid()
      reads this
    {
      && slots == Deck()
      && AllRenderable(slots)
      && Wf(state)
      && rendered == RenderAll(slots, state)
      && widthPx == WidthPx(state.cardWidthMm, state.cardDpi as real)
      && scale == CardScale(state.cardWidthMm, state.cardDpi as real)
    }

    /** Start-up: one slot per card of the deck, then the initial render. */
    constructor ()
      ensures Valid()
      ensures state == Initial
      ensures display == "" && gridTemplate == "" && gap == ""
      ensures rendered == RenderAll(Deck(), Initial)
    {
      var cards := BuildDeck();
      slots := cards;
      rendered := seq(|cards|, _ => BlankSlot);
      state := Initial;
      display, gridTemplate, gap := "", "", "";
      scrollTop, scrollLeft := 0, 0;
      widthPx, scale := 0.0, 0.0;
      new;
      forall k | 0 <= k < |slots|
        ensures Renderable(slots[k].suit)
      {
        assert slots[k] == DeckCardAt(k);
      }
      InitialWf();
      UpdateCards();
    }

    /** `updateCards`: the root style values from the settings, then every
        slot cleared and rebuilt from the settings. */
    method UpdateCards()
      requires AllRenderable(slots) && |rendered| == |slots|
      modifies this`rendered, this`widthPx, this`scale
      ensures rendered == RenderAll(slots, state)
      ensures widthPx == WidthPx(state.cardWidthMm, state.cardDpi as real)
      ensures scale == CardScale(state.cardWidthMm, state.cardDpi as real)
    {
      widthPx := WidthPx(state.cardWidthMm, state.cardDpi as real);
      scale := CardScale(state.cardWidthMm, state.cardDpi as real);
      for i := 0 to |slots|
        modifies this`rendered
        invariant |rendered| == |slots|
        invariant forall k :: 0 <= k < i ==> rendered[k] == RenderCard(slots[k], state)
      {
        rendered := rendered[i := RenderCard(slots[i], state)];
      }
    }

    /** One input event: the handler updates the settings and re-renders,
        except where it rejects the value or throws first. */
    method Dispatch(input: Input)
      requires Valid()
      modifies this`state, this`rendered, this`widthPx, this`scale
      ensures Valid()
      ensures state == Handle(old(state), input)
      ensures !Rerenders(old(state), input) ==> unchanged(this)
    {
      if Rerenders(state, input) {
        var next := Handle(state, input);
        assert Wf(next);
        state := next;
        UpdateCards();
      }
    }

    /** The slots and the grid style as the rasterizer sees them now. */
    function Capture(): Snapshot
      reads this
    {
      Snapshot(rendered, display, gridTemplate, gap)
    }

    /** `exportSheets6x9`, with the rasterizer's availability, the sheet
        element's presence and the success of each rasterization pass as
        inputs. Whatever the passes do, the view, the slots and the grid's
        layout style are afterwards what they were before. */
    method Export6x9(rasterizerLoaded: bool, sheetFound: bool, frontSucceeds: bool, backSucceeds: bool)
      returns (outcome: ExportOutcome)
      requires Valid()
      modifies this`state, this`rendered, this`widthPx, this`scale
      modifies this`display, this`gridTemplate, this`gap, this`scrollTop, this`scrollLeft
      ensures Valid()
      ensures state == old(state) && rendered == old(rendered)
      ensures display == old(display) && gridTemplate == old(gridTemplate) && gap == old(gap)
      ensures !rasterizerLoaded ==> outcome == RasterizerMissing && unchanged(this)
      ensures rasterizerLoaded && !sheetFound ==> outcome == SheetMissing && unchanged(this)
      ensures rasterizerLoaded && sheetFound ==>
        && outcome == ExportResult(slots, state, frontSucceeds, backSucceeds)
        && scrollTop == 0 && scrollLeft == 0
    {
      if !rasterizerLoaded {
        return RasterizerMissing;
      }
      if !sheetFound {
        return SheetMissing;
      }
      ghost var saved, savedRendered := state, rendered;
      var prevView := state.view;
      var prevDisplay, prevGridTemplate, prevGap := display, gridTemplate, gap;

      scrollTop, scrollLeft := 0, 0;
      display, gridTemplate, gap := ExportDisplay, ExportColumns, ExportGap;
      outcome := RunPasses(frontSucceeds, backSucceeds);

      // Restoration, on every path.
      state := state.(view := prevView);
      assert state == saved;
      UpdateCards();
      assert rendered == savedRendered;
      display, gridTemplate, gap := prevDisplay, prevGridTemplate, prevGap;
    }

    /** The `try` block of the export: the front pass, then the back pass,
        each rendering every slot in its view and rasterizing the sheet in
        the forced grid; a failing pass ends the attempt. Only the view
        changes in the settings. */
    method RunPasses(frontSucceeds: bool, backSucceeds: bool) returns (outcome: ExportOutcome)
      requires Valid()
      requires display == ExportDisplay && gridTemplate == ExportColumns && gap == ExportGap
      modifies this`state, this`rendered, this`widthPx, this`scale
      ensures Valid()
      ensures state == old(state).(view := state.view)
      ensures outcome == ExportResult(slots, old(state), frontSucceeds, backSucceeds)
    {
      ghost var saved := state;
      state := state.(view := Front);
      UpdateCards();
      if !frontSucceeds {
        return Failed([]);
      }
      assert Capture() == ExportImage(slots, saved, Front);
      var front := Download(FrontFile, Capture());
      state := state.(view := Back);
      UpdateCards();
      if !backSucceeds {
        return Failed([front]);
      }
      assert Capture() == ExportImage(slots, saved, Back);
      outcome := Exported([front, Download(BackFile, Capture())]);
    }
  }
}

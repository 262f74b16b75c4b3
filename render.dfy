/** The card renderer (script.js lines 222-412): what one slot shows for a
    card identity and the current settings. The DOM subtree is abstracted to
    its content: the two corner labels and what the centre area holds. */
module Render {
  import opened Wrappers
  import opened JsText
  import opened Cards
  import opened Pips
  import opened Settings

  /** A suit symbol as shown: the suit's text glyph, or its uploaded icon. */
  datatype Glyph = Text(text: string) | Image(src: string)

  /** One corner: the rank caption above the suit symbol. */
  datatype Corner = Corner(caption: string, symbol: Glyph)

  datatype Pip = Pip(at: Pos, glyph: Glyph)

  /** What the centre area holds: a face frame (with the art, or with a text
      label, or empty), the ace's single large symbol, the pip layout of a
      number card, or the single symbol of the fallback. */
  datatype Center =
    | Frame(art: Option<string>, caption: Option<string>)
    | AceSymbol(glyph: Glyph)
    | PipLayout(pips: seq<Pip>)
    | Single(glyph: Glyph)

  /** A slot's content: a front with its top and bottom corners and its
      centre, the pattern-only back, or nothing (a slot created at start-up
      and not yet rendered). */
  datatype Face = FrontFace(top: Corner, bottom: Corner, center: Center) | BackFace | BlankSlot

  const JokerLabel: string := "JOKER"
  const JokerStar: string := "★"

  /** `suits.find(s => s.id === id)`. */
  function FindSuit(defs: seq<SuitDef>, id: string): (d: Option<SuitDef>)
    ensures d.Some? <==> exists k :: 0 <= k < |defs| && defs[k].id == id
    ensures d.Some? ==> d.value in defs && d.value.id == id
  {
    if defs == [] then None
    else if defs[0].id == id then Some(defs[0])
    else FindSuit(defs[1..], id)
  }

  /** The suits the renderer can draw: a suit of the table, or the jokers'. */
  predicate Renderable(suit: string) {
    suit == JokerSuit || suit in SuitIds()
  }

  /** The symbol of a standard suit: its icon when one is uploaded, else its
      text glyph. */
  function SuitGlyph(st: State, def: SuitDef): (g: Glyph)
    ensures SuitIcon(st, def.id).Some? ==> g == Image(SuitIcon(st, def.id).value)
    ensures SuitIcon(st, def.id).None? ==> g == Text(def.symbol)
  {
    match SuitIcon(st, def.id)
    case Some(src) => Image(src)
    case None => Text(def.symbol)
  }

  predicate IsFaceRank(rank: string) {
    rank == "J" || rank == "Q" || rank == "K"
  }

  /** The pips of a template, each drawn with the suit's symbol. */
  function PlacePips(template: seq<Pos>, g: Glyph): (pips: seq<Pip>)
    ensures |pips| == |template|
    ensures forall k :: 0 <= k < |pips| ==> pips[k] == Pip(template[k], g)
  {
    seq(|template|, k requires 0 <= k < |template| => Pip(template[k], g))
  }

  /** The template found for a rank by `pipTemplates[parseInt(rank, 10)]`. */
  function TemplateFor(rank: string): (t: Option<seq<Pos>>)
    ensures t.Some? <==> ParseInt(rank).Some? && 2 <= ParseInt(rank).value <= 10
    ensures t.Some? ==> |t.value| == ParseInt(rank).value
  {
    match ParseInt(rank)
    case Some(n) => PipTemplate(n)
    case None => None
  }

  /** `renderCardFront`: the jokers' fixed corners and frame; for the other
      suits, corners with the rank and the suit symbol, and a centre chosen
      by the rank's kind. A suit that is neither throws in the source. */
  function RenderFront(card: Card, st: State): (f: Face)
    requires Renderable(card.suit)
    ensures f.FrontFace? && f.top == f.bottom
    ensures f.top.caption == if card.suit == JokerSuit then JokerLabel else card.rank
  {
    if card.suit == JokerSuit then
      var art := FaceArt(st, JokerSuit, card.rank);
      var corner := Corner(JokerLabel, Text(JokerStar));
      FrontFace(corner, corner, Frame(art, if art.Some? then None else Some(JokerLabel)))
    else
      var def := FindSuit(Suits, card.suit).value;
      var g := SuitGlyph(st, def);
      var corner := Corner(card.rank, g);
      var center :=
        if IsFaceRank(card.rank) then Frame(FaceArt(st, card.suit, card.rank), None)
        else if card.rank == "A" then AceSymbol(g)
        else match TemplateFor(card.rank)
          case Some(t) => if |t| > 0 then PipLayout(PlacePips(t, g)) else Single(g)
          case None => Single(g);
      FrontFace(corner, corner, center)
  }

  /** What one slot shows under the current view: the back pattern in back
      view, the card's front otherwise. */
  function RenderCard(card: Card, st: State): (f: Face)
    requires Renderable(card.suit)
    ensures f == BackFace <==> st.view == Back
  {
    if st.view == Back then BackFace else RenderFront(card, st)
  }
}

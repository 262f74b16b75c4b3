/** What the renderer promises about the cards of the deck: the dispatch by
    card kind, one pip per template position, the icon override, and the
    effect of a face-art upload. */
module RenderProperties {
  import opened Wrappers
  import opened JsText
  import opened Cards
  import opened Pips
  import opened Settings
  import opened Render

  /** A joker shows the JOKER corners with a star, and a frame holding its
      stored art, or the JOKER caption when there is none. */
  lemma JokerFront(rank: string, st: State)
    ensures var f := RenderFront(Card(JokerSuit, rank), st);
      && f.top == Corner(JokerLabel, Text(JokerStar))
      && f.center.Frame?
      && f.center.art == FaceArt(st, JokerSuit, rank)
      && (f.center.caption.Some? <==> f.center.art.None?)
      && (f.center.caption.Some? ==> f.center.caption.value == JokerLabel)
  {
  }

  /** A jack, queen or king shows a frame that holds the art stored for
      exactly that suit and rank, and never a caption. */
  lemma FaceCardFrame(suit: string, rank: string, st: State)
    requires suit in SuitIds() && IsFaceRank(rank)
    ensures var f := RenderFront(Card(suit, rank), st);
      && f.center.Frame? && f.center.caption.None?
      && (f.center.art.Some? <==> suit in st.faces && rank in st.faces[suit] && Truthy(st.faces[suit][rank]))
      && (f.center.art.Some? ==> f.center.art.value == st.faces[suit][rank])
  {
  }

  /** Every standard suit id finds its row of the suit table. */
  lemma SuitFound(suit: string)
    requires suit in SuitIds()
    ensures FindSuit(Suits, suit).Some?
  {
    var k :| 0 <= k < |Suits| && SuitIds()[k] == suit;
    assert Suits[k].id == suit;
  }

  /** The decimal text of a number never reads as a face rank or an ace. */
  lemma DecimalNotLetterRank(n: nat)
    ensures !IsFaceRank(DecimalString(n)) && DecimalString(n) != "A"
  {
    var d := DecimalString(n);
    assert IsDigit(d[0]);
  }

  /** A standard card whose rank is neither a face rank nor "A" and finds a
      non-empty template shows one pip per template position, drawn with the
      corner's symbol. */
  lemma TemplateCenter(card: Card, st: State, t: seq<Pos>)
    requires card.suit in SuitIds()
    requires !IsFaceRank(card.rank) && card.rank != "A"
    requires TemplateFor(card.rank) == Some(t) && |t| > 0
    ensures var f := RenderFront(card, st);
      f.center == PipLayout(PlacePips(t, f.top.symbol))
  {
    SuitFound(card.suit);
  }

  /** The decimal text of n is a number rank: it is not a letter rank and
      `parseInt` reads n back from it. */
  lemma NumberRankText(n: nat)
    ensures !IsFaceRank(DecimalString(n)) && DecimalString(n) != "A"
    ensures ParseInt(DecimalString(n)) == Some(n)
  {
    var d := DecimalString(n);
    ParseIntDecimal(n, "");
    assert d + "" == d;
    DecimalNotLetterRank(n);
  }

  /** A card whose rank is no letter rank and reads as n (2 to 10) shows
      exactly n pips, one on each position of the template of n, each with
      the suit's symbol as the corners show it. */
  lemma NumberCardPips(suit: string, rank: string, n: int, st: State)
    requires suit in SuitIds() && 2 <= n <= 10
    requires !IsFaceRank(rank) && rank != "A" && ParseInt(rank) == Some(n)
    ensures var f := RenderFront(Card(suit, rank), st);
      && f.center.PipLayout?
      && |f.center.pips| == n
      && forall k :: 0 <= k < n ==>
           && f.center.pips[k].at == PipTemplate(n).value[k]
           && InCenterArea(f.center.pips[k].at)
           && f.center.pips[k].glyph == f.top.symbol
  {
    TemplateCenter(Card(suit, rank), st, PipTemplate(n).value);
  }

  /** A number rank whose template is missing or empty falls back to the
      suit symbol, once, as the corners show it. */
  lemma FallbackCenter(card: Card, st: State)
    requires card.suit in SuitIds()
    requires !IsFaceRank(card.rank) && card.rank != "A"
    requires TemplateFor(card.rank).None? || |TemplateFor(card.rank).value| == 0
    ensures var f := RenderFront(card, st);
      f.center == Single(f.top.symbol)
  {
    SuitFound(card.suit);
  }

  /** Whatever the rank, the ace, pip and fallback centres draw the symbol
      the corners show. */
  lemma CenterUsesCornerSymbol(card: Card, st: State)
    requires card.suit in SuitIds()
    ensures var f := RenderFront(card, st);
      && (f.center.AceSymbol? ==> f.center.glyph == f.top.symbol)
      && (f.center.Single? ==> f.center.glyph == f.top.symbol)
      && (f.center.PipLayout? ==> forall k :: 0 <= k < |f.center.pips| ==> f.center.pips[k].glyph == f.top.symbol)
  {
    if IsFaceRank(card.rank) {
      FaceCardFrame(card.suit, card.rank, st);
    } else if card.rank == "A" {
      AceCenter(card.suit, st);
    } else if TemplateFor(card.rank).Some? && |TemplateFor(card.rank).value| > 0 {
      TemplateCenter(card, st, TemplateFor(card.rank).value);
    } else {
      FallbackCenter(card, st);
    }
  }

  /** An uploaded suit icon replaces the suit's text glyph in both corners
      and everywhere in the centre. */
  lemma IconReplacesGlyph(card: Card, st: State, src: string)
    requires card.suit in SuitIds() && SuitIcon(st, card.suit) == Some(src)
    ensures var f := RenderFront(card, st);
      && f.top.symbol == Image(src)
      && f.bottom.symbol == Image(src)
      && (f.center.AceSymbol? ==> f.center.glyph == Image(src))
      && (f.center.Single? ==> f.center.glyph == Image(src))
      && (f.center.PipLayout? ==> forall k :: 0 <= k < |f.center.pips| ==> f.center.pips[k].glyph == Image(src))
  {
    SuitFound(card.suit);
    CenterUsesCornerSymbol(card, st);
  }

  /** The table row of suit k is the one the lookup by its id finds. */
  lemma SuitRow(k: int)
    requires 0 <= k < |Suits|
    ensures FindSuit(Suits, Suits[k].id) == Some(Suits[k])
  {
    SuitIdsDistinct();
    var d := FindSuit(Suits, Suits[k].id);
    assert d.Some? by {
      assert Suits[k].id == Suits[k].id;
    }
    var j :| 0 <= j < |Suits| && Suits[j] == d.value;
    assert SuitIds()[j] == SuitIds()[k];
  }

  /** Without an uploaded icon, both corners and the ace, pip and fallback
      centres show the suit's text symbol from the table. */
  lemma TextGlyphWithoutIcon(k: int, rank: string, st: State)
    requires 0 <= k < |Suits| && SuitIcon(st, Suits[k].id).None?
    ensures var f := RenderFront(Card(Suits[k].id, rank), st);
      && f.top.symbol == Text(Suits[k].symbol)
      && f.bottom.symbol == Text(Suits[k].symbol)
      && (f.center.AceSymbol? ==> f.center.glyph == Text(Suits[k].symbol))
      && (f.center.Single? ==> f.center.glyph == Text(Suits[k].symbol))
      && (f.center.PipLayout? ==> forall j :: 0 <= j < |f.center.pips| ==> f.center.pips[j].glyph == Text(Suits[k].symbol))
  {
    SuitRow(k);
    CenterUsesCornerSymbol(Card(Suits[k].id, rank), st);
  }

  /** A face rank is none of the other kinds: it is not the ace and
      `parseInt` reads no number from it, so no template is looked up. */
  lemma FaceRankNotNumber(rank: string)
    requires IsFaceRank(rank)
    ensures rank != "A" && ParseInt(rank).None? && TemplateFor(rank).None?
  {
    assert |rank| == 1 && 'A' < rank[0] <= 'Z';
    LetterReadsNoNumber(rank);
  }

  /** The number ranks of the table are the decimal texts of 2 to 10. */
  lemma NumberRanksAreDecimal(k: int)
    requires 1 <= k <= 9
    ensures Ranks[k] == DecimalString(k + 1)
  {
    if k == 9 {
      assert DecimalString(10) == DecimalString(1) + [DigitChar(0)];
    }
  }

  /** The ranks at positions 1 to 9 of the table are number ranks that read
      as 2 to 10. */
  lemma TableNumberRank(k: int)
    requires 1 <= k <= 9
    ensures !IsFaceRank(Ranks[k]) && Ranks[k] != "A" && ParseInt(Ranks[k]) == Some(k + 1)
  {
    NumberRanksAreDecimal(k);
    NumberRankText(k + 1);
  }

  /** An ace shows the suit's symbol, large, as the corners show it. */
  lemma AceCenter(suit: string, st: State)
    requires suit in SuitIds()
    ensures var f := RenderFront(Card(suit, "A"), st);
      f.center == AceSymbol(f.top.symbol)
  {
    SuitFound(suit);
  }

  /** A number rank: no letter rank, and `parseInt` reads 2 to 10 from it. */
  predicate IsNumberRank(rank: string) {
    && !IsFaceRank(rank) && rank != "A"
    && ParseInt(rank).Some? && 2 <= ParseInt(rank).value <= 10
  }

  /** The rank table by position: the ace first, then nine number ranks
      reading as 2 to 10, then J, Q and K. */
  lemma RankKinds(k: int)
    requires 0 <= k < |Ranks|
    ensures k == 0 <==> Ranks[k] == "A"
    ensures 1 <= k <= 9 <==> IsNumberRank(Ranks[k])
    ensures 1 <= k <= 9 ==> ParseInt(Ranks[k]) == Some(k + 1)
    ensures k >= 10 <==> IsFaceRank(Ranks[k])
  {
    if 1 <= k <= 9 {
      TableNumberRank(k);
    }
  }

  /** What a card shows in its centre, by the kind of its rank: the joker
      frame, the ace symbol, a caption-less frame for J, Q and K, or as many
      pips as a number rank reads; none of them is the single-symbol
      fallback. */
  lemma CenterByKind(card: Card, st: State)
    requires || card.suit == JokerSuit
             || (card.suit in SuitIds() && (card.rank == "A" || IsFaceRank(card.rank) || IsNumberRank(card.rank)))
    ensures Renderable(card.suit)
    ensures var c := RenderFront(card, st).center;
      && !c.Single?
      && (card.suit == JokerSuit ==> c.Frame? && (c.caption.Some? <==> c.art.None?))
      && (card.suit != JokerSuit && card.rank == "A" ==> c.AceSymbol?)
      && (card.suit != JokerSuit && IsFaceRank(card.rank) ==> c.Frame? && c.caption.None?)
      && (card.suit != JokerSuit && IsNumberRank(card.rank) ==>
            c.PipLayout? && ParseInt(card.rank) == Some(|c.pips|))
  {
    if card.suit == JokerSuit {
      JokerFront(card.rank, st);
    } else if card.rank == "A" {
      AceCenter(card.suit, st);
    } else if IsFaceRank(card.rank) {
      FaceCardFrame(card.suit, card.rank, st);
    } else {
      NumberCardPips(card.suit, card.rank, ParseInt(card.rank).value, st);
    }
  }

  /** No card of the deck falls back to the single centred symbol. */
  lemma DeckNeverFallsBack(card: Card, st: State)
    requires IsDeckIdentity(card)
    ensures Renderable(card.suit) && !RenderFront(card, st).center.Single?
  {
    if card.suit != JokerSuit {
      SuitIdsDistinct();
      var k :| 0 <= k < |Ranks| && Ranks[k] == card.rank;
      RankKinds(k);
    }
    CenterByKind(card, st);
  }

  /** The scenario of a King of Hearts upload: afterwards that card's frame
      holds the image, while every other king renders as before. */
  lemma KingOfHeartsUpload(st: State, data: string)
    requires Truthy(data)
    ensures var after := SetFaceArt(st, "hearts", "K", data);
      && RenderFront(Card("hearts", "K"), after).center == Frame(Some(data), None)
      && forall suit :: suit in SuitIds() && suit != "hearts" ==>
           RenderFront(Card(suit, "K"), after) == RenderFront(Card(suit, "K"), st)
  {
    var after := SetFaceArt(st, "hearts", "K", data);
    FaceCardFrame("hearts", "K", after);
    forall suit | suit in SuitIds() && suit != "hearts"
      ensures RenderFront(Card(suit, "K"), after) == RenderFront(Card(suit, "K"), st)
    {
      assert FaceArt(after, suit, "K") == FaceArt(st, suit, "K");
      assert SuitIcon(after, suit) == SuitIcon(st, suit);
    }
  }
}

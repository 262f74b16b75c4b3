/** The card identities of the sheet: the suit table, the rank list and the
    54-entry deck built from them (script.js lines 2-9 and 138-151). */
module Cards {

  /** One row of the suit table: its id (used as the card's suit), its
      display name and its text glyph. */
  datatype SuitDef = SuitDef(id: string, name: string, symbol: string)

  const Suits: seq<SuitDef> := [
    SuitDef("hearts", "Hearts", "♥"),
    SuitDef("diamonds", "Diamonds", "♦"),
    SuitDef("clubs", "Clubs", "♣"),
    SuitDef("spades", "Spades", "♠")
  ]

  const Ranks: seq<string> := ["A", "2", "3", "4", "5", "6", "7", "8", "9", "10", "J", "Q", "K"]

  /** The suit id and the two rank tags that the two jokers carry. */
  const JokerSuit: string := "joker"
  const JokerRanks: seq<string> := ["JOKER-1", "JOKER-2"]

  /** The identity a card slot carries (its `data-suit` and `data-rank`). */
  datatype Card = Card(suit: string, rank: string)

  const StandardCount: nat := |Suits| * |Ranks|
  const DeckSize: nat := StandardCount + |JokerRanks|

  /** The ids of the four standard suits, in table order. */
  function SuitIds(): (ids: seq<string>)
    ensures |ids| == |Suits| && forall k :: 0 <= k < |Suits| ==> ids[k] == Suits[k].id
    ensures ids == ["hearts", "diamonds", "clubs", "spades"]
  {
    seq(|Suits|, k requires 0 <= k < |Suits| => Suits[k].id)
  }

  /** The card at position i of the deck, by index arithmetic: suit-major,
      ranks in table order, then the two jokers. */
  function DeckCardAt(i: nat): (c: Card)
    requires i < DeckSize
    ensures i < StandardCount ==> c.suit in SuitIds() && c.rank in Ranks
    ensures i >= StandardCount ==> c.suit == JokerSuit && c.rank in JokerRanks
  {
    if i < StandardCount then Card(Suits[i / |Ranks|].id, Ranks[i % |Ranks|])
    else Card(JokerSuit, JokerRanks[i - StandardCount])
  }

  /** The deck as a whole: the reference the loop-built deck is proved against. */
  function Deck(): (d: seq<Card>)
    ensures |d| == DeckSize == 54
    ensures forall i :: 0 <= i < DeckSize ==> d[i] == DeckCardAt(i)
  {
    seq(DeckSize, i requires 0 <= i < DeckSize => DeckCardAt(i))
  }

  /** A card that belongs in the deck: a standard suit with a standard rank,
      or the joker suit with a joker tag. */
  predicate IsDeckIdentity(c: Card) {
    || (c.suit in SuitIds() && c.rank in Ranks)
    || (c.suit == JokerSuit && c.rank in JokerRanks)
  }

  /** Builds the deck the way the page does at start-up: for each suit, every
      rank pushed in order, then both jokers pushed together. */
  method BuildDeck() returns (cards: seq<Card>)
    ensures cards == Deck()
  {
    cards := [];
    for s := 0 to |Suits|
      invariant cards == Deck()[..s * |Ranks|]
    {
      for r := 0 to |Ranks|
        invariant cards == Deck()[..s * |Ranks| + r]
      {
        PushStep(s, r);
        cards := cards + [Card(Suits[s].id, Ranks[r])];
      }
      assert s * |Ranks| + |Ranks| == (s + 1) * |Ranks|;
    }
    JokerStep();
    cards := cards + [Card(JokerSuit, JokerRanks[0]), Card(JokerSuit, JokerRanks[1])];
  }

  /** Pushing suit s with rank r extends the deck's prefix by one card. */
  lemma PushStep(s: nat, r: nat)
    requires s < |Suits| && r < |Ranks|
    ensures s * |Ranks| + r < StandardCount
    ensures Deck()[..s * |Ranks| + r + 1] == Deck()[..s * |Ranks| + r] + [Card(Suits[s].id, Ranks[r])]
  {
    var k := s * |Ranks| + r;
    PositionOf(s, r);
    var d := Deck();
    assert d[k] == Card(Suits[s].id, Ranks[r]);
    assert d[..k + 1] == d[..k] + [d[k]];
  }

  lemma JokerStep()
    ensures Deck() == Deck()[..StandardCount] + [Card(JokerSuit, JokerRanks[0]), Card(JokerSuit, JokerRanks[1])]
  {
    var d := Deck();
    assert d[StandardCount] == Card(JokerSuit, JokerRanks[0]);
    assert d[StandardCount + 1] == Card(JokerSuit, JokerRanks[1]);
    assert d == d[..StandardCount] + [d[StandardCount], d[StandardCount + 1]];
  }

  lemma SuitIdsDistinct()
    ensures forall a, b :: 0 <= a < b < |Suits| ==> Suits[a].id != Suits[b].id
    ensures JokerSuit !in SuitIds()
  {
  }

  lemma RanksDistinct()
    ensures forall a, b :: 0 <= a < b < |Ranks| ==> Ranks[a] != Ranks[b]
  {
  }

  /** Suit s with rank r sits at position s * 13 + r of the deck. */
  lemma PositionOf(s: nat, r: nat)
    requires s < |Suits| && r < |Ranks|
    ensures s * |Ranks| + r < StandardCount
    ensures DeckCardAt(s * |Ranks| + r) == Card(Suits[s].id, Ranks[r])
  {
    var k := s * |Ranks| + r;
    assert k / |Ranks| == s && k % |Ranks| == r;
  }

  /** Two different (suit, rank) positions of the table give different cards. */
  lemma StandardDistinct(a: nat, b: nat, c: nat, d: nat)
    requires a < |Suits| && c < |Suits| && b < |Ranks| && d < |Ranks|
    requires a != c || b != d
    ensures Card(Suits[a].id, Ranks[b]) != Card(Suits[c].id, Ranks[d])
  {
    if a != c {
      SuitIdsDistinct();
      assert Suits[a].id != Suits[c].id;
    } else {
      RanksDistinct();
      assert Ranks[b] != Ranks[d];
    }
  }

  /** Two different slots of the standard part hold different cards. */
  lemma StandardSlotsDistinct(i: nat, j: nat)
    requires i < j < StandardCount
    ensures DeckCardAt(i) != DeckCardAt(j)
  {
    var n := |Ranks|;
    assert i == (i / n) * n + i % n;
    assert j == (j / n) * n + j % n;
    StandardDistinct(i / n, i % n, j / n, j % n);
  }

  /** No identity occurs twice among the 54 slots. */
  lemma DeckDistinct()
    ensures forall i, j :: 0 <= i < j < |Deck()| ==> Deck()[i] != Deck()[j]
  {
    forall i, j | 0 <= i < j < DeckSize
      ensures DeckCardAt(i) != DeckCardAt(j)
    {
      if j < StandardCount {
        StandardSlotsDistinct(i, j);
      } else if i < StandardCount {
        SuitIdsDistinct();
        assert DeckCardAt(i).suit in SuitIds();
      }
    }
  }

  /** The deck holds exactly the identities of the standard suits crossed with
      the ranks, plus the two jokers. */
  lemma DeckMembership(c: Card)
    ensures c in Deck() <==> IsDeckIdentity(c)
  {
    var d := Deck();
    if c.suit in SuitIds() && c.rank in Ranks {
      var a :| 0 <= a < |Suits| && Suits[a].id == c.suit;
      var b :| 0 <= b < |Ranks| && Ranks[b] == c.rank;
      PositionOf(a, b);
      assert d[a * |Ranks| + b] == c;
    } else if c.suit == JokerSuit && c.rank in JokerRanks {
      var b :| 0 <= b < |JokerRanks| && JokerRanks[b] == c.rank;
      assert d[StandardCount + b] == c;
    }
  }
}

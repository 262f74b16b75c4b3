/** The pip layout table for the number cards (script.js lines 50-125):
    for each rank 2 to 10, the positions of its pips as percentages of the
    card's centre area. */
module Pips {
  import opened Wrappers

  /** A pip position: left and top offsets, in percent of the centre area. */
  datatype Pos = Pos(x: int, y: int)

  predicate InCenterArea(p: Pos) {
    0 <= p.x <= 100 && 0 <= p.y <= 100
  }

  /** The template for numeric rank n, if the table has one. The table is
      keyed by the ranks 2 to 10 only; any other number finds nothing. */
  function PipTemplate(n: int): (t: Option<seq<Pos>>)
    ensures t.Some? <==> 2 <= n <= 10
    ensures t.Some? ==> |t.value| == n
    ensures t.Some? ==> forall k :: 0 <= k < |t.value| ==> InCenterArea(t.value[k])
  {
    match n
    case 2 => Some([Pos(50, 20), Pos(50, 80)])
    case 3 => Some([Pos(50, 20), Pos(50, 50), Pos(50, 80)])
    case 4 => Some([Pos(30, 20), Pos(70, 20), Pos(30, 80), Pos(70, 80)])
    case 5 => Some([Pos(30, 20), Pos(70, 20), Pos(50, 50), Pos(30, 80), Pos(70, 80)])
    case 6 => Some([Pos(30, 20), Pos(70, 20), Pos(30, 50), Pos(70, 50), Pos(30, 80), Pos(70, 80)])
    case 7 => Some([Pos(50, 10), Pos(30, 25), Pos(70, 25), Pos(30, 50), Pos(70, 50),
                    Pos(30, 75), Pos(70, 75)])
    case 8 => Some([Pos(30, 15), Pos(70, 15), Pos(30, 35), Pos(70, 35), Pos(30, 65),
                    Pos(70, 65), Pos(30, 85), Pos(70, 85)])
    case 9 => Some([Pos(30, 15), Pos(70, 15), Pos(30, 35), Pos(70, 35), Pos(50, 50),
                    Pos(30, 65), Pos(70, 65), Pos(30, 85), Pos(70, 85)])
    case 10 => Some([Pos(30, 15), Pos(70, 15), Pos(30, 30), Pos(70, 30), Pos(30, 50),
                     Pos(70, 50), Pos(30, 70), Pos(70, 70), Pos(30, 85), Pos(70, 85)])
    case _ => None
  }

  /** No two pips of a template share a position. */
  lemma TemplatesHaveDistinctPositions(n: int)
    requires 2 <= n <= 10
    ensures forall a, b :: 0 <= a < b < n ==> PipTemplate(n).value[a] != PipTemplate(n).value[b]
  {
  }
}

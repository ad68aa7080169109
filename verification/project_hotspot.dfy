/**
  Clickable hotspots over a project screenshot (src/components/ProjectHotspot.tsx):
  which hotspot's tooltip is open, where the tooltip is anchored, and the
  colour and label of each category. Positions are whole percentages of the
  image's width.
 */
module ProjectHotspot {
  import opened Wrappers

  datatype Category = Tech | Design | Feature

  datatype Hotspot = Hotspot(id: string, x: int, y: int, title: string, description: string, category: Category)

  /** The id of the hotspot whose tooltip is open, if any. */
  type OpenState = Option<string>

  /** No tooltip is open when the component first renders. */
  const Initial: OpenState := None

  /** Clicking a hotspot: it closes if it was the open one, otherwise it becomes the open one. */
  function Click(open: OpenState, id: string): (r: OpenState)
    ensures open == Some(id) ==> r == None
    ensures open != Some(id) ==> r == Some(id)
  {
    if open == Some(id) then None else Some(id)
  }

  /** The tooltip's close button. */
  function Close(open: OpenState): (r: OpenState)
    ensures r == None
  {
    None
  }

  /** A hotspot's tooltip is rendered exactly when its id is the open one. */
  predicate TooltipShown(open: OpenState, h: Hotspot)
  {
    open == Some(h.id)
  }

  /** Whatever the clicks, the tooltips on screen all belong to a single id. */
  lemma OneTooltipId(open: OpenState, h1: Hotspot, h2: Hotspot)
    requires TooltipShown(open, h1) && TooltipShown(open, h2)
    ensures h1.id == h2.id
  {
  }

  /** After the close button no hotspot's tooltip is shown, whichever was open. */
  lemma CloseHidesEveryTooltip(open: OpenState, h: Hotspot)
    ensures !TooltipShown(Close(open), h)
    ensures TooltipShown(open, h) ==> Click(open, h.id) == Close(open)
  {
  }

  /** The state after a sequence of clicks, one hotspot id per click. */
  function Clicks(open: OpenState, ids: seq<string>): OpenState
    decreases |ids|
  {
    if |ids| == 0 then open else Clicks(Click(open, ids[0]), ids[1..])
  }

  /**
    After clicks on one hotspot only, starting with nothing open, its tooltip
    is open exactly when it was clicked an odd number of times.
   */
  lemma {:induction false} RepeatedClicksAlternate(open: OpenState, id: string, n: nat)
    requires open == None || open == Some(id)
    ensures Clicks(open, seq(n, _ => id)) == (if (n % 2 == 1) == (open == None) then Some(id) else None)
    ensures open == Initial ==> (Clicks(open, seq(n, _ => id)) == Some(id) <==> n % 2 == 1)
    decreases n
  {
    if n > 0 {
      var ids := seq(n, _ => id);
      assert ids[1..] == seq(n - 1, _ => id);
      RepeatedClicksAlternate(Click(open, id), id, n - 1);
    }
  }

  /** A tooltip edge: a percentage offset, or `auto`. */
  datatype Edge = Auto | Percent(value: int)

  datatype Anchor = Anchor(left: Edge, right: Edge)

  /**
    Hotspots in the left half open their tooltip to the right of the point,
    those in the right half to the left of it; either way a 5% gap separates
    the tooltip's near edge from the hotspot.
   */
  function TooltipAnchor(x: int): (a: Anchor)
    ensures x <= 50 ==> a.right == Auto && a.left.Percent? && a.left.value - x == 5
    ensures x > 50 ==> a.left == Auto && a.right.Percent? && x - (100 - a.right.value) == 5
    ensures 0 <= x <= 100 ==>
              (a.left.Percent? ==> 5 <= a.left.value <= 55) && (a.right.Percent? ==> 5 <= a.right.value < 55)
  {
    if x > 50 then Anchor(Auto, Percent(100 - x + 5)) else Anchor(Percent(x + 5), Auto)
  }

  /** The button classes for each category. */
  function CategoryColor(c: Category): string
  {
    match c
    case Tech => "bg-blue-500 hover:bg-blue-600 border-blue-400"
    case Design => "bg-purple-500 hover:bg-purple-600 border-purple-400"
    case Feature => "bg-emerald-500 hover:bg-emerald-600 border-emerald-400"
  }

  /** The heading shown in the tooltip for each category. */
  function CategoryLabel(c: Category): string
  {
    match c
    case Tech => "Tantangan Teknis"
    case Design => "Keputusan Desain (UX)"
    case Feature => "Fitur Unggulan"
  }

  /** Different categories get different labels and different colours. */
  lemma CategoriesDistinguished(c: Category, d: Category)
    requires c != d
    ensures CategoryLabel(c) != CategoryLabel(d)
    ensures CategoryColor(c) != CategoryColor(d)
  {
    assert |CategoryLabel(c)| != |CategoryLabel(d)|;
    assert |CategoryColor(c)| != |CategoryColor(d)|;
  }
}

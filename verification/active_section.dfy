/**
  Which page section is active for a scroll position (src/hooks/useActiveSection.ts).
  The DOM is replaced by a layout: for each section id whose element exists,
  its `offsetTop` and `offsetHeight` in pixels.
 */
module ActiveSection {

  /** The order in which sections are examined. */
  const Sections: seq<string> := ["home", "about", "experience", "projects", "education", "contact"]

  /** The active section before the first scroll event. */
  const NoSection: string := ""

  /** Header offset added to the scroll position. */
  const HeaderOffset: int := 100

  datatype Box = Box(offsetTop: int, offsetHeight: int)

  /** The measured sections; an id that is not a key has no element on the page. */
  type Layout = map<string, Box>

  /** The section's element exists and the probe lies in its half-open vertical extent. */
  predicate Contains(layout: Layout, id: string, probe: int)
  {
    id in layout && layout[id].offsetTop <= probe < layout[id].offsetTop + layout[id].offsetHeight
  }

  /** Section `Sections[i]` is the first in order to contain the probe. */
  ghost predicate FirstMatchAt(layout: Layout, probe: int, i: int)
  {
    0 <= i < |Sections| && Contains(layout, Sections[i], probe)
    && forall j :: 0 <= j < i ==> !Contains(layout, Sections[j], probe)
  }

  /**
    One run of `handleScroll`: walks the sections in order and stops at the
    first one containing `scrollY + 100`; when none does, the previous active
    section stays.
   */
  method HandleScroll(previous: string, scrollY: int, layout: Layout) returns (active: string)
    ensures forall i :: FirstMatchAt(layout, scrollY + HeaderOffset, i) ==> active == Sections[i]
    ensures (forall i :: 0 <= i < |Sections| ==> !Contains(layout, Sections[i], scrollY + HeaderOffset))
            ==> active == previous
    ensures active == previous || active in Sections
  {
    var probe := scrollY + HeaderOffset;
    active := previous;
    var k := 0;
    while k < |Sections|
      invariant 0 <= k <= |Sections|
      invariant forall j :: 0 <= j < k ==> !Contains(layout, Sections[j], probe)
      invariant active == previous
    {
      var section := Sections[k];
      if section in layout {
        var box := layout[section];
        if box.offsetTop <= probe && probe < box.offsetTop + box.offsetHeight {
          active := section;
          assert FirstMatchAt(layout, probe, k);
          FirstMatchUnique(layout, probe, k);
          return;
        }
      }
      k := k + 1;
    }
  }

  /** At most one index is the first match. */
  lemma FirstMatchUnique(layout: Layout, probe: int, i: int)
    requires FirstMatchAt(layout, probe, i)
    ensures forall i' :: FirstMatchAt(layout, probe, i') ==> i' == i
  {
  }
}

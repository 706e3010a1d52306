/**
  The target locator, `findVNCCanvas` (content.js:89-114): a priority list of
  selectors, where the generic `canvas` selector is accepted only for a canvas
  larger than 500x300. As in the script, only the FIRST canvas of the page is
  looked at by the generic selector.
*/
module Locator {
  import opened Wrappers
  import opened Dom
  import opened Detector

  /** The selectors in priority order; the generic one comes last. */
  const VncSelectors: seq<Selector> :=
    [NoVncCanvasClass, NoVncCanvasId, NoVncCanvasAttribute, RfbCanvasClass, AnyCanvas]

  /**
    Selector `sel` yields no target: nothing matches it, or it is the generic
    selector and the element it finds is too small.
  */
  ghost predicate Skipped(elements: seq<Element>, sel: Selector) {
    forall i: nat :: FirstMatch(elements, sel, i) ==> sel == AnyCanvas && !Large(elements[i])
  }

  /** Selector `sel` yields element `i`. */
  predicate Yields(elements: seq<Element>, sel: Selector, i: nat) {
    FirstMatch(elements, sel, i) && (sel == AnyCanvas ==> Large(elements[i]))
  }

  /** The `for (const selector of selectors)` loop over the remaining selectors. */
  function TrySelectors(elements: seq<Element>, sels: seq<Selector>): (r: Option<nat>)
    ensures r.Some? ==>
      exists k :: 0 <= k < |sels| && Yields(elements, sels[k], r.value)
        && forall k' :: 0 <= k' < k ==> Skipped(elements, sels[k'])
    ensures r.None? ==> forall k :: 0 <= k < |sels| ==> Skipped(elements, sels[k])
    decreases |sels|
  {
    if sels == [] then None
    else
      var rest := TrySelectors(elements, sels[1..]);
      assert forall k :: 1 <= k < |sels| ==> sels[k] == sels[1..][k - 1];
      match QuerySelector(elements, sels[0])
      case Some(i) =>
        if sels[0] == AnyCanvas then
          if Large(elements[i]) then Some(i)
          else
            assert Skipped(elements, sels[0]) by {
              forall j: nat | FirstMatch(elements, sels[0], j) ensures j == i {
                FirstMatchUnique(elements, sels[0], i, j);
              }
            }
            rest
        else Some(i)
      case None =>
        rest
  }

  /**
    `findVNCCanvas`: the first element matching the earliest selector that
    yields one; None when every selector is skipped.
  */
  function FindVncCanvas(page: Page): (r: Option<nat>)
    ensures r.Some? ==> r.value < |page.elements|
    ensures r.Some? ==>
      exists k :: 0 <= k < |VncSelectors| && Yields(page.elements, VncSelectors[k], r.value)
        && forall k' :: 0 <= k' < k ==> Skipped(page.elements, VncSelectors[k'])
    ensures r.None? ==> forall k :: 0 <= k < |VncSelectors| ==> Skipped(page.elements, VncSelectors[k])
  {
    TrySelectors(page.elements, VncSelectors)
  }

  /** No element carries any of the four noVNC markers the locator knows. */
  predicate NoMarkers(elements: seq<Element>) {
    forall k, j :: 0 <= k < 4 && 0 <= j < |elements| ==> !Matches(elements[j], VncSelectors[k])
  }

  /**
    Without markers the locator answers with the first canvas if it is large,
    and with nothing otherwise, even when a later canvas is large.
  */
  lemma {:induction false} OnlyFirstCanvasConsidered(page: Page, c: nat)
    requires NoMarkers(page.elements)
    requires FirstMatch(page.elements, AnyCanvas, c)
    ensures FindVncCanvas(page) == (if Large(page.elements[c]) then Some(c) else None)
  {
    var els := page.elements;
    var r := FindVncCanvas(page);
    forall k | 0 <= k < 4 ensures Skipped(els, VncSelectors[k]) {
      assert forall j :: 0 <= j < |els| ==> !Matches(els[j], VncSelectors[k]);
    }
    assert forall i: nat :: FirstMatch(els, AnyCanvas, i) ==> i == c by {
      forall i: nat | FirstMatch(els, AnyCanvas, i) ensures i == c {
        FirstMatchUnique(els, AnyCanvas, i, c);
      }
    }
    if r.Some? {
      var k :| 0 <= k < |VncSelectors| && Yields(els, VncSelectors[k], r.value)
        && forall k' :: 0 <= k' < k ==> Skipped(els, VncSelectors[k']);
      assert FirstMatch(els, VncSelectors[k], r.value);
      assert k == 4;
      assert r.value == c;
    } else {
      assert Skipped(els, VncSelectors[4]);
    }
  }

  /** A marked canvas wins over everything after it in the priority list. */
  lemma MarkedCanvasLocated(page: Page)
    requires QuerySelector(page.elements, NoVncCanvasClass).Some?
    ensures FindVncCanvas(page) == QuerySelector(page.elements, NoVncCanvasClass)
  {
  }

  /** The strict probe that looks for the same marker as marker selector `k` of the locator. */
  function MarkerProbe(k: nat): (p: Probe)
    requires k < 4
    ensures Position(p) == if k == 3 then 5 else k
  {
    if k == 0 then CanvasClassProbe
    else if k == 1 then CanvasIdProbe
    else if k == 2 then CanvasAttributeProbe
    else RfbCanvasProbe
  }

  /** Selector `k` of the priority list is the one that yields the locator's answer. */
  ghost predicate LocatedBy(page: Page, k: nat) {
    && k < |VncSelectors|
    && FindVncCanvas(page).Some?
    && Yields(page.elements, VncSelectors[k], FindVncCanvas(page).value)
    && forall k' :: 0 <= k' < k ==> Skipped(page.elements, VncSelectors[k'])
  }

  /**
    Whenever the locator finds a target, the page also offers the floating
    control. A canvas target always does, through the looser test's
    `querySelector('canvas')`. Any other element (found by `#noVNC_canvas` or
    `.rfb-canvas`) does unless the strict probe of that very selector throws.
  */
  lemma {:induction false} TargetImpliesControlOffered(page: Page, faults: set<Probe>)
    requires FindVncCanvas(page).Some?
    requires forall k :: 0 <= k < 4 && LocatedBy(page, k) ==>
      page.elements[FindVncCanvas(page).value].tag == Canvas || MarkerProbe(k) !in faults
    ensures OffersControl(page, faults)
    ensures page.elements[FindVncCanvas(page).value].tag == Canvas ==> ShouldShowFloatingBall(page)
  {
    var els := page.elements;
    var i := FindVncCanvas(page).value;
    var k :| 0 <= k < |VncSelectors| && Yields(els, VncSelectors[k], i)
      && forall k' :: 0 <= k' < k ==> Skipped(els, VncSelectors[k']);
    assert LocatedBy(page, k);
    if els[i].tag == Canvas {
      assert Matches(els[i], AnyCanvas);
      assert QuerySelector(els, AnyCanvas).Some?;
    } else {
      assert k < 4;
      var sel := VncSelectors[k];
      assert QuerySelector(els, sel).Some?;
      var p := MarkerProbe(k);
      assert Holds(p, page) && p !in faults;
    }
  }
}

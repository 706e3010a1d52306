/**
  Environment detection (content.js:37-87): the strict noVNC test, an OR over
  independent indicator probes each guarded against exceptions, and the looser
  test. The floating control is offered when either test passes.
*/
module Detector {
  import opened Wrappers
  import opened Dom

  /** The indicator probes of the strict test, one per entry of the list. */
  datatype Probe =
    | CanvasClassProbe      // canvas.noVNC_canvas
    | CanvasIdProbe         // #noVNC_canvas
    | CanvasAttributeProbe  // canvas[data-noVNC]
    | ContainerClassProbe   // .noVNC_container
    | ContainerIdProbe      // #noVNC_container
    | RfbCanvasProbe        // .rfb-canvas
    | GlobalsProbe          // window.RFB || window.noVNC
    | LocationProbe         // href / title keywords
    | CursorCanvasProbe     // a large canvas with cursor none/default

  /** The probes in the order the script evaluates them. */
  const Indicators: seq<Probe> := [
    CanvasClassProbe, CanvasIdProbe, CanvasAttributeProbe,
    ContainerClassProbe, ContainerIdProbe, RfbCanvasProbe,
    GlobalsProbe, LocationProbe, CursorCanvasProbe]

  /** The position of each probe in `Indicators`. */
  function Position(p: Probe): (i: nat)
    ensures i < |Indicators| && Indicators[i] == p
  {
    match p
    case CanvasClassProbe => 0
    case CanvasIdProbe => 1
    case CanvasAttributeProbe => 2
    case ContainerClassProbe => 3
    case ContainerIdProbe => 4
    case RfbCanvasProbe => 5
    case GlobalsProbe => 6
    case LocationProbe => 7
    case CursorCanvasProbe => 8
  }

  /** A canvas of the last probe: larger than 500x300 with a hidden or default cursor. */
  predicate CursorCanvas(e: Element) {
    e.tag == Canvas && Large(e)
    && (e.cursor == "none" || e.cursor == "default")
  }

  /** The truth value a probe returns when it does not throw. */
  predicate Holds(p: Probe, page: Page) {
    match p
    case CanvasClassProbe => QuerySelector(page.elements, NoVncCanvasClass).Some?
    case CanvasIdProbe => QuerySelector(page.elements, NoVncCanvasId).Some?
    case CanvasAttributeProbe => QuerySelector(page.elements, NoVncCanvasAttribute).Some?
    case ContainerClassProbe => QuerySelector(page.elements, NoVncContainerClass).Some?
    case ContainerIdProbe => QuerySelector(page.elements, NoVncContainerId).Some?
    case RfbCanvasProbe => QuerySelector(page.elements, RfbCanvasClass).Some?
    case GlobalsProbe => page.hasRfbGlobal || page.hasNoVncGlobal
    case LocationProbe =>
      Contains(page.href, "vnc") || Contains(page.href, "novnc")
      || Contains(Lower(page.title), "vnc")
    case CursorCanvasProbe =>
      exists i :: 0 <= i < |page.elements| && CursorCanvas(page.elements[i])
  }

  /**
    `indicators.some(check => { try { return check(); } catch { return false; } })`
    over `probes`: a probe in `faults` throws and so counts as false.
  */
  function AnyProbe(probes: seq<Probe>, page: Page, faults: set<Probe>): (r: bool)
    ensures r <==> exists i :: 0 <= i < |probes| && probes[i] !in faults && Holds(probes[i], page)
  {
    if probes == [] then false
    else if probes[0] !in faults && Holds(probes[0], page) then true
    else
      var rest := AnyProbe(probes[1..], page, faults);
      assert forall i :: 1 <= i < |probes| ==> probes[i] == probes[1..][i - 1];
      rest
  }

  /**
    `isNoVNCEnvironment`: true exactly when some probe that does not throw
    returns true; a throwing probe never blocks the others.
  */
  function IsNoVncEnvironment(page: Page, faults: set<Probe>): (r: bool)
    ensures r <==> exists p: Probe :: p !in faults && Holds(p, page)
  {
    var r := AnyProbe(Indicators, page, faults);
    assert (exists p: Probe :: p !in faults && Holds(p, page)) ==> r by {
      if p: Probe :| p !in faults && Holds(p, page) {
        assert Indicators[Position(p)] == p;
      }
    }
    r
  }

  /** The keywords of the looser test, matched against the lower-cased URL. */
  const UrlKeywords: seq<string> := ["vnc", "remote", "desktop", "kvm", "console"]

  /** `shouldShowFloatingBall` (no probe here is guarded). */
  predicate ShouldShowFloatingBall(page: Page) {
    var url := Lower(page.href);
    (exists k :: 0 <= k < |UrlKeywords| && Contains(url, UrlKeywords[k]))
    || QuerySelector(page.elements, AnyCanvas).Some?
    || Contains(Lower(page.title), "vnc")
    || Contains(Lower(page.title), "remote")
  }

  /** The guard of `createFloatingBall`: the control is offered if either test passes. */
  predicate OffersControl(page: Page, faults: set<Probe>) {
    IsNoVncEnvironment(page, faults) || ShouldShowFloatingBall(page)
  }

  /**
    The looser test covers every strict probe that is about a canvas element or
    about the URL and title: whenever one of them holds, the control is shown.
  */
  lemma {:induction false} LooserTestSubsumes(page: Page, p: Probe)
    requires p in {CanvasClassProbe, CanvasAttributeProbe, LocationProbe, CursorCanvasProbe}
    requires Holds(p, page)
    ensures ShouldShowFloatingBall(page)
  {
    var els := page.elements;
    match p
    case LocationProbe =>
      if Contains(page.href, "vnc") || Contains(page.href, "novnc") {
        if !Contains(page.href, "vnc") {
          NoVncImpliesVnc(page.href);
        }
        ContainsLower(page.href, "vnc");
        assert Lower("vnc") == "vnc" == UrlKeywords[0];
      }
    case CanvasClassProbe =>
      var i := QuerySelector(els, NoVncCanvasClass).value;
      assert Matches(els[i], AnyCanvas);
    case CanvasAttributeProbe =>
      var i := QuerySelector(els, NoVncCanvasAttribute).value;
      assert Matches(els[i], AnyCanvas);
    case CursorCanvasProbe =>
      var i :| 0 <= i < |els| && CursorCanvas(els[i]);
      assert Matches(els[i], AnyCanvas);
  }

  /**
    An element that carries none of the noVNC markers the probes look for;
    any other id, class or attribute it has is irrelevant.
  */
  predicate Unmarked(e: Element) {
    && e.id !in {"noVNC_canvas", "noVNC_container"}
    && e.classes !! {"noVNC_canvas", "noVNC_container", "rfb-canvas"}
    && "data-novnc" !in e.attributes
  }

  /**
    A page whose elements carry no noVNC marker and whose canvases are all
    small, with no remote-framebuffer globals and no "vnc" in its URL or
    title, is never taken for noVNC, whatever probes throw.
  */
  lemma {:induction false} SmallCanvasPageNotDetected(page: Page, faults: set<Probe>)
    requires forall i :: 0 <= i < |page.elements| ==>
      Unmarked(page.elements[i]) && (page.elements[i].tag == Canvas ==> !Large(page.elements[i]))
    requires !page.hasRfbGlobal && !page.hasNoVncGlobal
    requires !Contains(page.href, "vnc") && !Contains(Lower(page.title), "vnc")
    ensures !IsNoVncEnvironment(page, faults)
  {
    if Contains(page.href, "novnc") {
      NoVncImpliesVnc(page.href);
    }
    forall p: Probe ensures !Holds(p, page) {
      match p
      case CanvasClassProbe => assert QuerySelector(page.elements, NoVncCanvasClass).None?;
      case CanvasIdProbe => assert QuerySelector(page.elements, NoVncCanvasId).None?;
      case CanvasAttributeProbe => assert QuerySelector(page.elements, NoVncCanvasAttribute).None?;
      case ContainerClassProbe => assert QuerySelector(page.elements, NoVncContainerClass).None?;
      case ContainerIdProbe => assert QuerySelector(page.elements, NoVncContainerId).None?;
      case RfbCanvasProbe => assert QuerySelector(page.elements, RfbCanvasClass).None?;
      case GlobalsProbe =>
      case LocationProbe =>
      case CursorCanvasProbe =>
    }
  }

  /**
    A plain document (html, head, body and one 100x100 canvas carrying only its
    size attributes) at a URL and under a title without "vnc" is not detected.
  */
  lemma PlainCanvasPageNotDetected(faults: set<Probe>)
    ensures !IsNoVncEnvironment(PlainCanvasPage(), faults)
  {
    var page := PlainCanvasPage();
    PlainPageHypotheses(page);
    PlainHref(page);
    PlainTitle(page);
    SmallCanvasPageNotDetected(page, faults);
  }

  /** The elements of the plain document carry no marker, and its canvas is small. */
  lemma PlainPageHypotheses(page: Page)
    requires page == PlainCanvasPage()
    ensures forall i :: 0 <= i < |page.elements| ==>
      Unmarked(page.elements[i]) && (page.elements[i].tag == Canvas ==> !Large(page.elements[i]))
    ensures !page.hasRfbGlobal && !page.hasNoVncGlobal
  {
  }

  /** The plain document's URL has no "vnc". */
  lemma PlainHref(page: Page)
    requires page == PlainCanvasPage()
    ensures !Contains(page.href, "vnc")
  {
    MissingLeadNotContained(page.href, "vnc");
  }

  /** The plain document's lower-cased title has no "vnc". */
  lemma PlainTitle(page: Page)
    requires page == PlainCanvasPage()
    ensures !Contains(Lower(page.title), "vnc")
  {
    MissingLeadNotContained(Lower(page.title), "vnc");
  }

  function PlainCanvasPage(): Page {
    var plain := Element(OtherTag("HTML"), "", {}, {}, 0, 0, "", "");
    Page("https://example.com/", "Demo",
      [ plain,
        plain.(tag := OtherTag("HEAD")),
        plain.(tag := OtherTag("BODY")),
        Element(Canvas, "", {}, {"width", "height"}, 100, 100, "", "") ],
      false, false, None)
  }

  /** A page with an element `<canvas class="noVNC_canvas">` is detected unless that probe throws. */
  lemma MarkedCanvasDetected(page: Page, i: nat, faults: set<Probe>)
    requires i < |page.elements| && page.elements[i].tag == Canvas
    requires "noVNC_canvas" in page.elements[i].classes
    requires CanvasClassProbe !in faults
    ensures IsNoVncEnvironment(page, faults)
  {
    assert Matches(page.elements[i], NoVncCanvasClass);
    assert Holds(CanvasClassProbe, page);
  }
}

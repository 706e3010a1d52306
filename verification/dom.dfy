/**
  An abstract page: the parts of the DOM, `location` and `window` that the
  content script reads. Elements are listed in document order, so the first
  element satisfying a selector is what `document.querySelector` returns.
*/
module Dom {
  import opened Wrappers

  /** The tag names the engine distinguishes (HTML reports them upper-case). */
  datatype Tag = Canvas | Input | TextArea | OtherTag(name: string)

  /**
    One element. `id` is empty when the element has none; `attributes` holds
    attribute names as the HTML parser stores them (lower-case); `width` and
    `height` are the canvas bitmap size; `cursor` is the inline `style.cursor`;
    `value` is the current value of a text field.
  */
  datatype Element = Element(
    tag: Tag,
    id: string,
    classes: set<string>,
    attributes: set<string>,
    width: nat,
    height: nat,
    cursor: string,
    value: string)

  /**
    The page as the content script sees it: `location.href`, `document.title`,
    the elements, whether `window.RFB` / `window.noVNC` are truthy, and the
    index of `document.activeElement` (None when it is not one of `elements`).
  */
  datatype Page = Page(
    href: string,
    title: string,
    elements: seq<Element>,
    hasRfbGlobal: bool,
    hasNoVncGlobal: bool,
    activeElement: Option<nat>)

  /** The CSS selector shapes the engine uses. */
  datatype Selector =
    | TagWithClass(tag: Tag, cls: string)   // canvas.noVNC_canvas
    | WithId(id: string)                    // #noVNC_canvas
    | TagWithAttribute(tag: Tag, attr: string) // canvas[data-noVNC]
    | WithClass(cls: string)                // .rfb-canvas
    | OfTag(tag: Tag)                       // canvas

  /**
    Larger than 500x300: the size both the locator's generic selector and the
    cursor-canvas probe ask of a remote screen.
  */
  predicate Large(e: Element) {
    e.width > 500 && e.height > 300
  }

  predicate Matches(e: Element, sel: Selector) {
    match sel
    case TagWithClass(t, c) => e.tag == t && c in e.classes
    case WithId(i) => e.id == i
    case TagWithAttribute(t, a) => e.tag == t && a in e.attributes
    case WithClass(c) => c in e.classes
    case OfTag(t) => e.tag == t
  }

  // The selectors the content script queries (content.js:41-48, 92-96).
  const NoVncCanvasClass: Selector := TagWithClass(Canvas, "noVNC_canvas")
  const NoVncCanvasId: Selector := WithId("noVNC_canvas")
  /** `canvas[data-noVNC]`: attribute names are matched case-insensitively in HTML. */
  const NoVncCanvasAttribute: Selector := TagWithAttribute(Canvas, "data-novnc")
  const NoVncContainerClass: Selector := WithClass("noVNC_container")
  const NoVncContainerId: Selector := WithId("noVNC_container")
  const RfbCanvasClass: Selector := WithClass("rfb-canvas")
  const AnyCanvas: Selector := OfTag(Canvas)

  /** `i` is the element `querySelector(sel)` returns. */
  predicate FirstMatch(elements: seq<Element>, sel: Selector, i: nat) {
    i < |elements| && Matches(elements[i], sel)
    && forall j :: 0 <= j < i ==> !Matches(elements[j], sel)
  }

  /** A selector picks at most one first element. */
  lemma FirstMatchUnique(elements: seq<Element>, sel: Selector, i: nat, j: nat)
    requires FirstMatch(elements, sel, i) && FirstMatch(elements, sel, j)
    ensures i == j
  {
  }

  /** `document.querySelector`: the first element in document order that matches. */
  function QuerySelector(elements: seq<Element>, sel: Selector): (r: Option<nat>)
    ensures r.Some? ==> FirstMatch(elements, sel, r.value)
    ensures r.None? ==> forall j :: 0 <= j < |elements| ==> !Matches(elements[j], sel)
  {
    if elements == [] then None
    else if Matches(elements[0], sel) then Some(0)
    else match QuerySelector(elements[1..], sel)
      case None => None
      case Some(i) => Some(i + 1)
  }

  /** The element `document.activeElement` names, when it is an INPUT or a TEXTAREA. */
  function ActiveField(page: Page): (r: Option<nat>)
    ensures r.Some? <==>
      page.activeElement.Some? && page.activeElement.value < |page.elements|
      && page.elements[page.activeElement.value].tag in {Input, TextArea}
    ensures r.Some? ==> r == page.activeElement
  {
    match page.activeElement
    case Some(i) =>
      if i < |page.elements| && (page.elements[i].tag == Input || page.elements[i].tag == TextArea)
      then Some(i) else None
    case None => None
  }

  /** The page after assigning `v` to the value of element `i`. */
  function WithValue(page: Page, i: nat, v: string): (r: Page)
    requires i < |page.elements|
    ensures |r.elements| == |page.elements| && r.elements[i].value == v
    ensures forall j :: 0 <= j < |page.elements| && j != i ==> r.elements[j] == page.elements[j]
    ensures r.elements[i] == page.elements[i].(value := v)
    ensures r.(elements := page.elements) == page
  {
    page.(elements := page.elements[i := page.elements[i].(value := v)])
  }

  // ----- strings -----

  /** `String.prototype.toLowerCase`, on ASCII letters. */
  function LowerChar(c: char): char {
    if 'A' <= c <= 'Z' then (c as int + 32) as char else c
  }

  function Lower(s: string): (r: string)
    ensures |r| == |s|
    ensures forall i :: 0 <= i < |s| ==> r[i] == LowerChar(s[i])
  {
    seq(|s|, i requires 0 <= i < |s| => LowerChar(s[i]))
  }

  predicate StartsWith(s: string, t: string) {
    |t| <= |s| && s[..|t|] == t
  }

  /** `String.prototype.includes`: `t` occurs in `s` at some offset. */
  predicate Contains(s: string, t: string)
    decreases |s|
  {
    StartsWith(s, t) || (|s| > 0 && Contains(s[1..], t))
  }

  /** `t` occurs in `s` starting at offset `k`. */
  predicate OccursAt(s: string, t: string, k: int) {
    0 <= k && k + |t| <= |s| && s[k..k + |t|] == t
  }

  /** `Contains` means what it says: `t` occurs in `s` at some offset. */
  lemma {:induction false} ContainsIffOccurs(s: string, t: string)
    ensures Contains(s, t) <==> exists k :: OccursAt(s, t, k)
    decreases |s|
  {
    if |s| > 0 {
      ContainsIffOccurs(s[1..], t);
      if StartsWith(s, t) {
        assert OccursAt(s, t, 0);
      } else if Contains(s[1..], t) {
        var k :| OccursAt(s[1..], t, k);
        assert s[k + 1..k + 1 + |t|] == s[1..][k..k + |t|];
        assert OccursAt(s, t, k + 1);
      }
      if exists k :: OccursAt(s, t, k) {
        var k :| OccursAt(s, t, k);
        if k > 0 {
          assert s[1..][k - 1..k - 1 + |t|] == s[k..k + |t|];
          assert OccursAt(s[1..], t, k - 1);
        } else {
          assert s[..|t|] == t;
        }
      }
    } else {
      if StartsWith(s, t) {
        assert OccursAt(s, t, 0);
      }
      if exists k :: OccursAt(s, t, k) {
        var k :| OccursAt(s, t, k);
        assert s[..|t|] == s[k..k + |t|];
      }
    }
  }

  /** A substring survives lower-casing of both sides. */
  lemma {:induction false} ContainsLower(s: string, t: string)
    requires Contains(s, t)
    ensures Contains(Lower(s), Lower(t))
    decreases |s|
  {
    if StartsWith(s, t) {
      assert Lower(s)[..|t|] == Lower(t);
    } else {
      ContainsLower(s[1..], t);
      assert Lower(s)[1..] == Lower(s[1..]);
    }
  }

  /** An occurrence in a suffix is an occurrence in the whole string. */
  lemma {:induction false} ContainsSuffix(s: string, k: nat, t: string)
    requires k <= |s| && Contains(s[k..], t)
    ensures Contains(s, t)
    decreases k
  {
    if k > 0 {
      assert s[1..][k - 1..] == s[k..];
      ContainsSuffix(s[1..], k - 1, t);
    } else {
      assert s[k..] == s;
    }
  }

  /** A string without the first character of `t` does not contain `t`. */
  lemma {:induction false} MissingLeadNotContained(s: string, t: string)
    requires |t| > 0 && forall i :: 0 <= i < |s| ==> s[i] != t[0]
    ensures !Contains(s, t)
    decreases |s|
  {
    if |s| > 0 {
      assert !StartsWith(s, t) by {
        if |t| <= |s| {
          assert s[..|t|][0] == s[0];
        }
      }
      MissingLeadNotContained(s[1..], t);
    }
  }

  /** Whenever "novnc" occurs, "vnc" occurs two characters further on. */
  lemma {:induction false} NoVncImpliesVnc(s: string)
    requires Contains(s, "novnc")
    ensures Contains(s, "vnc")
    decreases |s|
  {
    if StartsWith(s, "novnc") {
      assert s[2..][..3] == "vnc";
      ContainsSuffix(s, 2, "vnc");
    } else {
      NoVncImpliesVnc(s[1..]);
    }
  }
}

# Synthetic typing engine of the noVNC paste tool, in Dafny

The content script of the paste tool (`content.js`) types a text into a
remote desktop shown in a browser page. For each character it fires
synthetic keyboard events at the noVNC canvas. If there is no canvas, it
types into the focused text field instead. This project models that engine:

- **Environment detection.** The strict noVNC test is an OR over nine
  guarded probes. The floating control is offered when either the strict
  test or the looser test passes (`Detector`).
- **Target location.** `findVNCCanvas` tries a priority list of selectors
  (`Locator`), over a model of the page and `document.querySelector` (`Dom`).
- **Event synthesis.** `sendCharacter` sends eight dispatches per character.
  `sendKey` sends four per named key, with its key table (`Synthesizer`).
- **Session controller** (`Typing`):
  - `startPaste` and its error paths;
  - the two typing loops, `simulateTyping` and `pasteToInput`, with their
    progress reports and pacing sleeps;
  - `stopPaste` and `sleep`.
- **Message listener.** The one `init` installs (`Messages`).

A run is recorded as a trace of actions (`Trace`):

- `focus`, `click` and `select`;
- `pasteProgress` pushes;
- event dispatches;
- sleeps;
- the terminal `pasteComplete` / `pasteError` notices.

The properties are stated over views of that trace: its dispatches, reports,
sleep count and notices.

The only suspension point of a run is `sleep`, and the only thing that can
change the run from outside is a `stopPaste` request arriving during a
sleep. So one run is fully determined by its inputs and an `Interrupt`,
which takes one of three forms:

- nothing happens;
- a stop arrives during the sleep after character `k`;
- dispatching character `k` throws.

What the code does, as opposed to what its comments suggest:

- **A stop suspends the run for ever.** `stopPaste` clears the pending timer,
  so the promise `sleep` returned never resolves. The loop never reaches its
  `if (!this.isRunning) break;` check again.
  - The run stays pending for ever, with no terminal notice and no answer to
    the popup.
  - On the text-field path, no `change` event is fired.
  - The check is modelled as part of the loop guard. It can only matter on
    entry, when it ends the loop at once.
- **Only the first canvas is considered.** The generic `canvas` selector looks
  at the first canvas of the page alone. A large canvas after a small one is
  never found (`Locator.OnlyFirstCanvasConsidered`).
- **The field is not cleared.** On the text-field path `select()` only selects
  the field's content, and every character is appended to the old value.
  The comment at content.js:148 speaks of clearing it first.
- **A failed dispatch leaves its character in the field.** On the text-field
  path, the character is appended before its `input` event is dispatched. If
  that dispatch throws, the character stays in the field (`Typing.Entered`
  counts it, `Typing.Delivered` does not). A throw from the assignment itself
  is not modelled (see below).

## Model

| member | source | states |
|---|---|---|
| Dom.QuerySelector | content.js:100 | the answer is the first element in document order that matches the selector; None only when no element matches |
| Dom.ActiveField | content.js:124-125 | a field is used exactly when the active element exists and is an INPUT or a TEXTAREA, and it is that element |
| Dom.ContainsIffOccurs | content.js:54-56 | the recursive `includes` holds exactly when the keyword occurs at some offset |
| Dom.ContainsLower | content.js:81-83 | an occurrence survives lower-casing of both strings |
| Dom.NoVncImpliesVnc | content.js:54-55 | the URL test for "novnc" never succeeds where the test for "vnc" fails |
| Detector.AnyProbe | content.js:68-74 | `some` over guarded probes is true exactly when some probe that does not throw holds |
| Detector.IsNoVncEnvironment | content.js:37-75 | the strict test is true exactly when some non-throwing probe of the nine holds, whatever the others do |
| Detector.Holds | content.js:41-65 | what each of the nine probes tests when it does not throw: five marker queries, the `.rfb-canvas` query, the remote-framebuffer globals, "vnc"/"novnc" in the URL or "vnc" in the lower-cased title, and a canvas larger than 500x300 whose cursor is none or default |
| Detector.ShouldShowFloatingBall | content.js:77-87 | the looser test: one of the five keywords in the lower-cased URL, any canvas on the page, or "vnc" or "remote" in the lower-cased title; none of its parts is guarded |
| Detector.OffersControl | content.js:302-306 | the floating control is created when the strict test or the looser test passes |
| Detector.LooserTestSubsumes | content.js:77-87 | a page that passes the canvas-class, canvas-attribute, URL/title or cursor-canvas probe also passes the looser test |
| Detector.SmallCanvasPageNotDetected | content.js:39-66 | a page whose elements carry no noVNC marker and whose canvases are all small, without globals and without "vnc" in URL or title, is never detected, whichever probes throw |
| Detector.PlainCanvasPageNotDetected | content.js:39-66 | a plain document (html, head, body and a 100x100 canvas with only its size attributes) at a URL and under a title without "vnc" is not taken for noVNC, whichever probes throw |
| Detector.MarkedCanvasDetected | content.js:41 | a canvas with class noVNC_canvas makes the page detected unless that probe throws |
| Locator.TrySelectors | content.js:99-111 | the answer comes from the earliest selector that yields an element, and every earlier selector yields none; None when all are skipped |
| Locator.FindVncCanvas | content.js:89-114 | the located canvas is in the page and comes from the earliest selector in priority order that yields one; None when none does |
| Locator.OnlyFirstCanvasConsidered | content.js:100-106 | without markers the answer is the first canvas if it exceeds 500x300, and none otherwise, even if a later canvas is large |
| Locator.MarkedCanvasLocated | content.js:91-101 | an element matching `canvas.noVNC_canvas`, the first selector of the list, is the answer whatever else the page holds |
| Locator.TargetImpliesControlOffered | content.js:304 | whenever a target is located, the floating control is offered; a canvas target always passes the looser test, and any other target is offered unless the strict probe of the selector that located it throws |
| Synthesizer.ToTargetAndDocument | content.js:235-238 | each event is dispatched to the target and then the same event to the document |
| Synthesizer.SendCharacter | content.js:219-240 | eight dispatches: keydown, keypress, input, keyup, each to target then document, with key = the character, keyCode = which = its code, charCode only on keypress |
| Synthesizer.LookupKey | content.js:246-253 | the key table gives Enter 13, Tab 9, Escape 27, Backspace 8 and 0 for any other name, always with the name itself as key |
| Synthesizer.SendKey | content.js:243-266 | four dispatches: keydown then keyup, each to target then document, with the table's code and the name as key |
| Synthesizer.Keystrokes | content.js:204-211 | a newline is sent as `sendKey('Enter')`, a tab as `sendKey('Tab')`, anything else as `sendCharacter`; so four dispatches for a newline or tab and eight otherwise |
| Synthesizer.KeystrokesLead | content.js:204-211 | a newline starts with a keydown of the Enter key (code 13), a tab with a keydown of the Tab key (code 9), anything else with a keydown of the character itself carrying its own code |
| Trace.DueReports | content.js:195-202 | reports carry total n and a current index in range, are due, and are strictly increasing |
| Trace.DueReportsExact | content.js:195-202 | index i is reported, as (i+1, n), exactly when it is reached and i % 10 == 0 or it is the last index |
| Trace.AppendInOrder | content.js:195-216 | a report or sleep appended in its place keeps every report and sleep of the trace in place |
| Typing.StopPaste | content.js:269-275 | after a stop the run flag is down and no timer is pending; the canvas and `nextTimerId` are untouched |
| Typing.StopPasteIdempotent | content.js:269-275 | stopping twice is stopping once, and an idle session without a timer is left as it is |
| Typing.ArmTimer | content.js:277-281 | `sleep` makes a fresh timer the pending one |
| Typing.Step | content.js:190-216 | one iteration of a typing loop: a progress report when due, the character's dispatches, and a sleep unless it is the last character |
| Typing.LoopTrace | content.js:187-216 | the trace after the first i iterations: the head actions (focus and click, or focus and select) followed by i steps in order |
| Typing.ExitTrace | content.js:189-216 | the trace the loop leaves: up to and including the sleep where a stop arrives; up to the report of the character whose dispatch throws; otherwise all iterations |
| Typing.StepKeepsTyped | content.js:189-216 | one iteration keeps the loop invariant, with one more character dispatched and one more sleep unless it was the last |
| Typing.LoopTraceTyped | content.js:189-216 | after i iterations, the first i characters are dispatched in order, the reports due so far are sent in place, and i sleeps are taken, or i-1 at the end |
| Typing.ExitTraceDone | content.js:185-217 | however the loop leaves, it leaves behind: the delivered characters' events in order; reports due for the iterations begun; one sleep between characters; no notice; a stopped loop ends on its sleep |
| Typing.SimulateTyping | content.js:185-217 | on a running session the loop leaves exactly as the interruption dictates (finished, thrown at that character, or suspended in that sleep) and its trace is the one its iterations build up to that point; a stop leaves the flag down and no timer pending; on an idle session only focus and click happen |
| Typing.InputEventsPerCharacter | content.js:166-170 | the text-field path fires exactly one input event per character |
| Typing.FieldTraceViews | content.js:144-183 | the text field sees one input event per delivered character, then a change event only when the loop ran to the end; no terminal notice is ever sent |
| Typing.PasteToInput | content.js:144-183 | the field ends with its old value followed by every character whose iteration began; the trace is the loop's followed by the change event on completion; the run flag is down |
| Typing.CanvasNotices | content.js:129-141 | a canvas run ends with exactly one terminal notice, pasteComplete on success or pasteError with the message on failure, and sends none while suspended |
| Typing.CanvasDispatches | content.js:129-141 | a canvas run dispatches the keystrokes of every delivered character, in order, and nothing else |
| Typing.PasteToCanvas | content.js:129-141 | the canvas branch leaves the page's elements and values alone, settles as the interruption dictates, appends the terminal notice for that outcome, and lowers the run flag |
| Typing.DelayOrDefault | content.js:116 | a missing delay means 50 ms, a given one is used as is |
| Typing.StartPaste | content.js:116-142 | a call during a run is refused and changes nothing; with no canvas and no focused field it is refused and forgets the canvas; otherwise the canvas path or the field path keeps its promise and the run flag is down |
| Messages.Reply | content.js:24-27 | the popup gets success on resolution, the error's message on rejection, and no answer while the paste is pending |
| Messages.HandleStart | content.js:24-28 | a paste request is refused with "貼上正在進行中" during a run, and with "找不到 VNC canvas 或輸入欄位" without a target; otherwise it succeeds exactly when the loop finishes and stays unanswered exactly when it is stopped |
| Messages.Handle | content.js:19-33 | a detection query answers with the strict test and changes nothing; a stop always answers success and only stops; an unknown action gets no answer |

## Left out

- **Not modelled:**
  - the popup (`popup.js`) and the background worker (`background.js`);
  - the floating control and paste panel UI (`createFloatingBall` and after, content.js:302-522, except its guard at content.js:304, which `Detector.OffersControl` models);
  - `sendMessage`'s transport: pushes are recorded as trace actions, and its errors are swallowed as in the script;
  - console logging.
- **Timers.** `setTimeout` and `clearTimeout` are not modelled as real timers:
  - a sleep is a suspension point, recorded with its requested length;
  - timer handles are a counter starting at 1, so the `if (this.currentTimeout)` guard of `stopPaste` never meets a zero handle;
  - the browser's delay clamping is not modelled.
- **Interleavings.** Only two are modelled:
  - a stop during a sleep;
  - a failing dispatch, injected through `Interrupt`. Browsers report listener exceptions instead of rethrowing them, so this path is the script's defensive one.

  A second `startPaste` during a run is modelled as a separate call on a session whose flag is up.
- **Probe faults.** Which detection probes throw is a parameter (`faults`), not derived from the page.
- **Page model.** Class, id, attribute and tag selectors are modelled; no general CSS.
  - Attribute names are compared lower-cased, as HTML does.
  - `window.RFB || window.noVNC` is reduced to two booleans.
- Dom.Lower: `toLowerCase` is modelled on ASCII letters only; other case mappings are not modelled.
- Synthesizer.SendCharacter: a character is one Dafny `char`. JavaScript strings are UTF-16, and a character outside the Basic Multilingual Plane would be iterated as two surrogate halves; that is not modelled.
- Synthesizer.SendCharacter: the model records the `KeyboardEvent` init dictionary the script builds. Browsers may ignore its legacy `keyCode`, `which` and `charCode` members; that is not modelled.
- Synthesizer.LookupKey: `keyMap[key]` also finds inherited `Object.prototype` members (e.g. `toString`). Only the four own entries are modelled; the loop only asks for Enter and Tab.
- Typing.PasteToInput: the browser sanitizes an assigned `value`. In particular, an `INPUT` of type text strips newlines, so a `\n` of the text never reaches such a field's value. The model appends every character unchanged.
- Typing.PasteToInput: the assignment `element.value += char` (content.js:167) can itself throw, for example on an `INPUT` of type file. That throw is not modelled. It would leave the field at its old value followed by the characters before it, and fire no `input` event for that character. The only failure modelled on this path is a throw from the `input` dispatch, after the append.
- Typing.PasteToCanvas: `this.canvas.focus()` (content.js:187) moves `document.activeElement` to a focusable canvas. The model records the focus only as the `Focus` action of the trace. It leaves `Page.activeElement` as it was, and `CanvasDone` states `r.page == page` of that model.
- Typing.SimulateTyping: a dispatch failure is taken to come before any of that character's dispatches. A throw part-way through `sendCharacter`'s eight dispatches (content.js:225-240) would leave the earlier ones delivered; the model drops them all.

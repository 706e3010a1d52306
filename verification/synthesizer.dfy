/**
  The event synthesizer (content.js:219-266): the synthetic events one
  character or one named key turns into. Every event is dispatched first to
  the target and then, the same event object, to the document.
*/
module Synthesizer {

  datatype EventType = KeyDown | KeyPress | Input | KeyUp | Change

  /**
    A `KeyboardEvent` with the fields the script sets, or a plain `Event`
    (the text-field path). Fields left out of a `KeyboardEvent`'s init
    dictionary take the default 0.
  */
  datatype DomEvent =
    | KeyboardEvent(kind: EventType, key: string, keyCode: nat, which: nat, charCode: nat)
    | PlainEvent(kind: EventType)

  /** Where an event is dispatched: the chosen target element or `document`. */
  datatype Destination = Target | Document

  datatype Dispatch = Dispatch(dest: Destination, event: DomEvent)

  /** The event types of one typed character, in dispatch order. */
  const CharacterEventTypes: seq<EventType> := [KeyDown, KeyPress, Input, KeyUp]

  /** An entry of the static key table. */
  datatype KeyInfo = KeyInfo(keyCode: nat, key: string)

  /** `keyMap` of `sendKey`. */
  const KeyMap: map<string, KeyInfo> := map[
    "Enter" := KeyInfo(13, "Enter"),
    "Tab" := KeyInfo(9, "Tab"),
    "Escape" := KeyInfo(27, "Escape"),
    "Backspace" := KeyInfo(8, "Backspace")]

  /** The key codes of the named keys, written out case by case; 0 for any other name. */
  function NamedKeyCode(name: string): nat {
    if name == "Enter" then 13
    else if name == "Tab" then 9
    else if name == "Escape" then 27
    else if name == "Backspace" then 8
    else 0
  }

  /** Each event goes to the target and then to the document. */
  function ToTargetAndDocument(events: seq<DomEvent>): (r: seq<Dispatch>)
    ensures |r| == 2 * |events|
    ensures forall j :: 0 <= j < |events| ==>
      r[2 * j] == Dispatch(Target, events[j]) && r[2 * j + 1] == Dispatch(Document, events[j])
  {
    var r := seq(2 * |events|, k requires 0 <= k < 2 * |events| =>
      Dispatch(if k % 2 == 0 then Target else Document, events[k / 2]));
    assert forall j :: 0 <= j < |events| ==> (2 * j) / 2 == j && (2 * j + 1) / 2 == j;
    r
  }

  /** The event `sendCharacter` builds for one event type. */
  function CharacterEvent(kind: EventType, c: char): DomEvent {
    var code := c as nat;  // `char.charCodeAt(0)`
    KeyboardEvent(kind, [c], code, code, if kind == KeyPress then code else 0)
  }

  /**
    `sendCharacter(c)`: keydown, keypress, input and keyup, each to the target
    and then the document, all carrying `c` as key and its code as keyCode and
    which; only keypress carries it as charCode.
  */
  function SendCharacter(c: char): (r: seq<Dispatch>)
    ensures |r| == 8
    ensures forall j :: 0 <= j < 4 ==>
      && r[2 * j].dest == Target && r[2 * j + 1].dest == Document
      && r[2 * j].event == r[2 * j + 1].event
      && r[2 * j].event.KeyboardEvent?
      && r[2 * j].event.kind == CharacterEventTypes[j]
      && r[2 * j].event.key == [c]
      && r[2 * j].event.keyCode == r[2 * j].event.which == c as nat
      && r[2 * j].event.charCode == (if CharacterEventTypes[j] == KeyPress then c as nat else 0)
  {
    ToTargetAndDocument(seq(4, j requires 0 <= j < 4 => CharacterEvent(CharacterEventTypes[j], c)))
  }

  /**
    `keyMap[key] || { keyCode: 0, key: key }`: the table agrees with the codes
    written out in `NamedKeyCode`, and every entry's key is its own name.
  */
  function LookupKey(name: string): (r: KeyInfo)
    ensures r.keyCode == NamedKeyCode(name)
    ensures r.key == name
  {
    if name in KeyMap then
      assert name in {"Enter", "Tab", "Escape", "Backspace"};
      KeyMap[name]
    else
      assert name !in {"Enter", "Tab", "Escape", "Backspace"};
      KeyInfo(0, name)
  }

  /**
    `sendKey(name)`: keydown then keyup, each to the target and then the
    document, with the table's code (0 for an unknown name) and the name
    itself as key.
  */
  function SendKey(name: string): (r: seq<Dispatch>)
    ensures var code := NamedKeyCode(name);
      var down := KeyboardEvent(KeyDown, name, code, code, 0);
      var up := KeyboardEvent(KeyUp, name, code, code, 0);
      && |r| == 4
      && r[0] == Dispatch(Target, down) && r[1] == Dispatch(Document, down)
      && r[2] == Dispatch(Target, up) && r[3] == Dispatch(Document, up)
  {
    var info := LookupKey(name);
    var events := [
      KeyboardEvent(KeyDown, info.key, info.keyCode, info.keyCode, 0),
      KeyboardEvent(KeyUp, info.key, info.keyCode, info.keyCode, 0)];
    ToTargetAndDocument(events)
  }

  /**
    What the typing loop dispatches for one character of the text: a newline
    is the Enter key, a tab the Tab key, anything else a typed character.
  */
  function Keystrokes(c: char): (r: seq<Dispatch>)
    ensures |r| == (if c == '\n' || c == '\t' then 4 else 8)
  {
    if c == '\n' then SendKey("Enter")
    else if c == '\t' then SendKey("Tab")
    else SendCharacter(c)
  }

  /**
    The keystrokes of a character open with a keydown at the target: the
    Enter key with code 13 for a newline, the Tab key with code 9 for a tab,
    and the character itself with its own code otherwise.
  */
  lemma KeystrokesLead(c: char)
    ensures var r := Keystrokes(c);
      && r[0].dest == Target && r[0].event.KeyboardEvent? && r[0].event.kind == KeyDown
      && r[0].event.key == (if c == '\n' then "Enter" else if c == '\t' then "Tab" else [c])
      && r[0].event.keyCode == (if c == '\n' then 13 else if c == '\t' then 9 else c as nat)
  {
  }
}

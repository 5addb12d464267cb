/**
 * The paper window's text entry: the shown text `buffer`, the line being
 * typed `user_input`, and how each key edits them. Drawing, fonts, the
 * frame clock and the window itself are left out; the events the window
 * would deliver are a supplied sequence.
 */
module Materials {

  /** The keys the text entry tells apart. */
  datatype Key = ReturnKey | BackspaceKey | OtherKey

  /** What the window delivers: closing it, a key press with its text, or anything else. */
  datatype Event = QuitEvent | KeyDown(key: Key, text: string) | OtherEvent

  /** The two edited fields of a paper: the shown text and the line being typed. */
  datatype Text = Text(buffer: string, userInput: string)

  /**
   * One event of `read`: Return commits the typed line to the shown text
   * with a newline and clears it; Backspace drops the last typed character
   * if there is one; any other key appends its text. Other events, and
   * closing the window, edit nothing.
   */
  function Step(t: Text, e: Event): (r: Text)
    ensures IsReturn(e) ==> r.buffer == t.buffer + t.userInput + "\n" && r.userInput == ""
    ensures !IsReturn(e) ==> r.buffer == t.buffer
    ensures e.KeyDown? && e.key.BackspaceKey? ==>
              r.userInput == t.userInput[..if |t.userInput| > 0 then |t.userInput| - 1 else 0]
    ensures e.KeyDown? && e.key.OtherKey? ==> r.userInput == t.userInput + e.text
  {
    match e
    case KeyDown(ReturnKey, _) => Text(t.buffer + t.userInput + "\n", "")
    case KeyDown(BackspaceKey, _) =>
      if |t.userInput| > 0 then Text(t.buffer, t.userInput[..|t.userInput| - 1]) else t
    case KeyDown(OtherKey, text) => Text(t.buffer, t.userInput + text)
    case _ => t
  }

  /** The events of `es`, one after the other, from `t`. */
  function Replay(t: Text, es: seq<Event>): Text
    decreases |es|
  {
    if |es| == 0 then t else Step(Replay(t, es[..|es| - 1]), es[|es| - 1])
  }

  /** Replaying two runs of events is replaying their concatenation. */
  lemma {:induction false} ReplayAppend(t: Text, a: seq<Event>, b: seq<Event>)
    ensures Replay(t, a + b) == Replay(Replay(t, a), b)
    decreases |b|
  {
    if |b| == 0 {
      assert a + b == a;
    } else {
      assert (a + b)[..|a + b| - 1] == a + b[..|b| - 1];
      ReplayAppend(t, a, b[..|b| - 1]);
    }
  }

  /** `e` is the Return key. */
  predicate IsReturn(e: Event) {
    e.KeyDown? && e.key.ReturnKey?
  }

  /** Without a Return key the shown text stays as it is. */
  lemma {:induction false} OnlyReturnCommits(t: Text, es: seq<Event>)
    requires forall i :: 0 <= i < |es| ==> !IsReturn(es[i])
    ensures Replay(t, es).buffer == t.buffer
    decreases |es|
  {
    if |es| > 0 {
      OnlyReturnCommits(t, es[..|es| - 1]);
    }
  }

  /** Committed text is never taken back: the old buffer stays a prefix of the new one. */
  lemma {:induction false} BufferGrows(t: Text, es: seq<Event>)
    ensures |t.buffer| <= |Replay(t, es).buffer|
    ensures Replay(t, es).buffer[..|t.buffer|] == t.buffer
    decreases |es|
  {
    if |es| > 0 {
      BufferGrows(t, es[..|es| - 1]);
      var mid := Replay(t, es[..|es| - 1]);
      var next := Step(mid, es[|es| - 1]);
      assert next.buffer[..|mid.buffer|] == mid.buffer;
      assert next.buffer[..|t.buffer|] == mid.buffer[..|t.buffer|];
    }
  }

  /** Backspace takes back a typed character. */
  lemma BackspaceUndoesChar(t: Text, c: char)
    ensures Step(Step(t, KeyDown(OtherKey, [c])), KeyDown(BackspaceKey, "")) == t
  {
    assert (t.userInput + [c])[..|t.userInput|] == t.userInput;
  }

  /** Typing `a`, `b`, Backspace, `c` and Return on a new paper shows `"ac\n"`. */
  lemma TypingExample()
    ensures Replay(Text("", ""), [KeyDown(OtherKey, "a"), KeyDown(OtherKey, "b"), KeyDown(BackspaceKey, ""),
                                  KeyDown(OtherKey, "c"), KeyDown(ReturnKey, "\r")])
            == Text("ac\n", "")
  {
    var es := [KeyDown(OtherKey, "a"), KeyDown(OtherKey, "b"), KeyDown(BackspaceKey, ""),
               KeyDown(OtherKey, "c"), KeyDown(ReturnKey, "\r")];
    var t := Text("", "");
    assert es[..1][..0] == [] && es[..2][..1] == es[..1] && es[..3][..2] == es[..2] && es[..4][..3] == es[..3];
    assert es[..5] == es && es[..5][..4] == es[..4];
    assert Replay(t, es[..1]) == Text("", "a");
    assert Replay(t, es[..2]) == Text("", "ab");
    assert Replay(t, es[..3]) == Text("", "a");
    assert Replay(t, es[..4]) == Text("", "ac");
  }

  /** `Paper(size_tuple, fps, caption)`: the window settings and empty text. */
  class Paper {
    const size: (int, int)
    const fps: int
    const caption: string
    var userInput: string
    var buffer: string
    var newlines: int
    var running: bool

    constructor (size: (int, int), fps: int, caption: string)
      ensures this.size == size && this.fps == fps && this.caption == caption
      ensures userInput == "" && buffer == "" && newlines == 0 && !running
    {
      this.size := size;
      this.fps := fps;
      this.caption := caption;
      userInput := "";
      buffer := "";
      newlines := 0;
      running := false;
    }

    /** The edited fields as they stand. */
    function Contents(): Text
      reads this
    {
      Text(buffer, userInput)
    }

    /** `init()`, without the window: the paper is running. */
    method Init()
      modifies this
      ensures running
      ensures buffer == old(buffer) && userInput == old(userInput) && newlines == old(newlines)
    {
      running := true;
    }

    /** `print(text)`: the shown text becomes `text`, and `get_buffer()` gives it back. */
    method Print(text: string)
      modifies this
      ensures GetBuffer() == text
      ensures userInput == old(userInput) && newlines == old(newlines) && running == old(running)
    {
      buffer := text;
    }

    /** `get_buffer()`. */
    function GetBuffer(): string
      reads this
    {
      buffer
    }

    /** One key press of `read`, as `Step` says. */
    method HandleKey(key: Key, text: string)
      modifies this
      ensures Contents() == Step(old(Contents()), KeyDown(key, text))
      ensures newlines == old(newlines) && running == old(running)
    {
      match key
      case ReturnKey =>
        buffer := buffer + userInput + "\n";
        userInput := "";
      case BackspaceKey =>
        if |userInput| > 0 {
          userInput := userInput[..|userInput| - 1];
        }
      case OtherKey =>
        userInput := userInput + text;
    }

    /**
     * `read()` over the events delivered: each is handled in turn until the
     * window is closed, which stops the paper. `handled` is the number of
     * events taken, the closing one included; the text is theirs, replayed.
     */
    method Read(events: seq<Event>) returns (handled: nat)
      requires running
      modifies this
      ensures handled <= |events|
      ensures Contents() == Replay(old(Contents()), events[..handled])
      ensures forall i :: 0 <= i < handled - 1 ==> !events[i].QuitEvent?
      ensures running <==> handled == |events| && (handled == 0 || !events[handled - 1].QuitEvent?)
      ensures !running ==> 0 < handled && events[handled - 1].QuitEvent?
      ensures newlines == old(newlines)
    {
      handled := 0;
      while handled < |events| && running
        invariant handled <= |events|
        invariant Contents() == Replay(old(Contents()), events[..handled])
        invariant forall i :: 0 <= i < handled - 1 ==> !events[i].QuitEvent?
        invariant running <==> handled == 0 || !events[handled - 1].QuitEvent?
        invariant newlines == old(newlines)
      {
        assert events[..handled + 1][..handled] == events[..handled];
        match events[handled] {
          case QuitEvent =>
            running := false;
          case KeyDown(key, text) =>
            HandleKey(key, text);
          case OtherEvent =>
        }
        handled := handled + 1;
      }
    }
  }
}

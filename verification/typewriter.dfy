/** The `TypewriterEffect` component: it reveals `text` one character per timer tick and shows a
    cursor while typing. Unlike the answer card it has no guard for an empty text. Its start
    delay matters only after a new text arrives while typing further than the new text is
    long: the typing effect of that commit still sees the previous index and turns typing
    off over the reset, and the delay timer turns it back on (`Changed`). In any reachable
    state the delay changes nothing.

    As in the answer card, `Settled` is the typing effect run once without a timer and
    `Tick` the timer firing followed by the effect; the delay and speed in milliseconds are
    not modelled. */
module Typewriter {

  datatype WriterState = WriterState(displayText: string, currentIndex: nat, isTyping: bool)

  /** The state the reset effect writes when `text` or `delay` changes. */
  const Fresh := WriterState("", 0, true)

  predicate Pending(text: string, s: WriterState)
  {
    s.isTyping && s.currentIndex < |text|
  }

  /** The typing effect when it schedules no timer: past the end it stops typing. */
  function Settled(text: string, s: WriterState): (r: WriterState)
    ensures r.displayText == s.displayText && r.currentIndex == s.currentIndex
    ensures r.isTyping <==> Pending(text, s)
  {
    if s.isTyping && s.currentIndex >= |text| then s.(isTyping := false) else s
  }

  /** A new text (or delay): reset, then the typing effect. */
  function Reset(text: string): (r: WriterState)
    ensures r.displayText == "" && r.currentIndex == 0
    ensures r.isTyping <==> text != ""
  {
    Settled(text, Fresh)
  }

  /** The start-delay timer fires: `setIsTyping(true)`, then the typing effect. */
  function DelayElapsed(text: string, s: WriterState): (r: WriterState)
    ensures r.displayText == s.displayText && r.currentIndex == s.currentIndex
  {
    Settled(text, s.(isTyping := true))
  }

  function Tick(text: string, s: WriterState): (r: WriterState)
    ensures Pending(text, s) ==>
              r.displayText == s.displayText + [text[s.currentIndex]]
              && r.currentIndex == s.currentIndex + 1
              && (r.isTyping <==> r.currentIndex < |text|)
    ensures !Pending(text, s) ==> r == s
  {
    if Pending(text, s) then
      Settled(text, s.(displayText := s.displayText + [text[s.currentIndex]],
                       currentIndex := s.currentIndex + 1))
    else s
  }

  function Ticks(text: string, s: WriterState, n: nat): WriterState
    decreases n
  {
    if n == 0 then s else Ticks(text, Tick(text, s), n - 1)
  }

  /** The reachable states: the first `currentIndex` characters are shown, and typing
      goes on exactly while characters are left. */
  predicate Valid(text: string, s: WriterState)
  {
    && s.currentIndex <= |text|
    && s.displayText == text[..s.currentIndex]
    && (s.isTyping <==> s.currentIndex < |text|)
  }

  /** The cursor, rendered while `isTyping`. */
  predicate CursorShown(s: WriterState)
  {
    s.isTyping
  }

  lemma ResetIsValid(text: string)
    ensures Valid(text, Reset(text))
  {
  }

  lemma TickKeepsValid(text: string, s: WriterState)
    requires Valid(text, s)
    ensures Valid(text, Tick(text, s))
  {
    if Pending(text, s) {
      assert text[..s.currentIndex + 1] == text[..s.currentIndex] + [text[s.currentIndex]];
    }
  }

  /** The delay timer changes nothing in a reachable state: typing is already on while
      characters are left, and is turned straight off again when none are. */
  lemma DelayIsNoOp(text: string, s: WriterState)
    requires Valid(text, s)
    ensures DelayElapsed(text, s) == s
  {
  }

  /** The typing effect of the commit in which a new text arrives would find the writer
      typing at an index the new text does not reach. */
  predicate Overrun(s: WriterState, t: string)
  {
    s.isTyping && s.currentIndex >= |t|
  }

  /** The commit after a different `text` `t` reaches a writer in state `s`: the reset
      effect's writes land first, then those of the typing effect, which still sees the
      previous render's `currentIndex` and `isTyping`. On an overrun it turns typing off
      over the reset; otherwise its writes leave the reset state. */
  function Changed(s: WriterState, t: string): (c: WriterState)
    ensures c.displayText == "" && c.currentIndex == 0
    ensures c.isTyping <==> t != "" && !Overrun(s, t)
    ensures !Overrun(s, t) ==> c == Reset(t)
  {
    if Overrun(s, t) then Fresh.(isTyping := false) else Reset(t)
  }

  /** After an overrun onto a non-empty text nothing is typed and no cursor is shown until
      the start delay fires; whatever the commit left, the delay timer then gives the reset
      state, from which the whole text is typed. */
  lemma {:induction false} DelayRepairsOverrun(s: WriterState, t: string, n: nat)
    requires Overrun(s, t) && t != ""
    ensures Ticks(t, Changed(s, t), n) == Changed(s, t)
    ensures !CursorShown(Changed(s, t))
    ensures !Valid(t, Changed(s, t))
    ensures DelayElapsed(t, Changed(s, t)) == Reset(t)
    decreases n
  {
    if n > 0 {
      DelayRepairsOverrun(s, t, n - 1);
    }
  }

  /** The delay timer always completes the change: after it, the writer is in the reset
      state for the new text. */
  lemma DelayAfterChange(s: WriterState, t: string)
    ensures DelayElapsed(t, Changed(s, t)) == Reset(t)
  {
  }

  /** A change of `delay` alone: the reset effect runs, but the typing effect runs only if
      the reset changed its dependencies, that is unless the writer was typing at index 0
      already. */
  function DelayChanged(text: string, s: WriterState): (r: WriterState)
    ensures r.displayText == "" && r.currentIndex == 0
    ensures !(s.isTyping && s.currentIndex == 0) ==> r == Reset(text)
  {
    if s.isTyping && s.currentIndex == 0 then Fresh else Reset(text)
  }

  /** In a reachable state a change of `delay` restarts the text from the beginning. */
  lemma DelayChangeRestarts(text: string, s: WriterState)
    requires Valid(text, s)
    ensures DelayChanged(text, s) == Reset(text)
  {
  }

  /** The cursor is shown exactly until the whole text is on screen. */
  lemma CursorUntilDone(text: string, s: WriterState)
    requires Valid(text, s)
    ensures CursorShown(s) <==> s.displayText != text
  {
    if s.currentIndex < |text| {
      assert |s.displayText| < |text|;
    } else {
      assert text[..|text|] == text;
    }
  }

  /** An empty text stops typing at once: no cursor and no timer. */
  lemma EmptyStopsAtOnce()
    ensures Reset("") == WriterState("", 0, false)
    ensures !CursorShown(Reset(""))
  {
  }

  lemma {:induction false} TicksFromValid(text: string, s: WriterState, k: nat)
    requires Valid(text, s) && s.currentIndex + k <= |text|
    ensures Valid(text, Ticks(text, s, k))
    ensures Ticks(text, s, k).currentIndex == s.currentIndex + k
    decreases k
  {
    if k > 0 {
      TickKeepsValid(text, s);
      TicksFromValid(text, Tick(text, s), k - 1);
    }
  }

  /** After `k` ticks from a reset the first `k` characters are shown, and after `|text|`
      ticks the whole text, with typing off. */
  lemma TicksShowPrefix(text: string, k: nat)
    requires k <= |text|
    ensures var r := Ticks(text, Reset(text), k);
            && r.displayText == text[..k] && r.currentIndex == k
            && (r.isTyping <==> k < |text|)
  {
    ResetIsValid(text);
    TicksFromValid(text, Reset(text), k);
  }

  lemma TypesWholeText(text: string)
    ensures Ticks(text, Reset(text), |text|) == WriterState(text, |text|, false)
  {
    TicksShowPrefix(text, |text|);
    assert text[..|text|] == text;
  }

  // ---------------------------------------------------------------------------------
  // The component

  class Writer {
    var text: string
    var displayText: string
    var currentIndex: nat
    var isTyping: bool

    function State(): WriterState
      reads this
    {
      WriterState(displayText, currentIndex, isTyping)
    }

    /** Mounting: the reset effect and the typing effect run. */
    constructor (t: string)
      ensures text == t && State() == Reset(t)
    {
      text := t;
      displayText, currentIndex, isTyping := "", 0, true;
      new;
      RunEffect();
    }

    /** The typing effect run without scheduling a timer. */
    method RunEffect()
      modifies this
      ensures text == old(text) && State() == Settled(text, old(State()))
    {
      if !isTyping {
        return;
      }
      if currentIndex >= |text| {
        isTyping := false;
      }
    }

    /** The parent re-renders the writer with `text` `t`; both effects depend on it, so
        nothing happens unless it differs from the current one. */
    method ChangeText(t: string)
      modifies this
      ensures text == t
      ensures t == old(text) ==> State() == old(State())
      ensures t != old(text) ==> State() == Changed(old(State()), t)
    {
      if t == text {
        return;
      }
      // the typing effect of this commit reads the previous render's values
      var overrun := isTyping && currentIndex >= |t|;
      text := t;
      displayText := "";
      currentIndex := 0;
      isTyping := true;
      if overrun {
        isTyping := false;
      } else {
        RunEffect();
      }
    }

    /** The parent passes a new `delay` with the same text. */
    method ChangeDelay()
      modifies this
      ensures text == old(text) && State() == DelayChanged(text, old(State()))
    {
      var rerun := !(isTyping && currentIndex == 0);
      displayText := "";
      currentIndex := 0;
      isTyping := true;
      if rerun {
        RunEffect();
      }
    }

    method DelayFires()
      modifies this
      ensures text == old(text) && State() == DelayElapsed(text, old(State()))
    {
      isTyping := true;
      RunEffect();
    }

    method TimerFires()
      requires Pending(text, State())
      modifies this
      ensures text == old(text) && State() == Tick(text, old(State()))
    {
      displayText := displayText + [text[currentIndex]];
      currentIndex := currentIndex + 1;
      RunEffect();
    }

    /** Timers keep firing while one is pending: from any reachable state the whole text
        ends up shown, with typing off. */
    method TypeOut()
      requires Valid(text, State())
      modifies this
      ensures text == old(text) && State() == WriterState(text, |text|, false)
    {
      while Pending(text, State())
        invariant text == old(text) && Valid(text, State())
        decreases |text| - currentIndex
      {
        TickKeepsValid(text, State());
        TimerFires();
      }
      assert text[..|text|] == text;
    }
  }
}

/** The answer card: it reveals its `response` one character per timer tick, then marks
    itself completed and offers a regenerate button; the revealed text is rendered line by
    line with a break between lines.

    Effects run to a fixed point after every change: `Settled` is the typing effect run
    once without a timer, and `Tick` is the 15 ms timer firing, after which the effect runs
    again. A new `response` is one commit in which both effects run, the typing effect still
    seeing the previous render's index and flag (`Changed`); a card typing further than the
    new response is long is finished at once and never types it. The timer delay itself is
    not modelled. */
module ResponseCard {

  datatype CardState = CardState(displayText: string, currentIndex: nat,
                                 isTyping: bool, isCompleted: bool)

  /** The state the reset effect writes when `response` changes. */
  const Fresh := CardState("", 0, true, false)

  /** A timer is scheduled: typing, a non-empty response, and characters left. */
  predicate Pending(response: string, s: CardState)
  {
    s.isTyping && response != "" && s.currentIndex < |response|
  }

  /** The typing effect when it schedules no timer: with every character shown it stops
      typing and marks the card completed; otherwise (not typing, an empty response, or a
      timer to schedule) it leaves the state alone. */
  function Settled(response: string, s: CardState): (r: CardState)
    ensures !Pending(response, r) || r == s
    ensures r.displayText == s.displayText && r.currentIndex == s.currentIndex
  {
    if s.isTyping && response != "" && s.currentIndex >= |response| then
      s.(isTyping := false, isCompleted := true)
    else s
  }

  /** A new response: the reset effect, then the typing effect. */
  function Reset(response: string): (r: CardState)
    ensures r == Fresh   // nothing to type yet, or nothing to type at all
  {
    Settled(response, Fresh)
  }

  /** The timer fires: the character at the index the timer captured is appended and the
      index advances; then the effect runs again. Without a pending timer nothing fires. */
  function Tick(response: string, s: CardState): (r: CardState)
    ensures Pending(response, s) ==>
              r.displayText == s.displayText + [response[s.currentIndex]]
              && r.currentIndex == s.currentIndex + 1
              && (r.currentIndex == |response| ==> !r.isTyping && r.isCompleted)
              && (r.currentIndex < |response| ==> r.isTyping && r.isCompleted == s.isCompleted)
    ensures !Pending(response, s) ==> r == s
  {
    if Pending(response, s) then
      Settled(response, s.(displayText := s.displayText + [response[s.currentIndex]],
                           currentIndex := s.currentIndex + 1))
    else s
  }

  /** `n` timer ticks. */
  function Ticks(response: string, s: CardState, n: nat): CardState
    decreases n
  {
    if n == 0 then s else Ticks(response, Tick(response, s), n - 1)
  }

  /** The states the card can be in for a given response: the shown text is the first
      `currentIndex` characters; a non-empty response is typing until it is all shown and
      completed after; an empty one stays typing and never completes. */
  predicate Valid(response: string, s: CardState)
  {
    && s.currentIndex <= |response|
    && s.displayText == response[..s.currentIndex]
    && (response != "" ==> (s.isTyping <==> s.currentIndex < |response|)
                           && (s.isCompleted <==> s.currentIndex == |response|))
    && (response == "" ==> s.isTyping && !s.isCompleted)
  }

  lemma ResetIsValid(response: string)
    ensures Valid(response, Reset(response))
  {
  }

  /** A tick keeps the shown text a prefix of the response, one character longer. */
  lemma TickKeepsValid(response: string, s: CardState)
    requires Valid(response, s)
    ensures Valid(response, Tick(response, s))
    ensures Pending(response, s) ==> Tick(response, s).currentIndex == s.currentIndex + 1
  {
    if Pending(response, s) {
      assert response[..s.currentIndex + 1] == response[..s.currentIndex] + [response[s.currentIndex]];
    }
  }

  /** After `k` ticks from a reset, the first `k` characters are shown; the card is typing
      until `k` reaches the length. */
  lemma {:induction false} TicksShowPrefix(response: string, k: nat)
    requires response != "" && k <= |response|
    ensures var r := Ticks(response, Reset(response), k);
            && r.displayText == response[..k] && r.currentIndex == k
            && (r.isTyping <==> k < |response|) && (r.isCompleted <==> k == |response|)
  {
    TicksFromValid(response, Reset(response), k);
    ResetIsValid(response);
  }

  /** From a valid state with index `i`, `k` more ticks (not past the end) reach index
      `i + k`. */
  lemma {:induction false} TicksFromValid(response: string, s: CardState, k: nat)
    requires Valid(response, s) && response != "" && s.currentIndex + k <= |response|
    ensures Valid(response, Ticks(response, s, k))
    ensures Ticks(response, s, k).currentIndex == s.currentIndex + k
    decreases k
  {
    if k > 0 {
      TickKeepsValid(response, s);
      TicksFromValid(response, Tick(response, s), k - 1);
    }
  }

  /** A non-empty response is complete after exactly `|response|` ticks, showing all of it,
      and further ticks change nothing. */
  lemma CompletesAfterLength(response: string, extra: nat)
    requires response != ""
    ensures var r := Ticks(response, Reset(response), |response|);
            && r == CardState(response, |response|, false, true)
            && Ticks(response, r, extra) == r
  {
    TicksShowPrefix(response, |response|);
    assert response[..|response|] == response;
    StuckStaysStuck(response, Ticks(response, Reset(response), |response|), extra);
  }

  lemma {:induction false} StuckStaysStuck(response: string, s: CardState, n: nat)
    requires !Pending(response, s)
    ensures Ticks(response, s, n) == s
    decreases n
  {
    if n > 0 {
      StuckStaysStuck(response, s, n - 1);
    }
  }

  /** An empty response never completes: no timer is ever scheduled. */
  lemma EmptyNeverCompletes(n: nat)
    ensures Ticks("", Reset(""), n) == CardState("", 0, true, false)
  {
    StuckStaysStuck("", Reset(""), n);
  }

  /** The typing effect of the commit in which a new response arrives would find the card
      typing at an index the new response does not reach. */
  predicate Overrun(s: CardState, r: string)
  {
    s.isTyping && r != "" && s.currentIndex >= |r|
  }

  /** The commit after the parent passes a different response `r` to a card in state `s`:
      the reset effect's writes land first, then those of the typing effect, which still
      sees the previous render's `currentIndex` and `isTyping`. On an overrun that effect
      stops typing and marks the card completed over the reset, so nothing is shown;
      otherwise its writes (a timer, or none) leave the reset state. */
  function Changed(s: CardState, r: string): (c: CardState)
    ensures c == Reset(r) <==> !Overrun(s, r)
    ensures Overrun(s, r) ==> c.displayText == "" && c.currentIndex == 0
                              && !c.isTyping && c.isCompleted
  {
    if Overrun(s, r) then Fresh.(isTyping := false, isCompleted := true)
    else Reset(r)
  }

  /** After an overrun the new response is never typed: no timer is pending, so ticks
      change nothing, the card stays completed with nothing shown, the regenerate button is
      offered, and the state is not one the response can reach by typing. */
  lemma OverrunNeverTypes(s: CardState, r: string, n: nat)
    requires Overrun(s, r)
    ensures Ticks(r, Changed(s, r), n) == Changed(s, r)
    ensures Changed(s, r).displayText != r
    ensures CanRegenerate(Changed(s, r), true)
    ensures !Valid(r, Changed(s, r))
  {
    StuckStaysStuck(r, Changed(s, r), n);
  }

  /** A card that had finished its previous response is never overrun: the next response
      is typed from the start. */
  lemma CompletedCardResets(prev: string, s: CardState, r: string)
    requires Valid(prev, s) && s.isCompleted
    ensures Changed(s, r) == Reset(r)
  {
  }

  /** While a response is being typed, a new response overruns exactly when it is
      non-empty and no longer than the index typing has reached. */
  lemma OverrunWhileTyping(prev: string, s: CardState, r: string)
    requires Valid(prev, s) && prev != "" && s.isTyping
    ensures Changed(s, r) != Reset(r) <==> 0 < |r| <= s.currentIndex
  {
  }

  /** The chat pages blank the response before every request, so whatever state the card
      was in, the answer that follows is typed from the start. */
  lemma BlankThenAnswer(s: CardState, a: string)
    ensures Changed(Changed(s, ""), a) == Reset(a)
  {
  }

  /** `isCompleted && onRegenerate`: the button is shown once the card is complete and a
      callback is given. */
  function CanRegenerate(s: CardState, hasCallback: bool): bool
  {
    s.isCompleted && hasCallback
  }

  /** The regenerate button appears only once the whole answer is shown, and never for an
      empty answer. */
  lemma RegenerateOnlyWhenShown(response: string, s: CardState, hasCallback: bool)
    requires Valid(response, s)
    ensures CanRegenerate(s, hasCallback) <==>
              hasCallback && response != "" && s.displayText == response
  {
    if response != "" && s.displayText == response {
      assert |s.displayText| == s.currentIndex;
    }
  }

  // ---------------------------------------------------------------------------------
  // formatTextWithLineBreaks

  /** `text.split("\n")`: the pieces between line feeds, one more than there are line
      feeds. */
  function Lines(text: string): (lines: seq<string>)
    ensures |lines| >= 1
    ensures forall i :: 0 <= i < |lines| ==> '\n' !in lines[i]
  {
    if text == [] then [""]
    else
      var rest := Lines(text[1..]);
      if text[0] == '\n' then [""] + rest
      else [[text[0]] + rest[0]] + rest[1..]
  }

  function CountLineFeeds(text: string): nat
  {
    if text == [] then 0 else (if text[0] == '\n' then 1 else 0) + CountLineFeeds(text[1..])
  }

  /** `lines.join("\n")`. */
  function JoinLines(lines: seq<string>): string
    requires |lines| >= 1
  {
    if |lines| == 1 then lines[0] else lines[0] + "\n" + JoinLines(lines[1..])
  }

  /** One rendered fragment: a line and whether a `<br />` follows it. */
  datatype Fragment = Fragment(line: string, br: bool)

  function Format(text: string): (r: seq<Fragment>)
    ensures |r| == |Lines(text)|
    ensures forall i :: 0 <= i < |r| ==> r[i].line == Lines(text)[i]
    ensures forall i :: 0 <= i < |r| ==> (r[i].br <==> i < |r| - 1)
  {
    var lines := Lines(text);
    seq(|lines|, i requires 0 <= i < |lines| => Fragment(lines[i], i < |lines| - 1))
  }

  /** The text the fragments show, each break read as a line feed. */
  function Rendered(fs: seq<Fragment>): string
  {
    if fs == [] then [] else fs[0].line + (if fs[0].br then "\n" else "") + Rendered(fs[1..])
  }

  function Breaks(fs: seq<Fragment>): nat
  {
    if fs == [] then 0 else (if fs[0].br then 1 else 0) + Breaks(fs[1..])
  }

  /** Splitting on line feeds and joining them back gives the text, and the split has one
      piece more than the text has line feeds. */
  lemma {:induction false} LinesRoundTrip(text: string)
    ensures JoinLines(Lines(text)) == text
    ensures |Lines(text)| == CountLineFeeds(text) + 1
    decreases |text|
  {
    if text != [] {
      var rest := Lines(text[1..]);
      LinesRoundTrip(text[1..]);
      if text[0] == '\n' {
        assert ([""] + rest)[1..] == rest;
        assert text == "\n" + text[1..];
      } else {
        var lines := [[text[0]] + rest[0]] + rest[1..];
        if |rest| > 1 {
          assert lines[1..] == rest[1..];
          assert JoinLines(rest) == rest[0] + "\n" + JoinLines(rest[1..]);
        }
        assert text == [text[0]] + text[1..];
      }
    }
  }

  lemma {:induction false} RenderedLines(lines: seq<string>, fs: seq<Fragment>)
    requires |lines| >= 1 && |fs| == |lines|
    requires forall i :: 0 <= i < |fs| ==> fs[i].line == lines[i] && (fs[i].br <==> i < |fs| - 1)
    ensures Rendered(fs) == JoinLines(lines)
    ensures Breaks(fs) == |lines| - 1
    decreases |lines|
  {
    if |lines| > 1 {
      RenderedLines(lines[1..], fs[1..]);
    } else {
      assert Rendered(fs[1..]) == [] && Breaks(fs[1..]) == 0;
    }
  }

  /** The rendered fragments show exactly the text: one line per piece, a break after every
      line but the last, so as many breaks as line feeds. */
  lemma FormatShowsText(text: string)
    ensures Rendered(Format(text)) == text
    ensures Breaks(Format(text)) == CountLineFeeds(text)
    ensures |Format(text)| == CountLineFeeds(text) + 1
  {
    LinesRoundTrip(text);
    RenderedLines(Lines(text), Format(text));
  }

  // ---------------------------------------------------------------------------------
  // The component

  class Card {
    var response: string
    var displayText: string
    var currentIndex: nat
    var isTyping: bool
    var isCompleted: bool

    function State(): CardState
      reads this
    {
      CardState(displayText, currentIndex, isTyping, isCompleted)
    }

    /** Mounting with a response: the initial `useState` values are overwritten by the
        reset effect, then the typing effect runs. */
    constructor (r: string)
      ensures response == r && State() == Reset(r)
    {
      response := r;
      displayText, currentIndex, isTyping, isCompleted := "", 0, true, false;
      new;
      RunEffect();
    }

    /** The typing effect run without scheduling a timer. */
    method RunEffect()
      modifies this
      ensures response == old(response) && State() == Settled(response, old(State()))
    {
      if !isTyping || response == "" {
        return;
      }
      if currentIndex >= |response| {
        isTyping := false;
        isCompleted := true;
      }
    }

    /** The parent re-renders the card with `response` `r`; both effects depend on it, so
        nothing happens unless it differs from the current one. */
    method ChangeResponse(r: string)
      modifies this
      ensures response == r
      ensures r == old(response) ==> State() == old(State())
      ensures r != old(response) ==> State() == Changed(old(State()), r)
    {
      if r == response {
        return;
      }
      // the typing effect of this commit reads the previous render's values
      var overrun := isTyping && r != "" && currentIndex >= |r|;
      response := r;
      displayText := "";
      currentIndex := 0;
      isTyping := true;
      isCompleted := false;
      if overrun {
        isTyping := false;
        isCompleted := true;
      } else {
        RunEffect();
      }
    }

    /** The pending timer fires. */
    method TimerFires()
      requires Pending(response, State())
      modifies this
      ensures response == old(response) && State() == Tick(response, old(State()))
    {
      displayText := displayText + [response[currentIndex]];
      currentIndex := currentIndex + 1;
      RunEffect();
    }

    /** Timers keep firing while one is pending: from any valid state the card ends up
        showing the whole response, completed; an empty response is left typing. */
    method TypeOut()
      requires Valid(response, State())
      modifies this
      ensures response == old(response) && Valid(response, State())
      ensures response != "" ==> State() == CardState(response, |response|, false, true)
      ensures response == "" ==> State() == old(State())
    {
      while Pending(response, State())
        invariant response == old(response) && Valid(response, State())
        invariant response == "" ==> State() == old(State())
        decreases |response| - currentIndex
      {
        TickKeepsValid(response, State());
        TimerFires();
      }
      if response != "" {
        assert response[..|response|] == response;
      }
    }
  }
}

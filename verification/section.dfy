/** The stand-alone chat section: the same request controller as the home page, plus a
    history of the last five questions, and an answer that is cleaned of stray whitespace
    before it is shown.

    Its `askAI` closure captures both the mode flag and the history list. The membership
    test reads the captured list while the insertion extends the latest one, so the retry
    (a call of the same closure) inserts the question a second time. Here a 2xx reply
    whose body is not JSON, or has no string `response`, makes the code throw and so goes
    through the `catch` block: it is retried while the captured mode is online. */
module ChatSection {
  import opened Common
  import opened Fetch
  import ResponseCleaning

  const HistoryLimit := 5

  datatype SectionState = SectionState(
    userPrompt: string,
    aiResponse: string,
    isLoading: bool,
    errorMessage: string,
    useMock: bool,
    backendStatus: BackendStatus,
    previousQuestions: seq<string>,
    requests: seq<Request>,
    notices: seq<Notice>)

  const Initial := SectionState("", "", false, "", false, Checking, [], [], [])

  const GoOffline := Notice("Info", "Beralih ke mode offline untuk sementara", Default)
  const BackendFailed := Notice("Error", "Terjadi kesalahan saat menghubungi backend", Destructive)

  // ---------------------------------------------------------------------------------
  // Question history

  predicate NoDuplicates(h: seq<string>)
  {
    forall i, j :: 0 <= i < j < |h| ==> h[i] != h[j]
  }

  /** The history after asking `question`: unchanged when the captured list already holds
      it, otherwise the question in front of the latest list, cut to five entries. */
  function Remembered(captured: seq<string>, latest: seq<string>, question: string): (h: seq<string>)
    ensures question in captured ==> h == latest
    ensures question !in captured ==>
              && |h| == (if |latest| < HistoryLimit then |latest| + 1 else HistoryLimit)
              && h[0] == question
              && h[1..] == latest[..|h| - 1]
    ensures |latest| <= HistoryLimit ==> |h| <= HistoryLimit
  {
    if question in captured then latest
    else
      var grown := [question] + latest;
      if |grown| <= HistoryLimit then grown else grown[..HistoryLimit]
  }

  /** When the captured list is the latest one, the history stays free of duplicates. */
  lemma RememberedNoDuplicates(history: seq<string>, question: string)
    requires NoDuplicates(history)
    ensures NoDuplicates(Remembered(history, history, question))
  {
    var h := Remembered(history, history, question);
    if question !in history {
      forall i, j | 0 <= i < j < |h| ensures h[i] != h[j] {
        if i == 0 {
          assert h[j] == history[j - 1];
        } else {
          assert h[i] == history[i - 1] && h[j] == history[j - 1];
        }
      }
    }
  }

  // ---------------------------------------------------------------------------------
  // Specification of askAI

  /** `checkBackend`: the same logic as `ChatPage.Probed`, over the section's state. */
  function Probed(s: SectionState, p: Probe): (r: SectionState)
    ensures p == ProbeReply(true) ==> r.backendStatus == Connected && !r.useMock
    ensures p != ProbeReply(true) ==> r.backendStatus == Error && r.useMock
    ensures r.(backendStatus := s.backendStatus, useMock := s.useMock) == s
  {
    if p == ProbeReply(true) then s.(backendStatus := Connected, useMock := false)
    else s.(backendStatus := Error, useMock := true)
  }

  /** `toggleMode`: the same logic as `ChatPage.Toggled`, over the section's state. */
  function Toggled(s: SectionState): (r: SectionState)
    ensures r.useMock == !s.useMock
    ensures r.notices == s.notices + [ModeChanged(r.useMock)]
    ensures r.(useMock := s.useMock, notices := s.notices) == s
  {
    s.(useMock := !s.useMock, notices := s.notices + [ModeChanged(!s.useMock)])
  }

  /** Whether a 2xx body yields an answer: it parses to a value whose `response` is a
      string. */
  predicate HasAnswer(b: Body)
  {
    b.parsed.Some? && b.parsed.value.JObj? && b.parsed.value.response.Some?
  }

  function Started(s: SectionState, question: string, capturedMock: bool,
                   capturedHistory: seq<string>): (r: SectionState)
    ensures r.isLoading && r.aiResponse == "" && r.errorMessage == ""
    ensures r.requests == s.requests + [Request(EndpointFor(capturedMock), question)]
    ensures question in capturedHistory ==> r.previousQuestions == s.previousQuestions
    ensures question !in capturedHistory ==> r.previousQuestions != [] && r.previousQuestions[0] == question
    ensures |s.previousQuestions| <= HistoryLimit ==> |r.previousQuestions| <= HistoryLimit
    ensures r.(isLoading := s.isLoading, aiResponse := s.aiResponse, errorMessage := s.errorMessage,
               previousQuestions := s.previousQuestions, requests := s.requests) == s
  {
    s.(isLoading := true, aiResponse := "", errorMessage := "",
       previousQuestions := Remembered(capturedHistory, s.previousQuestions, question),
       requests := s.requests + [Request(EndpointFor(capturedMock), question)])
  }

  datatype Step = Done(state: SectionState) | Retry(state: SectionState)

  /** The `catch` block: online, announce offline mode, store it and retry; offline, show
      the error. */
  function Caught(s: SectionState, e: Thrown, capturedMock: bool): (st: Step)
    ensures st.Retry? <==> !capturedMock
    ensures st.Retry? ==> st.state == s.(notices := s.notices + [GoOffline], useMock := true)
    ensures st.Done? ==> && st.state.errorMessage == "Error: " + ThrownText(e)
                         && st.state.notices == s.notices + [BackendFailed]
                         && !st.state.isLoading && st.state.useMock == s.useMock
    ensures st.state.requests == s.requests && st.state.previousQuestions == s.previousQuestions
  {
    if !capturedMock then Retry(s.(notices := s.notices + [GoOffline], useMock := true))
    else Done(s.(errorMessage := "Error: " + ThrownText(e), notices := s.notices + [BackendFailed],
                 isLoading := false))
  }

  /** One attempt. When a 2xx body has no answer, the engine throws an error whose message
      is `engineMessage`. */
  function Attempt(s: SectionState, o: Outcome, capturedMock: bool, engineMessage: string): (st: Step)
    ensures st.state.requests == s.requests && st.state.previousQuestions == s.previousQuestions
    ensures st.state.userPrompt == s.userPrompt && st.state.backendStatus == s.backendStatus
    ensures st.Retry? <==> !capturedMock && !(o.Ok? && HasAnswer(o.body))
    ensures st.Retry? ==> st.state.useMock && st.state.isLoading == s.isLoading
    ensures st.Done? ==> !st.state.isLoading && st.state.useMock == s.useMock
    ensures o.Ok? && HasAnswer(o.body) ==>
              st.state.aiResponse == ResponseCleaning.Clean(o.body.parsed.value.response.value)
  {
    match o
    case NotOk(b) =>
      var failed := s.(errorMessage := "Error: " + ErrorDetail(b));
      if !capturedMock then Retry(failed.(notices := failed.notices + [GoOffline], useMock := true))
      else Done(failed.(notices := failed.notices + [BackendFailed], isLoading := false))
    case Ok(b) =>
      if HasAnswer(b) then
        Done(s.(aiResponse := ResponseCleaning.Clean(b.parsed.value.response.value),
                isLoading := false))
      else Caught(s, ErrorObject(engineMessage), capturedMock)
    case Throw(e) => Caught(s, e, capturedMock)
  }

  datatype Run = Run(state: SectionState, settled: bool)

  function AskSpec(s: SectionState, question: string, capturedMock: bool,
                   capturedHistory: seq<string>, outcomes: seq<Outcome>,
                   engineMessage: string): (r: Run)
    decreases |outcomes|
    ensures IsBlank(question) ==>
              r == Run(s.(notices := s.notices + [EmptyQuestion]), true)
    ensures !IsBlank(question) ==>
              && SentOnlyTo(s.requests, r.state.requests, Request(EndpointFor(capturedMock), question))
              && (r.settled <==> !r.state.isLoading)
    ensures capturedMock && !IsBlank(question) ==>
              |r.state.requests| == |s.requests| + 1 && r.state.useMock == s.useMock
    // the history never grows past five, and holds the question in front when it was new
    ensures |s.previousQuestions| <= HistoryLimit ==> |r.state.previousQuestions| <= HistoryLimit
    ensures question in capturedHistory ==> r.state.previousQuestions == s.previousQuestions
    ensures question !in capturedHistory && !IsBlank(question) ==>
              r.state.previousQuestions != [] && r.state.previousQuestions[0] == question
    ensures r.state.userPrompt == s.userPrompt && r.state.backendStatus == s.backendStatus
  {
    if IsBlank(question) then Run(s.(notices := s.notices + [EmptyQuestion]), true)
    else
      var sent := Started(s, question, capturedMock, capturedHistory);
      if outcomes == [] then Run(sent, false)
      else
        match Attempt(sent, outcomes[0], capturedMock, engineMessage)
        case Done(t) => Run(t, true)
        case Retry(t) =>
          var inner := AskSpec(t, question, capturedMock, capturedHistory, outcomes[1..], engineMessage);
          SentOnlyToStep(s.requests, inner.state.requests, Request(EndpointFor(capturedMock), question));
          if inner.settled then Run(inner.state.(isLoading := false), true) else inner
  }

  // ---------------------------------------------------------------------------------
  // Properties of the specification

  /** Outcomes that end in the `catch` block or the non-2xx branch. */
  predicate IsFailure(o: Outcome)
  {
    o.NotOk? || o.Throw? || (o.Ok? && !HasAnswer(o.body))
  }

  /** Online, every failure, including a 2xx reply without an answer, re-sends the same
      question to `/ask`, with no bound on how often. */
  lemma {:induction false} RetriesWhileFailing(s: SectionState, question: string,
                                               capturedHistory: seq<string>,
                                               failures: seq<Outcome>, engineMessage: string)
    requires !IsBlank(question)
    requires forall i :: 0 <= i < |failures| ==> IsFailure(failures[i])
    decreases |failures|
    ensures var r := AskSpec(s, question, false, capturedHistory, failures, engineMessage);
            && !r.settled && r.state.isLoading
            && r.state.requests == s.requests + Repeat(Request(Ask, question), |failures| + 1)
            && r.state.useMock == (s.useMock || failures != [])
  {
    if failures != [] {
      var sent := Started(s, question, false, capturedHistory);
      var st := Attempt(sent, failures[0], false, engineMessage);
      assert st.Retry?;
      var t := st.state;
      var inner := AskSpec(t, question, false, capturedHistory, failures[1..], engineMessage);
      RetriesWhileFailing(t, question, capturedHistory, failures[1..], engineMessage);
      assert AskSpec(s, question, false, capturedHistory, failures, engineMessage) == inner;
      assert Repeat(Request(Ask, question), |failures| + 1)
          == [Request(Ask, question)] + Repeat(Request(Ask, question), |failures|);
    }
  }

  /** Offline, a failure is terminal, a 2xx reply without an answer included: one request
      to `/ask-mock`, the error shown and a destructive notice. */
  lemma OfflineFailureIsTerminal(s: SectionState, question: string, capturedHistory: seq<string>,
                                 o: Outcome, rest: seq<Outcome>, engineMessage: string)
    requires !IsBlank(question) && IsFailure(o)
    ensures var r := AskSpec(s, question, true, capturedHistory, [o] + rest, engineMessage);
            && r.settled && !r.state.isLoading
            && r.state.requests == s.requests + [Request(AskMock, question)]
            && r.state.errorMessage ==
                 "Error: " + (if o.NotOk? then ErrorDetail(o.body)
                              else if o.Throw? then ThrownText(o.error)
                              else engineMessage)
            && r.state.notices == s.notices + [BackendFailed]
            && r.state.useMock == s.useMock
  {
  }

  /** An answer is shown cleaned: the reply's non-whitespace characters in order, trimmed,
      single-spaced, and with no whitespace before punctuation. */
  lemma AnswerIsTidy(s: SectionState, question: string, capturedMock: bool,
                     capturedHistory: seq<string>, b: Body, rest: seq<Outcome>,
                     engineMessage: string)
    requires !IsBlank(question) && HasAnswer(b)
    ensures var r := AskSpec(s, question, capturedMock, capturedHistory, [Ok(b)] + rest, engineMessage);
            && r.settled && !r.state.isLoading && r.state.useMock == s.useMock
            && NonWs(r.state.aiResponse) == NonWs(b.parsed.value.response.value)
            && ResponseCleaning.Tidy(r.state.aiResponse)
  {
    ResponseCleaning.CleanIsTidy(b.parsed.value.response.value);
  }

  /** The retry inserts the question twice: from an empty history, a failure online and
      then an answer leave the question in the history two times. */
  lemma RetryDuplicatesHistory(s: SectionState, question: string, e: Thrown, b: Body,
                               engineMessage: string)
    requires !IsBlank(question) && HasAnswer(b) && s.previousQuestions == []
    ensures var r := AskSpec(s, question, false, [], [Throw(e), Ok(b)], engineMessage);
            r.settled && r.state.previousQuestions == [question, question]
            && !NoDuplicates(r.state.previousQuestions)
  {
    var t := Attempt(Started(s, question, false, []), Throw(e), false, engineMessage).state;
    assert t.previousQuestions == [question];
    var sent := Started(t, question, false, []);
    assert sent.previousQuestions == [question, question];
    var inner := AskSpec(t, question, false, [], [Ok(b)], engineMessage);
    assert inner == Run(Attempt(sent, Ok(b), false, engineMessage).state, true);
    assert [Throw(e), Ok(b)][1..] == [Ok(b)];
  }

  // ---------------------------------------------------------------------------------
  // The component

  /** A key press in the prompt box. */
  datatype KeyEvent = KeyEvent(key: string, ctrlKey: bool, metaKey: bool)

  /** Ctrl+Enter or Meta+Enter sends the prompt. */
  predicate SendsPrompt(e: KeyEvent)
  {
    e.key == "Enter" && (e.ctrlKey || e.metaKey)
  }

  class AISection {
    var userPrompt: string
    var aiResponse: string
    var isLoading: bool
    var errorMessage: string
    var useMock: bool
    var backendStatus: BackendStatus
    var previousQuestions: seq<string>
    var requests: seq<Request>
    var notices: seq<Notice>

    function State(): SectionState
      reads this
    {
      SectionState(userPrompt, aiResponse, isLoading, errorMessage, useMock, backendStatus,
                   previousQuestions, requests, notices)
    }

    constructor ()
      ensures State() == Initial
    {
      userPrompt, aiResponse, isLoading, errorMessage := "", "", false, "";
      useMock, backendStatus, previousQuestions := false, Checking, [];
      requests, notices := [], [];
    }

    /** `checkBackend`, run once when the section mounts. */
    method CheckBackend(probe: Probe)
      modifies this
      ensures State() == Probed(old(State()), probe)
    {
      if probe == ProbeReply(true) {
        backendStatus := Connected;
        useMock := false;
      } else {
        backendStatus := Error;
        useMock := true;
      }
    }

    method HandleThrown(e: Thrown, capturedMock: bool) returns (retry: bool)
      modifies this
      ensures Caught(old(State()), e, capturedMock) ==
                (if retry then Retry(State()) else Done(State()))
    {
      if !capturedMock {
        notices := notices + [GoOffline];
        useMock := true;
        return true;
      }
      errorMessage := "Error: " + ThrownText(e);
      notices := notices + [BackendFailed];
      isLoading := false;
      return false;
    }

    /** The history update of `askAI`. */
    method Remember(question: string, capturedHistory: seq<string>)
      modifies this
      ensures State() == old(State()).(previousQuestions :=
                Remembered(capturedHistory, old(previousQuestions), question))
    {
      if question !in capturedHistory {
        var grown := [question] + previousQuestions;
        previousQuestions := if |grown| <= HistoryLimit then grown else grown[..HistoryLimit];
      }
    }

    /** A 2xx reply with an answer: the answer, once cleaned, is shown and loading ends. */
    method ShowAnswer(cleaned: string)
      modifies this
      ensures State() == old(State()).(aiResponse := cleaned, isLoading := false)
    {
      aiResponse := cleaned;
      isLoading := false;
    }

    /** How `askAI` handles the outcome of its request; says whether to retry. */
    method Settle(outcome: Outcome, capturedMock: bool, engineMessage: string) returns (retry: bool)
      modifies this
      ensures Attempt(old(State()), outcome, capturedMock, engineMessage) ==
                (if retry then Retry(State()) else Done(State()))
    {
      retry := false;
      match outcome {
        case NotOk(b) =>
          errorMessage := "Error: " + ErrorDetail(b);
          if !capturedMock {
            notices := notices + [GoOffline];
            useMock := true;
            retry := true;
          } else {
            notices := notices + [BackendFailed];
            isLoading := false;
          }
        case Ok(b) =>
          if HasAnswer(b) {
            ShowAnswer(ResponseCleaning.Clean(b.parsed.value.response.value));
          } else {
            retry := HandleThrown(ErrorObject(engineMessage), capturedMock);
          }
        case Throw(e) =>
          retry := HandleThrown(e, capturedMock);
      }
    }

    /** `askAI(question)`, with the mode flag and the history its closure captured. */
    method AskAI(question: string, capturedMock: bool, capturedHistory: seq<string>,
                 outcomes: seq<Outcome>, engineMessage: string) returns (settled: bool)
      modifies this
      decreases |outcomes|
      ensures Run(State(), settled) ==
                AskSpec(old(State()), question, capturedMock, capturedHistory, outcomes, engineMessage)
    {
      if IsBlank(question) {
        notices := notices + [EmptyQuestion];
        return true;
      }
      isLoading := true;
      aiResponse := "";
      errorMessage := "";
      Remember(question, capturedHistory);
      var endpoint := if capturedMock then AskMock else Ask;
      requests := requests + [Request(endpoint, question)];
      if outcomes == [] {
        return false;
      }
      var retry := Settle(outcomes[0], capturedMock, engineMessage);
      if !retry {
        return true;
      }
      settled := AskAI(question, capturedMock, capturedHistory, outcomes[1..], engineMessage);
      if settled {
        isLoading := false;   // the `finally` block of the outer call
      }
    }

    /** `toggleMode`. */
    method ToggleMode()
      modifies this
      ensures State() == Toggled(old(State()))
    {
      notices := notices + [ModeChanged(!useMock)];
      useMock := !useMock;
    }

    /** `regenerateResponse`: ask the current prompt again. */
    method RegenerateResponse(outcomes: seq<Outcome>, engineMessage: string)
      returns (settled: bool)
      modifies this
      ensures Run(State(), settled) ==
                AskSpec(old(State()), old(userPrompt), old(useMock), old(previousQuestions),
                        outcomes, engineMessage)
    {
      settled := AskAI(userPrompt, useMock, previousQuestions, outcomes, engineMessage);
    }

    /** `handleKeyDown`: Ctrl/Meta+Enter prevents the default action and asks the current
        prompt; any other key does nothing. */
    method HandleKeyDown(e: KeyEvent, outcomes: seq<Outcome>, engineMessage: string)
      returns (prevented: bool, settled: bool)
      modifies this
      ensures prevented == SendsPrompt(e)
      ensures SendsPrompt(e) ==>
                Run(State(), settled) ==
                  AskSpec(old(State()), old(userPrompt), old(useMock), old(previousQuestions),
                          outcomes, engineMessage)
      ensures !SendsPrompt(e) ==> State() == old(State())
    {
      prevented, settled := false, true;
      if e.key == "Enter" && (e.ctrlKey || e.metaKey) {
        prevented := true;
        settled := AskAI(userPrompt, useMock, previousQuestions, outcomes, engineMessage);
      }
    }
  }
}

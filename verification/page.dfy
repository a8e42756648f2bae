/** The chat controller of the home page: the startup probe of the backend, sending a
    question to `/ask` or `/ask-mock`, falling back to offline mode on failure, the mode
    toggle and regenerating an answer.

    `askAI` reads the mode flag captured when it was created, and its retry is a call of
    that same closure, so every retry of a question sent online goes to `/ask` again even
    though the stored flag is now offline. The captured flag is the parameter
    `capturedMock`; the stored flag is the field `useMock`. Each attempt consumes the next
    element of a finite sequence of network outcomes; when the sequence runs out the last
    request is still pending. */
module ChatPage {
  import opened Common
  import opened Fetch

  /** The component's state, and the requests and toast notices it has issued so far.
      `aiResponse` is `None` when the reply's `response` property was undefined. */
  datatype PageState = PageState(
    userPrompt: string,
    aiResponse: Option<string>,
    isLoading: bool,
    errorMessage: string,
    useMock: bool,
    backendStatus: BackendStatus,
    isTyping: bool,
    requests: seq<Request>,
    notices: seq<Notice>)

  const Initial := PageState("", Some(""), false, "", false, Checking, false, [], [])

  const TryOffline := Notice("Info", "Mencoba menggunakan mode offline", Default)
  const ContactFailed := Notice("Error", "Terjadi kesalahan saat menghubungi AI", Destructive)
  const InvalidFormatText := "Format respons tidak valid"
  const InvalidFormat := Notice("Error", InvalidFormatText, Destructive)

  // ---------------------------------------------------------------------------------
  // Specification

  function Probed(s: PageState, p: Probe): (r: PageState)
    ensures p == ProbeReply(true) ==> r.backendStatus == Connected && !r.useMock
    ensures p != ProbeReply(true) ==> r.backendStatus == Error && r.useMock
    ensures r.(backendStatus := s.backendStatus, useMock := s.useMock) == s
  {
    if p == ProbeReply(true) then s.(backendStatus := Connected, useMock := false)
    else s.(backendStatus := Error, useMock := true)
  }

  function Toggled(s: PageState): (r: PageState)
    ensures r.useMock == !s.useMock
    ensures r.notices == s.notices + [ModeChanged(r.useMock)]
    ensures r.(useMock := s.useMock, notices := s.notices) == s
  {
    s.(useMock := !s.useMock, notices := s.notices + [ModeChanged(!s.useMock)])
  }

  /** The state once an attempt has been sent: loading, answer and error cleared, and one
      more request on the log. */
  function Started(s: PageState, question: string, capturedMock: bool): (r: PageState)
    ensures r.isLoading && r.isTyping && r.aiResponse == Some("") && r.errorMessage == ""
    ensures r.requests == s.requests + [Request(EndpointFor(capturedMock), question)]
    ensures r.(isLoading := s.isLoading, isTyping := s.isTyping, aiResponse := s.aiResponse,
               errorMessage := s.errorMessage, requests := s.requests) == s
  {
    s.(isLoading := true, aiResponse := Some(""), errorMessage := "", isTyping := true,
       requests := s.requests + [Request(EndpointFor(capturedMock), question)])
  }

  /** How one attempt ends: for good, or by calling `askAI` again. */
  datatype Step = Done(state: PageState) | Retry(state: PageState)

  /** The `catch` block: online, announce offline mode, store it and retry; offline, show
      the error. */
  function Caught(s: PageState, e: Thrown, capturedMock: bool): (st: Step)
    ensures st.Retry? <==> !capturedMock
    ensures st.Retry? ==> st.state == s.(notices := s.notices + [TryOffline], useMock := true)
    ensures st.Done? ==> && st.state.errorMessage == "Error: " + ThrownText(e)
                         && st.state.notices == s.notices + [ContactFailed]
                         && !st.state.isLoading && st.state.useMock == s.useMock
    ensures st.state.requests == s.requests
  {
    if !capturedMock then Retry(s.(notices := s.notices + [TryOffline], useMock := true))
    else Done(s.(errorMessage := "Error: " + ThrownText(e), notices := s.notices + [ContactFailed],
                 isLoading := false))
  }

  /** What one attempt does with its outcome. A `null` JSON body makes `data.response`
      throw a TypeError whose message is `engineMessage`. */
  function Attempt(s: PageState, o: Outcome, capturedMock: bool, engineMessage: string): (st: Step)
    ensures st.state.requests == s.requests
    ensures st.state.userPrompt == s.userPrompt && st.state.backendStatus == s.backendStatus
    ensures st.Retry? <==> !capturedMock && (o.NotOk? || o.Throw? || o == Ok(Body(o.body.text, Some(JNull))))
    ensures st.Retry? ==> st.state.useMock && st.state.isLoading == s.isLoading
    ensures st.Done? ==> !st.state.isLoading && st.state.useMock == s.useMock
  {
    match o
    case NotOk(b) =>
      var failed := s.(errorMessage := "Error: " + ErrorDetail(b));
      if !capturedMock then Retry(failed.(notices := failed.notices + [TryOffline], useMock := true))
      else Done(failed.(notices := failed.notices + [ContactFailed], isLoading := false))
    case Ok(b) =>
      (match b.parsed
       case None =>
         Done(s.(errorMessage := InvalidFormatText, notices := s.notices + [InvalidFormat],
                 isLoading := false))
       case Some(JNull) => Caught(s, ErrorObject(engineMessage), capturedMock)
       case Some(JObj(_, response)) => Done(s.(aiResponse := response, isLoading := false)))
    case Throw(e) => Caught(s, e, capturedMock)
  }

  /** The final state of `askAI(question)` and whether it has settled. */
  datatype Run = Run(state: PageState, settled: bool)

  function AskSpec(s: PageState, question: string, capturedMock: bool,
                   outcomes: seq<Outcome>, engineMessage: string): (r: Run)
    decreases |outcomes|
    // a blank question only raises a notice
    ensures IsBlank(question) ==>
              r == Run(s.(notices := s.notices + [EmptyQuestion]), true)
    // otherwise it is sent, unchanged, to the endpoint the captured flag selects, once or more
    ensures !IsBlank(question) ==>
              && SentOnlyTo(s.requests, r.state.requests, Request(EndpointFor(capturedMock), question))
              && (r.settled <==> !r.state.isLoading)
    // sent offline, it is sent exactly once
    ensures capturedMock && !IsBlank(question) ==>
              |r.state.requests| == |s.requests| + 1 && r.state.useMock == s.useMock
    ensures r.state.userPrompt == s.userPrompt && r.state.backendStatus == s.backendStatus
  {
    if IsBlank(question) then Run(s.(notices := s.notices + [EmptyQuestion]), true)
    else
      var sent := Started(s, question, capturedMock);
      if outcomes == [] then Run(sent, false)
      else
        match Attempt(sent, outcomes[0], capturedMock, engineMessage)
        case Done(t) => Run(t, true)
        case Retry(t) =>
          var inner := AskSpec(t, question, capturedMock, outcomes[1..], engineMessage);
          SentOnlyToStep(s.requests, inner.state.requests, Request(EndpointFor(capturedMock), question));
          if inner.settled then Run(inner.state.(isLoading := false), true) else inner
  }

  // ---------------------------------------------------------------------------------
  // Properties of the specification

  predicate IsFailure(o: Outcome)
  {
    o.NotOk? || o.Throw?
  }

  /** Online, every failure stores offline mode and re-sends the same question to `/ask`,
      with no bound: after `n` failures there have been `n + 1` requests and the last one
      is still pending. */
  lemma {:induction false} RetriesWhileFailing(s: PageState, question: string,
                                               failures: seq<Outcome>, engineMessage: string)
    requires !IsBlank(question)
    requires forall i :: 0 <= i < |failures| ==> IsFailure(failures[i])
    decreases |failures|
    ensures var r := AskSpec(s, question, false, failures, engineMessage);
            && !r.settled && r.state.isLoading
            && r.state.requests == s.requests + Repeat(Request(Ask, question), |failures| + 1)
            && r.state.useMock == (s.useMock || failures != [])
            && r.state.notices == s.notices + Repeat(TryOffline, |failures|)
  {
    var sent := Started(s, question, false);
    if failures != [] {
      var t := Attempt(sent, failures[0], false, engineMessage).state;
      RetriesWhileFailing(t, question, failures[1..], engineMessage);
      assert Repeat(Request(Ask, question), |failures| + 1)
          == [Request(Ask, question)] + Repeat(Request(Ask, question), |failures|);
      assert Repeat(TryOffline, |failures|) == [TryOffline] + Repeat(TryOffline, |failures| - 1);
    }
  }

  /** Online, a run of failures followed by a 2xx reply whose JSON carries `response`
      shows that answer; the stored mode is offline when it already was or a failure
      happened. */
  lemma {:induction false} SuccessAfterFailures(s: PageState, question: string,
                                                failures: seq<Outcome>, b: Body,
                                                engineMessage: string)
    requires !IsBlank(question)
    requires forall i :: 0 <= i < |failures| ==> IsFailure(failures[i])
    requires b.parsed.Some? && b.parsed.value.JObj?
    decreases |failures|
    ensures var r := AskSpec(s, question, false, failures + [Ok(b)], engineMessage);
            && r.settled && !r.state.isLoading
            && r.state.aiResponse == b.parsed.value.response
            && r.state.errorMessage == ""
            && r.state.requests == s.requests + Repeat(Request(Ask, question), |failures| + 1)
            && r.state.useMock == (s.useMock || failures != [])
  {
    var sent := Started(s, question, false);
    if failures == [] {
      assert failures + [Ok(b)] == [Ok(b)];
    } else {
      var t := Attempt(sent, failures[0], false, engineMessage).state;
      assert (failures + [Ok(b)])[1..] == failures[1..] + [Ok(b)];
      SuccessAfterFailures(t, question, failures[1..], b, engineMessage);
      assert Repeat(Request(Ask, question), |failures| + 1)
          == [Request(Ask, question)] + Repeat(Request(Ask, question), |failures|);
    }
  }

  /** Offline, a failure is terminal: one request to `/ask-mock`, the error shown and a
      destructive notice, whatever outcomes would follow. */
  lemma OfflineFailureIsTerminal(s: PageState, question: string, o: Outcome,
                                 rest: seq<Outcome>, engineMessage: string)
    requires !IsBlank(question) && IsFailure(o)
    ensures var r := AskSpec(s, question, true, [o] + rest, engineMessage);
            && r.settled && !r.state.isLoading
            && r.state.requests == s.requests + [Request(AskMock, question)]
            && r.state.errorMessage ==
                 "Error: " + (if o.NotOk? then ErrorDetail(o.body) else ThrownText(o.error))
            && r.state.notices == s.notices + [ContactFailed]
            && r.state.useMock == s.useMock
  {
  }

  /** A 2xx reply that is not JSON shows the format error, is not retried and leaves the
      mode alone, online or offline. */
  lemma UnparseableSuccess(s: PageState, question: string, capturedMock: bool, text: string,
                           rest: seq<Outcome>, engineMessage: string)
    requires !IsBlank(question)
    ensures var r := AskSpec(s, question, capturedMock, [Ok(Body(text, None))] + rest, engineMessage);
            && r.settled && !r.state.isLoading
            && |r.state.requests| == |s.requests| + 1
            && r.state.errorMessage == "Format respons tidak valid"
            && r.state.notices == s.notices + [InvalidFormat]
            && r.state.useMock == s.useMock
  {
  }

  // ---------------------------------------------------------------------------------
  // The component

  class Home {
    var userPrompt: string
    var aiResponse: Option<string>
    var isLoading: bool
    var errorMessage: string
    var useMock: bool
    var backendStatus: BackendStatus
    var isTyping: bool
    var requests: seq<Request>
    var notices: seq<Notice>

    function State(): PageState
      reads this
    {
      PageState(userPrompt, aiResponse, isLoading, errorMessage, useMock, backendStatus,
                isTyping, requests, notices)
    }

    /** The initial `useState` values: checking, online, nothing sent. */
    constructor ()
      ensures State() == Initial
    {
      userPrompt, aiResponse, isLoading, errorMessage := "", Some(""), false, "";
      useMock, backendStatus, isTyping := false, Checking, false;
      requests, notices := [], [];
    }

    /** `checkBackend`, run once when the page mounts. */
    method CheckBackend(probe: Probe)
      modifies this
      ensures State() == Probed(old(State()), probe)
    {
      match probe
      case ProbeReply(ok) =>
        if ok {
          backendStatus := Connected;
          useMock := false;
        } else {
          backendStatus := Error;
          useMock := true;
        }
      case ProbeThrow =>
        backendStatus := Error;
        useMock := true;
    }

    /** The `catch` block of `askAI`; says whether to retry. */
    method HandleThrown(e: Thrown, capturedMock: bool) returns (retry: bool)
      modifies this
      ensures Caught(old(State()), e, capturedMock) ==
                (if retry then Retry(State()) else Done(State()))
    {
      if !capturedMock {
        notices := notices + [TryOffline];
        useMock := true;
        return true;
      }
      errorMessage := "Error: " + ThrownText(e);
      notices := notices + [ContactFailed];
      isLoading := false;
      return false;
    }

    /** How `askAI` handles the outcome of its request; says whether to retry. */
    method Settle(outcome: Outcome, capturedMock: bool, engineMessage: string) returns (retry: bool)
      modifies this
      ensures Attempt(old(State()), outcome, capturedMock, engineMessage) ==
                (if retry then Retry(State()) else Done(State()))
    {
      retry := false;
      match outcome {
        case NotOk(b) =>
          errorMessage := "Error: " + ErrorDetail(b);
          if !capturedMock {
            notices := notices + [TryOffline];
            useMock := true;
            retry := true;
          } else {
            notices := notices + [ContactFailed];
            isLoading := false;
          }
        case Ok(b) =>
          match b.parsed {
            case None =>
              errorMessage := InvalidFormatText;
              notices := notices + [InvalidFormat];
              isLoading := false;
            case Some(JNull) =>
              retry := HandleThrown(ErrorObject(engineMessage), capturedMock);
            case Some(JObj(_, response)) =>
              aiResponse := response;
              isLoading := false;
          }
        case Throw(e) =>
          retry := HandleThrown(e, capturedMock);
      }
    }

    /** `askAI(question)`, with the mode flag its closure captured. */
    method AskAI(question: string, capturedMock: bool, outcomes: seq<Outcome>,
                 engineMessage: string) returns (settled: bool)
      modifies this
      decreases |outcomes|
      ensures Run(State(), settled) ==
                AskSpec(old(State()), question, capturedMock, outcomes, engineMessage)
    {
      if IsBlank(question) {
        notices := notices + [EmptyQuestion];
        return true;
      }
      isLoading := true;
      aiResponse := Some("");
      errorMessage := "";
      isTyping := true;
      var endpoint := if capturedMock then AskMock else Ask;
      requests := requests + [Request(endpoint, question)];
      if outcomes == [] {
        return false;
      }
      var retry := Settle(outcomes[0], capturedMock, engineMessage);
      if !retry {
        return true;
      }
      settled := AskAI(question, capturedMock, outcomes[1..], engineMessage);
      if settled {
        isLoading := false;   // the `finally` block of the outer call
      }
    }

    /** `toggleMode`. */
    method ToggleMode()
      modifies this
      ensures State() == Toggled(old(State()))
    {
      notices := notices + [ModeChanged(!useMock)];
      useMock := !useMock;
    }

    /** `regenerateResponse`: ask the current prompt again, with the current mode. */
    method RegenerateResponse(outcomes: seq<Outcome>, engineMessage: string)
      returns (settled: bool)
      modifies this
      ensures Run(State(), settled) ==
                AskSpec(old(State()), old(userPrompt), old(useMock), outcomes, engineMessage)
    {
      settled := AskAI(userPrompt, useMock, outcomes, engineMessage);
    }
  }
}

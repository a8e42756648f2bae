/** What the chat front ends see of the network: the outcome of one `fetch` to the
    backend, the JSON view of a reply body, and the toast notices they raise. */
module Fetch {
  import opened Common

  /** The two POST endpoints of the backend. */
  datatype Endpoint = Ask | AskMock

  /** One POST with the JSON body `{question}`. */
  datatype Request = Request(endpoint: Endpoint, question: string)

  /** What `JSON.parse` returns, as far as the front ends look at it: `null`, or any other
      value, of which only the `detail` and `response` properties are read. A property is
      `Some(s)` when it holds the string `s` and `None` when it is undefined. */
  datatype Json = JNull | JObj(detail: Option<string>, response: Option<string>)

  /** A reply body: its text, and what `JSON.parse` makes of that text (`None` when it
      throws; it always throws on the empty text). */
  datatype Body = Body(text: string, parsed: Option<Json>)

  /** A value thrown by `fetch` or by reading the reply: an `Error` object with its
      message, or anything else. */
  datatype Thrown = ErrorObject(message: string) | OtherValue

  /** One attempt's outcome: a reply whose status is 2xx (`response.ok`), a reply whose
      status is not, or a thrown value. */
  datatype Outcome = Ok(body: Body) | NotOk(body: Body) | Throw(error: Thrown)

  /** `after` is the log `before` followed by one or more copies of the request `x`. */
  predicate SentOnlyTo(before: seq<Request>, after: seq<Request>, x: Request)
  {
    && |before| < |after|
    && after[..|before|] == before
    && forall i :: |before| <= i < |after| ==> after[i] == x
  }

  /** A log that extends `before + [x]` with copies of `x` extends `before` the same way. */
  lemma SentOnlyToStep(before: seq<Request>, after: seq<Request>, x: Request)
    requires |before| + 1 <= |after| && after[..|before| + 1] == before + [x]
    requires forall i :: |before| + 1 <= i < |after| ==> after[i] == x
    ensures SentOnlyTo(before, after, x)
  {
    assert after[..|before|] == after[..|before| + 1][..|before|];
    assert after[|before|] == after[..|before| + 1][|before|];
  }

  datatype Variant = Default | Destructive

  /** The properties passed to `toast`. */
  datatype Notice = Notice(title: string, description: string, variant: Variant)

  /** The reply's error detail: the parsed `detail` property (rendered `undefined` when
      absent); when the text is not JSON, or is the JSON `null` whose property read
      throws, the raw text, or a fixed fallback for an empty text. */
  function ErrorDetail(b: Body): (r: string)
    ensures b.parsed.Some? && b.parsed.value.JObj? && b.parsed.value.detail.Some? ==>
              r == b.parsed.value.detail.value
    ensures b.parsed.Some? && b.parsed.value.JObj? && b.parsed.value.detail.None? ==>
              r == "undefined"
    ensures (b.parsed.None? || b.parsed == Some(JNull)) && b.text != [] ==> r == b.text
    ensures (b.parsed.None? || b.parsed == Some(JNull)) && b.text == [] ==>
              r == "Gagal mendapatkan respons"
  {
    match b.parsed
    case Some(JObj(detail, _)) =>
      (match detail case Some(d) => d case None => "undefined")
    case _ =>
      if b.text != [] then b.text else "Gagal mendapatkan respons"
  }

  /** The text shown for a thrown value: its message when it is an `Error`. */
  function ThrownText(e: Thrown): (r: string)
    ensures e.ErrorObject? ==> r == e.message
    ensures e.OtherValue? ==> r == "Terjadi kesalahan koneksi"
  {
    match e
    case ErrorObject(m) => m
    case OtherValue => "Terjadi kesalahan koneksi"
  }

  /** The endpoint chosen by the mode flag an attempt captured. */
  function EndpointFor(useMock: bool): (e: Endpoint)
    ensures e == AskMock <==> useMock
  {
    if useMock then AskMock else Ask
  }

  const EmptyQuestion := Notice("Error", "Pertanyaan tidak boleh kosong", Destructive)

  /** The toast the mode toggle raises, naming the mode it switches to. */
  function ModeChanged(toOffline: bool): Notice
  {
    Notice("Mode Diubah", "Beralih ke mode " + (if toOffline then "offline" else "online"), Default)
  }

  datatype BackendStatus = Checking | Connected | Error

  /** The startup probe `GET /`: a reply with its `ok` flag, or a thrown value. */
  datatype Probe = ProbeReply(ok: bool) | ProbeThrow
}

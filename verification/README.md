# Portfolio chat: a Dafny model

This project models the parts of the portfolio site that hold logic and proves properties about them:

- the chat controller of the home page (`frontend/app/page.tsx`);
- the stand-alone chat section with its question history and answer normaliser (`frontend/components/AISection.tsx`);
- the two typewriter reveals (`AIResponseCard.tsx`, `TypewriterEffect.tsx`);
- the toast tray (`ui/toast.tsx`);
- the back end's `/ask` and `/ask-mock` answer logic (`backend/main.py`).

## How the model is built

Network traffic and timers become input events:

- Each `fetch` outcome is a value: `Ok(body)`, `NotOk(body)` or `Throw(error)`.
- `JSON.parse` is an `Option` carried by the body.
- Each timer firing is a `Tick` or an `Expire(id)`.
- Random choices (`random.choice`, the toast id) are parameters.

Each component whose fields change is a class:

- `ChatPage.Home`, `ChatSection.AISection`, `ResponseCard.Card`, `Typewriter.Writer` and `Toast.Toaster`.
- Every method ensures that the new `State()` equals a pure specification function of the old state: `AskSpec`, `Tick`, `Reset`, `WithoutId` and so on.
- The properties are proved as lemmas about those functions.

`askAI` reads the mode flag its closure captured when it was created, and retries by calling that same closure:

- The captured flag is the parameter `capturedMock`. The stored flag is the field `useMock`.
- Each attempt uses the next outcome of a finite sequence. When the sequence runs out, the last request is still pending (`settled == false`).
- As a consequence, a question sent online is re-sent to `/ask` after every failure, with no bound (`RetriesWhileFailing`). This follows the code (frontend/app/page.tsx lines 102, 131-137 and 168-174). The notice raised before the retry announces offline mode ("Mencoba menggunakan mode offline", lines 169-172), but the retry on lines 173-174 calls the closure that captured the online flag, so it goes to `/ask` again.

The `notices` field of each chat state logs the calls the component makes to `toast`, in order. It does not say that a notice appears on screen:

- `toast` comes from `useToast`, which reads the nearest `ToastContext` provider (frontend/components/ui/toast.tsx lines 7-17).
- The only provider wraps the tray's own `div` (ui/toast.tsx line 68).
- In frontend/app/layout.tsx lines 20-23 the page content is a sibling of `<Toaster />`, not a child of it.
- So with this layout every call from the home page or the chat section reaches the default context, which does nothing. That case is `Toast.Publish(null, …)`.

The section's closure also captures the history list. Its membership test reads the captured list, but the insertion extends the latest list, so a retried question enters the history twice (`RetryDuplicatesHistory`).

The answer cleaning chain (AISection.tsx lines 124-140) works as follows:

- Each global `replace` is `ReplaceAll` over one of three pattern shapes. `IsWs` is the JavaScript `\s` class.
- The chain is proved to keep every non-whitespace character in order.
- Its result is proved tidy: trimmed, single plain spaces, no whitespace before `. , ! ? : ;`.
- `/\s+/g` followed by `trim` gives the words of the text joined by single spaces, so a whitespace run between two words becomes exactly one space (`CollapseJoinsWords`). On a text without `. , ! ? : ;` that is the whole cleaned answer (`CleanJoinsWords`).
- Cleaning is proved idempotent.

A new `response` (or `text`) reaches the two typewriters as one React commit in which both effects run:

- The reset effect writes "", 0, typing on. The typing effect of the same commit still reads the previous render's `currentIndex` and `isTyping`, and its writes land after the reset's (`ResponseCard.Changed`, `Typewriter.Changed`).
- If the component was typing at an index the new value does not reach, that effect turns typing off over the reset: an overrun.
- The card is then left completed with nothing shown, and the new response is never typed (`ResponseCard.OverrunNeverTypes`). The chat pages blank the response before each request, so in their use the answer is always typed from the start (`ResponseCard.BlankThenAnswer`).
- The `TypewriterEffect` component waits for its start-delay timer, which turns typing back on (`Typewriter.DelayRepairsOverrun`). In every reachable state that timer changes nothing (`Typewriter.DelayIsNoOp`).

## Model

| member | source | states |
|---|---|---|
| Common.BlankIffNoNonWs | frontend/app/page.tsx:87 | `!question.trim()` holds exactly when the question has no non-whitespace character |
| Fetch.ErrorDetail | frontend/app/page.tsx:121-126 | the `detail` property of a JSON body, else the raw body text, else "Gagal mendapatkan respons" for an empty body |
| Fetch.ThrownText | frontend/app/page.tsx:178-182 | an `Error`'s message, or "Terjadi kesalahan koneksi" for any other thrown value |
| Fetch.EndpointFor | frontend/app/page.tsx:102-104 | `/ask-mock` exactly when the captured mode flag is set |
| ChatPage.Started | frontend/app/page.tsx:96-113 | an accepted question turns loading and typing on, clears the answer and the error, and logs one request of the question to the captured flag's endpoint; nothing else changes |
| ChatPage.Probed | frontend/app/page.tsx:56-78 | a 2xx probe gives connected and online; a non-2xx probe or a throw gives error and offline; nothing else changes |
| ChatPage.Toggled | frontend/app/page.tsx:194-200 | the stored mode is negated and a notice names the new mode; nothing else changes |
| ChatPage.Caught | frontend/app/page.tsx:164-187 | the catch block retries exactly when the captured mode is online, after logging the offline notice and storing offline mode; offline it shows the thrown value's text, logs a destructive notice and ends loading; requests are untouched |
| ChatPage.Attempt | frontend/app/page.tsx:116-190 | one attempt retries exactly when online and the reply is non-2xx, a throw, or a JSON `null` body; a retry stores offline mode; a final step clears loading and keeps the mode |
| ChatPage.AskSpec | frontend/app/page.tsx:86-191 | a blank question only raises a notice; otherwise the question is sent unchanged, once or more, to the endpoint of the captured flag; sent offline, it is sent exactly once; loading ends exactly when the run settles |
| ChatPage.RetriesWhileFailing | frontend/app/page.tsx:119-176 | online, after n failures there are n+1 identical requests to `/ask`, n offline notices, offline mode stored, and the request still pending |
| ChatPage.SuccessAfterFailures | frontend/app/page.tsx:131-163 | online, failures then a JSON reply show its `response` with no error; all n+1 requests went to `/ask` |
| ChatPage.OfflineFailureIsTerminal | frontend/app/page.tsx:139-187 | offline, a failure is terminal: one `/ask-mock` request, the error text, one destructive notice, mode unchanged |
| ChatPage.UnparseableSuccess | frontend/app/page.tsx:150-161 | a 2xx reply that is not JSON shows "Format respons tidak valid", is not retried and keeps the mode |
| ChatPage.Home.constructor | frontend/app/page.tsx:45-51 | initial state: checking, online, nothing sent |
| ChatPage.Home.CheckBackend | frontend/app/page.tsx:56-78 | the probe's effect is `Probed` |
| ChatPage.Home.HandleThrown | frontend/app/page.tsx:164-187 | the catch block's effect is `Caught` |
| ChatPage.Home.Settle | frontend/app/page.tsx:116-187 | the outcome's effect is `Attempt` |
| ChatPage.Home.AskAI | frontend/app/page.tsx:86-191 | the method's final state and settledness are `AskSpec` |
| ChatPage.Home.ToggleMode | frontend/app/page.tsx:194-200 | the effect is `Toggled` |
| ChatPage.Home.RegenerateResponse | frontend/app/page.tsx:203-205 | asks the current prompt with the current mode |
| ChatSection.Remembered | frontend/components/AISection.tsx:70-72 | a question already in the captured list leaves the history unchanged; otherwise the question goes in front of the latest list, cut to five; at most five entries |
| ChatSection.RememberedNoDuplicates | frontend/components/AISection.tsx:70-71 | when the captured list is the latest one, the history stays free of duplicates |
| ChatSection.Started | frontend/components/AISection.tsx:65-86 | an accepted question turns loading on, clears the answer and the error, logs one request to the captured flag's endpoint, and puts a question new to the captured list at the head of the history, which stays within five entries |
| ChatSection.Probed | frontend/components/AISection.tsx:30-52 | the probe sets status and mode as on the home page; nothing else changes |
| ChatSection.Toggled | frontend/components/AISection.tsx:173-179 | the stored mode is negated with a notice; nothing else changes |
| ChatSection.Caught | frontend/components/AISection.tsx:143-166 | the catch block retries exactly when the captured mode is online, after logging the offline notice and storing offline mode; offline it shows the thrown value's text, logs a destructive notice and ends loading; requests and history are untouched |
| ChatSection.Attempt | frontend/components/AISection.tsx:88-166 | retries exactly when online and the reply is not a 2xx with a string `response`; an answer is shown cleaned; history and requests untouched |
| ChatSection.AskSpec | frontend/components/AISection.tsx:55-170 | as on the home page, and the history stays within five entries, is unchanged for a known question, and starts with a new one |
| ChatSection.RetriesWhileFailing | frontend/components/AISection.tsx:100-155 | online, every failure, a 2xx without an answer included, re-sends the question to `/ask`, with no bound |
| ChatSection.OfflineFailureIsTerminal | frontend/components/AISection.tsx:110-166 | offline, any failure is terminal: one `/ask-mock` request, the error text, one destructive notice |
| ChatSection.AnswerIsTidy | frontend/components/AISection.tsx:120-142 | a shown answer has the reply's non-whitespace characters in order and is tidy |
| ChatSection.RetryDuplicatesHistory | frontend/components/AISection.tsx:70-108 | a throw then an answer, online and from an empty history, leave the question in the history twice |
| ChatSection.AISection.constructor | frontend/components/AISection.tsx:9-15 | initial state: checking, online, empty history |
| ChatSection.AISection.CheckBackend | frontend/components/AISection.tsx:30-52 | the probe's effect is `Probed` |
| ChatSection.AISection.HandleThrown | frontend/components/AISection.tsx:143-166 | the catch block: a retry online, an error and a notice offline |
| ChatSection.AISection.Remember | frontend/components/AISection.tsx:69-72 | the history becomes `Remembered` and nothing else changes |
| ChatSection.AISection.ShowAnswer | frontend/components/AISection.tsx:120-142 | the answer it is given (`Settle` gives it the cleaned reply) is shown and loading ends; nothing else changes |
| ChatSection.AISection.Settle | frontend/components/AISection.tsx:88-166 | the outcome's effect is `Attempt` |
| ChatSection.AISection.AskAI | frontend/components/AISection.tsx:55-170 | the method's final state and settledness are `AskSpec` |
| ChatSection.AISection.ToggleMode | frontend/components/AISection.tsx:173-179 | the effect is `Toggled` |
| ChatSection.AISection.RegenerateResponse | frontend/components/AISection.tsx:182-184 | asks the current prompt with the current mode and history |
| ChatSection.AISection.HandleKeyDown | frontend/components/AISection.tsx:187-193 | Ctrl/Meta+Enter prevents the default and asks the prompt; any other key changes nothing |
| ResponseCleaning.MatchAt | frontend/components/AISection.tsx:125-137 | a match is at least as long as its replacement; `\s+` matches exactly at whitespace; a match is a whitespace run ending in the mark, or the mark followed by a whitespace run; a trailing `\s+` is greedy |
| ResponseCleaning.ReplaceAll | frontend/components/AISection.tsx:125-137 | a global replacement never lengthens the text |
| ResponseCleaning.TrimEnd | frontend/components/AISection.tsx:138 | the result is a prefix of the input with no trailing whitespace, and only whitespace was cut |
| ResponseCleaning.TrimStart | frontend/components/AISection.tsx:139 | the result does not start with whitespace; `TrimStartIsSuffix` states that it is a suffix of the input with only whitespace cut |
| ResponseCleaning.Trim | frontend/components/AISection.tsx:140 | the result is no longer than the input and neither starts nor ends with whitespace; `TrimIsInfix` states that only whitespace is cut, and only at the ends |
| ResponseCleaning.Clean | frontend/components/AISection.tsx:124-140 | the shown answer neither starts nor ends with whitespace |
| ResponseCleaning.ReplaceKeepsText | frontend/components/AISection.tsx:125-137 | every replacement keeps the non-whitespace characters in order |
| ResponseCleaning.CollapseNoDoubleWs | frontend/components/AISection.tsx:125 | after `/\s+/g` no two whitespace characters are adjacent |
| ResponseCleaning.CollapseSpacesOnly | frontend/components/AISection.tsx:125 | after `/\s+/g` every whitespace character is a plain space |
| ResponseCleaning.DeleteBeforeMark | frontend/components/AISection.tsx:126-136 | after `/\s+X/g` no whitespace stands before X |
| ResponseCleaning.TrimEndIsPrefix | frontend/components/AISection.tsx:138 | the trailing deletion only cuts whitespace off the end |
| ResponseCleaning.TrimStartIsSuffix | frontend/components/AISection.tsx:139-140 | the leading deletion leaves a suffix of the input, everything cut is whitespace, none is left at the start, and the non-whitespace characters are kept |
| ResponseCleaning.TrimIsInfix | frontend/components/AISection.tsx:140 | `trim` returns an infix of the input with only whitespace before and after it, keeping every non-whitespace character |
| ResponseCleaning.Words | frontend/components/AISection.tsx:125 | the words of a text, each a non-empty run of non-whitespace characters; a text starting with a word has at least one |
| ResponseCleaning.CollapseWordGap | frontend/components/AISection.tsx:125 | `/\s+/g` copies the first word and writes one space for the whitespace run after it |
| ResponseCleaning.CollapseFromWord | frontend/components/AISection.tsx:125 | on a text starting with a word, `/\s+/g` with the trailing space cut gives the words joined by single spaces |
| ResponseCleaning.CollapseJoinsWords | frontend/components/AISection.tsx:125-140 | `/\s+/g` followed by `trim` gives the words joined by single spaces: a run between two words becomes exactly one space |
| ResponseCleaning.ReplaceWithoutMark | frontend/components/AISection.tsx:126-137 | a mark replacement leaves a text without its mark unchanged |
| ResponseCleaning.CleanJoinsWords | frontend/components/AISection.tsx:124-140 | on a text without `. , ! ? : ;` the cleaned answer is its words joined by single spaces |
| ResponseCleaning.ChainResult | frontend/components/AISection.tsx:125-137 | after the thirteen replacements: non-whitespace kept, single spaces, no whitespace before a mark |
| ResponseCleaning.CleanIsTidy | frontend/components/AISection.tsx:124-140 | the cleaned answer keeps exactly the non-whitespace characters in order, is trimmed, has only plain spaces and never two in a row, and has no whitespace before `. , ! ? : ;` |
| ResponseCleaning.CleanWithoutWs | frontend/components/AISection.tsx:124-140 | a text without whitespace comes back unchanged |
| ResponseCleaning.CleanKeepsTidy | frontend/components/AISection.tsx:124-140 | a tidy text comes back unchanged |
| ResponseCleaning.CleanIdempotent | frontend/components/AISection.tsx:124-140 | cleaning twice is cleaning once |
| ResponseCard.Settled | frontend/components/AIResponseCard.tsx:35-49 | the effect without a timer changes only the typing and completed flags, and leaves no timer pending unless it changed nothing |
| ResponseCard.Reset | frontend/components/AIResponseCard.tsx:27-32 | a new response resets to "", 0, typing, not completed |
| ResponseCard.Tick | frontend/components/AIResponseCard.tsx:38-48 | a pending timer appends the character at the index and advances it; at the end typing stops and the card completes; without a timer nothing changes |
| ResponseCard.ResetIsValid | frontend/components/AIResponseCard.tsx:27-32 | the reset state is reachable-valid |
| ResponseCard.TickKeepsValid | frontend/components/AIResponseCard.tsx:38-42 | a tick keeps the shown text equal to the first `currentIndex` characters |
| ResponseCard.TicksFromValid | frontend/components/AIResponseCard.tsx:38-48 | k ticks from a valid state advance the index by k and keep validity |
| ResponseCard.TicksShowPrefix | frontend/components/AIResponseCard.tsx:38-48 | after k ticks the first k characters are shown; typing until the end, completed at it |
| ResponseCard.CompletesAfterLength | frontend/components/AIResponseCard.tsx:38-48 | a non-empty response is complete after exactly its length in ticks, showing all of it; later ticks change nothing |
| ResponseCard.StuckStaysStuck | frontend/components/AIResponseCard.tsx:36-44 | with no timer pending, ticks change nothing |
| ResponseCard.EmptyNeverCompletes | frontend/components/AIResponseCard.tsx:36 | an empty response stays typing and never completes |
| ResponseCard.RegenerateOnlyWhenShown | frontend/components/AIResponseCard.tsx:107 | the button is shown exactly when a callback is given, the response is non-empty and all of it is shown |
| ResponseCard.Lines | frontend/components/AIResponseCard.tsx:69 | the split has at least one piece, none holding a line feed |
| ResponseCard.Format | frontend/components/AIResponseCard.tsx:68-75 | one fragment per line, a break after every line but the last |
| ResponseCard.LinesRoundTrip | frontend/components/AIResponseCard.tsx:69 | joining the pieces with line feeds gives the text back, and there is one more piece than line feeds |
| ResponseCard.RenderedLines | frontend/components/AIResponseCard.tsx:69-73 | fragments render as the joined lines, with one break fewer than lines |
| ResponseCard.FormatShowsText | frontend/components/AIResponseCard.tsx:68-75 | the rendered fragments show exactly the text, with as many breaks as line feeds |
| ResponseCard.Changed | frontend/components/AIResponseCard.tsx:27-49 | a new response gives the reset state exactly unless the card was typing at an index the response does not reach; then it is completed, not typing, with nothing shown |
| ResponseCard.OverrunNeverTypes | frontend/components/AIResponseCard.tsx:35-49 | after an overrun no tick changes anything, the response is never shown, the regenerate button is offered, and the state is not a reachable one |
| ResponseCard.CompletedCardResets | frontend/components/AIResponseCard.tsx:27-49 | a card that finished its previous response types the next one from the start |
| ResponseCard.OverrunWhileTyping | frontend/components/AIResponseCard.tsx:35-49 | while typing, a new response overruns exactly when it is non-empty and no longer than the index reached |
| ResponseCard.BlankThenAnswer | frontend/app/page.tsx:97 | blanking the response before the answer arrives always leads to the reset state for the answer |
| ResponseCard.Card.constructor | frontend/components/AIResponseCard.tsx:18-32 | mounting gives the reset state |
| ResponseCard.Card.RunEffect | frontend/components/AIResponseCard.tsx:35-49 | the effect is `Settled` |
| ResponseCard.Card.ChangeResponse | frontend/components/AIResponseCard.tsx:27-49 | the same response changes nothing; a different one gives the commit `Changed`, in which the typing effect still reads the previous index and flag |
| ResponseCard.Card.TimerFires | frontend/components/AIResponseCard.tsx:39-42 | the timer's effect is `Tick` |
| ResponseCard.Card.TypeOut | frontend/components/AIResponseCard.tsx:35-49 | from a valid state, firing timers until none is pending shows the whole response, completed; an empty response is left as it is |
| Typewriter.Settled | frontend/components/TypewriterEffect.tsx:34-47 | the effect without a timer leaves typing on exactly when a timer is pending |
| Typewriter.Reset | frontend/components/TypewriterEffect.tsx:20-24 | a new text resets to "" and 0, typing exactly when the text is non-empty |
| Typewriter.DelayElapsed | frontend/components/TypewriterEffect.tsx:27-29 | the start delay keeps the shown text and index |
| Typewriter.Tick | frontend/components/TypewriterEffect.tsx:37-41 | a pending timer appends the character at the index and advances it; typing goes on while characters are left |
| Typewriter.ResetIsValid | frontend/components/TypewriterEffect.tsx:20-24 | the reset state is reachable-valid |
| Typewriter.TickKeepsValid | frontend/components/TypewriterEffect.tsx:37-41 | a tick keeps the shown text equal to the first `currentIndex` characters |
| Typewriter.DelayIsNoOp | frontend/components/TypewriterEffect.tsx:24-29 | the delay timer changes nothing in a reachable state |
| Typewriter.CursorUntilDone | frontend/components/TypewriterEffect.tsx:52-54 | the cursor is shown exactly until the whole text is on screen |
| Typewriter.EmptyStopsAtOnce | frontend/components/TypewriterEffect.tsx:35-46 | an empty text stops typing at once, with no cursor |
| Typewriter.TicksFromValid | frontend/components/TypewriterEffect.tsx:34-47 | k ticks from a valid state advance the index by k and keep validity |
| Typewriter.TicksShowPrefix | frontend/components/TypewriterEffect.tsx:37-46 | after k ticks the first k characters are shown, typing until the end |
| Typewriter.TypesWholeText | frontend/components/TypewriterEffect.tsx:37-46 | after the text's length in ticks the whole text is shown with typing off |
| Typewriter.Changed | frontend/components/TypewriterEffect.tsx:20-47 | a new text empties the display and resets the index; typing is on exactly when the text is non-empty and the writer was not typing at an index the text does not reach; without that overrun it is the reset state |
| Typewriter.DelayRepairsOverrun | frontend/components/TypewriterEffect.tsx:26-29 | after an overrun onto a non-empty text no tick changes anything and no cursor shows until the delay timer, which gives the reset state |
| Typewriter.DelayAfterChange | frontend/components/TypewriterEffect.tsx:26-29 | after any text change the delay timer leaves the reset state for the new text |
| Typewriter.DelayChanged | frontend/components/TypewriterEffect.tsx:20-32 | a new delay empties the display and resets the index, and gives the reset state unless the writer was already typing at index 0 |
| Typewriter.DelayChangeRestarts | frontend/components/TypewriterEffect.tsx:20-32 | in a reachable state a new delay restarts the text from the beginning |
| Typewriter.Writer.constructor | frontend/components/TypewriterEffect.tsx:16-32 | mounting gives the reset state |
| Typewriter.Writer.RunEffect | frontend/components/TypewriterEffect.tsx:34-47 | the effect is `Settled` |
| Typewriter.Writer.ChangeText | frontend/components/TypewriterEffect.tsx:20-47 | the same text changes nothing; a different one gives the commit `Changed`, in which the typing effect still reads the previous index and flag |
| Typewriter.Writer.ChangeDelay | frontend/components/TypewriterEffect.tsx:20-32 | a new delay gives `DelayChanged` |
| Typewriter.Writer.DelayFires | frontend/components/TypewriterEffect.tsx:27-29 | the delay timer's effect is `DelayElapsed` |
| Typewriter.Writer.TimerFires | frontend/components/TypewriterEffect.tsx:38-41 | the timer's effect is `Tick` |
| Typewriter.Writer.TypeOut | frontend/components/TypewriterEffect.tsx:34-47 | from a valid state, firing timers until none is pending shows the whole text with typing off |
| Toast.WithoutId | frontend/components/ui/toast.tsx:61-63 | the filter keeps only entries of the list whose id differs, and never lengthens it |
| Toast.WithoutIdAppend | frontend/components/ui/toast.tsx:61-63 | filtering distributes over concatenation |
| Toast.WithoutIdExact | frontend/components/ui/toast.tsx:60-64 | expiring removes exactly the entries with that id and keeps every other |
| Toast.ExpireAbsent | frontend/components/ui/toast.tsx:61-63 | expiring an id that is not present leaves the list unchanged |
| Toast.AddThenExpire | frontend/components/ui/toast.tsx:57-64 | with a fresh id, adding then expiring restores the list |
| Toast.Toaster.constructor | frontend/components/ui/toast.tsx:54 | the tray starts empty |
| Toast.Toaster.Toast | frontend/components/ui/toast.tsx:56-58 | one entry is appended at the end; earlier entries are kept; the length grows by one |
| Toast.Toaster.Expire | frontend/components/ui/toast.tsx:60-64 | entries with the id are filtered out; the length never grows; an absent id changes nothing |
| Toast.Publish | frontend/components/ui/toast.tsx:7-17 | through a tray the notice is appended; without one the default context does nothing |
| MockBackend.LowerChar | backend/main.py:194 | an ASCII capital becomes its small letter, 32 code points further; every other character is kept; the result is never a capital |
| MockBackend.Lower | backend/main.py:194 | lower-casing keeps the length and lowers every character |
| MockBackend.SameUpToCase | backend/main.py:194 | two questions that differ only in ASCII letter case are lower-cased alike, so they get the same category and the same answer |
| MockBackend.LowerIdempotent | backend/main.py:194 | lower-casing twice is lower-casing once |
| MockBackend.FirstFrom | backend/main.py:217-284 | for branches with distinct, non-default categories: the default branch exactly when no branch from k on matches; otherwise the first branch from k on that matches |
| MockBackend.Classify | backend/main.py:194-284 | the default branch exactly when no branch's keyword occurs in the lower-cased question; otherwise a branch whose keyword occurs there |
| MockBackend.ClassifyIsFirstMatch | backend/main.py:217-284 | the category is branch j exactly when j's keywords occur in the lower-cased question and no earlier branch's do; the default exactly when none do |
| MockBackend.MockIgnoresCase | backend/main.py:194 | a question and its lower-cased form get the same category and the same answer |
| MockBackend.HowLandsInAI | backend/main.py:243 | keywords match inside words: a question with "bagaimana" and no skill, project or hobby keyword is an AI question, even one about education |
| MockBackend.Body | backend/main.py:217-291 | every one of the 27 bodies names the owner |
| MockBackend.MockAnswer | backend/main.py:192-293 | the answer is the chosen opener, then the category's body, then the chosen closer |
| MockBackend.CallOpenAi | backend/main.py:120-164 | with no key it raises before any request; it returns exactly when the status is 200, the body is JSON and the first of a non-empty `choices` has content, and then returns that content |
| MockBackend.Escalated | backend/main.py:186-188 | an escaping exception becomes HTTP 500 with detail "Terjadi kesalahan: " followed by its text |
| MockBackend.AskAi | backend/main.py:168-188 | a failure building the prompt gives HTTP 500 with detail "Terjadi kesalahan: " and its text; otherwise an answer, OpenAI's string content when the call returns one, else the mock answer |
| MockBackend.AskFallsBack | backend/main.py:168-184 | `/ask` answers with OpenAI's string content when the call returns one, and otherwise with the mock answer for the same question |
| MockBackend.NoKeyMeansMock | backend/main.py:122-184 | without an API key the answer is the mock's |

## Left out

- ResponseCleaning.CleanJoinsWords: the exact result (words joined by single spaces) is proved only for text without `. , ! ? : ;`; for text with marks the model proves the tidy shape and the kept non-whitespace characters (`CleanIsTidy`), not where each space lands around a mark.
- Real `fetch`, `requests.post`, CORS and the server: replies are abstract outcome values, and `JSON.parse` is an `Option`. The OpenAI payload and headers (backend/main.py:128-149) are not modelled.
- Timer durations: the 15 ms card tick, the typewriter's `speed` and `delay`, and the 5 s toast lifetime are discrete events.
- React render scheduling, and races between overlapping requests: a second question sent while one is in flight is not modelled.
- `create_base_prompt` (backend/main.py:87-117): it fills a template through `json.dumps`. Whatever it may raise is the parameter `promptFailure`.
- Logging (`console.log`, `console.error`, `logger`), scroll, focus and cursor placement in the DOM (frontend/components/AIResponseCard.tsx:52-65, frontend/components/AISection.tsx:196-203).
- The messages that `call_openai_api` raises with: they are only logged before the fallback, so the model keeps just the kind of failure.
- The message of the TypeError or SyntaxError the JavaScript engine throws (a JSON `null` body, or a 2xx body without a string `response` in the section): it is the parameter `engineMessage`.
- Characters outside the Basic Multilingual Plane: JavaScript indexes text by UTF-16 code units, while a Dafny `string` is a sequence of Unicode scalar values. The two agree on text inside that plane, which is the text the model stands for. An emoji, say, takes two typewriter ticks (and shows half a surrogate pair in between) in the components, and one tick in the model.
- On-screen notices: with the layout of frontend/app/layout.tsx the chat components' `toast` calls reach the default no-op context, so `notices` logs calls rather than notices shown. The layout itself is not modelled.
- MockBackend.Lower: ASCII letters only. Python's `str.lower` also maps non-ASCII upper-case letters.
- ChatPage.AskSpec: a JSON `response` that is not a string is not modelled; `response` is either a string or undefined.
- Fetch.ErrorDetail: the same holds for `detail`.
- Page markup and presentation: the JSX, `ParticlesBackground`, project cards, profile image and layout, the loading spinner, and the `isOfflineMode` label.
- The `/` health check and the `uvicorn` entry point of the back end.

# Route protection and chat-client state, in Dafny

This project models two pieces of the chat application's logic and proves what they promise.

- **The route-protection middleware** (`middleware.ts`). Pathnames fall into three classes: public, admin and protected. A signed-in user has a role, admin or user. The middleware is a cascade of early returns that turns each request into one of three outcomes:
  - pass the request through,
  - answer the `pong` health check,
  - redirect to the login page, the `redirectTo` target, `/chat` or `/`.

  Which log record is written, if any, is part of the outcome.
- **The chat component's client-side state** (`components/chat.tsx`). This covers:
  - the rewrite of the message list when the model rejects thinking mode;
  - how an error becomes a notice: the credit-card alert or a toast;
  - the request body and headers built for each turn;
  - the data-stream append in `onData`;
  - the one-shot `query` send;
  - `normalizeList` and the one-shot analysis prompt built from the `data`, `target` and `common` search parameters.

Modules:

- `Wrappers` holds `Option`.
- `JsStrings` holds the JavaScript string built-ins the code relies on: `startsWith`, `endsWith`, `includes`, `trim` over the full ECMAScript whitespace set, and `split`/`join` on one character.
- `Middleware` holds the classifiers, `getUserRole` and the whole cascade as the function `Decide`.
- `ChatMessages` holds messages, parts and the thinking fallback. The fallback is the specification function `ThinkingFallback` plus the method `ApplyThinkingFallback`, which keeps the backward `while` scan.
- `ChatErrors` holds the routing from error to notice.
- `ChatRequest` holds `prepareSendMessagesRequest`.
- `ChatPrompt` holds `normalizeList`, the prompt template and the effect's decision.
- `ChatSession` holds the class `Session`. Its fields are the component state the callbacks and effects change: messages, data stream, usage, alert flag, toasts, input box, the two one-shot flags, the messages sent and the address-bar path.

Two facts about the code that a reader might not expect:

- The client rewrites the message list for "thinking not supported" only in `onError`, and only the last assistant message. The server route's own rewrite of degenerate assistant messages at stream completion, in `app/(chat)/api/chat/route.ts`, is not part of this model.
- Toasts show the error's own `message` for SDK errors and for generic errors other than the missing Google key.

Two facts about the middleware that its comments do not suggest, both proved:

- A path under `/admin` that ends in `.js`, `.map` or `.json` passes without any session check (`Middleware.AdminPathsPassOnlyForAdmins`).
- A signed-in user on `/login` or `/register` is sent to any `redirectTo` other than exactly `/login` or `/register`. So `/login/` or `/login?redirectTo=x` sends them to the login page again (`Middleware.SignedInLoginRedirectHonoured`). The middleware never builds a login redirect for a signed-in user itself (`Middleware.SignedInNeverSentToLogin`).

## Model

| member | source | states |
|---|---|---|
| Middleware.GetUserRole | middleware.ts:88-90 | the role is admin iff there is a user whose `user_metadata.role` is `"admin"`; no user means role user |
| Middleware.PublicRouteIff | middleware.ts:29-37 | a path is public iff it is exactly `/` or starts with one of the other six public entries |
| Middleware.PublicRouteExamples | middleware.ts:54-63 | prefix matching makes `/login/x` and `/aboutus` public; `/chat`, `//` and the empty path are not |
| Middleware.IsPublicRoute | middleware.ts:54-63 | a public path is always absolute (starts with `/`); `PublicRouteIff` gives the full characterisation |
| Middleware.IsAdminRoute | middleware.ts:70-72 | a path is an admin path iff it starts with `/admin` |
| Middleware.IsProtectedRoute | middleware.ts:79-81 | paths under `/chat` and `/api/` are protected |
| Middleware.ProtectedPrefixes | middleware.ts:79-81 | paths under `/chat` and `/api/` are neither public nor admin paths |
| Middleware.PublicAdminDisjoint | middleware.ts:29-41 | no path is both public and admin |
| Middleware.RouteClassesPartition | middleware.ts:79-81 | every path is in exactly one of public, admin and protected |
| Middleware.SkipsSessionCheck | middleware.ts:104-113 | only absolute paths and paths ending in `.js`, `.map` or `.json` skip the session check |
| Middleware.SkipsSessionCheckIff | middleware.ts:104-113 | the session check is skipped exactly for the eight system prefixes and for paths ending in `.js`, `.map` or `.json`, the three alternatives of the regular expression at line 112 |
| Middleware.PingAnsweredFirst | middleware.ts:99-101 | any path starting with `/ping` gets `pong` with status 200 and no log, whatever the session |
| Middleware.SystemPathsPassWithoutSession | middleware.ts:104-117 | system prefixes and `.js`/`.map`/`.json` paths pass through, and the session lookup's result cannot change that |
| Middleware.SessionErrorOutcome | middleware.ts:147-187 | on a session error, a non-public path redirects to `/login?redirectTo=<encoded path>&error=session_error` with a session-expired log; a public path passes silently |
| Middleware.SignedOutOutcome | middleware.ts:193-209 | without a user the request passes iff the path is public; otherwise it redirects to `/login?redirectTo=<encoded path>`; the bare `/login` fallback is never taken; nothing is logged |
| Middleware.SignedInOnAuthPage | middleware.ts:215-223 | a signed-in user on exactly `/login` or `/register` goes to `redirectTo` when it is non-empty and not one of those two pages, otherwise to `/chat` |
| Middleware.SignedInElsewhere | middleware.ts:225-259 | elsewhere, a signed-in non-admin on an admin path is sent to `/` with a permission-denied log; every other signed-in request passes |
| Middleware.Decide | middleware.ts:92-260 | the `pong` answer comes exactly for paths starting with `/ping`; a request passes only when its path skips the session check, is public, or comes with a user and no session error |
| Middleware.SignedInNeverSentToLogin | middleware.ts:211-259 | a signed-in user is redirected only to `/chat`, to `/` or to the request's own `redirectTo`, never to the bare `/login` or `/register` |
| Middleware.SignedInLoginRedirectHonoured | middleware.ts:215-220 | because the guard compares whole strings, a `redirectTo` of `/login?redirectTo=x` or `/login/` sends a signed-in user back to the login page |
| Middleware.AdminPathsPassOnlyForAdmins | middleware.ts:104-117 | an admin path passes only for a signed-in admin, or when it is a path that skips the session check |
| Middleware.LoggedOnlyOnRefusal | middleware.ts:147-251 | a log record comes only with a redirect; session-expired exactly on a redirect caused by a session error; permission-denied only for a regular user on an admin path |
| JsStrings.Trim | components/chat.tsx:181 | the result neither starts nor ends with whitespace; it is empty iff the string is all whitespace |
| JsStrings.TrimInfix | components/chat.tsx:181 | the trimmed string occurs in `s` at some index `a`, with only whitespace before `a` and only whitespace after the trimmed part |
| JsStrings.Split | components/chat.tsx:282 | splitting on `,` gives at least one piece and no piece holds a comma |
| JsStrings.JoinSplit | components/chat.tsx:282 | joining the pieces of a split with the same separator gives the string back |
| JsStrings.SplitJoin | components/chat.tsx:304-306 | splitting a join of one or more comma-free pieces gives the pieces back |
| JsStrings.SplitConcat | components/chat.tsx:282 | splitting `a + "," + b` gives the pieces of `a` followed by the pieces of `b` |
| JsStrings.SplitCons | components/chat.tsx:282 | one step of `split`: a leading separator starts a new empty piece, any other first character joins the first piece |
| JsStrings.TrimIdempotent | components/chat.tsx:283 | trimming twice is trimming once |
| ChatMessages.LastAssistant | components/chat.tsx:160-165 | finds the highest index whose role is assistant, or none exactly when no message is an assistant message |
| ChatMessages.IsMeaningful | components/chat.tsx:179-185 | a non-text part is meaningful; a text part is meaningful iff its text (missing counts as empty) has a character that is not whitespace |
| ChatMessages.HasMeaningfulPart | components/chat.tsx:178-186 | any non-text part makes the parts meaningful; an empty list of parts never is |
| ChatMessages.ThinkingFallback | components/chat.tsx:148-202 | the rewritten list is one longer exactly when there is no assistant message, and every message except the last assistant one is unchanged |
| ChatMessages.LastAssistantUnique | components/chat.tsx:160-163 | the index where the backward scan stops is the one `LastAssistant` returns |
| ChatMessages.ApplyThinkingFallback | components/chat.tsx:148-202 | the backward scan, then append, keep or replace, computes exactly `ThinkingFallback` of the old list |
| ChatMessages.FallbackPartMeaningful | components/chat.tsx:146 | the fixed fallback text is itself a meaningful part |
| ChatMessages.FallbackAppendsWhenNoAssistant | components/chat.tsx:149-174 | with no assistant message (including an empty list) the old list is kept and one assistant message with the fresh id and parts `[text: fallback]` is appended |
| ChatMessages.FallbackKeepsMeaningfulReply | components/chat.tsx:176-190 | when the last assistant message has a meaningful part the list is returned unchanged |
| ChatMessages.FallbackReplacesOnlyTarget | components/chat.tsx:192-201 | otherwise only that message's parts become `[text: fallback]`; its id, role and metadata, the length and every other message stay |
| ChatMessages.FallbackLeavesMeaningfulReply | components/chat.tsx:148-202 | after the rewrite the last assistant message always has a meaningful part |
| ChatMessages.FallbackIdempotent | components/chat.tsx:148-202 | a second rewrite, with any fresh id, changes nothing |
| ChatErrors.MessageText | components/chat.tsx:143 | the text is the error's own message for an `Error` and the string form of any other thrown value |
| ChatErrors.RequestsThinkingFallback | components/chat.tsx:145 | the rewrite is asked for only by a text at least as long as the marker, and always when the text starts or ends with the marker |
| ChatErrors.ErrorNotice | components/chat.tsx:205-246 | the alert opens iff the error is an SDK error whose message holds the credit-card text; a generic error about the missing Google key gets the Settings remediation; a non-error gets the fixed text; every other toast shows the error's message |
| ChatErrors.ToastTextsAreBounded | components/chat.tsx:205-246 | a toast shows only the error's own text or one of the two fixed texts |
| ChatRequest.ThinkingRequested | components/chat.tsx:97-100 | an empty message list never asks for thinking |
| ChatRequest.ThinkingFromLastMessage | components/chat.tsx:97-100 | only the last message's `thinking` flag counts: a list asks for thinking iff its last message has `thinking: true`, whatever comes before |
| ChatRequest.PrepareSendMessagesRequest | components/chat.tsx:89-124 | each credential header is present iff its stored credential is truthy and then carries it, and there are no other headers; the body holds the five computed fields plus the caller's fields; the caller's fields win; `thinkingEnabled` is true only when the last message asks for thinking |
| ChatPrompt.TrimAll | components/chat.tsx:283 | same length, each entry trimmed |
| ChatPrompt.DropEmpty | components/chat.tsx:284 | every entry of the result is a non-empty entry of the list; a list with no empty entries is kept as it is |
| ChatPrompt.DropEmptyMultiset | components/chat.tsx:284 | the result holds every non-empty entry exactly as often as the list does, and no empty one |
| ChatPrompt.DropEmptyAppend | components/chat.tsx:284 | filtering keeps the order: filtering `a + b` gives the survivors of `a` followed by those of `b` |
| ChatPrompt.NormalizeList | components/chat.tsx:279-285 | a missing or empty parameter gives `[]`; every entry is non-empty, trimmed and free of commas |
| ChatPrompt.NormalizeListContent | components/chat.tsx:279-285 | every comma-separated piece that is not blank appears trimmed in the result, and every entry of the result is such a trimmed piece |
| ChatPrompt.NormalizeListKeepsPieces | components/chat.tsx:279-285 | the result is empty iff every comma-separated piece is blank |
| ChatPrompt.NormalizeListSinglePiece | components/chat.tsx:279-285 | a parameter without commas gives its trimmed text, or `[]` when that is blank |
| ChatPrompt.NormalizeListConcat | components/chat.tsx:279-285 | pieces keep their order: normalizing `a,b` gives the entries of `a` followed by those of `b`; with the single-piece lemma this determines the result for every parameter |
| ChatPrompt.TrimAllNormalized | components/chat.tsx:283 | trimming an already normalized list changes nothing |
| ChatPrompt.NormalizeListIdempotent | components/chat.tsx:279-285 | normalizing the comma-join of a normalized list gives the same list |
| ChatPrompt.InjectedPrompt | components/chat.tsx:303-307 | the prompt starts with the fixed opening and ends with the request to explain the methodology |
| ChatPrompt.InjectedPromptLayout | components/chat.tsx:303-304 | the comma-joined data sources follow the opening, and the linking sentence follows them |
| ChatPrompt.PromptToInject | components/chat.tsx:274-307 | a prompt is produced iff no prompt was injected yet, all three normalized lists are non-empty and the input is blank after trimming; it is then the template with each list joined by `,` |
| ChatPrompt.InjectedPromptNotBlank | components/chat.tsx:299-307 | the injected prompt is not blank after trimming |
| ChatPrompt.PromptInjectedOnce | components/chat.tsx:274-311 | once a prompt is injected, neither the set flag nor the filled input box lets a second one through, whatever the parameters |
| ChatSession.StreamAppend | components/chat.tsx:127 | an existing stream keeps its parts and gains the new one at the end; no stream gives `[]` |
| ChatSession.Session.constructor | components/chat.tsx:259-260 | the one-shot flags start false, no alert, no toasts, an empty input box and nothing sent |
| ChatSession.Session.OnData | components/chat.tsx:126-131 | the stream becomes the append of the part; usage changes only for a `data-usage` part |
| ChatSession.Session.OnError | components/chat.tsx:143-249 | the messages are rewritten only when the error text asks for the thinking fallback; the alert is raised or exactly one toast is appended as `ErrorNotice` says; for every modelled error (an `Error`, or a thrown value other than `null` or `undefined`) the data stream ends as `[]` |
| ChatSession.Session.AppendQueryEffect | components/chat.tsx:262-272 | a non-empty `query` is sent as one user text message only while the flag is clear, and then the flag is set and the path becomes `/chat/<id>`; otherwise nothing changes |
| ChatSession.Session.InjectPromptEffect | components/chat.tsx:274-311 | when `PromptToInject` yields a prompt, the input box holds it, the flag is set and the path becomes `/chat/<id>`; otherwise nothing changes |

## Left out

- The Supabase client, the cookie `getAll`/`setAll` plumbing and `supabase.auth.getUser` are I/O. The lookup's result is the input `Auth`: an error flag and an optional user.
- Logging and console output are left out: `logSystemError`, `logPermissionError` and the `console` calls. Only which log record would be written is kept, as `Outcome.log`.
- `encodeURIComponent` is the opaque parameter `encode`. `new URL(..., request.url)` is not modelled: a redirect carries the location string the middleware passes to it, unresolved.
- `Middleware.SignedInOnAuthPage` (and `Middleware.Decide` with it) does not capture two effects of `new URL(redirectTo, request.url)` at middleware.ts:219. First, the URL parser rejects some values, such as `//` or `http://`, and throws; the middleware then fails instead of redirecting, while the model returns a redirect to that value. Second, `redirectTo` is passed on unchanged, so an absolute value such as `https://other.example` sends the user to another origin; the model does not tell relative from absolute targets.
- The `config.matcher` pattern decides which requests reach the middleware at all. It is framework configuration and is not part of this model.
- `Middleware.GetUserRole`: a `user_metadata.role` that is not a string is read as absent. It never equals `"admin"`, so the role is the same.
- React hooks, SWR, `mutate`, `onFinish`, `clearError`, `window.open`, toast rendering and the transport and streaming machinery of `useChat` are left out. State setters are field updates of `Session`.
- `window.history.replaceState` is modelled only as the new value of `Session.location`.
- `sendMessage` is modelled only as appending the message to `Session.sent`. `useChat` gives that message its id, which here is the input `freshId`.
- The locally stored credentials and the current model id are inputs. So is `generateUUID`, which becomes the fresh-id input.
- `ChatSession.Session.OnError`: `ChatErrors.NonError` stands for a thrown value that is not an `Error` and is neither `null` nor `undefined`. For a `null` or `undefined` error, `error.constructor.name` at components/chat.tsx:138 throws before any state update: no rewrite, no toast and no reset of the data stream. The model does not cover that case.
- `ChatMessages.Message`: `parts` is always present. The source also guards against a missing `parts` array, which with `last.parts &&` counts as no meaningful part.
- `ChatRequest.ThinkingRequested`: `experimental_providerMetadata.thinking` is an optional boolean. A truthy value of another type would be sent as itself rather than as `true`.
- The usage payload of a `data-usage` part is modelled as a string.
- The initial state of the data-stream provider is a constructor argument of `Session`.
- `ChatSession.Session.InjectPromptEffect` evaluates the effect's three early returns through one decision function, `PromptToInject`. The checks are pure and that function keeps their order, so the effect on the state is the same.
- The effects run once per call of their method. When React re-runs them after a dependency changes is not modelled.
- The server-side chat route is not part of this model: entity resolution, context aggregation, persistence and telemetry. Neither are the marketing pages, the home page's redirect or the Next.js configuration.

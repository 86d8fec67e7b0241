# Code4Collage: a verified model of the session core

This project models the decision logic of the Code4Collage single-page learning app (`src/App.js`) in Dafny and proves properties of that model. It covers three parts:

- **Live preview** (`OutputPane`, module `Preview`). Markup is passed verbatim to an iframe sandboxed with `allow-scripts`. Any other language gets a canned transcript: a header line naming the language, then one result line chosen by the language tag alone.
- **Assistant dialogue engine** (`createAITipsDatabase` and `AIAssistantModal`; modules `KnowledgeBase` and `Assistant`).
  - The knowledge base is transcribed literally: `html` has the rules `div` then `example`; `default` has the rule `python`.
  - The page selects a topic id, and the id selects a configuration, falling back to `default`.
  - Opening the panel seeds the log with a greeting and a tips message.
  - Sending logs the question and starts a reply timer.
  - When the timer fires, the rule keys are scanned in declaration order against the lower-cased question, and the first hit (or a fixed fallback) is appended.
  - The panel is the class `Assistant.AssistantModal`, with the component's state cells `messages`, `input` and `isTyping` as fields. It has one more field, `timers`: the reply timers still pending, oldest first. Each holds the question and the configuration its closure captured.
- **Navigation and session state** (`App`, `AuthProvider`, `Navbar`, `AuthModal`, `CertificatePage`, `TutorialDisplayPage`; modules `Navigation`, `Auth` and `Session`).
  - `Session.App` holds the page, the user, the theme, the open flags of the overlays and the provider of a social sign-in under way (`isLoading` with `loadingProvider`), and owns the assistant panel.
  - Its methods are the event handlers and timer bodies that change this state, plus two shared steps they call (`Login`, the authentication context's `login`, and `CompleteSignIn`). Each states the complete new state, including whether the seeding effect reseeds the assistant log: it does so when the panel is open and one of the effect's dependencies (open flag, topic id, user object) changed.
  - `renderPage`'s dispatch, the certificate gate and the tutorial page's button guard are functions on values.

Module `Text` writes out the JavaScript string operations the code relies on: `trim`, `toLowerCase`, `includes` and `Array.prototype.join`. `includes` and `trim` are proved against declarative meanings (`Occurs`; `TrimSplit` with `AllWhitespace`), and `toLowerCase` is characterised character by character. `join` is characterised by its first part, by how it grows when a part is appended (`Text.JoinAppend`), and by every part occurring in the result.

Three behaviours of the code are modelled as they are:
- Nothing cancels a reply timer. A reply still arrives after the panel is closed, and after a topic switch has reseeded the log. `Session.StaleReplyAfterTopicSwitch` proves that the HTML answer lands under the Python tutorial's fresh greeting.
- The typing indicator clears on the first reply even when a second is still pending; `Session.IndicatorClearsEarly` proves it.
- A certificate page takes any title string, because the code stores whatever `tutorial.title` is (`Navigation.Page.Certificate`).

The transcript lines carry a `> ` prefix and are joined into one string, as the code builds them.

## Model

| member | source | states |
|---|---|---|
| Preview.Render | src/App.js:369-399 | `html` and only `html` (exact, case-sensitive) gives the sandboxed pane, carrying the code unchanged and the attribute `allow-scripts`. Any other tag gives a transcript: the header naming the language, then Hello World exactly for python/java, the rows line exactly for sql, and the not-supported line exactly for every other tag. The function is total. |
| Preview.TranscriptIgnoresCode | src/App.js:383-392 | for a non-markup tag the output is a transcript and is the same for any two code strings |
| Preview.MarkupPassesThrough | src/App.js:370-381 | markup is passed through unchanged, whatever it contains, with sandbox `allow-scripts` |
| Preview.PythonTranscript | src/App.js:383-385 | the complete python transcript text |
| Preview.TagIsCaseSensitive | src/App.js:370 | `HTML` is not markup: it gets the not-supported transcript |
| Text.Contains | src/App.js:576 | `includes` holds exactly when the needle occurs at some position of the string |
| Text.Lower | src/App.js:572 | same length; no upper-case ASCII letter left; other characters kept; each upper-case letter moved to its lower-case partner |
| Text.LowerIdempotent | src/App.js:572 | lower-casing twice is lower-casing once |
| Text.Trim | src/App.js:122-123 | the result is the input with only whitespace cut off before and after it, and starts and ends with a non-whitespace character when non-empty |
| Text.TrimEmptyIffBlank | src/App.js:565 | `trim` yields "" exactly for all-whitespace input |
| Text.IsBlank | src/App.js:565 | `!s.trim()` holds exactly for all-whitespace input |
| Text.TrimIdempotent | src/App.js:122-123 | trimming a trimmed name changes nothing |
| Text.Join | src/App.js:556 | no parts give "", one part gives itself, and the result always starts with the first part |
| Text.JoinAppend | src/App.js:556 | joining one more part appends the separator and that part, so neighbouring parts are one separator apart |
| Text.JoinContainsEach | src/App.js:556 | every part occurs verbatim in the joined string |
| Auth.StandardSignIn | src/App.js:120-126 | a user is signed in exactly when the name is not blank; the user's name is the trimmed name: non-empty, no whitespace at either end |
| Auth.SocialUser | src/App.js:132 | the placeholder user's name is the provider followed by ` User`, so it is never blank |
| Auth.SignInIsStable | src/App.js:122-123 | signing in again with a stored name yields the same user |
| Navigation.RenderPage | src/App.js:685-700 | each known page name mounts its own view (both directions), with the tutorial id or certificate title passed on; every other name mounts Home |
| Navigation.RenderPageRoundTrip | src/App.js:685-700 | every stored page mounts the view of that very page, payload intact |
| Navigation.CertificateScreenFor | src/App.js:496-521 | the login gate shows exactly when nobody is signed in; otherwise the certificate names the user and the course title |
| Navigation.CertificateActions | src/App.js:500-510 | each certificate screen has one navigating button: Home exactly on the login gate, back to the list exactly on the certificate |
| Navigation.GateLeadsHome | src/App.js:496-503 | the gate's only button leads Home, whatever the title |
| Navigation.TutorialActions | src/App.js:433-441 | the first button leads back to the list; a certificate button exists exactly when a user is signed in, and it carries the tutorial's title |
| KnowledgeBase.TopicId | src/App.js:550 | a tutorial page's id; `default` for every other page |
| KnowledgeBase.ResolveConfig | src/App.js:551 | a listed id gets its own entry, an unlisted one gets the default entry; the result is always one of the two configurations |
| KnowledgeBase.ConfigForPage | src/App.js:550-551 | the HTML configuration applies exactly on the `html` tutorial page; every other page gets the default one |
| KnowledgeBase.UnlistedTopicFallsBack | src/App.js:551 | the `css` tutorial gets the default configuration |
| Assistant.MatchIndex | src/App.js:575-580 | the index of the first rule, in declaration order, whose key occurs in the input: its key occurs, no earlier key does; the number of rules when none matches |
| Assistant.Reply | src/App.js:573-580 | the reply is always the fallback or one of the rules' answers, and whenever some key occurs it is the answer of a rule whose key occurs |
| Assistant.ReplyIsFirstMatch | src/App.js:575-579 | when rule k is the first whose key occurs, the reply is rule k's answer, however many later keys occur too |
| Assistant.ReplyWithoutMatch | src/App.js:573-580 | with no key in the input the reply is the fixed fallback |
| Assistant.SelectResponse | src/App.js:572-580 | the `for…in` scan with `break` returns the first-match reply |
| Assistant.HtmlDivWins | src/App.js:29-32 | in the HTML topic any question containing `div` gets the div answer, and so does one that also names `example` |
| Assistant.HtmlExampleOnlyWithoutDiv | src/App.js:29-32 | in the HTML topic the reply is the example answer if and only if the question contains `example` and not `div` |
| Assistant.HtmlFallback | src/App.js:573 | in the HTML topic, a question naming neither key gets the fallback |
| Assistant.DefaultReply | src/App.js:37 | on every other page, the python answer comes exactly for questions containing `python`, and the fallback otherwise |
| Assistant.UpperKeyAbsent | src/App.js:572-576 | a key with an upper-case letter occurs in no lower-cased question |
| Assistant.CapitalisedKeyNeverMatches | src/App.js:572-576 | keys are not lower-cased: a key with an upper-case letter never matches and never changes the reply |
| Assistant.DisplayName | src/App.js:555 | the user's name when there is a non-empty one, and `there` when the name is absent or empty |
| Assistant.SeedLog | src/App.js:555-556 | exactly two assistant messages: `Hello <name or there>! <greeting>`, then the tips joined by a blank line |
| Assistant.SeedLogHasEveryTip | src/App.js:556 | every tip appears verbatim in the second seed message |
| Assistant.HtmlTipsMessage | src/App.js:25-28 | the HTML topic's tips message is its two tips, in order, one blank line apart |
| Assistant.AssistantModal.constructor | src/App.js:546-548 | empty log, empty input, no indicator, no timers |
| Assistant.AssistantModal.SetInput | src/App.js:617 | the input becomes the typed text; nothing else changes |
| Assistant.AssistantModal.Seed | src/App.js:553-558 | an open panel's log is replaced by the seed log of the page's topic; a closed panel is left alone; input, indicator and timers are unchanged |
| Assistant.AssistantModal.BlankInput | src/App.js:565 | the guard holds exactly when the typed question is all whitespace |
| Assistant.AssistantModal.Send | src/App.js:564-570 | a blank question changes nothing. Otherwise: the untrimmed question is appended as one learner message after the unchanged log, the input is cleared, the indicator comes on, and a timer is queued, capturing the question and the configuration of the page it was sent from. |
| Assistant.AssistantModal.Deliver | src/App.js:571-584 | the oldest timer fires: exactly one assistant message is appended, holding the first-match reply to the captured question under the captured configuration; the earlier log is kept; the indicator goes off |
| Session.Toggled | src/App.js:635-637 | toggling always changes the theme |
| Session.ToggleTwice | src/App.js:635-637 | toggling twice restores the theme |
| Session.AfterSeeding | src/App.js:553-558 | when a dependency changed and the panel is open the log starts over as the seed for the current user and the page's topic configuration; otherwise it is untouched |
| Session.App.constructor | src/App.js:629-633 | Home, nobody signed in, light theme, every overlay closed, empty assistant |
| Session.App.SetPage | src/App.js:629 | the page is replaced wholesale; an open assistant is reseeded exactly when the topic id changed; nothing else changes |
| Session.App.Logout | src/App.js:65-68 | the user is cleared and Home shows, always; an open assistant reseeds when the user or the topic id changed |
| Session.App.OpenSignIn | src/App.js:87-94 | the Sign In button, offered only while nobody is signed in, opens the dialog |
| Session.App.CloseSignIn | src/App.js:157 | a backdrop click, possible only on the form screen, closes the dialog without signing in |
| Session.App.Login | src/App.js:52 | the user becomes the given one (a new object, so an open assistant reseeds) |
| Session.App.SubmitSignIn | src/App.js:120-126 | from the form screen (no social sign-in under way): for a non-blank name, the trimmed name's user signs in and the dialog closes; for a blank name nothing changes |
| Session.App.CompleteSignIn | src/App.js:122-125 | an accepted sign-in replaces the user and closes the dialog; a refused one changes nothing |
| Session.App.StartSocialSignIn | src/App.js:128-131 | a provider button on the form screen starts a sign-in with that provider; the dialog stays open on its waiting screen |
| Session.App.CompleteSocialSignIn | src/App.js:131-136 | the pending provider's placeholder user `<provider> User` signs in, the waiting screen ends and the dialog closes |
| Session.App.ToggleTheme | src/App.js:635-637 | the theme flips; nothing else changes |
| Session.App.ToggleAssistant | src/App.js:710 | the panel flips open or closed; opening reseeds it; closing keeps the log and the pending timers |
| Session.App.CloseAssistant | src/App.js:711 | the panel closes; page and user are unchanged |
| Session.App.TypeQuestion | src/App.js:617 | the input becomes the typed text |
| Session.App.SendQuestion | src/App.js:618 | Enter sends the question under the current page's configuration: a blank question changes nothing, otherwise the question is logged, the box cleared, the indicator lit and a timer queued |
| Session.App.ReplyArrives | src/App.js:571-584 | the oldest reply is delivered whether or not the panel is still open or the topic has changed since it was sent |
| Session.StaleReplyAfterTopicSwitch | src/App.js:553-583 | ask about `div` in the HTML tutorial, then switch to Python before the reply: the log ends as the Python seed plus the HTML div answer |
| Session.IndicatorClearsEarly | src/App.js:564-583 | after two quick questions and one reply, the indicator is off although one reply is still pending |

## Left out

- The `fetch` calls are network I/O, so they are not modelled: the tutorial index (fetched by the scrolling banner, src/App.js:205-216, and by the tutorials page, 328-344) and the tutorial detail (408-426). Neither are their loading and error states, nor the editor buffer they fill. `Preview.Render` takes the code as a parameter.
- Whether the browser actually enforces the iframe sandbox is browser behaviour; the model has only the attribute value. Markdown rendering of messages and tutorial content is library behaviour and is also left out.
- The certificate download (`html2canvas`) and the locale-formatted completion date are a foreign library and locale formatting; the certificate screen models the recipient and the course only.
- Real time is left out. The 1500 ms delays are discrete steps: a queued timer, then `Deliver`, or `CompleteSocialSignIn` for the social sign-in. The dialog's login/sign-up view switch (`isLoginView`) is not modelled: both views submit through the same `handleStandardSubmit`, which `Session.App.SubmitSignIn` models.
- DOM side effects are left out: `scrollIntoView`, the script and style injection into `document.head`, and the `dark` class on the document element.
- JSX layout, CSS, animations, the home page's static language cards, the About dialog and the footer are presentation only. The scrolling banner's layout is too; its buttons navigate with `setPage({ name: 'tutorial', id })` (src/App.js:221), which `Session.App.SetPage` covers.
- Timer cancellation and stale-fetch tagging are not modelled as present, because the code has neither.
- Text.Lower: only ASCII `A`–`Z` are mapped. The full Unicode case mapping of `toLowerCase`, which can change a string's length, is not modelled.
- KnowledgeBase.ResolveConfig: the database is a plain map. A topic id naming an inherited object property such as `constructor` would, in JavaScript, find that property instead of the default entry; this is not modelled.
- Navigation.RenderPage: a page record's missing field is the empty string rather than `undefined`.
- Preview.Render: the language tag is always a string; an `undefined` tag, which would print as `undefined` in the header, is not modelled.
- Preview.Render: that each result line is a single line (holds no newline) is not proved; the result lines are only proved to be the three distinct constants.
- The sign-in form's `name` state is not a field: `Session.App.SubmitSignIn` takes the name as typed at submission.

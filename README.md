# MockHire front end, modelled in Dafny

MockHire is a mock-interview web application. A signed-in user picks a role,
a difficulty and a duration, then talks to a voice assistant. When the call
ends, the transcript goes to the server for analysis and the results page
shows that analysis. The front end is a React application. This project
models the decision rules and state changes of that front end, and proves
properties of the model.

Modules, one per source file, plus shared helpers:

- `InterviewPage` (`src/Pages/Interview.jsx`): the interview session
  controller.
  - The class `Session` holds the screen's state: call, speaking flags,
    loading, microphone permission, error text, transcript buffer and joined
    transcript, the pending 50-second fallback timer, the pending 3-second
    navigation, and the current route.
  - Each event of the voice-call client, each timer and each button is one
    method of the class.
  - What the client's `start`/`stop`, `fetch` and `getUserMedia` return is
    passed in as parameters.
  - Message finality, speaker and text resolution, and line building are pure
    functions. Lemmas about them cover runs of many messages.
  - The start and leave buttons' enabled state is given by the predicates
    `StartEnabled` and `StopEnabled`.
  - A few whole-session methods chain the events and state their end result.
- `RolePage` (`src/Pages/Role.jsx`):
  - `prettifyTitle`, proved equal, character by character, to a one-pass scan;
  - the array-or-object role pick;
  - the page's fetch state (class `Page`).
- `FeedbackPage` and `ContactPage` (`src/Pages/Feedback.jsx`,
  `src/Pages/Contact.jsx`): the two forms as classes, with field updates,
  validation, submission and the message-clearing timers. `Http` holds what
  both forms make of a POST outcome.
- `DashboardPage` (`src/Pages/Dashboard.jsx`): the scheduling dialog
  defined inside the dashboard, as a class. `Catalog` and `Collections` hold
  the role-option de-duplication it shares with `InterviewFormComponent`
  (`src/components/InterviewForm.jsx`).
- `Combobox` (`src/components/ui/combobox.jsx`): the select box's toggle,
  its check marks and its trigger caption.
- `InterviewCardComponent` (`src/components/InterviewCard.jsx`): the shown
  technologies and their icons.
- `LayoutPage` (`src/Pages/Layout.jsx`): removing the sign-in handshake
  parameters, as a loop over the three names.
- `ProtectedRouteComponent` (`src/components/ProtectedRoute.jsx`): the
  three-way gate.
- `Text`: JavaScript's `split` and `join` for a one-character separator.
- `Wrappers`: `Option` and JavaScript's `||` on strings.

Conventions:

- A JavaScript value that is `undefined` and only ever tested for
  truthiness is modelled as the empty string. Both are falsy, so every
  `a || b` on such fields behaves the same.
- Timers are explicit events (`FallbackTimerFires`, `DelayedDashboardFires`,
  `MessageClearFires`). A pending timer is a flag or a counter in the state.
- The interview's fallback timer callback reads `botSpeaking` as it was when
  `startInterview` ran, because the callback closes over that render's
  value. The model keeps that captured value in `timerSawBotSpeaking`.
- The dashboard's scheduling dialog never records a resume file: its
  `setResume` handler is commented out (`src/Pages/Dashboard.jsx:90`). The
  model keeps that as written. `resume == None` is a class invariant, and
  `HandleSubmit` is proved always to show "Fill All Fields!".

## Model

| member | source | states |
|---|---|---|
| Wrappers.Or | src/Pages/Interview.jsx:95-96 | `a \|\| b` on strings: the first operand when it is non-empty, the second otherwise |
| Text.JoinSplit | src/Pages/Interview.jsx:81 | splitting a string on a character and joining the pieces with it gives the string back |
| Text.SplitJoin | src/Pages/Interview.jsx:81 | joining separator-free pieces and splitting again gives the pieces back |
| Text.JoinSnoc | src/Pages/Interview.jsx:81 | joining a list with one more piece appends the separator and that piece to the joined text |
| Text.Split | src/Pages/Role.jsx:39 | `split` gives at least one piece, and no piece contains the separator |
| Text.Join | src/Pages/Interview.jsx:81 | `join`: no parts give ""; the first part starts the result and, with a second part, is followed by the separator; `JoinSplit` and `SplitJoin` tie it to `Split` |
| InterviewPage.AssistantVariables | src/Pages/Interview.jsx:37-49 | each variable is the form's or the profile's value when present and "" otherwise; the user name prefers the full name to the first name |
| InterviewPage.IsFinal | src/Pages/Interview.jsx:93 | an explicit `transcriptType` decides finality (final iff it is "final"); without one, the message is final iff its `type` is "transcript" |
| InterviewPage.SpeakerOf | src/Pages/Interview.jsx:95 | the speaker is the explicit speaker, else the role, else "User" or "Interviewer" by the user flag, and is never empty |
| InterviewPage.TextOf | src/Pages/Interview.jsx:96 | the `transcript` field when non-empty, else the `text` field; empty exactly when both are |
| InterviewPage.LinesOf | src/Pages/Interview.jsx:92-97 | a message adds one line exactly when it is final and has text, and that line is `speaker + ": " + text`; otherwise it adds nothing |
| InterviewPage.Lines | src/Pages/Interview.jsx:92-99 | the buffer built from a run of messages has at most one line per message |
| InterviewPage.LinesFromFinalMessages | src/Pages/Interview.jsx:92-97 | every buffered line is `speaker + ": " + text` of some final message of the run |
| InterviewPage.LinesConcat | src/Pages/Interview.jsx:92-99 | the lines from two runs of messages are the lines of the first run followed by those of the second |
| InterviewPage.InterimMessagesIgnored | src/Pages/Interview.jsx:93-94 | a run of non-final messages adds nothing to the buffer |
| InterviewPage.TranscriptSplitsBack | src/Pages/Interview.jsx:81 | a non-empty buffer of lines without newlines, joined with newlines, splits back into exactly those lines (an empty buffer joins to "", which splits into one empty line) |
| InterviewPage.AppendedLineJoins | src/Pages/Interview.jsx:81 | a line pushed onto a non-empty buffer appears in the joined transcript after a newline, following the text already there |
| InterviewPage.AfterSpeech | src/Pages/Interview.jsx:84-91 | a speech event sets (start) or clears (end) the flag of its own speaker and leaves the other speaker's flag alone |
| InterviewPage.AfterSpeechAll | src/Pages/Interview.jsx:84-91 | a run of speech events applied in order; no events leave the flags alone, and the last event's speaker flag is set iff that event is a start |
| InterviewPage.FlagFollowsLatestEvent | src/Pages/Interview.jsx:84-91 | after any run of speech events, a speaker's flag is set iff that speaker's latest event was a start |
| InterviewPage.FlagUntouched | src/Pages/Interview.jsx:84-91 | a speaker with no event in a run keeps its flag |
| InterviewPage.ErrorText | src/Pages/Interview.jsx:102 | the error text is the string error itself, else the error's message, else "Unknown Vapi error", and is never empty |
| InterviewPage.Delivered | src/Pages/Interview.jsx:204-214 | the analysis gets through only if a response arrives, it is `ok`, and its body parses; each failure stops it |
| InterviewPage.Session.constructor | src/Pages/Interview.jsx:14-67 | initial state; the client exists iff a public key is set; without route state the screen goes to the dashboard |
| InterviewPage.Session.StartLabel | src/Pages/Interview.jsx:335 | the caption is "Loading..." iff loading, "Interview In Progress" iff not loading and in a call, "Start Interview" otherwise |
| InterviewPage.Session.StartEnabled | src/Pages/Interview.jsx:333 | an enabled start button means a client, no call and no loading, so a click meets `StartInterview`'s precondition |
| InterviewPage.Session.StopEnabled | src/Pages/Interview.jsx:338 | the leave button and the start button are never enabled together; with no call the start button is enabled iff a client exists and nothing loads |
| InterviewPage.Session.CallStart | src/Pages/Interview.jsx:71-76 | the call is up, the error is cleared, the buffer and the joined transcript are empty; nothing else changes; the leave button is enabled and the start button disabled |
| InterviewPage.Session.CallEnd | src/Pages/Interview.jsx:77-83 | no call and nobody speaking; the joined transcript is the buffer joined with newlines; nothing else changes; the leave button is disabled and the start button enabled iff a client exists and nothing loads |
| InterviewPage.Session.SpeechStarted | src/Pages/Interview.jsx:84-87 | the speaking flags follow `AfterSpeech` for a start event; nothing else changes |
| InterviewPage.Session.SpeechEnded | src/Pages/Interview.jsx:88-91 | the speaking flags follow `AfterSpeech` for an end event; nothing else changes |
| InterviewPage.Session.HandleMessage | src/Pages/Interview.jsx:92-99 | the buffer becomes the old buffer followed by `LinesOf(m)`; an interim or empty message changes nothing; only the buffer can change |
| InterviewPage.Session.HandleError | src/Pages/Interview.jsx:101-107 | the error text is `ErrorText(err)` and the route is the dashboard, for every error; nothing else changes |
| InterviewPage.Session.BotSpeakingEffect | src/Pages/Interview.jsx:51-60 | when the bot speaks while loading, loading ends and the fallback timer is cancelled; otherwise nothing changes |
| InterviewPage.Session.FallbackTimerFires | src/Pages/Interview.jsx:148-153 | loading ends; the route becomes the dashboard unless the captured `botSpeaking` was true |
| InterviewPage.Session.DelayedDashboardFires | src/Pages/Interview.jsx:228-231 | the deferred navigation takes the screen to the dashboard |
| InterviewPage.Session.StartInterview | src/Pages/Interview.jsx:143-189 | no client: no call and no change; the assistant id is preferred to the workflow id; the options-object form is called iff the first form throws; with neither id: "Missing VAPI assistant or workflow ID", loading off, timer cleared; both forms throw: the second error's message or "Failed to start interview", loading off, timer cleared; otherwise loading with the timer armed and the start button disabled |
| InterviewPage.Session.StopInterview | src/Pages/Interview.jsx:191-234 | no client: no change; once stop resolves, the newline-joined buffer is stored and posted; a delivered analysis leads to the results with that analysis and that transcript; any failure shows "Failed to get interview analysis", schedules the dashboard and never reaches the results |
| InterviewPage.Session.RequestMicOnMount | src/Pages/Interview.jsx:128-141 | without `getUserMedia` nothing changes; a grant records it; a refusal records it and shows the microphone message |
| InterviewPage.Session.RetryMic | src/Pages/Interview.jsx:311-321 | a grant records it and clears the error; a refusal records it and shows the microphone message; the start button's enabled state is unchanged |
| InterviewPage.HandleMessages | src/Pages/Interview.jsx:92-99 | any run of `message` events grows the buffer by exactly the lines of that run (`Lines`), and nothing else on the screen changes |
| InterviewPage.HandleSpeech | src/Pages/Interview.jsx:84-91 | any run of speech events leaves the speaking flags at `AfterSpeechAll` of the run, so `FlagFollowsLatestEvent` and `FlagUntouched` hold for the screen itself; nothing else changes |
| InterviewPage.Converse | src/Pages/Interview.jsx:92-97 | five final messages alternating user and bot leave exactly the five lines "User: …", "Interviewer: …" in order |
| InterviewPage.CompleteInterview | src/Pages/Interview.jsx:191-222 | a full session ends on the results page with the server's analysis and the five lines joined by newlines |
| InterviewPage.SilentBotReturnsToDashboard | src/Pages/Interview.jsx:148-153 | when the bot never speaks, the fallback ends loading and returns to the dashboard |
| InterviewPage.BotSpeaksInTime | src/Pages/Interview.jsx:51-60 | when the bot speaks in time, loading ends, the timer is cancelled and the screen stays |
| InterviewPage.FailedAnalysisDefersDashboard | src/Pages/Interview.jsx:224-232 | a failed analysis shows the error, stays on the screen, and reaches the dashboard when the deferred navigation fires |
| RolePage.UpperAscii | src/Pages/Role.jsx:40 | lower-case ASCII letters move to upper case; every other character is unchanged |
| RolePage.Capitalize | src/Pages/Role.jsx:40 | a piece keeps its length; its first character is upper-cased and the rest is unchanged |
| RolePage.PrettifyTitle | src/Pages/Role.jsx:37-41 | a missing or empty title gives ""; the heading has the title's length; each `_` becomes one space; the first character of each segment is upper-cased; every other character is kept |
| RolePage.SplitCapitalizeJoin | src/Pages/Role.jsx:38-41 | split, capitalise every piece and join equals the one-pass scan |
| RolePage.ScanAt | src/Pages/Role.jsx:38-41 | the one-pass scan, character by character, is the per-position rule |
| RolePage.PrettifyIdempotent | src/Pages/Role.jsx:37-41 | prettifying a heading again leaves it unchanged |
| RolePage.PickRole | src/Pages/Role.jsx:24-26 | an array gives its first element, or none when empty; a single role gives itself; missing or null data gives none |
| RolePage.Page.constructor | src/Pages/Role.jsx:14-16 | no role, loading, no error |
| RolePage.Page.FetchRoles | src/Pages/Role.jsx:18-35 | a failure shows the fixed error and forgets the role; success clears the error and keeps the picked role; loading ends on every path |
| RolePage.Page.View | src/Pages/Role.jsx:64-72 | loading, then the error, then "no role", then the prettified heading, each shown exactly in its case |
| Http.SubmitMessage | src/Pages/Feedback.jsx:43-50 | status 200 or 201 gives the success text, any other status the failure text, a thrown request the error text; each text occurs in its case only |
| Http.Accepted | src/Pages/Feedback.jsx:43 | a submission is accepted only when a response arrives, and then iff its status is 200 or 201 |
| Http.ErrorStyled | src/Pages/Feedback.jsx:112 | the message is red iff it contains the cross mark, so an empty message is never red |
| Http.ErrorStyledIffNotAccepted | src/Pages/Feedback.jsx:112 | the message is shown in red iff the submission was not accepted; "Fill All Fields!" is not shown in red |
| FeedbackPage.WithField | src/Pages/Feedback.jsx:22-24 | the named field takes the value and every other field, the rating included, keeps its own |
| FeedbackPage.Complete | src/Pages/Feedback.jsx:33 | a rating of 0 always fails the guard; with a rating, the form passes iff name, email and message are non-empty |
| FeedbackPage.ClearingAnyFieldBlocksSubmit | src/Pages/Feedback.jsx:22-24 | emptying any one text field fails the submit guard, whatever the rest of the form holds |
| FeedbackPage.Stars | src/Pages/Feedback.jsx:100-107 | five stars; star k is filled iff k is at most the rating |
| FeedbackPage.CountFilledPrefix | src/Pages/Feedback.jsx:100-107 | a row filled exactly on its first n places counts n filled entries |
| FeedbackPage.StarsShowRating | src/Pages/Feedback.jsx:100-107 | the number of filled stars is the rating |
| FeedbackPage.BlankIsIncomplete | src/Pages/Feedback.jsx:45 | the form reset after success fails the submit guard, and its star row is all empty |
| FeedbackPage.FeedbackForm.constructor | src/Pages/Feedback.jsx:13-20 | empty fields, rating 0, no message, not loading |
| FeedbackPage.FeedbackForm.HandleChange | src/Pages/Feedback.jsx:22-24 | the form becomes `WithField(old form, field, value)`; nothing else changes |
| FeedbackPage.FeedbackForm.HandleRating | src/Pages/Feedback.jsx:26-28 | only the rating changes, to the clicked star |
| FeedbackPage.FeedbackForm.HandleSubmit | src/Pages/Feedback.jsx:30-56 | the form is posted iff complete; incomplete: "Fill All Fields!" and no change to the form; complete: `SubmitMessage(outcome)`, the form reset on success only; loading ends false; one clear timer is started |
| FeedbackPage.FeedbackForm.MessageClearFires | src/Pages/Feedback.jsx:35 | a pending clear timer empties the message |
| FeedbackPage.FeedbackForm.StarRow | src/Pages/Feedback.jsx:100-107 | the star row has five entries and as many filled stars as the rating |
| ContactPage.WithField | src/Pages/Contact.jsx:20-22 | the named field takes the value and every other field keeps its own |
| ContactPage.Complete | src/Pages/Contact.jsx:26 | the form passes the guard iff name, email and query are all non-empty |
| ContactPage.ClearingAnyFieldBlocksSubmit | src/Pages/Contact.jsx:20-22 | emptying any one field fails the submit guard, whatever the rest of the form holds |
| ContactPage.BlankIsIncomplete | src/Pages/Contact.jsx:37 | the form reset after success fails the submit guard |
| ContactPage.ContactForm.constructor | src/Pages/Contact.jsx:12-18 | empty fields, no message, not loading |
| ContactPage.ContactForm.HandleChange | src/Pages/Contact.jsx:20-22 | the form becomes `WithField(old form, field, value)`; nothing else changes |
| ContactPage.ContactForm.HandleSubmit | src/Pages/Contact.jsx:24-48 | the form is posted iff name, email and query are all non-empty; otherwise "Fill All Fields!"; `SubmitMessage(outcome)`; the form reset on success only; loading ends false |
| ContactPage.ContactForm.MessageClearFires | src/Pages/Contact.jsx:28 | a pending clear timer empties the message |
| Collections.FirstIndex | src/Pages/Dashboard.jsx:27 | the position of the first occurrence |
| Collections.Distinct | src/Pages/Dashboard.jsx:27 | `[...new Set(xs)]`: no repeats, exactly the elements of the input, in order of first occurrence |
| Collections.DistinctOfNoDuplicates | src/Pages/Dashboard.jsx:27 | a list without repeats is unchanged by de-duplication |
| Catalog.Titles | src/Pages/Dashboard.jsx:27 | the titles of the listing, one per entry, in order |
| Catalog.RoleOptions | src/Pages/Dashboard.jsx:27 | the role options have no repeats; a string is offered iff some entry has it as title; options keep the order of first appearance |
| Catalog.RoleOptionsOfDistinctTitles | src/Pages/Dashboard.jsx:27 | when titles are unique, the options are all the titles in listing order |
| InterviewFormComponent.DefaultListingHasNoRoles | src/components/InterviewForm.jsx:14-15 | with the default empty listing, the role options are empty |
| DashboardPage.FixedOptionsDistinct | src/Pages/Dashboard.jsx:28-29 | the three difficulties and the two durations (`Catalog.Durations`, shared with the standalone dialog) are each offered once |
| DashboardPage.ScheduleForm.constructor | src/Pages/Dashboard.jsx:26-36 | the role options are `RoleOptions(interviewData)`; nothing is selected; no resume and no message |
| DashboardPage.ScheduleForm.SelectRole | src/Pages/Dashboard.jsx:65-70 | the selected role becomes `Toggle(old, option)`, and stays empty or one of the roles; nothing else changes |
| DashboardPage.ScheduleForm.SelectDifficulty | src/Pages/Dashboard.jsx:71-76 | the selected difficulty becomes `Toggle(old, option)`, and stays empty or one of Easy, Medium, Hard; nothing else changes |
| DashboardPage.ScheduleForm.SelectDuration | src/Pages/Dashboard.jsx:77-82 | the selected duration becomes `Toggle(old, option)`, and stays empty or one of the durations; nothing else changes |
| DashboardPage.ScheduleForm.ExtractText | src/Pages/Dashboard.jsx:42-47 | extracted text replaces the resume text; a failed extraction leaves it; the resume file is not recorded |
| DashboardPage.ScheduleForm.Filled | src/Pages/Dashboard.jsx:50 | the form passes the guard only with a resume file and all three selections |
| DashboardPage.ScheduleForm.HandleSubmit | src/Pages/Dashboard.jsx:49-54 | an unfilled form shows "Fill All Fields!" and a filled one changes nothing; since no resume is ever recorded, the message is always "Fill All Fields!" |
| Combobox.Toggle | src/components/ui/combobox.jsx:59 | selecting the current value clears it; any other option becomes the value |
| Combobox.OnSelect | src/components/ui/combobox.jsx:58-61 | the value toggles and the popover closes |
| Combobox.SelectTwiceRestores | src/components/ui/combobox.jsx:59 | picking the same option twice from an empty or matching selection restores it |
| Combobox.OnSelectStaysInOptions | src/components/ui/combobox.jsx:59 | after a pick the value is empty or one of the options |
| Combobox.CheckMarks | src/components/ui/combobox.jsx:66 | one mark per option, shown exactly on options equal to the value |
| Combobox.CheckMarkCount | src/components/ui/combobox.jsx:66 | over options without repeats, one mark shows iff the value is an option, none otherwise |
| Combobox.TriggerLabel | src/components/ui/combobox.jsx:32 | the value, or "Select " followed by the field name when the value is empty; never empty; equal to the value iff a value is selected |
| InterviewCardComponent.DisplayTechs | src/components/InterviewCard.jsx:34-36 | a non-empty stack is shown as given; an empty one as Communication and Leadership; never empty |
| InterviewCardComponent.IconFor | src/components/InterviewCard.jsx:75 | a name in the table gets its table icon, any other name the generic code icon |
| InterviewCardComponent.Icons | src/components/InterviewCard.jsx:72-80 | one icon per shown technology, in the same order |
| InterviewCardComponent.FallbackIcons | src/components/InterviewCard.jsx:28-36 | a card without a stack shows the chat and manager icons |
| InterviewCardComponent.DefaultIconOnlyForUnknown | src/components/InterviewCard.jsx:9-31 | the generic icon appears exactly for names the table lacks |
| LayoutPage.Delete | src/Pages/Layout.jsx:20 | every entry with the name goes, every entry with another name stays, and an absent name changes nothing |
| LayoutPage.HasMember | src/Pages/Layout.jsx:19 | `has` holds iff some entry carries the name |
| LayoutPage.DeleteAll | src/Pages/Layout.jsx:18-23 | deleting names one after another never adds entries, and the last name deleted is gone |
| LayoutPage.DeleteCounts | src/Pages/Layout.jsx:20 | every entry with another name is kept exactly as many times as it occurred |
| LayoutPage.DeleteConcat | src/Pages/Layout.jsx:20 | deleting from a concatenation deletes from each part in turn, so the kept entries keep their order |
| LayoutPage.DeleteAllKeeps | src/Pages/Layout.jsx:18-23 | after deleting several names, exactly the entries with other names remain |
| LayoutPage.StripHandshake | src/Pages/Layout.jsx:9-28 | none of the three handshake names remain, every other entry does; `changed` iff one of them was present; if so, a replacing navigation to the bare path; otherwise no navigation |
| ProtectedRouteComponent.Gate | src/components/ProtectedRoute.jsx:5-11 | loader iff not loaded; children iff loaded and signed in; redirect to "/sign-in" iff loaded and signed out |

## Left out

- The voice-call client's internals (audio, speech recognition, turn-taking) are not modelled. Registering and removing its listeners (`src/Pages/Interview.jsx:109-124`) is not modelled either. Only the client's results enter, as parameters.
- Network requests, `getUserMedia` and PDF text extraction are not modelled. Their outcomes are parameters.
- Wall-clock time is not modelled. Timers are events.
- Interleaving of events during an `await` is not modelled. Each handler runs as one step.
- React's batching and re-rendering are not modelled. An effect is an explicit event.
- InterviewPage.Session.constructor models the redirect on missing route state once, at mount. The source calls `navigate` during every render while the state is missing.
- InterviewPage.Message: `transcript`, `text`, `speaker` and `role` are strings, with "" for absent. Non-string values in those fields are not modelled.
- RolePage.UpperAscii: only ASCII letters are upper-cased. JavaScript's `toUpperCase` also maps other scripts and can lengthen a string (`ß` gives `SS`). So the length and idempotence results hold for the model, which matches the source on ASCII titles.
- RolePage.PickRole: an array whose first element is null or not an object is not modelled. The role payload is missing, null, an array of roles or one role.
- The status check of both forms is modelled as written (200 or 201 succeed). The axios library rejects statuses outside 200–299 by default, so those reach the error message; statuses 202–299 reach the failure message, as modelled. The library's rejection is not part of this model, so every status is taken as delivered.
- FeedbackPage.FeedbackForm.HandleChange and ContactPage.ContactForm.HandleChange cover only the inputs' own names. An event with another `name` would add a new key to the form object. The form never produces one.
- The message-clearing timers are a counter of pending clears. Each firing clears whatever message shows, as in the source. Their order relative to other events is not modelled.
- The dialog in `src/components/InterviewForm.jsx` has no handlers besides plain state setters, and its submit button does nothing. Only its option lists are modelled. Its role list is `Catalog.RoleOptions` and its durations are `Catalog.Durations`.
- InterviewCardComponent.IconFor: the lookup is on a Dafny map. In JavaScript, names of `Object.prototype` members (such as `"constructor"`) would find a non-string value instead of the default icon.
- The cover image picked by `getRandomInterviewCover` is not modelled, because it depends on randomness. `src/utils.js` is not part of this model.
- LayoutPage.StripHandshake: a query string is a list of name/value pairs. Parsing and percent-decoding of the raw string are not modelled.
- The route table in `src/App.jsx`, the sign-in components and the animated button are not modelled. Their behaviour lives in libraries.
- Purely presentational pages, logging and styling are not modelled.

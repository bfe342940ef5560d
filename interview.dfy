/** The interview screen's session controller: the state the screen keeps
    for one voice call and how each event of the voice-call client, each
    button press, each timer and each microphone answer changes it.

    What the voice-call client, the analysis endpoint and the browser's
    microphone prompt answer is not computed here: each outcome is a
    parameter of the method that receives it. */
module InterviewPage {
  import opened Wrappers
  import Text

  const UnknownVapiError := "Unknown Vapi error"
  const MissingIdError := "Missing VAPI assistant or workflow ID"
  const StartFailedError := "Failed to start interview"
  const AnalysisFailedError := "Failed to get interview analysis"
  const MicRequiredError := "Microphone permission is required to start the interview."

  /** The transcript buffer is joined with a newline. */
  const LineBreak := '\n'

  datatype MicPermission = Unknown | Granted | Denied

  /** The parsed body of a successful analysis response. The controller
      never looks inside it: it is carried to the results screen unchanged. */
  datatype Analysis = Analysis(json: string)

  /** Where the screen has asked the router to go last. */
  datatype Route =
    | StayOnInterview
    | Dashboard
    | Results(analysis: Analysis, transcript: string)

  // ---------------------------------------------------------------------
  // Session variables handed to the assistant
  // ---------------------------------------------------------------------

  /** The route state the dashboard sends along (absent fields are ""). */
  datatype FormState = FormState(role: string, difficulty: string, duration: string, resumeText: string)

  /** The signed-in user's profile (absent fields are ""). */
  datatype User = User(fullName: string, firstName: string, email: string, id: string)

  datatype Variables = Variables(
    role: string, difficulty: string, duration: string, resumeText: string,
    userName: string, userEmail: string, userId: string)

  /** `assistantVariables`: every variable is a string, the form's and the
      profile's values where given and "" otherwise; the user name prefers
      the full name over the first name. */
  function AssistantVariables(form: Option<FormState>, user: Option<User>): (v: Variables)
    ensures form.Some? ==>
      && v.role == form.value.role && v.difficulty == form.value.difficulty
      && v.duration == form.value.duration && v.resumeText == form.value.resumeText
    ensures form.None? ==> v.role == "" && v.difficulty == "" && v.duration == "" && v.resumeText == ""
    ensures user.Some? ==>
      && v.userName == Or(user.value.fullName, user.value.firstName)
      && v.userEmail == user.value.email && v.userId == user.value.id
    ensures user.None? ==> v.userName == "" && v.userEmail == "" && v.userId == ""
  {
    var f := if form.Some? then form.value else FormState("", "", "", "");
    var u := if user.Some? then user.value else User("", "", "", "");
    Variables(f.role, f.difficulty, f.duration, f.resumeText,
              Or(u.fullName, Or(u.firstName, "")), u.email, u.id)
  }

  // ---------------------------------------------------------------------
  // Transcript messages
  // ---------------------------------------------------------------------

  /** A `message` event of the voice-call client. A field the event does not
      carry is "" (the source only ever tests these fields for truthiness);
      `kind` is the event's `type`. */
  datatype Message = Message(
    transcriptType: string, kind: string,
    speaker: string, role: string, user: bool,
    transcript: string, text: string)

  /** An explicit `transcriptType` decides finality; without one, the
      generic `type` must be "transcript". */
  function IsFinal(m: Message): (final: bool)
    ensures m.transcriptType != "" ==> (final <==> m.transcriptType == "final")
    ensures m.transcriptType == "" ==> (final <==> m.kind == "transcript")
  {
    if m.transcriptType != "" then m.transcriptType == "final" else m.kind == "transcript"
  }

  /** The explicit speaker, else the role, else "User" or "Interviewer" by the user flag. */
  function SpeakerOf(m: Message): (name: string)
    ensures name != ""
    ensures m.speaker != "" ==> name == m.speaker
    ensures m.speaker == "" && m.role != "" ==> name == m.role
    ensures m.speaker == "" && m.role == "" ==> name == (if m.user then "User" else "Interviewer")
  {
    Or(m.speaker, Or(m.role, if m.user then "User" else "Interviewer"))
  }

  /** The `transcript` field, else the `text` field. */
  function TextOf(m: Message): (text: string)
    ensures m.transcript != "" ==> text == m.transcript
    ensures m.transcript == "" ==> text == m.text
    ensures text == "" <==> m.transcript == "" && m.text == ""
  {
    Or(m.transcript, m.text)
  }

  /** The lines one message adds to the buffer: none for an interim message
      or an empty text, otherwise exactly "speaker: text". */
  function LinesOf(m: Message): (lines: seq<string>)
    ensures |lines| <= 1
    ensures |lines| == 1 <==> IsFinal(m) && TextOf(m) != ""
    ensures |lines| == 1 ==> lines[0] == SpeakerOf(m) + ": " + TextOf(m)
  {
    if IsFinal(m) && TextOf(m) != "" then [SpeakerOf(m) + ": " + TextOf(m)] else []
  }

  /** The lines a run of messages adds, in arrival order. */
  function Lines(ms: seq<Message>): (lines: seq<string>)
    ensures |lines| <= |ms|
  {
    if |ms| == 0 then [] else Lines(ms[..|ms| - 1]) + LinesOf(ms[|ms| - 1])
  }

  /** The buffer built from two runs of messages is the concatenation of the two. */
  lemma {:induction false} LinesConcat(a: seq<Message>, b: seq<Message>)
    ensures Lines(a + b) == Lines(a) + Lines(b)
    decreases |b|
  {
    if |b| > 0 {
      var ab := a + b;
      var init := b[..|b| - 1];
      assert ab[..|ab| - 1] == a + init;
      assert ab[|ab| - 1] == b[|b| - 1];
      LinesConcat(a, init);
      calc {
        Lines(ab);
        Lines(a + init) + LinesOf(b[|b| - 1]);
        Lines(a) + Lines(init) + LinesOf(b[|b| - 1]);
        Lines(a) + (Lines(init) + LinesOf(b[|b| - 1]));
        Lines(a) + Lines(b);
      }
    } else {
      assert a + b == a;
    }
  }

  /** Every buffered line comes from a final message of the run, and is that
      message's speaker and text. */
  lemma {:induction false} LinesFromFinalMessages(ms: seq<Message>)
    ensures forall k :: 0 <= k < |Lines(ms)| ==>
      exists j :: 0 <= j < |ms| && IsFinal(ms[j]) && Lines(ms)[k] == SpeakerOf(ms[j]) + ": " + TextOf(ms[j])
    decreases |ms|
  {
    if |ms| > 0 {
      var init := ms[..|ms| - 1];
      LinesFromFinalMessages(init);
      var lines := Lines(ms);
      forall k | 0 <= k < |lines|
        ensures exists j :: 0 <= j < |ms| && IsFinal(ms[j]) && lines[k] == SpeakerOf(ms[j]) + ": " + TextOf(ms[j])
      {
        if k < |Lines(init)| {
          assert lines == Lines(init) + LinesOf(ms[|ms| - 1]);
          assert lines[k] == Lines(init)[k];
          var j :| 0 <= j < |init| && IsFinal(init[j]) && Lines(init)[k] == SpeakerOf(init[j]) + ": " + TextOf(init[j]);
          assert ms[j] == init[j];
        } else {
          var j := |ms| - 1;
          assert lines == Lines(init) + LinesOf(ms[j]);
          assert lines[k] == LinesOf(ms[j])[0];
          assert IsFinal(ms[j]) && lines[k] == SpeakerOf(ms[j]) + ": " + TextOf(ms[j]);
        }
      }
      assert lines == Lines(ms);
    } else {
      assert |Lines(ms)| == 0;
    }
  }

  /** Interim messages, however many, add nothing to the buffer. */
  lemma {:induction false} InterimMessagesIgnored(ms: seq<Message>)
    requires forall k :: 0 <= k < |ms| ==> !IsFinal(ms[k])
    ensures Lines(ms) == []
    decreases |ms|
  {
    if |ms| > 0 {
      InterimMessagesIgnored(ms[..|ms| - 1]);
    }
  }

  /** Lines never contain a newline when their speaker and text do not; then
      the joined transcript splits back into exactly the buffered lines. */
  lemma TranscriptSplitsBack(lines: seq<string>)
    requires |lines| >= 1
    requires forall k :: 0 <= k < |lines| ==> LineBreak !in lines[k]
    ensures Text.Split(Text.Join(lines, LineBreak), LineBreak) == lines
  {
    Text.SplitJoin(lines, LineBreak);
  }

  /** A line appended to a non-empty buffer shows up in the joined transcript
      as a newline followed by that line, after the text already there. */
  lemma AppendedLineJoins(lines: seq<string>, line: string)
    requires |lines| >= 1
    ensures Text.Join(lines + [line], LineBreak) == Text.Join(lines, LineBreak) + [LineBreak] + line
  {
    Text.JoinSnoc(lines, line, LineBreak);
  }

  // ---------------------------------------------------------------------
  // Speaking flags
  // ---------------------------------------------------------------------

  datatype Speaking = Speaking(bot: bool, user: bool)

  /** A `speech-start` or `speech-end` event; `user` is the event's user flag. */
  datatype SpeechEvent = SpeechStart(user: bool) | SpeechEnd(user: bool)

  function Flag(s: Speaking, user: bool): bool
  {
    if user then s.user else s.bot
  }

  /** An event with the user flag sets or clears `user` only; one without it
      sets or clears `bot` only. */
  function AfterSpeech(s: Speaking, e: SpeechEvent): (t: Speaking)
    ensures Flag(t, e.user) == e.SpeechStart?
    ensures Flag(t, !e.user) == Flag(s, !e.user)
  {
    if e.user then s.(user := e.SpeechStart?) else s.(bot := e.SpeechStart?)
  }

  /** The flags after a run of speech events, applied in order. */
  function AfterSpeechAll(s: Speaking, es: seq<SpeechEvent>): (t: Speaking)
    ensures |es| == 0 ==> t == s
    ensures |es| > 0 ==> Flag(t, es[|es| - 1].user) == es[|es| - 1].SpeechStart?
  {
    if |es| == 0 then s else AfterSpeech(AfterSpeechAll(s, es[..|es| - 1]), es[|es| - 1])
  }

  /** After any run of speech events, a speaker's flag is set iff that
      speaker's most recent event was a start. */
  lemma {:induction false} FlagFollowsLatestEvent(s: Speaking, es: seq<SpeechEvent>, i: nat)
    requires i < |es|
    requires forall j :: i < j < |es| ==> es[j].user != es[i].user
    ensures Flag(AfterSpeechAll(s, es), es[i].user) == es[i].SpeechStart?
    decreases |es|
  {
    if i < |es| - 1 {
      FlagFollowsLatestEvent(s, es[..|es| - 1], i);
    }
  }

  /** A speaker with no event in the run keeps its flag. */
  lemma {:induction false} FlagUntouched(s: Speaking, es: seq<SpeechEvent>, user: bool)
    requires forall j :: 0 <= j < |es| ==> es[j].user != user
    ensures Flag(AfterSpeechAll(s, es), user) == Flag(s, user)
    decreases |es|
  {
    if |es| > 0 {
      FlagUntouched(s, es[..|es| - 1], user);
    }
  }

  // ---------------------------------------------------------------------
  // Errors and outcomes of external calls
  // ---------------------------------------------------------------------

  /** The argument of an `error` event: a string, an object (its `message`
      field, "" when absent), or nothing. */
  datatype VapiError = StringError(s: string) | ErrorObject(message: string) | Nullish

  /** The text an error event shows: never empty. */
  function ErrorText(err: VapiError): (msg: string)
    ensures msg != ""
    ensures err.StringError? && err.s != "" ==> msg == err.s
    ensures err.ErrorObject? && err.message != "" ==> msg == err.message
    ensures err.Nullish? || err == StringError("") || err == ErrorObject("") ==> msg == UnknownVapiError
  {
    var given := match err
      case StringError(s) => s
      case ErrorObject(message) => message
      case Nullish => "";
    Or(given, UnknownVapiError)
  }

  /** How an awaited call to the voice-call client settles. A thrown value
      without a `message` has message "". */
  datatype Attempt = Resolves | Throws(message: string)

  /** The answer of `POST /api/transcript`: no response at all, or a response
      with its `ok` flag and its parsed body (`None` when the body is not
      JSON, so that reading it throws). */
  datatype Response = NetworkError | HttpResponse(ok: bool, body: Option<Analysis>)

  /** Whether the analysis reaches the results screen: a network error, a
      response that is not `ok`, and a body that does not parse each stop it. */
  predicate Delivered(r: Response)
    ensures r.NetworkError? ==> !Delivered(r)
    ensures r.HttpResponse? && !r.ok ==> !Delivered(r)
    ensures r.HttpResponse? && r.body.None? ==> !Delivered(r)
    ensures r.HttpResponse? && r.ok && r.body.Some? ==> Delivered(r)
  {
    r.HttpResponse? && r.ok && r.body.Some?
  }

  /** The four ways the client's `start` is called. */
  datatype StartCall =
    | AssistantById(assistantId: string, variables: Variables)
    | AssistantOptions(assistantId: string, variables: Variables)
    | WorkflowById(workflowId: string, variables: Variables)
    | WorkflowOptions(workflowId: string, variables: Variables)

  /** Every field of the controller that an event can change. */
  datatype Snapshot = Snapshot(
    isCalling: bool, botSpeaking: bool, userSpeaking: bool, loading: bool,
    micPermission: MicPermission, errorMsg: string, fullTranscript: string,
    transcript: seq<string>, timerArmed: bool, timerSawBotSpeaking: bool,
    route: Route, dashboardPending: bool)

  // ---------------------------------------------------------------------
  // The controller
  // ---------------------------------------------------------------------

  class Session {
    /** A voice-call client exists iff a public key is configured. */
    const hasClient: bool
    const assistantId: string
    const workflowId: string
    const variables: Variables

    var isCalling: bool
    var botSpeaking: bool
    var userSpeaking: bool
    var loading: bool
    var micPermission: MicPermission
    var errorMsg: string
    var fullTranscript: string
    /** The transcript buffer (`transcriptRef`), appended to in place. */
    var transcript: seq<string>
    /** The 50-second fallback timer is pending. */
    var timerArmed: bool
    /** The `botSpeaking` value the timer's callback captured when it was set. */
    var timerSawBotSpeaking: bool
    var route: Route
    /** A navigation to the dashboard is scheduled 3 seconds ahead. */
    var dashboardPending: bool

    function State(): Snapshot
      reads this
    {
      Snapshot(isCalling, botSpeaking, userSpeaking, loading, micPermission, errorMsg,
               fullTranscript, transcript, timerArmed, timerSawBotSpeaking, route, dashboardPending)
    }

    function Speech(): Speaking
      reads this
    {
      Speaking(botSpeaking, userSpeaking)
    }

    /** The screen shows "Loading..." exactly while a fallback timer is
        pending, so loading never outlives the timer. */
    ghost predicate Valid()
      reads this
    {
      loading == timerArmed
    }

    /** Mounting the screen: without route state the screen sends the user
        back to the dashboard at once. */
    constructor(publicKey: string, assistantId: string, workflowId: string,
                form: Option<FormState>, user: Option<User>)
      ensures Valid()
      ensures hasClient == (publicKey != "")
      ensures this.assistantId == assistantId && this.workflowId == workflowId
      ensures variables == AssistantVariables(form, user)
      ensures State() == Snapshot(false, false, false, false, Unknown, "", "", [], false, false,
                                  if form.None? then Dashboard else StayOnInterview, false)
    {
      hasClient := publicKey != "";
      this.assistantId := assistantId;
      this.workflowId := workflowId;
      variables := AssistantVariables(form, user);
      isCalling, botSpeaking, userSpeaking, loading := false, false, false, false;
      micPermission := Unknown;
      errorMsg, fullTranscript := "", "";
      transcript := [];
      timerArmed, timerSawBotSpeaking := false, false;
      route := if form.None? then Dashboard else StayOnInterview;
      dashboardPending := false;
    }

    // -- what the buttons show -------------------------------------------

    /** The start button is enabled only when no call is up, a client
        exists and nothing is loading; microphone permission plays no part. */
    predicate StartEnabled()
      reads this
      ensures StartEnabled() ==> hasClient && !isCalling && !loading
    {
      !(isCalling || !hasClient || loading)
    }

    /** The leave button is enabled exactly during a call, so the two
        buttons are never enabled together. */
    predicate StopEnabled()
      reads this
      ensures StopEnabled() ==> !StartEnabled()
      ensures !StopEnabled() ==> (StartEnabled() <==> hasClient && !loading)
    {
      isCalling
    }

    function StartLabel(): (caption: string)
      reads this
      ensures caption == "Loading..." <==> loading
      ensures caption == "Interview In Progress" <==> !loading && isCalling
      ensures caption == "Start Interview" <==> !loading && !isCalling
    {
      if loading then "Loading..." else if isCalling then "Interview In Progress" else "Start Interview"
    }

    // -- events of the voice-call client ---------------------------------

    /** `call-start`: the call is up, the error is cleared, and both the
        buffer and the joined transcript start empty. */
    method CallStart()
      requires Valid()
      modifies this
      ensures Valid()
      ensures State() == old(State()).(isCalling := true, errorMsg := "", transcript := [], fullTranscript := "")
      ensures StopEnabled() && !StartEnabled()
    {
      isCalling := true;
      errorMsg := "";
      transcript := [];
      fullTranscript := "";
    }

    /** `call-end`: no call and nobody speaking; the joined transcript is the
        buffer joined with newlines. */
    method CallEnd()
      requires Valid()
      modifies this
      ensures Valid()
      ensures !isCalling && !botSpeaking && !userSpeaking
      ensures fullTranscript == Text.Join(transcript, LineBreak)
      ensures !StopEnabled() && (StartEnabled() <==> hasClient && !loading)
      ensures State() == old(State()).(isCalling := false, botSpeaking := false, userSpeaking := false,
                                       fullTranscript := Text.Join(old(transcript), LineBreak))
    {
      isCalling := false;
      botSpeaking := false;
      userSpeaking := false;
      fullTranscript := Text.Join(transcript, LineBreak);
    }

    /** `speech-start`: sets the user's flag when the event has the user flag,
        the bot's otherwise; nothing else changes. */
    method SpeechStarted(user: bool)
      requires Valid()
      modifies this
      ensures Valid()
      ensures Speech() == AfterSpeech(old(Speech()), SpeechStart(user))
      ensures State().(botSpeaking := old(botSpeaking), userSpeaking := old(userSpeaking)) == old(State())
    {
      if user {
        userSpeaking := true;
      } else {
        botSpeaking := true;
      }
    }

    /** `speech-end`: clears the user's flag when the event has the user flag,
        the bot's otherwise; nothing else changes. */
    method SpeechEnded(user: bool)
      requires Valid()
      modifies this
      ensures Valid()
      ensures Speech() == AfterSpeech(old(Speech()), SpeechEnd(user))
      ensures State().(botSpeaking := old(botSpeaking), userSpeaking := old(userSpeaking)) == old(State())
    {
      if user {
        userSpeaking := false;
      } else {
        botSpeaking := false;
      }
    }

    /** `message`: a final message with text appends exactly one line at the
        end of the buffer; any other message changes nothing. */
    method HandleMessage(m: Message)
      requires Valid()
      modifies this
      ensures Valid()
      ensures transcript == old(transcript) + LinesOf(m)
      ensures !IsFinal(m) || TextOf(m) == "" ==> State() == old(State())
      ensures State().(transcript := old(transcript)) == old(State())
    {
      if !IsFinal(m) {
        return;
      }
      var speaker := SpeakerOf(m);
      var text := TextOf(m);
      if text != "" {
        transcript := transcript + [speaker + ": " + text];
      }
    }

    /** `error`: the error's text is shown and the screen goes back to the
        dashboard, whatever the error was. */
    method HandleError(err: VapiError)
      requires Valid()
      modifies this
      ensures Valid()
      ensures errorMsg != "" && route == Dashboard
      ensures State() == old(State()).(errorMsg := ErrorText(err), route := Dashboard)
    {
      errorMsg := ErrorText(err);
      route := Dashboard;
    }

    // -- effects and timers ----------------------------------------------

    /** The effect on `botSpeaking`: once the bot speaks while loading,
        loading ends and the fallback timer is cancelled. */
    method BotSpeakingEffect()
      requires Valid()
      modifies this
      ensures Valid()
      ensures old(botSpeaking && loading) ==>
        State() == old(State()).(loading := false, timerArmed := false)
      ensures !old(botSpeaking && loading) ==> State() == old(State())
    {
      if botSpeaking && loading {
        loading := false;
        if timerArmed {
          timerArmed := false;
        }
      }
    }

    /** The 50-second fallback fires: loading ends, and the screen returns to
        the dashboard unless the bot was speaking when the interview was
        started (the value the callback captured, not the current one). */
    method FallbackTimerFires()
      requires Valid() && timerArmed
      modifies this
      ensures Valid()
      ensures !loading && !timerArmed
      ensures route == (if old(timerSawBotSpeaking) then old(route) else Dashboard)
      ensures State() == old(State()).(loading := false, timerArmed := false, route := route)
    {
      timerArmed := false;
      loading := false;
      if !timerSawBotSpeaking {
        route := Dashboard;
      }
    }

    /** The 3-second delayed navigation after a failed stop fires. */
    method DelayedDashboardFires()
      requires Valid() && dashboardPending
      modifies this
      ensures Valid()
      ensures State() == old(State()).(route := Dashboard, dashboardPending := false)
    {
      route := Dashboard;
      dashboardPending := false;
    }

    // -- buttons ---------------------------------------------------------

    /** A client is configured with some identifier. */
    predicate Configured()
    {
      assistantId != "" || workflowId != ""
    }

    /** `startInterview`, pressed while the button is enabled for it (it is
        disabled while loading). `first` and `second` are how the first and
        the fallback form of `start` settle; `calls` are the calls made.

        Without a client nothing happens. Otherwise the error is cleared,
        loading starts and the fallback timer is set. An assistant
        identifier is preferred over a workflow identifier; the
        options-object form is tried only when the first form throws. With
        no identifier, or when both forms throw, loading ends, the timer is
        cleared and the error is shown. */
    method StartInterview(first: Attempt, second: Attempt) returns (calls: seq<StartCall>)
      requires Valid() && !loading
      modifies this
      ensures Valid()
      ensures !hasClient ==> calls == [] && State() == old(State())
      ensures hasClient && assistantId != "" ==>
        && 1 <= |calls| <= 2
        && calls[0] == AssistantById(assistantId, variables)
        && (|calls| == 2 <==> first.Throws?)
        && (|calls| == 2 ==> calls[1] == AssistantOptions(assistantId, variables))
      ensures hasClient && assistantId == "" && workflowId != "" ==>
        && 1 <= |calls| <= 2
        && calls[0] == WorkflowById(workflowId, variables)
        && (|calls| == 2 <==> first.Throws?)
        && (|calls| == 2 ==> calls[1] == WorkflowOptions(workflowId, variables))
      ensures hasClient && !Configured() ==>
        calls == [] && errorMsg == MissingIdError && !loading && !timerArmed
      ensures hasClient && Configured() && (first.Resolves? || second.Resolves?) ==>
        errorMsg == "" && loading && timerArmed && timerSawBotSpeaking == old(botSpeaking) && !StartEnabled()
      ensures hasClient && Configured() && first.Throws? && second.Throws? ==>
        errorMsg == Or(second.message, StartFailedError) && !loading && !timerArmed
      ensures State().(errorMsg := old(errorMsg), loading := old(loading), timerArmed := old(timerArmed),
                       timerSawBotSpeaking := old(timerSawBotSpeaking)) == old(State())
    {
      calls := [];
      if !hasClient {
        return;
      }
      errorMsg := "";
      loading := true;
      timerArmed := true;
      timerSawBotSpeaking := botSpeaking;
      var failure: Option<string> := None;
      if assistantId != "" {
        calls := [AssistantById(assistantId, variables)];
        if first.Throws? {
          calls := calls + [AssistantOptions(assistantId, variables)];
          if second.Throws? {
            failure := Some(second.message);
          }
        }
      } else if workflowId != "" {
        calls := [WorkflowById(workflowId, variables)];
        if first.Throws? {
          calls := calls + [WorkflowOptions(workflowId, variables)];
          if second.Throws? {
            failure := Some(second.message);
          }
        }
      } else {
        failure := Some(MissingIdError);
      }
      if failure.Some? {
        errorMsg := Or(failure.value, StartFailedError);
        loading := false;
        if timerArmed {
          timerArmed := false;
        }
      }
    }

    /** `stopInterview`. `stop` is how the client's `stop` settles and
        `response` the analysis endpoint's answer; `posted` is the transcript
        sent for analysis, if any.

        Without a client nothing happens. Once `stop` resolves, the buffer
        joined with newlines becomes the joined transcript and is posted. On
        a delivered analysis the screen goes to the results with that
        analysis unchanged and that same transcript. Any failure shows the
        analysis error and schedules the dashboard 3 seconds ahead; the
        results screen is never reached then. */
    method StopInterview(stop: Attempt, response: Response) returns (posted: Option<string>)
      requires Valid()
      modifies this
      ensures Valid()
      ensures !hasClient ==> posted == None && State() == old(State())
      ensures hasClient && stop.Throws? ==>
        && posted == None
        && State() == old(State()).(errorMsg := AnalysisFailedError, dashboardPending := true)
      ensures hasClient && stop.Resolves? ==> posted == Some(Text.Join(old(transcript), LineBreak))
      ensures hasClient && stop.Resolves? && Delivered(response) ==>
        && route == Results(response.body.value, fullTranscript)
        && State() == old(State()).(fullTranscript := posted.value, route := route)
      ensures hasClient && stop.Resolves? && !Delivered(response) ==>
        State() == old(State()).(fullTranscript := posted.value, errorMsg := AnalysisFailedError,
                                 dashboardPending := true)
    {
      posted := None;
      if !hasClient {
        return;
      }
      if stop.Throws? {
        errorMsg := AnalysisFailedError;
        dashboardPending := true;
        return;
      }
      var joined := Text.Join(transcript, LineBreak);
      fullTranscript := joined;
      posted := Some(joined);
      if !response.HttpResponse? || !response.ok || response.body.None? {
        errorMsg := AnalysisFailedError;
        dashboardPending := true;
        return;
      }
      route := Results(response.body.value, joined);
    }

    // -- microphone ------------------------------------------------------

    /** The request made when the screen mounts. `supported` is whether the
        browser offers `getUserMedia`, `granted` the user's answer. */
    method RequestMicOnMount(supported: bool, granted: bool)
      requires Valid()
      modifies this
      ensures Valid()
      ensures !supported ==> State() == old(State())
      ensures supported && granted ==> State() == old(State()).(micPermission := Granted)
      ensures supported && !granted ==>
        State() == old(State()).(micPermission := Denied, errorMsg := MicRequiredError)
    {
      if !supported {
        return;
      }
      if granted {
        micPermission := Granted;
      } else {
        micPermission := Denied;
        errorMsg := MicRequiredError;
      }
    }

    /** The "Enable Microphone" retry: success also clears the error. The
        start button does not depend on the answer. */
    method RetryMic(granted: bool)
      requires Valid()
      modifies this
      ensures Valid()
      ensures granted ==> State() == old(State()).(micPermission := Granted, errorMsg := "")
      ensures !granted ==> State() == old(State()).(micPermission := Denied, errorMsg := MicRequiredError)
      ensures StartEnabled() == old(StartEnabled())
    {
      if granted {
        micPermission := Granted;
        errorMsg := "";
      } else {
        micPermission := Denied;
        errorMsg := MicRequiredError;
      }
    }
  }

  // ---------------------------------------------------------------------
  // Whole sessions
  // ---------------------------------------------------------------------

  function UserSays(text: string): Message
  {
    Message("final", "", "", "", true, text, "")
  }

  function BotSays(text: string): Message
  {
    Message("final", "", "", "", false, text, "")
  }

  /** A run of `message` events delivered to the screen one after another:
      the buffer grows by exactly `Lines(ms)`, and nothing else changes. */
  method HandleMessages(s: Session, ms: seq<Message>)
    requires s.Valid()
    modifies s
    ensures s.Valid()
    ensures s.transcript == old(s.transcript) + Lines(ms)
    ensures s.State().(transcript := old(s.transcript)) == old(s.State())
  {
    for i := 0 to |ms|
      invariant s.Valid()
      invariant s.transcript == old(s.transcript) + Lines(ms[..i])
      invariant s.State().(transcript := old(s.transcript)) == old(s.State())
    {
      assert ms[..i + 1][..i] == ms[..i] && ms[..i + 1][i] == ms[i];
      s.HandleMessage(ms[i]);
    }
    assert ms[..|ms|] == ms;
  }

  /** A run of `speech-start` and `speech-end` events delivered one after
      another: the flags become `AfterSpeechAll` of the run, and nothing
      else changes. */
  method HandleSpeech(s: Session, es: seq<SpeechEvent>)
    requires s.Valid()
    modifies s
    ensures s.Valid()
    ensures s.Speech() == AfterSpeechAll(old(s.Speech()), es)
    ensures s.State().(botSpeaking := old(s.botSpeaking), userSpeaking := old(s.userSpeaking)) == old(s.State())
  {
    for i := 0 to |es|
      invariant s.Valid()
      invariant s.Speech() == AfterSpeechAll(old(s.Speech()), es[..i])
      invariant s.State().(botSpeaking := old(s.botSpeaking), userSpeaking := old(s.userSpeaking)) == old(s.State())
    {
      assert es[..i + 1][..i] == es[..i] && es[..i + 1][i] == es[i];
      match es[i]
      case SpeechStart(user) => s.SpeechStarted(user);
      case SpeechEnd(user) => s.SpeechEnded(user);
    }
    assert es[..|es|] == es;
  }

  /** Five final messages with texts `t1` to `t5`, alternating between the
      user and the interviewer, arriving during a call. */
  method Converse(s: Session, t1: string, t2: string, t3: string, t4: string, t5: string)
    requires s.Valid() && s.transcript == []
    requires t1 != "" && t2 != "" && t3 != "" && t4 != "" && t5 != ""
    modifies s
    ensures s.Valid() && s.route == old(s.route)
    ensures s.transcript == ["User: " + t1, "Interviewer: " + t2, "User: " + t3,
                             "Interviewer: " + t4, "User: " + t5]
  {
    assert "User" + ": " == "User: " && "Interviewer" + ": " == "Interviewer: ";
    s.HandleMessage(UserSays(t1));
    s.HandleMessage(BotSays(t2));
    s.HandleMessage(UserSays(t3));
    s.HandleMessage(BotSays(t4));
    s.HandleMessage(UserSays(t5));
  }

  /** A full interview: permission granted, an assistant configured, the
      call starts, five final messages alternate between the two speakers,
      the user leaves and the analysis arrives. The results screen receives
      that exact analysis and the five-line transcript. */
  method CompleteInterview(analysis: Analysis, t1: string, t2: string, t3: string, t4: string, t5: string)
    returns (route: Route)
    requires t1 != "" && t2 != "" && t3 != "" && t4 != "" && t5 != ""
    ensures route == Results(analysis, Text.Join(["User: " + t1, "Interviewer: " + t2, "User: " + t3,
                                                  "Interviewer: " + t4, "User: " + t5], LineBreak))
  {
    var s := new Session("key", "assistant", "", Some(FormState("Frontend", "Easy", "3 min", "")), None);
    s.RequestMicOnMount(true, true);
    var calls := s.StartInterview(Resolves, Resolves);
    s.CallStart();
    Converse(s, t1, t2, t3, t4, t5);
    var posted := s.StopInterview(Resolves, HttpResponse(true, Some(analysis)));
    route := s.route;
  }

  /** The bot never speaks: when the fallback timer fires, loading has ended
      and the screen is back on the dashboard. */
  method SilentBotReturnsToDashboard() returns (loading: bool, route: Route)
    ensures !loading && route == Dashboard
  {
    var s := new Session("key", "assistant", "", Some(FormState("Backend", "Hard", "5 min", "")), None);
    var calls := s.StartInterview(Resolves, Resolves);
    s.FallbackTimerFires();
    loading, route := s.loading, s.route;
  }

  /** The bot speaks before the timer: loading ends, the timer is cancelled
      and no navigation happens. */
  method BotSpeaksInTime() returns (loading: bool, timerArmed: bool, route: Route)
    ensures !loading && !timerArmed && route == StayOnInterview
  {
    var s := new Session("key", "assistant", "", Some(FormState("Backend", "Hard", "5 min", "")), None);
    var calls := s.StartInterview(Resolves, Resolves);
    s.SpeechStarted(false);
    s.BotSpeakingEffect();
    loading, timerArmed, route := s.loading, s.timerArmed, s.route;
  }

  /** The analysis endpoint answers with an error status: the error is shown,
      the dashboard is only scheduled, and after the delay the screen is on
      the dashboard. */
  method FailedAnalysisDefersDashboard() returns (error: string, routeBefore: Route, routeAfter: Route)
    ensures error == AnalysisFailedError
    ensures routeBefore == StayOnInterview && routeAfter == Dashboard
  {
    var s := new Session("key", "assistant", "", Some(FormState("Backend", "Hard", "5 min", "")), None);
    var calls := s.StartInterview(Resolves, Resolves);
    s.CallStart();
    var posted := s.StopInterview(Resolves, HttpResponse(false, None));
    error, routeBefore := s.errorMsg, s.route;
    s.DelayedDashboardFires();
    routeAfter := s.route;
  }
}

/** The recording session of the `Command` component as a state machine over
    its UI state: the pure transition functions, the event-driven run of the
    machine, and what holds of every run. */
module Session {
  import opened Nullable
  import opened Markdown

  /** What a `catch` clause receives: an `Error` object carrying a message,
      or any other thrown value. */
  datatype Thrown = ErrorObject(message: string) | NonErrorValue

  const UnknownError := "Unknown error"
  const MissingKeyMessage := "OpenAI API key not set. Please set it in the extension preferences."

  /** The message a `catch` clause displays for a thrown value. */
  function ErrorMessage(err: Thrown): (m: string)
    ensures err.ErrorObject? ==> m == err.message
    ensures err.NonErrorValue? ==> m == UnknownError
  {
    match err
    case ErrorObject(message) => message
    case NonErrorValue => UnknownError
  }

  datatype Icon = Record | Microphone

  /** The one action the panel offers. */
  datatype Action = Action(title: string, icon: Icon, disabled: bool)

  /** The action as rendered for the current recording flag. */
  function RecordAction(isRecording: bool): (a: Action)
    ensures a.disabled <==> isRecording
    ensures a.title == "Recording..." <==> isRecording
    ensures a.title == "Start Recording" <==> !isRecording
    ensures a.icon == Record <==> isRecording
  {
    Action(
      if isRecording then "Recording..." else "Start Recording",
      if isRecording then Record else Microphone,
      isRecording)
  }

  /** What the outside world does once the key check has passed: the
      transcription request throws, or it returns text and pasting that text
      into the focused application either succeeds (`paste == None`) or throws.
      A recorder that failed leaves no usable audio file, which surfaces as a
      request that throws. */
  datatype Outcome =
    | RequestFailed(err: Thrown)
    | Transcribed(text: string, paste: Option<Thrown>)

  /** The component state, plus what the model tracks about the world:
      whether the temporary audio file exists, whether the recording timer is
      scheduled and has not fired, and the API key of every transcription
      request made so far, in order. */
  datatype Ui = Ui(
    isRecording: bool,
    isLoading: bool,
    transcription: string,
    error: Option<string>,
    tempFileExists: bool,
    timerArmed: bool,
    apiRequests: seq<string>)

  /** The state of a freshly mounted component. */
  function Initial(): (s: Ui)
    ensures Valid(s) && PhaseOf(s) == Idle
    ensures Panel(s) == Header + Instructions
  {
    Ui(false, false, "", None, false, false, [])
  }

  /** The invariant every reachable state keeps: the two flags move together,
      a timer is only pending while recording, no error is shown while a
      session is running, and the audio file only exists while the recorder
      of the running session may still write it. */
  ghost predicate Valid(s: Ui)
  {
    && s.isRecording == s.isLoading
    && (s.timerArmed ==> s.isRecording)
    && (s.isRecording ==> s.error == None)
    && (s.tempFileExists ==> s.timerArmed)
  }

  /** Idle: the action is enabled. Starting: the session has begun but the
      recorder and its timer are not set up yet. Recording: the timer is
      pending. The processing after the timer fires is one atomic step here. */
  datatype Phase = Idle | Starting | Recording

  function PhaseOf(s: Ui): (p: Phase)
    ensures p == Idle <==> !s.isRecording
  {
    if !s.isRecording then Idle
    else if !s.timerArmed then Starting
    else Recording
  }

  /** The panel text shown for a state. */
  function Panel(s: Ui): (markdown: string)
    ensures Header <= markdown
  {
    GetMarkdown(s.transcription, s.error)
  }

  /** The start of `startRecording`: raise both flags and clear the error.
      It can only be invoked while the action is enabled. */
  function AfterStart(s: Ui): (r: Ui)
    requires !s.isRecording
    ensures r.isLoading && r.isRecording && r.error == None
    ensures r.transcription == s.transcription && r.tempFileExists == s.tempFileExists
    ensures r.apiRequests == s.apiRequests
    ensures Valid(s) ==> Valid(r) && PhaseOf(r) == Starting
  {
    s.(isLoading := true, isRecording := true, error := None)
  }

  /** The rest of the outer `try` completing without a throw: the recorder is
      launched and the timer scheduled. */
  function AfterLaunch(s: Ui): (r: Ui)
    requires PhaseOf(s) == Starting
    ensures PhaseOf(r) == Recording
    ensures r == s.(timerArmed := true)
    ensures Valid(s) ==> Valid(r)
  {
    s.(timerArmed := true)
  }

  /** The external recorder writing the audio file while the timer is pending. */
  function AfterRecorderWrite(s: Ui): (r: Ui)
    requires PhaseOf(s) == Recording
    ensures r.tempFileExists && PhaseOf(r) == Recording
    ensures r == s.(tempFileExists := true)
    ensures Valid(s) ==> Valid(r)
  {
    s.(tempFileExists := true)
  }

  /** The timer callback: kill the recorder, check the key, request the
      transcription, store it, paste it; any throw is caught and its message
      shown; the `finally` clause lowers both flags and removes the file. */
  function AfterTimer(s: Ui, apiKey: Option<string>, outcome: Outcome): (r: Ui)
    requires PhaseOf(s) == Recording
    ensures !r.isRecording && !r.isLoading && !r.tempFileExists && PhaseOf(r) == Idle
    ensures !Truthy(apiKey) ==>
              r.error == Some(MissingKeyMessage)
              && r.transcription == s.transcription
              && r.apiRequests == s.apiRequests
    ensures Truthy(apiKey) ==> r.apiRequests == s.apiRequests + [apiKey.value]
    ensures Truthy(apiKey) && outcome.RequestFailed? ==>
              r.error == Some(ErrorMessage(outcome.err))
              && r.transcription == s.transcription
    ensures Truthy(apiKey) && outcome.Transcribed? ==>
              r.transcription == outcome.text
              && r.error == (if outcome.paste.None? then s.error
                             else Some(ErrorMessage(outcome.paste.value)))
    ensures Valid(s) ==> Valid(r)
    ensures Valid(s) && Truthy(apiKey) && outcome.Transcribed? && outcome.paste.None? ==>
              r.error == None
  {
    var (tried, thrown) :=
      if !Truthy(apiKey) then
        (s, Some(ErrorObject(MissingKeyMessage)))
      else
        var requested := s.(apiRequests := s.apiRequests + [apiKey.value]);
        match outcome
        case RequestFailed(err) => (requested, Some(err))
        case Transcribed(text, paste) => (requested.(transcription := text), paste);
    var caught := if thrown.Some? then tried.(error := Some(ErrorMessage(thrown.value))) else tried;
    caught.(isRecording := false, isLoading := false, tempFileExists := false, timerArmed := false)
  }

  /** The outer `catch`: the session failed before the timer was scheduled.
      The error is shown and both flags lowered; the file is not touched. */
  function AfterOuterFailure(s: Ui, err: Thrown): (r: Ui)
    requires PhaseOf(s) == Starting
    ensures r.error == Some(ErrorMessage(err)) && !r.isRecording && !r.isLoading
    ensures PhaseOf(r) == Idle
    ensures r.transcription == s.transcription && r.tempFileExists == s.tempFileExists
    ensures r.apiRequests == s.apiRequests
    ensures Valid(s) ==> Valid(r) && !r.tempFileExists
  {
    s.(error := Some(ErrorMessage(err)), isRecording := false, isLoading := false)
  }

  /** Everything that can happen to the component. */
  datatype Event =
    | Click
    | Launch
    | RecorderWrite
    | Timer(apiKey: Option<string>, outcome: Outcome)
    | OuterThrow(err: Thrown)

  /** One event; an event that cannot happen in the current phase (a click on
      the disabled action, a timer that is not pending) changes nothing. */
  function Step(s: Ui, e: Event): (r: Ui)
    ensures Valid(s) ==> Valid(r)
  {
    match e
    case Click => if RecordAction(s.isRecording).disabled then s else AfterStart(s)
    case Launch => if PhaseOf(s) == Starting then AfterLaunch(s) else s
    case RecorderWrite => if PhaseOf(s) == Recording then AfterRecorderWrite(s) else s
    case Timer(apiKey, outcome) => if PhaseOf(s) == Recording then AfterTimer(s, apiKey, outcome) else s
    case OuterThrow(err) => if PhaseOf(s) == Starting then AfterOuterFailure(s, err) else s
  }

  function Run(s: Ui, es: seq<Event>): (r: Ui)
    decreases |es|
  {
    if es == [] then s else Run(Step(s, es[0]), es[1..])
  }

  /** Clicking the disabled action does nothing. */
  lemma ClickIgnoredWhileRecording(s: Ui)
    requires s.isRecording
    ensures Step(s, Click) == s
  {
  }

  /** Every run keeps the invariant. */
  lemma {:induction false} RunPreservesValid(s: Ui, es: seq<Event>)
    requires Valid(s)
    ensures Valid(Run(s, es))
    decreases |es|
  {
    if es != [] {
      RunPreservesValid(Step(s, es[0]), es[1..]);
    }
  }

  /** Whenever the component is idle after any run from the mounted state,
      both flags are down and the temporary audio file does not exist. */
  lemma CleanWhenIdle(es: seq<Event>)
    ensures var r := Run(Initial(), es);
            PhaseOf(r) == Idle ==> !r.isRecording && !r.isLoading && !r.tempFileExists
  {
    RunPreservesValid(Initial(), es);
  }

  /** With no usable key at any timer, no transcription request is ever made. */
  lemma {:induction false} NoKeyNoRequests(s: Ui, es: seq<Event>)
    requires forall i | 0 <= i < |es| :: es[i].Timer? ==> !Truthy(es[i].apiKey)
    ensures Run(s, es).apiRequests == s.apiRequests
    decreases |es|
  {
    if es != [] {
      NoKeyNoRequests(Step(s, es[0]), es[1..]);
    }
  }

  /** Requests are only appended, and each carries the configured key. */
  lemma {:induction false} RequestsUseConfiguredKey(s: Ui, es: seq<Event>, key: string)
    requires forall i | 0 <= i < |es| :: es[i].Timer? ==> es[i].apiKey == Some(key)
    ensures var r := Run(s, es);
            s.apiRequests <= r.apiRequests
            && forall j | |s.apiRequests| <= j < |r.apiRequests| :: r.apiRequests[j] == key
    decreases |es|
  {
    if es != [] {
      var t := Step(s, es[0]);
      RequestsUseConfiguredKey(t, es[1..], key);
    }
  }

  /** The transcription shown after any run is the one shown before it, or
      exactly the text returned to a request made with a key: the witness is a
      timer event that fired, since the run had reached Recording just before it. */
  lemma {:induction false} TranscriptionComesFromApi(s: Ui, es: seq<Event>)
    ensures var r := Run(s, es);
            r.transcription == s.transcription
            || exists i | 0 <= i < |es| ::
                 && PhaseOf(Run(s, es[..i])) == Recording
                 && es[i].Timer? && Truthy(es[i].apiKey)
                 && es[i].outcome.Transcribed? && es[i].outcome.text == r.transcription
    decreases |es|
  {
    if es != [] {
      var t := Step(s, es[0]);
      var r := Run(s, es);
      TranscriptionComesFromApi(t, es[1..]);
      if r.transcription != t.transcription {
        var i :| 0 <= i < |es[1..]|
                 && PhaseOf(Run(t, es[1..][..i])) == Recording
                 && es[1..][i].Timer? && Truthy(es[1..][i].apiKey)
                 && es[1..][i].outcome.Transcribed? && es[1..][i].outcome.text == r.transcription;
        assert es[i + 1] == es[1..][i];
        assert es[..i + 1][0] == es[0];
        assert es[..i + 1][1..] == es[1..][..i];
        assert Run(s, es[..i + 1]) == Run(t, es[1..][..i]);
      } else if t.transcription != s.transcription {
        assert Run(s, es[..0]) == s;
        assert PhaseOf(s) == Recording;
        assert es[0].Timer? && Truthy(es[0].apiKey) && es[0].outcome.Transcribed?;
      }
    }
  }

  /** After a successful request with non-empty text, the panel shows exactly
      that text and nothing else. */
  lemma PanelAfterSuccess(s: Ui, apiKey: Option<string>, text: string)
    requires Valid(s) && PhaseOf(s) == Recording && Truthy(apiKey) && text != ""
    ensures Panel(AfterTimer(s, apiKey, Transcribed(text, None))) == Header + TranscriptionSection(text)
    ensures ShownTranscription(Panel(AfterTimer(s, apiKey, Transcribed(text, None)))) == Some(text)
  {
    TranscriptionRoundTrip(text, None);
  }

  /** Without a key the panel shows the missing-key error right after the header. */
  lemma PanelAfterMissingKey(s: Ui, apiKey: Option<string>, outcome: Outcome)
    requires PhaseOf(s) == Recording && !Truthy(apiKey)
    ensures Header + ErrorSection(MissingKeyMessage) <= Panel(AfterTimer(s, apiKey, outcome))
  {
  }

  /** A request that throws an `Error` with an empty message, before any text
      was ever transcribed, leaves the panel showing the instructions, exactly
      as if nothing had failed. */
  lemma EmptyMessageFailureHidden(s: Ui, apiKey: Option<string>)
    requires Valid(s) && PhaseOf(s) == Recording && Truthy(apiKey) && s.transcription == ""
    ensures Panel(AfterTimer(s, apiKey, RequestFailed(ErrorObject("")))) == Panel(Initial())
  {
  }

  /** A request that returns empty text counts as a success, and the panel
      falls back to the instructions. */
  lemma EmptyTranscriptShowsInstructions(s: Ui, apiKey: Option<string>)
    requires Valid(s) && PhaseOf(s) == Recording && Truthy(apiKey)
    ensures var r := AfterTimer(s, apiKey, Transcribed("", None));
            r.error == None && Panel(r) == Header + Instructions
  {
  }
}

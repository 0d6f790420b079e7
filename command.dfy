/** The `Command` component: its state hooks as fields, `startRecording` and
    its timer callback as methods, each proved to move the state exactly as
    the transition functions of `Session` say. */
module TalkToMe {
  import opened Nullable
  import opened Markdown
  import opened Session

  class Command {
    var isRecording: bool
    var isLoading: bool
    var transcription: string
    var error: Option<string>
    /** Whether the temporary audio file exists. */
    var tempFileExists: bool
    /** Whether the recording timer is scheduled and has not fired yet. */
    var timerArmed: bool
    /** The API key of every transcription request made so far, in order. */
    var apiRequests: seq<string>

    /** The state as a value. */
    function View(): Ui
      reads this
    {
      Ui(isRecording, isLoading, transcription, error, tempFileExists, timerArmed, apiRequests)
    }

    ghost predicate Valid()
      reads this
    {
      Session.Valid(View())
    }

    /** The initial values of the state hooks. */
    constructor ()
      ensures View() == Initial() && Valid()
    {
      isRecording := false;
      transcription := "";
      isLoading := false;
      error := None;
      tempFileExists := false;
      timerArmed := false;
      apiRequests := [];
    }

    /** What the component renders: the loading flag, the panel text and the action. */
    method Render() returns (loading: bool, markdown: string, action: Action)
      requires Valid()
      ensures loading == isRecording
      ensures markdown == GetMarkdown(transcription, error)
      ensures action.disabled == isRecording
      ensures action.title == (if isRecording then "Recording..." else "Start Recording")
    {
      loading := isLoading;
      markdown := GetMarkdown(transcription, error);
      action := RecordAction(isRecording);
    }

    /** The start of `startRecording`, invoked through the enabled action. */
    method StartRecording()
      requires Valid() && !isRecording
      modifies this
      ensures View() == AfterStart(old(View())) && Valid()
      ensures isLoading && isRecording && error == None
      ensures transcription == old(transcription)
    {
      isLoading := true;
      isRecording := true;
      error := None;
    }

    /** The outer `try` completing: the recorder is launched and the timer scheduled. */
    method LaunchRecorder()
      requires Valid() && isRecording && !timerArmed
      modifies this
      ensures View() == AfterLaunch(old(View())) && Valid()
    {
      timerArmed := true;
    }

    /** The recorder writing the audio file while the timer is pending. */
    method RecorderWritesFile()
      requires Valid() && timerArmed
      modifies this
      ensures View() == AfterRecorderWrite(old(View())) && Valid()
    {
      tempFileExists := true;
    }

    /** The timer callback: `try`, `catch` and `finally` in order. */
    method TimerFires(apiKey: Option<string>, outcome: Outcome)
      requires Valid() && timerArmed
      modifies this
      ensures View() == AfterTimer(old(View()), apiKey, outcome) && Valid()
      ensures !isRecording && !isLoading && !tempFileExists
      ensures !Truthy(apiKey) ==>
                error == Some(MissingKeyMessage)
                && transcription == old(transcription)
                && apiRequests == old(apiRequests)
      ensures Truthy(apiKey) && outcome.Transcribed? ==> transcription == outcome.text
      ensures Truthy(apiKey) && outcome.Transcribed? && outcome.paste.None? ==> error == None
    {
      timerArmed := false;
      var thrown: Option<Thrown>;
      if !Truthy(apiKey) {
        thrown := Some(ErrorObject(MissingKeyMessage));
      } else {
        apiRequests := apiRequests + [apiKey.value];
        match outcome
        case RequestFailed(err) =>
          thrown := Some(err);
        case Transcribed(text, paste) =>
          transcription := text;
          thrown := paste;
      }
      if thrown.Some? {
        error := Some(ErrorMessage(thrown.value));
      }
      isRecording := false;
      isLoading := false;
      if tempFileExists {
        tempFileExists := false;
      }
    }

    /** The outer `catch`: the session failed before the timer was scheduled. */
    method OuterFailure(err: Thrown)
      requires Valid() && isRecording && !timerArmed
      modifies this
      ensures View() == AfterOuterFailure(old(View()), err) && Valid()
      ensures error == Some(ErrorMessage(err)) && !isRecording && !isLoading
      ensures transcription == old(transcription) && !tempFileExists
    {
      error := Some(ErrorMessage(err));
      isRecording := false;
      isLoading := false;
    }
  }
}

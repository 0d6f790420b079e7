# Talk to Me — a verified model of the recording command

The command records ten seconds of microphone audio, sends it to a
speech-to-text API, then runs `pbpaste` with the text as an argument and sends a
paste keystroke to the focused application, and shows a status panel. `pbpaste`
only prints the clipboard, so the keystroke pastes whatever the clipboard already
held, not the transcription. This project models the two parts of `src/talk-to-me.tsx` that have
logic of their own:

- **The status panel** (`getMarkdown`): module `Markdown` builds the panel text from the
  transcription and the optional error. It follows JavaScript truthiness:
  a `null` error and an empty error both count as absent. `Nullable.Truthy` states this.
  The `ensures` clauses of `GetMarkdown` give the exact text in each of the four
  cases, and lemmas state the header, error and transcription properties.
  `ShownTranscription` reads the transcription back from an error-free panel, and a
  round-trip lemma connects the two.
- **The recording session** (`startRecording` and its timer callback):
  - module `Session` gives each transition as a pure function over the UI state
    (`isRecording`, `isLoading`, `transcription`, `error`). The state also tracks three
    things about the world: whether the temporary audio file exists, whether the timer
    is pending, and the API key sent with each transcription request.
  - `Session` states the invariant `Valid` and runs the machine over any sequence of
    events (`Step`, `Run`). Its lemmas hold for every run.
  - class `TalkToMe.Command` has the state hooks as fields and the transitions as
    methods. Each method is proved to change the fields exactly as its `Session`
    function says.

The phases are Idle → Starting → Recording → Idle:

- **Starting**: the flags are up, but the recorder and the timer are not set up yet.
  It ends when the recorder is launched and the timer scheduled, or in the outer `catch`.
- **Recording**: the timer is pending.
- The timer callback (kill the recorder, check the key, request, store, paste, then
  `catch` and `finally`) is one atomic step.

There is no separate processing phase with flags of its own: `isRecording` stays
true until the `finally` clause.

The API key is not checked when the action is clicked. It is checked only when the
timer fires, after the recording.

The outside world becomes parameters:

- The API key is a `Nullable.Option<string>` passed to the timer step. It is absent when
  it is `undefined` or empty.
- The result of the request is a `Session.Outcome`:
  - the request throws, or
  - it returns text, and the steps after the text is stored either succeed or throw.
    These steps are the paste and the success toast.
- A thrown value is a `Session.Thrown`: an `Error` with a message, or anything else.

Properties the model shows:

- Every exit from the timer callback lowers both flags and removes the file.
- Without a key, the missing-key error is shown and no request is made.
- On success the text is stored verbatim and the error stays null.
- A failure after the text was stored shows both the text and the error.
- Over any run: whenever the command is idle, the audio file does not exist. Every
  request uses the configured key. A shown transcription is always, verbatim, a text
  some request returned.
- When no transcription was shown before, an `Error` with an empty message leaves the
  panel showing the instructions. With an earlier transcription, the panel keeps showing
  that old text and no error.
- A request that returns empty text counts as a success, and the panel shows the
  instructions.
- In neither case does the panel show that anything happened.

## Model

| member | source | states |
|---|---|---|
| Markdown.GetMarkdown | src/talk-to-me.tsx:120-136 | the exact panel text in each of the four cases: header + error section + transcription section; header + transcription section; header + error section only (no instructions); header + the three instruction sentences |
| Markdown.StartsWithHeader | src/talk-to-me.tsx:121 | every panel begins with `# Talk to Me` and a blank line |
| Markdown.ErrorFollowsHeader | src/talk-to-me.tsx:123-125 | a truthy error appears verbatim in its section immediately after the header |
| Markdown.EmptyErrorIsNoError | src/talk-to-me.tsx:123-129 | an empty error message and a null error give the same panel |
| Markdown.EndsWithTranscription | src/talk-to-me.tsx:127-128 | a non-empty transcription is copied verbatim into the section that ends the panel |
| Markdown.ShownTranscription | src/talk-to-me.tsx:127-128 | whatever it reads back is the text whose transcription section, after the header, is the whole panel |
| Markdown.TranscriptionRoundTrip | src/talk-to-me.tsx:127-128 | without an error, reading back the panel of a non-empty transcription yields exactly that transcription |
| Markdown.InstructionsShowNoTranscription | src/talk-to-me.tsx:129-133 | the instruction panel never reads back as a transcription |
| Markdown.PanelAmbiguous | src/talk-to-me.tsx:123-128 | with both sections present the panel does not determine the pair: moving the transcription section into the error text gives the same panel |
| Session.ErrorMessage | src/talk-to-me.tsx:80 | the displayed message is the `Error`'s own message, or `Unknown error` for any other thrown value |
| Session.RecordAction | src/talk-to-me.tsx:108-113 | the action is disabled exactly while recording; its title is `Recording...` exactly while recording and `Start Recording` exactly otherwise; the record icon exactly while recording |
| Session.Initial | src/talk-to-me.tsx:15-18 | the mounted state is idle, satisfies the invariant and shows the instructions |
| Session.AfterStart | src/talk-to-me.tsx:24-26 | both flags raised, error cleared to null, transcription, file and requests unchanged; from a valid idle state it enters Starting and keeps the invariant |
| Session.AfterLaunch | src/talk-to-me.tsx:29-45 | the timer becomes pending and nothing else changes |
| Session.AfterRecorderWrite | src/talk-to-me.tsx:36-42 | the audio file exists and nothing else changes; the invariant is kept |
| Session.AfterTimer | src/talk-to-me.tsx:45-92 | on every path both flags are false, the file is gone and the command is idle; without a key the error is the missing-key message and transcription and requests are unchanged; with a key one request with that key is recorded; a failed request shows its message and keeps the transcription; a returned text is stored verbatim, the error stays null on success and is the message of whatever threw after the text was stored otherwise |
| Session.AfterOuterFailure | src/talk-to-me.tsx:93-99 | the error is the thrown value's message, both flags are false, transcription and requests unchanged; from a valid state no audio file exists |
| Session.ClickIgnoredWhileRecording | src/talk-to-me.tsx:112 | clicking the disabled action changes nothing |
| Session.RunPreservesValid | src/talk-to-me.tsx:15-99 | every sequence of events keeps the flags equal, no error during a session, and the file only while the timer is pending |
| Session.CleanWhenIdle | src/talk-to-me.tsx:83-90 | after any run from the mounted state, an idle command has both flags down and no audio file |
| Session.NoKeyNoRequests | src/talk-to-me.tsx:52-65 | if no timer ever sees a usable key, no transcription request is ever made |
| Session.RequestsUseConfiguredKey | src/talk-to-me.tsx:57-59 | requests are only appended, and every one made during a run carries the configured key |
| Session.TranscriptionComesFromApi | src/talk-to-me.tsx:68-69 | after any run the transcription is the previous one or exactly the text returned by some timer event that fired (the run was in Recording just before it) with a usable key, so a request was made |
| Session.PanelAfterSuccess | src/talk-to-me.tsx:68-69 | after a successful request with non-empty text the panel is exactly header + that text's section, and reads back as that text |
| Session.PanelAfterMissingKey | src/talk-to-me.tsx:52-54 | without a key the panel shows the missing-key error right after the header |
| Session.EmptyMessageFailureHidden | src/talk-to-me.tsx:79-81 | a request failing with an empty `Error` message, with no earlier transcription, leaves the same panel as the freshly mounted command |
| Session.EmptyTranscriptShowsInstructions | src/talk-to-me.tsx:127-133 | a request returning empty text is a success with no error, and the panel shows the instructions |
| TalkToMe.Command.constructor | src/talk-to-me.tsx:15-18 | the hooks start as not recording, not loading, empty transcription, null error; no file, no timer, no requests |
| TalkToMe.Command.Render | src/talk-to-me.tsx:102-117 | the loading indicator follows the recording flag, the panel is the panel text of the current state, and the action is disabled and titled `Recording...` exactly while recording |
| TalkToMe.Command.StartRecording | src/talk-to-me.tsx:24-26 | the new state is `AfterStart` of the old one: flags up, error null, transcription unchanged, invariant kept |
| TalkToMe.Command.LaunchRecorder | src/talk-to-me.tsx:29-45 | the new state is `AfterLaunch` of the old one |
| TalkToMe.Command.RecorderWritesFile | src/talk-to-me.tsx:36-42 | the new state is `AfterRecorderWrite` of the old one |
| TalkToMe.Command.TimerFires | src/talk-to-me.tsx:45-92 | the new state is `AfterTimer` of the old one: flags down and file gone on every path, missing-key error with transcription and requests untouched, text stored verbatim, error null on success |
| TalkToMe.Command.OuterFailure | src/talk-to-me.tsx:93-99 | the new state is `AfterOuterFailure` of the old one: error set from the thrown value, flags down, transcription kept, no file |

## Left out

- Launching and killing the `rec` process and its audio arguments (sample rate, channels, bit depth, trim) are external process I/O. Launching is the `Launch` step, the recorder's output is the `RecorderWrite` step, and a recorder failure shows up as a failed request.
- The ten-second `setTimeout` and the race between timer and recorder are timing. The timer firing is one step, and only while it is pending.
- The OpenAI client, the `whisper-1` request and the file stream are a network SDK. Their result is the `Outcome` parameter, and each request is recorded by the key it was sent with.
- Clipboard and keystroke injection via `pbpaste` and `osascript` are OS calls. Only their failing or not is modelled. Passing the text as an argument to `pbpaste` does not set the clipboard, so the model claims nothing about the clipboard.
- Toasts are not modelled. A failure of the success toast at line 78 is covered by the `paste` field of `Outcome`, since it happens after the text is stored. A failure of the processing toast at line 49, before the key check, is not modelled. A failure of the failure toast in the `catch` clauses is not modelled either.
- Reading preferences, React hooks and JSX are host plumbing. The key is a parameter. State setters are modelled as immediate assignments, not as batched React updates.
- `Session.AfterTimer`, `Session.CleanWhenIdle` and `TalkToMe.Command.TimerFires` assume deleting the audio file succeeds. In the source, `fs.unlinkSync` runs last in the `finally` clause, after both flags are lowered. If it throws, `recording.wav` stays on disk and the timer callback rejects. The model does not capture that path: it always removes the file.
- `os.tmpdir`, `fs.existsSync` and `fs.unlinkSync` become one "file exists" flag. The invariant takes the command to own the file. A stale file with the same name left by another program is not modelled.
- Overlapping sessions are not modelled. The action is disabled while recording, so `StartRecording` requires that no session is running.

/** The text of the command's status panel, built by `getMarkdown` from the
    current transcription and the optional error message. */
module Markdown {
  import opened Nullable

  /** The fixed title every panel starts with. */
  const Header := "# Talk to Me\n\n"
  const ErrorHeading := "## Error\n\n"
  const TranscriptionHeading := "## Transcription\n\n"
  /** Every section is closed by a blank line. */
  const SectionEnd := "\n\n"

  /** The three sentences shown when there is neither a transcription nor an error. */
  // Split in two so that the verifier can see the first character of the
  // sentence (it does not index into string literals this long).
  const ClickSentence := "Click the 'Start Recording' button " + "and speak into your microphone.\n\n"
  const PasteSentence := "Your speech will be converted to text and pasted into the active input field.\n\n"
  const KeyNote := "Note: Make sure you have set your OpenAI API key in the extension preferences."
  const Instructions := ClickSentence + PasteSentence + KeyNote

  function ErrorSection(error: string): (section: string)
    ensures |section| == |ErrorHeading| + |error| + |SectionEnd|
  {
    ErrorHeading + error + SectionEnd
  }

  function TranscriptionSection(transcription: string): (section: string)
    ensures |section| == |TranscriptionHeading| + |transcription| + |SectionEnd|
  {
    TranscriptionHeading + transcription + SectionEnd
  }

  /** The panel text. The error section is appended when the error is truthy;
      then the transcription section when the transcription is non-empty, or
      else the instructions when the error is falsy too. */
  function GetMarkdown(transcription: string, error: Option<string>): (r: string)
    ensures Truthy(error) && transcription != "" ==>
              r == Header + ErrorSection(error.value) + TranscriptionSection(transcription)
    ensures !Truthy(error) && transcription != "" ==>
              r == Header + TranscriptionSection(transcription)
    ensures Truthy(error) && transcription == "" ==>
              r == Header + ErrorSection(error.value)
    ensures !Truthy(error) && transcription == "" ==>
              r == Header + Instructions
  {
    var markdown := Header;
    var withError := if Truthy(error) then markdown + ErrorSection(error.value) else markdown;
    if transcription != "" then
      withError + TranscriptionSection(transcription)
    else if !Truthy(error) then
      withError + Instructions
    else
      withError
  }

  /** Every panel starts with the fixed header. */
  lemma StartsWithHeader(transcription: string, error: Option<string>)
    ensures Header <= GetMarkdown(transcription, error)
  {
  }

  /** A truthy error is shown, verbatim, right after the header. */
  lemma ErrorFollowsHeader(transcription: string, error: Option<string>)
    requires Truthy(error)
    ensures Header + ErrorSection(error.value) <= GetMarkdown(transcription, error)
  {
  }

  /** A null error and an empty error message give the same panel. */
  lemma EmptyErrorIsNoError(transcription: string)
    ensures GetMarkdown(transcription, Some("")) == GetMarkdown(transcription, None)
  {
  }

  /** A non-empty transcription closes the panel, verbatim. */
  lemma EndsWithTranscription(transcription: string, error: Option<string>)
    requires transcription != ""
    ensures var r := GetMarkdown(transcription, error);
            |TranscriptionSection(transcription)| <= |r|
            && r[|r| - |TranscriptionSection(transcription)|..] == TranscriptionSection(transcription)
  {
  }

  /** Reads back the transcription from a panel that shows no error: the text
      between the transcription heading and the closing blank line. */
  function ShownTranscription(markdown: string): (r: Option<string>)
    ensures r.Some? ==> markdown == Header + TranscriptionSection(r.value)
  {
    var prefix := Header + TranscriptionHeading;
    if |prefix| + |SectionEnd| <= |markdown|
       && markdown[..|prefix|] == prefix
       && markdown[|markdown| - |SectionEnd|..] == SectionEnd
    then
      var text := markdown[|prefix|..|markdown| - |SectionEnd|];
      assert markdown == prefix + text + SectionEnd;
      Some(text)
    else
      None
  }

  /** Without an error, the transcription can be read back exactly from the panel. */
  lemma TranscriptionRoundTrip(transcription: string, error: Option<string>)
    requires !Truthy(error) && transcription != ""
    ensures ShownTranscription(GetMarkdown(transcription, error)) == Some(transcription)
  {
    var prefix := Header + TranscriptionHeading;
    var r := GetMarkdown(transcription, error);
    assert r == prefix + transcription + SectionEnd;
    assert r[..|prefix|] == prefix;
    assert r[|r| - |SectionEnd|..] == SectionEnd;
    assert r[|prefix|..|r| - |SectionEnd|] == transcription;
  }

  /** The instruction panel is never mistaken for a transcription. */
  lemma InstructionsShowNoTranscription(error: Option<string>)
    requires !Truthy(error)
    ensures ShownTranscription(GetMarkdown("", error)) == None
  {
    var prefix := Header + TranscriptionHeading;
    var r := GetMarkdown("", error);
    assert r == Header + Instructions;
    assert ClickSentence[0] == 'C';
    assert r[|Header|] == Instructions[0] == ClickSentence[0];
    assert prefix[|Header|] == '#';
  }

  /** With both sections present the panel does not determine the pair: an
      error message that itself contains a transcription heading gives the
      same text as an error plus a transcription. */
  lemma PanelAmbiguous(transcription: string, error: string)
    requires transcription != "" && error != ""
    ensures GetMarkdown(transcription, Some(error))
            == GetMarkdown("", Some(error + SectionEnd + TranscriptionHeading + transcription))
  {
  }
}

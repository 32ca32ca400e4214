/**
 * The interview session controller (the button handlers of streamlit_app.py).
 *
 * The page's session state becomes the fields of `Session`; every handler
 * becomes a method that first checks the condition under which the page
 * shows its button (or runs its automatic step) and changes nothing when it
 * does not hold, so no transition exists that the page does not offer.
 * Vendor calls are inputs: the question generator's result, the speech
 * synthesiser's file, the transcription vendor's per-attempt outcomes.
 */
module Interview {
  import opened Wrappers
  import opened PyStr
  import opened AudioCapture
  import Transcription

  /** One entry of the chat history: `{"AI": question, "User": answer}`. */
  datatype Exchange = Exchange(ai: string, user: string)

  const PreviewLimit: nat := 500
  const Ellipsis: string := "..."

  /**
   * The CV preview: the text itself when it has at most 500 characters,
   * otherwise its first 500 characters followed by "...".
   */
  function Preview(text: string): (r: string)
    ensures |r| <= PreviewLimit + |Ellipsis|
    ensures |text| <= PreviewLimit ==> r == text
    ensures |text| > PreviewLimit ==>
      |r| == PreviewLimit + |Ellipsis| && r[..PreviewLimit] == text[..PreviewLimit] && r[PreviewLimit..] == Ellipsis
  {
    if |text| > PreviewLimit then text[..PreviewLimit] + Ellipsis else text
  }

  /** Python truthiness of an optional string: present and non-empty. */
  predicate Truthy(s: Option<string>) {
    s.Some? && s.value != ""
  }

  /**
   * What the page keeps of a transcript: the stripped text when the
   * transcript is present and not blank, nothing otherwise.
   */
  function Heard(transcript: Option<string>): (h: Option<string>)
    ensures h.Some? <==> transcript.Some? && !IsBlank(transcript.value)
    ensures h.Some? ==> h.value == Strip(transcript.value) && h.value != [] && IsStripped(h.value)
  {
    if transcript.None? then None
    else
      StripEmptyIffBlank(transcript.value);
      if Strip(transcript.value) == [] then None else Some(Strip(transcript.value))
  }

  /** Size in bytes of the 16-bit mono WAV file written for a clip (44-byte header). */
  function WavBytes(samples: nat): nat {
    44 + 2 * samples
  }

  class Session {
    const recorder: AudioRecorder
    var userCvText: Option<string>
    var chatHistory: seq<Exchange>
    var interviewStarted: bool
    var currentQuestion: Option<string>
    var waitingForResponse: bool
    var recordingActive: bool
    var transcribedText: Option<string>
    var showTranscription: bool
    var audioFilePath: Option<string>

    /**
     * The session invariant: a question is pending exactly while an answer
     * is awaited; a transcript under review is stored stripped and not blank
     * and exists only while an answer is awaited and no recording runs; an
     * active recording belongs to a running interview and a running recorder.
     */
    ghost predicate Valid()
      reads this, recorder
    {
      && recorder.Valid()
      && (waitingForResponse <==> currentQuestion.Some?)
      && (waitingForResponse ==> interviewStarted)
      && (showTranscription <==> transcribedText.Some?)
      && (transcribedText.Some? ==>
            transcribedText.value != [] && IsStripped(transcribedText.value))
      && (showTranscription ==> waitingForResponse && !recordingActive)
      && (recordingActive ==> interviewStarted && recorder.recording)
    }

    /** The review panel is shown (a transcript awaits confirmation). */
    predicate Reviewing()
      reads this
    {
      showTranscription && Truthy(transcribedText)
    }

    /** The answer inputs are shown: an answer is awaited and no transcript is under review. */
    predicate Answering()
      reads this
    {
      waitingForResponse && !Reviewing()
    }

    /** The initial session state. */
    constructor ()
      ensures Valid() && fresh(recorder)
      ensures recorder.maxDuration == DefaultMaxDuration && recorder.fs == DefaultSampleRate
      ensures !recorder.recording && recorder.audioData == []
      ensures userCvText == None && chatHistory == [] && !interviewStarted
      ensures currentQuestion == None && !waitingForResponse && !recordingActive
      ensures transcribedText == None && !showTranscription && audioFilePath == None
    {
      recorder := new AudioRecorder(DefaultMaxDuration, DefaultSampleRate);
      userCvText := None;
      chatHistory := [];
      interviewStarted := false;
      currentQuestion := None;
      waitingForResponse := false;
      recordingActive := false;
      transcribedText := None;
      showTranscription := false;
      audioFilePath := None;
    }

    /** A CV was extracted: its text is stored and nothing else changes. */
    method LoadCv(text: string)
      requires Valid()
      modifies this`userCvText
      ensures Valid()
      ensures userCvText == Some(text)
    {
      userCvText := Some(text);
    }

    /**
     * "Start Interview", offered when a non-empty CV text is held and no
     * interview runs: starts the interview with an empty history and no
     * pending question.
     */
    method Start() returns (fired: bool)
      requires Valid()
      modifies this
      ensures Valid()
      ensures fired == (Truthy(old(userCvText)) && !old(interviewStarted))
      ensures fired ==> interviewStarted && chatHistory == [] && currentQuestion == None && !waitingForResponse
      ensures fired ==> userCvText == old(userCvText) && recordingActive == old(recordingActive)
      ensures fired ==> transcribedText == old(transcribedText) && showTranscription == old(showTranscription)
      ensures fired ==> audioFilePath == old(audioFilePath)
      ensures !fired ==> unchanged(this)
    {
      fired := Truthy(userCvText) && !interviewStarted;
      if fired {
        interviewStarted := true;
        chatHistory := [];
        currentQuestion := None;
        waitingForResponse := false;
      }
    }

    /**
     * The automatic question request, made while the interview runs, no
     * answer is awaited and no question is pending. A generated question
     * becomes the pending one and the previous question's audio is dropped;
     * a generation failure leaves everything as it was.
     */
    method RequestQuestion(generated: Result<string, string>) returns (asked: bool)
      requires Valid()
      modifies this
      ensures Valid()
      ensures asked == (old(interviewStarted && !waitingForResponse && currentQuestion == None)
                        && generated.Success?)
      ensures asked ==> currentQuestion == Some(generated.value) && waitingForResponse && audioFilePath == None
      ensures asked ==> chatHistory == old(chatHistory) && interviewStarted == old(interviewStarted)
      ensures asked ==> userCvText == old(userCvText) && recordingActive == old(recordingActive)
      ensures asked ==> transcribedText == old(transcribedText) && showTranscription == old(showTranscription)
      ensures !asked ==> unchanged(this)
    {
      asked := interviewStarted && !waitingForResponse && currentQuestion == None && generated.Success?;
      if asked {
        currentQuestion := Some(generated.value);
        waitingForResponse := true;
        audioFilePath := None;
      }
    }

    /**
     * Speech for the displayed question, produced while a non-empty question
     * is shown and no audio file is held: `synthesized` is the written file,
     * or None when synthesis failed, which changes nothing.
     */
    method SpeakQuestion(synthesized: Option<string>) returns (stored: bool)
      requires Valid()
      modifies this`audioFilePath
      ensures Valid()
      ensures stored == (old(interviewStarted && Truthy(currentQuestion) && !Truthy(audioFilePath))
                         && synthesized.Some?)
      ensures audioFilePath == if stored then synthesized else old(audioFilePath)
    {
      stored := interviewStarted && Truthy(currentQuestion) && !Truthy(audioFilePath) && synthesized.Some?;
      if stored {
        audioFilePath := synthesized;
      }
    }

    /**
     * "Start Recording", offered while answering with no recording active:
     * the recorder starts at clock `now`; the session marks the recording
     * active only when the input stream opened.
     */
    method StartRecording(now: int, streamOk: bool) returns (fired: bool)
      requires Valid()
      modifies this, recorder
      ensures Valid()
      ensures fired == old(Answering() && !recordingActive)
      ensures fired ==> recorder.recording && recorder.audioData == [] && recorder.startTime == Some(now)
      ensures fired ==> recordingActive == streamOk
      ensures fired ==> chatHistory == old(chatHistory) && currentQuestion == old(currentQuestion)
      ensures fired ==> waitingForResponse == old(waitingForResponse) && interviewStarted == old(interviewStarted)
      ensures fired ==> transcribedText == old(transcribedText) && showTranscription == old(showTranscription)
      ensures fired ==> userCvText == old(userCvText) && audioFilePath == old(audioFilePath)
      ensures !fired ==> unchanged(this) && unchanged(recorder)
    {
      fired := Answering() && !recordingActive;
      if fired {
        var ok := recorder.StartRecording(now, streamOk);
        recordingActive := ok;
      }
    }

    /**
     * "Stop Recording" (pressed while under the cap) or the automatic stop
     * once the recording reaches the cap. The recorder stops; a saved clip
     * is transcribed with the default three attempts and a transcript that
     * is not blank is stored stripped, for review. When STT raises (its
     * client cannot be constructed), the error is shown and nothing is
     * stored. A transcript is never
     * submitted here: the history and the pending question do not change.
     */
    method StopRecording(now: int, stopPressed: bool, writeOk: bool,
                         clientError: Option<string>, vendor: seq<Transcription.Attempt>)
      returns (fired: bool)
      requires Valid()
      requires Transcription.DefaultMaxRetries <= |vendor|
      modifies this, recorder
      ensures Valid()
      ensures fired == old(Answering() && recordingActive
                           && (stopPressed || recorder.IsMaxDurationReached(now)))
      ensures fired ==> !recordingActive && !recorder.recording && !recorder.streamOpen
      ensures fired && (old(recorder.audioData) == [] || !writeOk || clientError.Some?) ==>
        transcribedText == None && !showTranscription
      ensures fired && old(recorder.audioData) != [] && writeOk && clientError.None? ==>
        transcribedText == Heard(Transcription.Returned(Transcription.SttRun(vendor, Transcription.DefaultMaxRetries).result))
        && showTranscription == transcribedText.Some?
      ensures fired ==> chatHistory == old(chatHistory) && currentQuestion == old(currentQuestion)
      ensures fired ==> waitingForResponse == old(waitingForResponse) && interviewStarted == old(interviewStarted)
      ensures fired ==> userCvText == old(userCvText) && audioFilePath == old(audioFilePath)
      ensures !fired ==> unchanged(this) && unchanged(recorder)
    {
      fired := Answering() && recordingActive && (stopPressed || recorder.IsMaxDurationReached(now));
      if !fired {
        return;
      }
      var clip := recorder.StopRecording(writeOk);
      recordingActive := false;
      if clip.Some? {
        var transcript, _, _, _ :=
          Transcription.Stt(vendor, Transcription.DefaultMaxRetries, WavBytes(|clip.value|), clientError);
        // A raising STT is reported on the page and stores nothing.
        if transcript.Success? {
          var _ := ReceiveTranscript(transcript.value);
        }
      }
    }

    /**
     * A transcript arrived after a recording stopped: when it is not blank it
     * is stored stripped and shown for review; otherwise nothing changes.
     */
    method ReceiveTranscript(transcript: Option<string>) returns (stored: bool)
      requires Valid()
      requires waitingForResponse && !showTranscription && !recordingActive
      modifies this`transcribedText, this`showTranscription
      ensures Valid()
      ensures stored == (transcript.Some? && !IsBlank(transcript.value))
      ensures transcribedText == Heard(transcript) && showTranscription == stored
    {
      var heard := Heard(transcript);
      stored := heard.Some?;
      if stored {
        transcribedText := heard;
        showTranscription := true;
      }
    }

    /** "Record Again", offered while reviewing: discards the transcript. */
    method RecordAgain() returns (fired: bool)
      requires Valid()
      modifies this`transcribedText, this`showTranscription
      ensures Valid()
      ensures fired == old(waitingForResponse && Reviewing())
      ensures fired ==> transcribedText == None && !showTranscription
      ensures !fired ==> unchanged(this)
    {
      fired := waitingForResponse && Reviewing();
      if fired {
        transcribedText := None;
        showTranscription := false;
      }
    }

    /**
     * "Submit Response" on the reviewed (possibly edited) transcript. A blank
     * text changes nothing; otherwise exactly one exchange of the pending
     * question and the stripped text is appended and the next question is
     * due.
     */
    method SubmitReviewedAnswer(edited: string) returns (accepted: bool)
      requires Valid()
      modifies this
      ensures Valid()
      ensures accepted == (old(waitingForResponse && Reviewing()) && !IsBlank(edited))
      ensures accepted ==> chatHistory == old(chatHistory) + [Exchange(old(currentQuestion).value, Strip(edited))]
      ensures accepted ==> currentQuestion == None && !waitingForResponse
      ensures accepted ==> transcribedText == None && !showTranscription
      ensures accepted ==> interviewStarted == old(interviewStarted) && recordingActive == old(recordingActive)
      ensures accepted ==> userCvText == old(userCvText) && audioFilePath == old(audioFilePath)
      ensures !accepted ==> unchanged(this)
    {
      StripEmptyIffBlank(edited);
      accepted := waitingForResponse && Reviewing() && Strip(edited) != [];
      if accepted {
        chatHistory := chatHistory + [Exchange(currentQuestion.value, Strip(edited))];
        currentQuestion := None;
        waitingForResponse := false;
        transcribedText := None;
        showTranscription := false;
      }
    }

    /**
     * "Submit Text Response", offered while answering. A blank text changes
     * nothing; otherwise exactly one exchange of the pending question and
     * the stripped text is appended and the next question is due.
     */
    method SubmitTypedAnswer(typed: string) returns (accepted: bool)
      requires Valid()
      modifies this
      ensures Valid()
      ensures accepted == (old(Answering()) && !IsBlank(typed))
      ensures accepted ==> chatHistory == old(chatHistory) + [Exchange(old(currentQuestion).value, Strip(typed))]
      ensures accepted ==> currentQuestion == None && !waitingForResponse
      ensures accepted ==> transcribedText == old(transcribedText) && showTranscription == old(showTranscription)
      ensures accepted ==> interviewStarted == old(interviewStarted) && recordingActive == old(recordingActive)
      ensures accepted ==> userCvText == old(userCvText) && audioFilePath == old(audioFilePath)
      ensures !accepted ==> unchanged(this)
    {
      StripEmptyIffBlank(typed);
      accepted := Answering() && Strip(typed) != [];
      if accepted {
        chatHistory := chatHistory + [Exchange(currentQuestion.value, Strip(typed))];
        currentQuestion := None;
        waitingForResponse := false;
      }
    }

    /**
     * "End Interview", offered only while answering. Stops an active
     * recording, drops the question audio, and resets the interview while
     * the history stays for display.
     */
    method End() returns (fired: bool)
      requires Valid()
      modifies this, recorder
      ensures Valid()
      ensures fired == old(Answering())
      ensures fired ==> !interviewStarted && currentQuestion == None && !waitingForResponse
      ensures fired ==> transcribedText == None && !showTranscription
      ensures fired ==> !recordingActive && audioFilePath == None
      ensures fired ==> chatHistory == old(chatHistory) && userCvText == old(userCvText)
      ensures fired && old(recordingActive) ==> !recorder.recording && !recorder.streamOpen
      ensures fired && !old(recordingActive) ==> unchanged(recorder)
      ensures !fired ==> unchanged(this) && unchanged(recorder)
    {
      fired := Answering();
      if !fired {
        return;
      }
      if recordingActive {
        // the clip is discarded, so whether it could be saved does not matter
        var _ := recorder.StopRecording(true);
        recordingActive := false;
      }
      audioFilePath := None;
      interviewStarted := false;
      currentQuestion := None;
      waitingForResponse := false;
      transcribedText := None;
      showTranscription := false;
    }
  }

  /**
   * A whole interview as a client sees it: one typed answer is logged with
   * its question, ending keeps the history, and starting again clears it.
   */
  method InterviewRound(cv: string, question: string, answer: string)
    returns (s: Session, afterSubmit: seq<Exchange>, afterEnd: seq<Exchange>)
    requires cv != [] && !IsBlank(answer)
    ensures afterSubmit == [Exchange(question, Strip(answer))]
    ensures afterEnd == afterSubmit
    ensures fresh(s) && s.Valid()
    ensures s.interviewStarted && s.chatHistory == [] && !s.waitingForResponse
  {
    s := new Session();
    s.LoadCv(cv);
    var started := s.Start();
    var asked := s.RequestQuestion(Success(question));
    var accepted := s.SubmitTypedAnswer(answer);
    afterSubmit := s.chatHistory;
    asked := s.RequestQuestion(Success(question));
    var ended := s.End();
    afterEnd := s.chatHistory;
    started := s.Start();
  }
}

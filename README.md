# AI Interviewer: a verified model of its sequential core

The application lets a user upload a CV, extracts the CV's text, and runs a
mock interview: a hosted language model asks questions one at a time, and the
user answers by typing or by recording speech. The recording is transcribed
by a hosted speech-to-text service and shown for review before it is
submitted. Every answered question is logged as an `{AI, User}` exchange.

This project models in Dafny the parts of that program that are
deterministic once the hosted services and the UI framework are treated as
inputs:

- `interview.dfy`, module `Interview`: the session controller. The page's
  session state becomes the fields of class `Session`. Each button handler
  becomes a method. The method first checks the condition under which the
  page shows that button, or runs that automatic step. When the condition
  does not hold, nothing changes. `Session.Valid()` is the invariant that
  every handler keeps. A question is pending exactly while an answer is
  awaited. A transcript under review is stored stripped and is not blank,
  and it exists only while an answer is awaited and no recording runs. An
  active recording belongs to a running interview and a running recorder.
  The CV preview shown after upload is the function `Preview`.
- `audio_recorder.dfy`, module `AudioCapture`: the `AudioRecorder` class. It
  has a recording flag, the list of captured chunks, the start time and the
  stream. The stream callback is a method that appends a chunk only while
  recording. Stopping yields the chunks concatenated in arrival order.
- `transcription.dfy`, module `Transcription`: the `STT` retry loop. The
  vendor is a sequence of per-attempt outcomes (`Timeout`, `OtherError(msg)`,
  `Transcribed(text)`). The method `Stt` is proved equal to the
  specification function `SttRun`. The lemmas then state which string comes
  back, how many calls are made and which backoff delays are requested.
- `pdf_extract.dfy`, module `PdfExtract`: `extract_text_from_pdf` as a loop
  over page texts, proved against the fold `JoinPages`. Failures (an
  unopenable document, an unreadable page) become an error whose message
  starts with "Failed to extract text from PDF: ".
- `pystr.dfy`, module `PyStr`: Python's `str.isspace` and `str.strip()`,
  which decide whether an answer is blank.
- `wrappers.dfy`, module `Wrappers`: `Option` (Python's `None`) and `Result`
  (a value or a caught exception).

Facts about the program that the model keeps:

- `End` fires only while an answer is awaited and no transcript is under
  review, because "End Interview" is shown only in that branch of the page
  (streamlit_app.py:289-401).
- The application has no skip action.
- The PDF text gets a newline after every page, the last one included
  (functions.py:24).
- The size check in `STT` only prints a warning. The model counts the
  warnings (one per attempt) and proves that the returned transcript does not
  depend on the clip size.
- `STT` constructs its vendor client before the retry loop and outside its
  handlers (functions.py:53), so a failure there propagates to the page. The
  page shows an error and stores no transcript (streamlit_app.py:335-340,
  367-368). `Stt` returns that failure, and `Session.StopRecording` then
  stores nothing.

## Model

| member | source | states |
|---|---|---|
| PyStr.Strip | streamlit_app.py:263-267 | `strip()` returns the slice of the input that starts after the leading whitespace, with only whitespace outside it, and the result neither starts nor ends with whitespace |
| PyStr.StripEmptyIffBlank | streamlit_app.py:263 | `text.strip()` is empty exactly when every character of the text is whitespace: the "please enter a response" test |
| PyStr.StripIdempotent | streamlit_app.py:329 | stripping a stripped transcript changes nothing |
| Transcription.Stt | functions.py:48-95 | when constructing the client raises, STT raises that error before any call; otherwise the retry loop returns exactly what `SttRun` gives (result, number of vendor calls, backoff delays); the number of size warnings is the number of calls when the clip exceeds 10 MiB and 0 otherwise, and the result does not depend on the clip size |
| Transcription.RunFromShape | functions.py:56-91 | once an attempt starts, the loop makes at most `max_retries` calls and returns a string; the delay after the r-th timeout is 2^r seconds and no delay follows the last call |
| Transcription.SttBounds | functions.py:54-91 | STT makes no call and returns None exactly when `max_retries <= 0`, never makes more than `max_retries` calls, and requests the backoffs 2, 4, ..., 2^(calls-1) |
| Transcription.SttFirstAnswerDecides | functions.py:76-95 | after k-1 timeouts, a success on attempt k <= `max_retries` returns that transcript and a non-timeout error returns "Error transcribing audio: " + message, with exactly k calls made |
| Transcription.SttAllTimeouts | functions.py:84-88 | when all `max_retries` attempts time out, STT returns the fixed apology string after exactly `max_retries` calls, without raising |
| Transcription.SttDefaultThirdTimeLucky | functions.py:48-91 | with the default of three attempts, timeouts on attempts 1 and 2 and a success on attempt 3 give the transcript after backoffs of 2 and 4 seconds and no fourth call |
| PdfExtract.FirstUnreadable | functions.py:23-27 | the index of the first page that fails: every page before it reads, and the page at it fails |
| PdfExtract.ExtractTextFromPdf | functions.py:19-27 | extraction succeeds exactly when the document opens and every page reads, and then yields the pages' texts each followed by "\n" in page order ("" for no pages); otherwise the error is "Failed to extract text from PDF: " followed by the first failure's message |
| PdfExtract.JoinPagesLength | functions.py:21-25 | the text's length is the sum of the page lengths plus the page count |
| PdfExtract.JoinPagesAppend | functions.py:23-24 | the text of two runs of pages is the text of the first followed by the text of the second |
| PdfExtract.PageInPlace | functions.py:23-24 | page i's text appears after the earlier pages' text, followed by its newline, then the later pages' text |
| AudioCapture.ConcatLength | streamlit_app.py:71 | the final audio holds as many samples as all chunks together |
| AudioCapture.ConcatAppend | streamlit_app.py:44-71 | concatenating chunks keeps arrival order across any split of the chunk list |
| AudioCapture.AudioRecorder.constructor | streamlit_app.py:26-32 | a new recorder is not recording, holds no chunks, no start time and no stream, with the given cap and sample rate |
| AudioCapture.AudioRecorder.StartRecording | streamlit_app.py:34-52 | recording is set, the chunk list is emptied and the start time is the clock; the stream is held only when opening and starting it succeeded (`streamOk`), and a failure leaves the recording flag set |
| AudioCapture.AudioRecorder.Callback | streamlit_app.py:40-44 | a chunk is appended at the end only while recording; otherwise the chunk list is unchanged |
| AudioCapture.AudioRecorder.StopRecording | streamlit_app.py:54-79 | when not recording it returns None and changes nothing; otherwise recording stops, the stream is released, and the clip is None when no chunk arrived or the file write failed and the chunks concatenated in order otherwise |
| AudioCapture.AudioRecorder.RecordingDuration | streamlit_app.py:81-85 | the duration is 0 when not recording or when no truthy start time is held, and the time since the start otherwise |
| AudioCapture.AudioRecorder.IsMaxDurationReached | streamlit_app.py:87-89 | the cap is reached exactly when the duration is at least `max_duration`; a stopped recorder reaches it only when the cap is not positive |
| Interview.Preview | streamlit_app.py:165 | the preview is the text when it has at most 500 characters, and otherwise its first 500 characters followed by "...", so it never exceeds 503 characters |
| Interview.Heard | streamlit_app.py:327-333 | a transcript is kept exactly when it is present and not blank, and what is kept is its stripped text, which is not empty and has no outer whitespace |
| Interview.Session.constructor | streamlit_app.py:100-120 | the initial session: no CV, empty history, no interview, nothing pending, a fresh recorder with a 90-second cap at 44100 Hz |
| Interview.Session.LoadCv | streamlit_app.py:160 | an extracted CV's text is stored and nothing else changes |
| Interview.Session.Start | streamlit_app.py:183-189 | fires exactly when a non-empty CV is held and no interview runs; it starts the interview with an empty history, no pending question and no awaited answer, and changes nothing else |
| Interview.Session.RequestQuestion | streamlit_app.py:196-214 | fires only when the interview runs, no answer is awaited and no question is pending, and the generator succeeded; the question becomes pending, an answer is awaited and the question audio is cleared; a failure changes nothing |
| Interview.Session.SpeakQuestion | streamlit_app.py:217-229 | while a non-empty question is shown and no audio file is held, a synthesized file becomes the question's audio; a failed synthesis changes nothing |
| Interview.Session.StartRecording | streamlit_app.py:290-299 | offered only while answering with no recording active; the recorder starts empty at the clock, and the recording is marked active exactly when the stream opened |
| Interview.Session.StopRecording | streamlit_app.py:300-368 | fires while answering with an active recording, on the stop button or once the cap is reached; the recorder stops, and a saved clip's transcript (three attempts) is stored stripped for review when not blank; when STT raises, nothing is stored; the history and the pending question never change here |
| Interview.Session.ReceiveTranscript | streamlit_app.py:327-333 | a non-blank transcript is stored stripped with the review flag set; a blank or missing one leaves the state unchanged |
| Interview.Session.RecordAgain | streamlit_app.py:282-287 | while reviewing, clears the stored transcript and the review flag |
| Interview.Session.SubmitReviewedAnswer | streamlit_app.py:261-280 | while reviewing, a blank text changes nothing; otherwise exactly one exchange of the pending question and the stripped text is appended after the unchanged earlier entries, and the pending question, awaited answer and transcript are cleared |
| Interview.Session.SubmitTypedAnswer | streamlit_app.py:381-398 | while answering, a blank text changes nothing; otherwise exactly one exchange of the pending question and the stripped text is appended after the unchanged earlier entries, and the pending question and awaited answer are cleared |
| Interview.Session.End | streamlit_app.py:400-423 | offered only while answering; stops an active recording, clears the question audio, ends the interview, clears the pending question, the awaited answer and the transcript, and leaves the history untouched |
| Interview.InterviewRound | streamlit_app.py:183-428 | a client run: after start, one question and one typed answer, the returned history holds exactly that exchange with the stripped answer; the history returned after ending is the same; starting again empties it |

## Left out

- Page rendering, columns, spinners, messages, widget keys and `st.rerun()`: these are UI. Each handler's state change is a method.
- The sound device stream, numpy and WAV writing: chunks are abstract sample sequences. The callback is a sequential call, not an audio thread. Opening the stream and writing the file are `streamOk` and `writeOk` inputs. The source assigns the stream before it starts it (streamlit_app.py:46-52). If `start()` raises, the recorder still holds a stream that never started, and `stop_recording` later closes it. The single `streamOk` input merges the two failure points and keeps the previous stream flag, so that held, unstarted stream is not modelled.
- The recording-status print in the callback and the console prints in `STT`: output only. The size warnings are counted, not printed.
- Wall-clock time: `time.time()` is an integer clock argument and durations are integers, not floats.
- `time.sleep`: only the requested delay is modelled, not the wait. The same holds for the one-second pause after a submission.
- The speech-to-text, speech-synthesis and language-model clients (`transcribe_file`, `TTS`, `model_generation`) are network calls. They are inputs: the per-attempt vendor outcomes, the synthesized file path, and the generated text or failure.
- Interview.Session.RequestQuestion: the generator is assumed to return a string. If the vendor returned no text, Python would store None with `waiting_for_response` set; that case is not modelled.
- `extract_text_from_docx`, `extract_text_from_txt`, the PDF library's page parsing and the file-extension check of the upload: these are foreign parsers and file I/O. The PDF document is given as its page texts or failures.
- Temporary files and `os.unlink`: cleanup is best-effort filesystem I/O, and paths are opaque strings. When chunks have arrived, the stop inside `End` writes the clip to a temporary file that is never deleted (streamlit_app.py:69-76, 404). The model discards that clip.
- prompts.py and the 10 to 15 question policy: they are prompt text for the language model only, and the code enforces neither.
- Transcription.Stt: the vendor is modelled as answering every attempt (`max_retries <= |vendor|`). An error raised while reading the response (a missing key, say) falls under `OtherError`.
- AudioCapture.AudioRecorder.RecordingDuration: the clock is an integer, so sub-second durations are not modelled.

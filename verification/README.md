# Svar AI server: transcription endpoint model

A Dafny model of the core of the Svar AI server's `POST /transcribe` endpoint
(`transcribe_audio` in `app.py`). The endpoint saves an uploaded audio file to
a temporary file and runs a diarized speech-to-text job on it. It flattens the
job's first output into plain text and asks a chat model for a summary. It
returns the raw transcription result together with that summary.

The model has three modules:

- `Wrappers` (`wrappers.dfy`): `Option` for absent dictionary keys and `Result`
  for steps that may end in an exception.
- `Transcript` (`transcript.dfy`): the transcription payload and its
  flattening into the summariser's input. There are two forms of it: the loop
  exactly as the endpoint writes it (`FlattenTranscript`) and a functional
  reference (`Flatten`/`Join`), proved equal. A parser
  (`ParseTranscript`) reads the flattened text back, and its round trip is
  proved.
- `Pipeline` (`pipeline.dfy`): the endpoint's decision logic. A `Script` holds
  every outcome the outside world decides:
  - whether each client is configured;
  - whether saving the upload, creating, uploading, starting and waiting for
    the job return, raise an `Exception`, or are interrupted by an exception
    outside that class;
  - the job's failed flag and status reason;
  - the outcome of fetching outputs, and the output list;
  - the outcome of the chat call.

  `TranscribeAudio` maps a script to a `Response` and a trace of `Event`s.
  The response is one of three: the JSON body, an HTTP error as status and
  detail, or `Unhandled` when an exception propagates out of the endpoint.
  The trace records what the endpoint did, in order: creating and removing
  the temporary file, each job call, and the summary call. The temporary file's existence is not
  a stored flag. `FileExists` replays it from the trace, and the `finally`
  clause's `os.path.exists` check is read from that replay.

Details of app.py the model keeps:

- the speaker label and the text are copied verbatim;
- nothing is trimmed;
- every line, including the last, ends in `"\n"`;
- without an `utterances` key the fallback is `"No text found."`;
- an `utterances` key holding an empty list yields `""`, not the fallback;
- every transcription-stage exception derived from `Exception` is reported as
  status 500 with the exception's message. This includes a failed job and an
  empty output list.
- an exception outside that class (`asyncio.CancelledError`,
  `KeyboardInterrupt`) is not caught by `except Exception` (app.py:76, 108).
  It propagates out of the endpoint as `Unhandled`, and the `finally` cleanup
  (app.py:79-82) still runs.

The initial `summary_result = "Could not generate summary."` (app.py:96) is
overwritten on every path, so it is never returned. The model has no
counterpart for it.

## Model

| member | source | states |
|---|---|---|
| Transcript.FlattenTranscript | app.py:86-93 | The source's accumulating loop computes exactly the reference `Flatten`: one `speaker: text\n` line per utterance appended in order when the `utterances` key is present, else the `text` value or `"No text found."` |
| Transcript.Flatten | app.py:84-93 | With an `utterances` key the result is exactly `Join` of the utterances, and an empty list gives `""` rather than the fallback (the test is key presence). Without it, the `text` value is returned verbatim, or `"No text found."` when `text` is absent |
| Transcript.JoinAppend | app.py:86-91 | Flattening a concatenation of utterance lists is the concatenation of their flattenings, so appending line by line builds the whole transcript |
| Transcript.JoinSegments | app.py:87-91 | Utterance i contributes exactly its own line, occupying the slice between the end of the first i lines and the end of the first i+1: one segment per utterance, none dropped, reordered or merged |
| Transcript.ParseJoin | app.py:87-91 | Round trip: if no shown speaker contains ':' or a newline and no text a newline, splitting the flattened text on newlines and first ': ' gives back each utterance's speaker (or "Unknown Speaker") and text (or "") in input order |
| Transcript.LineShowsFields | app.py:89-91 | A present speaker or text appears verbatim in its line; a missing speaker is shown as "Unknown Speaker" and missing text as empty |
| Pipeline.TryTranscription | app.py:47-73 | The try body stops at the first step that does not return. What it did is always a prefix of save, create, upload, start, wait, status check, fetch. It did nothing only when `open` raised. It succeeds exactly when every step returned, the job did not fail and some output exists, and then it yields the first output |
| Pipeline.StageOrderPrefix | app.py:49-69 | Along that order the temporary file exists from its creation on and is never removed, and the outputs are fetched only as the last step |
| Pipeline.Handle | app.py:76-78 | The handler turns an exception derived from `Exception` into a 500 carrying its message. It lets any other exception propagate and never produces a success |
| Pipeline.TranscriptionStage | app.py:47-82 | After the except and finally clauses the temporary file no longer exists, whatever happened. The stage yields the first output exactly when transcription succeeds. An exception derived from `Exception` becomes a 500 carrying that exception's message; any other propagates |
| Pipeline.SummaryText | app.py:96-110 | The summary is never empty. It is the returned content when non-empty, "Summary was empty." for None or empty content, and "Error: Could not generate summary." when the call raises |
| Pipeline.TranscribeAudio | app.py:36-116 | If either client is missing, the response is the 500 "API keys are not configured" error with an empty trace (no file, no remote call). For a result of the modelled shape, the request succeeds exactly when both clients exist, transcription succeeds and the summary call is not interrupted. It then carries the raw first output and the summary text. Every HTTP error is a 500 |
| Pipeline.RunTrace | app.py:43-116 | Every run's trace is empty (guard fired or `open` raised), or a prefix of the stage order followed by the file removal. When transcription succeeds it is the full order, the removal, then the summary call on the flattened first output |
| Pipeline.StagingFailureReported | app.py:47-82 | An exception while saving the upload is a 500 carrying its message, and an interrupted read propagates. No remote call is made in either case, and a file that `open` already created is removed |
| Pipeline.StepFailureReported | app.py:55-82 | An exception from creating, uploading to, starting or waiting for the job is a 500 carrying that message; an interruption propagates. No later step is attempted and the file is removed |
| Pipeline.FailedJobReported | app.py:66-69 | A failed job gives a 500 whose detail is "Transcription failed: " followed by the status reason, and the outputs are never fetched |
| Pipeline.EmptyOutputReported | app.py:69-71 | A completed job with no outputs gives the 500 "No output found from transcription job.", a message distinct from any failed-job message |
| Pipeline.FetchFailureReported | app.py:69-82 | An exception from fetching the outputs of a completed job is a 500 carrying its message, and an interruption propagates. The trace is the full stage order followed by the file removal |
| Pipeline.FetchOnlyAfterCompletedJob | app.py:64-69 | Outputs are fetched if and only if the job ran to completion without raising and is not marked failed |
| Pipeline.CleanupOnEveryPath | app.py:79-82 | On every path, interrupted ones included, the temporary file is absent at the end. It is removed exactly when it was created, and never removed twice |
| Pipeline.FileLiveDuringJobCalls | app.py:49-82 | Every call about the job happens while the temporary file exists, and no call about the job is made after the file is removed |
| Pipeline.SummaryNeverFailsRequest | app.py:96-116 | Changing only the summary outcome never changes whether the response is an HTTP error. It leaves a run unchanged when the clients are missing or the transcription stage fails, whether that ends in a 500 or propagates. A successful request stays successful, with the same raw transcript, under any summary outcome the handler catches, and its summary field follows the new outcome |
| Pipeline.SummaryInterruptPropagates | app.py:97-110 | An interruption of the summary call is not caught by `except Exception`: it propagates out of the endpoint after the temporary file was already removed |
| Pipeline.SummariserGetsFlattenedTranscript | app.py:84-105 | The summariser is called at most once: exactly when transcription succeeded, as the last action, with the flattened first output |

## Left out

- The FastAPI application, routing, the health endpoint (app.py:30-34) and `HTTPException` plumbing: a raised exception is reduced to a status and detail pair.
- Environment and `.env` loading and client construction (app.py:11-28): reduced to two booleans, one per client.
- The speech-to-text SDK internals (app.py:55-64): job creation, upload, start and `wait_until_complete` are each one opaque step that returns, raises or is interrupted. Polling, the poll interval and the 300-second timeout are not modelled, since that loop is not part of this code. A timeout can end in one of two ways, and the script can express both. The wait step may raise. Or it may return with the job unfinished; then the failed flag, the fetch outcome and the output list are free inputs.
- The remote job's lifetime: the model does not promise that the temporary file outlives the job. If uploading, starting or waiting raises or is interrupted after the job was created, the `finally` clause (app.py:79-82) removes the file while the job may still exist or be running on the service; nothing cancels it.
- `is_failed()` and `get_status()` are not modelled as steps that can raise. The script gives the failed flag and the reason as already formatted text; a `None` reason would print as "None".
- The chat-completion request and its prompt strings (app.py:99-105): only the outcome is modelled (raise, interruption, `None` content, or text). The trace records the flattened transcript that the prompt embeds.
- Real filesystem writes and deletes (app.py:49-51, 81-82): replayed from the event trace. `os.remove` is assumed to succeed. The file is assumed absent before the request, so a leftover or concurrently written `temp_<filename>` is out of scope.
- `speaker` and `text` values are either absent or strings. A JSON `null` or non-string value, which the f-string at app.py:91 would format through `str()`, is not modelled.
- An `utterances` value that is null, not a list, or holds a non-object entry is not modelled. Such a value raises at app.py:88-90, outside the `try` and after the cleanup, so the request fails without a summary call. The model types `utterances` as a list of records, so it has no such run, and `Pipeline.TranscribeAudio`'s success condition holds only for payloads of that shape. A result that is not a dictionary, which raises somewhere in app.py:87-93, is not modelled either.
- `print` logging, `async`/`await` scheduling and concurrency between requests. Of asynchronous cancellation, only its effect is modelled: an interruption at an awaited step. An interruption during the synchronous `open` call itself (app.py:50) is not modelled.
- Transcript.ParseJoin: the round trip is stated only for speakers without ':' or newline and texts without newline, because with those characters the flattened text is ambiguous. Transcript.JoinSegments states the unrestricted segment property.

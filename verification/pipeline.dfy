/** The outcome logic of the `/transcribe` endpoint (app.py, `transcribe_audio`):
    the configuration guard, the transcription stage with its exception
    handling and temporary-file cleanup, the flattening of the result and the
    best-effort summary. Every remote call is replaced by its outcome, read
    from a `Script`; what the endpoint does is recorded as a trace of events,
    from which the temporary file's existence is replayed. */
module Pipeline {
  import opened Wrappers
  import opened Transcript

  /** Outcome of one opaque step: it returns; it raises an exception derived
      from `Exception` whose string form is `message`; or it is interrupted
      by an exception outside that class (`asyncio.CancelledError`,
      `KeyboardInterrupt`), which no `except Exception` clause catches. */
  datatype Step = Returns | Raises(message: string) | Interrupted

  /** Saving the upload to the temporary file: `open` can raise before the
      file exists; reading the upload or writing it can raise, or the read
      can be interrupted, after `open` created the file. */
  datatype Staging = Staged | OpenRaises(message: string) | WriteRaises(message: string) | WriteInterrupted

  /** Outcome of the chat-completion call: it raises, returns message content
      that may be `None`, or is interrupted. */
  datatype SummaryOutcome = SummaryRaises | SummaryReturns(content: Option<string>) | SummaryInterrupted

  /** Everything the outside world decides during one request. */
  datatype Script = Script(
    speechConfigured: bool,   // the speech-to-text client was constructed
    chatConfigured: bool,     // the chat-completion client was constructed
    staging: Staging,
    createJob: Step,
    upload: Step,
    start: Step,
    wait: Step,               // waiting for completion, polling included
    jobFailed: bool,
    failureReason: string,    // the job status reason, as formatted
    fetchOutputs: Step,
    outputs: seq<Payload>,
    summary: SummaryOutcome)

  /** What the endpoint does, in order. Remote calls are recorded when they
      are attempted, whether or not they return. */
  datatype Event =
    | CreateTemp | RemoveTemp
    | CreateJob | UploadFile | StartJob | WaitForJob | CheckStatus | FetchOutputs
    | Summarise(transcript: string)
  {
    /** A call to the speech-to-text service about the job. */
    predicate IsJobCall() {
      CreateJob? || UploadFile? || StartJob? || WaitForJob? || CheckStatus? || FetchOutputs?
    }
  }

  /** How the request ends: a JSON body with the raw transcription result and
      the summary; an `HTTPException` reduced to its status and detail; or an
      exception the handlers do not catch, which propagates out of the
      endpoint. */
  datatype Response =
    | Ok(transcript: Payload, summary: string)
    | HttpError(status: int, detail: string)
    | Unhandled

  datatype Run = Run(response: Response, trace: seq<Event>)

  const InternalError: int := 500
  const KeysNotConfigured: string := "API keys are not configured on the server."
  const FailurePrefix: string := "Transcription failed: "
  const NoOutputFound: string := "No output found from transcription job."
  const SummaryEmpty: string := "Summary was empty."
  const SummaryError: string := "Error: Could not generate summary."

  /** The order in which the transcription stage does things when nothing
      goes wrong. */
  const StageOrder: seq<Event> :=
    [CreateTemp, CreateJob, UploadFile, StartJob, WaitForJob, CheckStatus, FetchOutputs]

  /** Whether the temporary file exists after the events of `trace`, starting
      from no file. */
  function FileExists(trace: seq<Event>): bool {
    if trace == [] then false
    else match trace[|trace| - 1]
      case CreateTemp => true
      case RemoveTemp => false
      case _ => FileExists(trace[..|trace| - 1])
  }

  predicate Configured(s: Script) {
    s.speechConfigured && s.chatConfigured
  }

  /** The four job steps before the status check, in call order. */
  function JobSteps(s: Script): seq<Step> {
    [s.createJob, s.upload, s.start, s.wait]
  }

  /** Staging worked and no step up to and including the wait for completion
      raised or was interrupted. */
  predicate JobCompletes(s: Script) {
    s.staging.Staged? && s.createJob.Returns? && s.upload.Returns? && s.start.Returns? && s.wait.Returns?
  }

  /** Independent characterisation of a successful transcription stage:
      staging worked, no step raised, the job did not fail and there was at
      least one output. */
  predicate TranscriptionSucceeds(s: Script) {
    && JobCompletes(s)
    && !s.jobFailed
    && s.fetchOutputs.Returns?
    && |s.outputs| > 0
  }

  /** What the transcription stage's `except Exception` clause makes of a step
      that did not return: a 500 carrying the exception's message, or, for an
      exception outside that class, nothing (it propagates). */
  function Handle(e: Step): (r: Response)
    requires !e.Returns?
    ensures !r.Ok?
    ensures e.Raises? ==> r == HttpError(InternalError, e.message)
    ensures e.Interrupted? <==> r.Unhandled?
  {
    if e.Raises? then HttpError(InternalError, e.message) else Unhandled
  }

  /** Outcome of the `try` body of the transcription stage: the first output,
      or the step that did not return. */
  datatype Attempt = Attempt(outcome: Result<Payload, Step>, trace: seq<Event>)

  /** The `try` body of the transcription stage: each step either returns or
      ends the body with its exception. What it did is always a prefix of
      `StageOrder`, empty only when `open` raised. */
  function TryTranscription(s: Script): (a: Attempt)
    ensures |a.trace| <= |StageOrder| && a.trace == StageOrder[..|a.trace|]
    ensures a.trace == [] <==> s.staging.OpenRaises?
    ensures a.outcome.Success? <==> TranscriptionSucceeds(s)
    ensures a.outcome.Success? ==> |a.trace| == |StageOrder| && a.outcome.value == s.outputs[0]
    ensures a.outcome.Failure? ==> !a.outcome.error.Returns?
  {
    match s.staging
    case OpenRaises(m) => Attempt(Failure(Raises(m)), [])
    case WriteRaises(m) => Attempt(Failure(Raises(m)), StageOrder[..1])
    case WriteInterrupted => Attempt(Failure(Interrupted), StageOrder[..1])
    case Staged =>
      if !s.createJob.Returns? then Attempt(Failure(s.createJob), StageOrder[..2])
      else if !s.upload.Returns? then Attempt(Failure(s.upload), StageOrder[..3])
      else if !s.start.Returns? then Attempt(Failure(s.start), StageOrder[..4])
      else if !s.wait.Returns? then Attempt(Failure(s.wait), StageOrder[..5])
      else if s.jobFailed then Attempt(Failure(Raises(FailurePrefix + s.failureReason)), StageOrder[..6])
      else if !s.fetchOutputs.Returns? then Attempt(Failure(s.fetchOutputs), StageOrder)
      else if |s.outputs| == 0 then Attempt(Failure(Raises(NoOutputFound)), StageOrder)
      else Attempt(Success(s.outputs[0]), StageOrder)
  }

  /** Along the stage order the file exists from its creation on, is never
      removed, and the outputs are fetched only as the last step. */
  lemma {:induction false} StageOrderPrefix(n: nat)
    requires n <= |StageOrder|
    ensures FileExists(StageOrder[..n]) <==> n >= 1
    ensures RemoveTemp !in StageOrder[..n]
    ensures FetchOutputs in StageOrder[..n] <==> n == |StageOrder|
  {
    if n > 1 {
      assert StageOrder[..n][..n - 1] == StageOrder[..n - 1];
      StageOrderPrefix(n - 1);
    }
  }

  /** Outcome of the whole transcription stage: the raw result, or how the
      endpoint ends instead. */
  datatype Stage = Stage(outcome: Result<Payload, Response>, trace: seq<Event>)

  /** The transcription stage with its handlers: an exception derived from
      `Exception` becomes a 500 carrying its message, any other propagates,
      and in both cases the `finally` clause removes the temporary file if it
      exists. */
  function TranscriptionStage(s: Script): (st: Stage)
    ensures !FileExists(st.trace)
    ensures st.outcome.Success? <==> TranscriptionSucceeds(s)
    ensures st.outcome.Success? ==> st.outcome.value == s.outputs[0]
    // A summary of the next two clauses: every failure is a 500 or propagates.
    ensures st.outcome.Failure? ==>
      || (st.outcome.error.HttpError? && st.outcome.error.status == InternalError)
      || st.outcome.error.Unhandled?
    ensures st.outcome.Failure? && TryTranscription(s).outcome.error.Raises? ==>
      st.outcome.error == HttpError(InternalError, TryTranscription(s).outcome.error.message)
    ensures st.outcome.Failure? && TryTranscription(s).outcome.error.Interrupted? ==>
      st.outcome.error == Unhandled
  {
    var a := TryTranscription(s);
    var cleanup := if FileExists(a.trace) then [RemoveTemp] else [];
    assert !FileExists(a.trace + cleanup) by {
      if cleanup == [] {
        assert a.trace + cleanup == a.trace;
      }
    }
    match a.outcome
    case Success(p) => Stage(Success(p), a.trace + cleanup)
    case Failure(e) => Stage(Failure(Handle(e)), a.trace + cleanup)
  }

  /** The summary text: the returned content when it is non-empty, a fixed
      text when it is `None` or empty, another when the call raises. An
      interrupted call produces no summary at all. */
  function SummaryText(o: SummaryOutcome): (r: string)
    requires !o.SummaryInterrupted?
    ensures r != ""
    ensures o.SummaryReturns? && o.content.Some? && o.content.value != "" ==> r == o.content.value
    ensures o.SummaryReturns? && (o.content.None? || o.content.value == "") ==> r == SummaryEmpty
    ensures o.SummaryRaises? ==> r == SummaryError
  {
    match o
    case SummaryRaises => SummaryError
    case SummaryReturns(c) => if c.None? || c.value == "" then SummaryEmpty else c.value
  }

  /** The `/transcribe` endpoint. */
  function TranscribeAudio(s: Script): (run: Run)
    ensures !Configured(s) ==> run == Run(HttpError(InternalError, KeysNotConfigured), [])
    ensures run.response.Ok? <==> Configured(s) && TranscriptionSucceeds(s) && !s.summary.SummaryInterrupted?
    ensures run.response.Ok? ==>
      && run.response.transcript == s.outputs[0]
      && run.response.summary == SummaryText(s.summary)
    ensures run.response.HttpError? ==> run.response.status == InternalError
  {
    if !Configured(s) then
      Run(HttpError(InternalError, KeysNotConfigured), [])
    else
      var st := TranscriptionStage(s);
      match st.outcome
      case Failure(resp) => Run(resp, st.trace)
      case Success(result) =>
        var plain := Flatten(result);
        var trace := st.trace + [Summarise(plain)];
        if s.summary.SummaryInterrupted? then Run(Unhandled, trace)
        else Run(Ok(result, SummaryText(s.summary)), trace)
  }

  // ---------------------------------------------------------------------
  // Properties of one request

  /** The shape of every run: nothing when the guard fires or `open` raises;
      otherwise a prefix of the stage order and the removal of the temporary
      file, followed by the summary call exactly when transcription
      succeeded. */
  lemma RunTrace(s: Script)
    ensures var run := TranscribeAudio(s);
      var n := |TryTranscription(s).trace|;
      && n <= |StageOrder|
      && (!Configured(s) || s.staging.OpenRaises? ==> run.trace == [])
      && (Configured(s) && !s.staging.OpenRaises? && !TranscriptionSucceeds(s) ==>
            1 <= n && run.trace == StageOrder[..n] + [RemoveTemp])
      && (Configured(s) && TranscriptionSucceeds(s) ==>
            run.trace == StageOrder + [RemoveTemp, Summarise(Flatten(s.outputs[0]))])
  {
    var a := TryTranscription(s);
    StageOrderPrefix(|a.trace|);
    assert StageOrder[..|StageOrder|] == StageOrder;
  }

  /** A failure to save the upload is a 500 carrying the exception's message
      (or propagates, if the read was interrupted); no remote call is made,
      and a file that `open` created is removed. */
  lemma StagingFailureReported(s: Script)
    requires Configured(s) && !s.staging.Staged?
    ensures s.staging.OpenRaises? ==> TranscribeAudio(s) == Run(HttpError(InternalError, s.staging.message), [])
    ensures s.staging.WriteRaises? ==>
      TranscribeAudio(s) == Run(HttpError(InternalError, s.staging.message), [CreateTemp, RemoveTemp])
    ensures s.staging.WriteInterrupted? ==> TranscribeAudio(s) == Run(Unhandled, [CreateTemp, RemoveTemp])
  {
  }

  /** An exception from creating, uploading to, starting or waiting for the
      job is a 500 carrying that exception's message, or propagates if it is
      not an `Exception`; the later steps are not attempted and the temporary
      file is removed. */
  lemma StepFailureReported(s: Script, k: nat)
    requires Configured(s) && s.staging.Staged?
    requires k < 4 && !JobSteps(s)[k].Returns?
    requires forall j :: 0 <= j < k ==> JobSteps(s)[j].Returns?
    ensures JobSteps(s)[k].Raises? ==>
      TranscribeAudio(s).response == HttpError(InternalError, JobSteps(s)[k].message)
    ensures JobSteps(s)[k].Interrupted? ==> TranscribeAudio(s).response == Unhandled
    ensures TranscribeAudio(s).trace == StageOrder[..k + 2] + [RemoveTemp]
  {
    StageOrderPrefix(k + 2);
    if k >= 1 { assert JobSteps(s)[0].Returns?; }
    if k >= 2 { assert JobSteps(s)[1].Returns?; }
    if k >= 3 { assert JobSteps(s)[2].Returns?; }
  }

  /** A job that ends in the failed state is a 500 carrying the job's status
      reason, and its outputs are never fetched. */
  lemma FailedJobReported(s: Script)
    requires Configured(s) && JobCompletes(s) && s.jobFailed
    ensures TranscribeAudio(s).response == HttpError(InternalError, FailurePrefix + s.failureReason)
    ensures FetchOutputs !in TranscribeAudio(s).trace
  {
  }

  /** An exception from fetching the outputs of a completed job is a 500
      carrying its message, or propagates if it is not an `Exception`; the
      temporary file is removed afterwards. */
  lemma FetchFailureReported(s: Script)
    requires Configured(s) && JobCompletes(s) && !s.jobFailed && !s.fetchOutputs.Returns?
    ensures s.fetchOutputs.Raises? ==>
      TranscribeAudio(s).response == HttpError(InternalError, s.fetchOutputs.message)
    ensures s.fetchOutputs.Interrupted? ==> TranscribeAudio(s).response == Unhandled
    ensures TranscribeAudio(s).trace == StageOrder + [RemoveTemp]
  {
    StageOrderPrefix(|StageOrder|);
    assert StageOrder[..|StageOrder|] == StageOrder;
  }

  /** A completed job with an empty output list is a 500 with its own
      message, distinct from the failed-job message. */
  lemma EmptyOutputReported(s: Script)
    requires Configured(s) && JobCompletes(s) && !s.jobFailed
    requires s.fetchOutputs.Returns? && s.outputs == []
    ensures TranscribeAudio(s).response == HttpError(InternalError, NoOutputFound)
    ensures NoOutputFound != FailurePrefix + s.failureReason
  {
    assert NoOutputFound[0] != (FailurePrefix + s.failureReason)[0];
  }

  /** The outputs are fetched exactly when the job ran to completion and did
      not fail. */
  lemma FetchOnlyAfterCompletedJob(s: Script)
    ensures FetchOutputs in TranscribeAudio(s).trace <==> Configured(s) && JobCompletes(s) && !s.jobFailed
  {
  }

  /** On every path, interrupted ones included, the temporary file is gone at
      the end, it is removed exactly when it was created, and it is removed at
      most once. */
  lemma CleanupOnEveryPath(s: Script)
    ensures !FileExists(TranscribeAudio(s).trace)
    ensures CreateTemp in TranscribeAudio(s).trace <==> RemoveTemp in TranscribeAudio(s).trace
    ensures forall i, j :: 0 <= i < j < |TranscribeAudio(s).trace| ==>
      TranscribeAudio(s).trace[i] != RemoveTemp || TranscribeAudio(s).trace[j] != RemoveTemp
  {
    var t := TranscribeAudio(s).trace;
    RunTrace(s);
    var n := |TryTranscription(s).trace|;
    StageOrderPrefix(n);
    if t != [] {
      assert t[0] == CreateTemp;
      if TranscriptionSucceeds(s) {
        assert t[|StageOrder|] == RemoveTemp;
        assert t[|t| - 1] != RemoveTemp;
        assert t[..|t| - 1] == StageOrder + [RemoveTemp];
      } else {
        assert t[n] == RemoveTemp;
      }
    }
  }

  /** The temporary file exists whenever a call about the job is made, and no
      call about the job is made after the file is removed. */
  lemma FileLiveDuringJobCalls(s: Script)
    ensures var t := TranscribeAudio(s).trace;
      forall i :: 0 <= i < |t| && t[i].IsJobCall() ==> FileExists(t[..i]) && RemoveTemp !in t[..i]
  {
    var t := TranscribeAudio(s).trace;
    RunTrace(s);
    var n := |TryTranscription(s).trace|;
    forall i | 0 <= i < |t| && t[i].IsJobCall()
      ensures FileExists(t[..i]) && RemoveTemp !in t[..i]
    {
      var m := if TranscriptionSucceeds(s) then |StageOrder| else n;
      assert i < m;
      assert t[..i] == StageOrder[..i];
      StageOrderPrefix(i);
    }
  }

  /** The summary outcome never turns the request into an HTTP error: two
      runs that differ only in it agree on whether the response is an HTTP
      error, a request whose transcription stage fails is unchanged, and a request that succeeds
      still succeeds with the same raw transcript under any summary outcome
      that the handler catches. */
  lemma SummaryNeverFailsRequest(s: Script, o: SummaryOutcome)
    ensures TranscribeAudio(s.(summary := o)).response.HttpError? == TranscribeAudio(s).response.HttpError?
    ensures !Configured(s) || !TranscriptionSucceeds(s) ==>
      TranscribeAudio(s.(summary := o)) == TranscribeAudio(s)
    ensures TranscribeAudio(s).response.Ok? && !o.SummaryInterrupted? ==>
      && TranscribeAudio(s.(summary := o)).response.Ok?
      && TranscribeAudio(s.(summary := o)).response.transcript == TranscribeAudio(s).response.transcript
      && TranscribeAudio(s.(summary := o)).response.summary == SummaryText(o)
  {
  }

  /** An interrupted summary call propagates out of the endpoint, after the
      temporary file has already been removed. */
  lemma SummaryInterruptPropagates(s: Script)
    requires Configured(s) && TranscriptionSucceeds(s) && s.summary.SummaryInterrupted?
    ensures TranscribeAudio(s).response == Unhandled
    ensures TranscribeAudio(s).trace == StageOrder + [RemoveTemp, Summarise(Flatten(s.outputs[0]))]
  {
    RunTrace(s);
  }

  /** The summariser is called once, last, exactly when transcription
      succeeded, with the flattened first output. */
  lemma SummariserGetsFlattenedTranscript(s: Script)
    ensures var t := TranscribeAudio(s).trace;
      && (Configured(s) && TranscriptionSucceeds(s) ==> t[|t| - 1] == Summarise(Flatten(s.outputs[0])))
      && (forall i :: 0 <= i < |t| && t[i].Summarise? ==>
            Configured(s) && TranscriptionSucceeds(s) && i == |t| - 1)
  {
  }
}

/**
 * Properties of one press of the convert button, from the component state
 * before it and the replies the service gives.
 *
 * Each property of a started run is a predicate on the run's result; a lemma
 * proves it of the ending of any `try` block with the properties the block
 * lemmas establish, and a second one of `Run` itself.
 */
module RunProperties {
  import opened Wrappers
  import Wav
  import opened Pipeline
  import opened PipelineProperties

  /** Without an API key, or without a source and a reference, nothing is sent and only the log and the error change. */
  lemma RunRejected(s: Session, apiKey: string, script: nat -> Reply, decode: string -> Wav.AudioBuffer)
    requires !Started(s, apiKey)
    ensures var r := Run(s, apiKey, script, decode);
      var m := if apiKey == "" then MissingKeyMessage else MissingInputMessage;
      r.sent == [] && r.after == s.(logs := s.logs + [Error(m)], errorMessage := Some(m))
  {
  }

  /** A started run is the `try` block from the reset state, then its ending. */
  lemma RunShape(s: Session, apiKey: string, script: nat -> Reply, decode: string -> Wav.AudioBuffer)
    requires Started(s, apiKey)
    ensures var tp := Attempt(Reset(s), s.sourceFile.value, script, decode);
      Run(s, apiKey, script, decode) == RunResult(Finish(tp.0, tp.1), tp.1.sent)
  {
  }

  // ---------------------------------------------------------------------------
  // The requests
  // ---------------------------------------------------------------------------

  /**
   * The requests of a started run: a non-empty prefix of the plan, every one
   * answered but possibly the last; short of the plan only at a thrown call or
   * at an empty transcript.
   */
  predicate OnPlan(r: RunResult, s: Session, script: nat -> Reply) {
    var refs := s.refFiles;
    var mode := s.mode;
    && s.sourceFile.Some?
    && 1 <= |r.sent| <= PlanLength(refs, mode)
    && FollowsPlan(r.sent, refs, mode, s.sourceFile.value, script)
    && RepliedBefore(script, |r.sent| - 1)
    && (|r.sent| < PlanLength(refs, mode) ==>
          || script(|r.sent| - 1).Threw?
          || (|r.sent| == TranscriptIndex(refs, mode) + 1 && PlannedTranscript(refs, mode, script) == ""))
  }

  lemma RunRequests(s: Session, apiKey: string, script: nat -> Reply, decode: string -> Wav.AudioBuffer)
    requires Started(s, apiKey)
    ensures OnPlan(Run(s, apiKey, script, decode), s, script)
  {
    var src := s.sourceFile.value;
    var tp := Attempt(Reset(s), src, script, decode);
    RunShape(s, apiKey, script, decode);
    assert RequestsOk(tp.1, s.refFiles, s.mode, src, script) by {
      AttemptSpec(Reset(s), src, script, decode);
    }
    StopReason(tp.1, s.refFiles, s.mode, src, script);
  }

  // ---------------------------------------------------------------------------
  // The state cells
  // ---------------------------------------------------------------------------

  /**
   * A started run keeps its inputs, ends not processing, starts a fresh log,
   * and leaves each result cell with the value its step set if it got that
   * far, else with the value the reset gave it.
   */
  predicate StateAfter(r: RunResult, s: Session, script: nat -> Reply) {
    var a := r.after;
    var n := |r.sent|;
    var refs := s.refFiles;
    var mode := s.mode;
    && a.sourceFile == s.sourceFile && a.refFiles == refs && a.mode == mode && !a.isProcessing
    && [Initializing, AnalysisStarted(|refs|)] <= a.logs
    && a.speakerProfiles == (if n > |refs| then PlannedProfiles(refs, script) else [])
    && a.prosodyNote == (if mode == Mimic && n > |refs| + 1 then ProsodyText(ResponseOf(script(|refs|))) else "")
    && a.transcription == (if n == PlanLength(refs, mode) then PlannedTranscript(refs, mode, script) else "")
  }

  lemma FinishState(t: Session, p: Progress, s: Session, script: nat -> Reply)
    requires var refs := s.refFiles; var mode := s.mode; var n := |p.sent|;
      && t.sourceFile == s.sourceFile && t.refFiles == refs && t.mode == mode
      && [Initializing, AnalysisStarted(|refs|)] <= p.logs
      && t.speakerProfiles == (if n > |refs| then PlannedProfiles(refs, script) else [])
      && t.prosodyNote == (if mode == Mimic && n > |refs| + 1 then ProsodyText(ResponseOf(script(|refs|))) else "")
      && t.transcription == (if n == PlanLength(refs, mode) then PlannedTranscript(refs, mode, script) else "")
    ensures StateAfter(RunResult(Finish(t, p), p.sent), s, script)
  {
    if p.thrown.Some? {
      PrefixGrows([Initializing, AnalysisStarted(|s.refFiles|)], p.logs, [Error(ErrorText(p.thrown.value))]);
    }
  }

  lemma RunState(s: Session, apiKey: string, script: nat -> Reply, decode: string -> Wav.AudioBuffer)
    requires Started(s, apiKey)
    ensures StateAfter(Run(s, apiKey, script, decode), s, script)
  {
    var refs := s.refFiles;
    var mode := s.mode;
    var src := s.sourceFile.value;
    var s0 := Reset(s);
    var tp := Attempt(s0, src, script, decode);
    var t := tp.0;
    var n := |tp.1.sent|;
    RunShape(s, apiKey, script, decode);
    assert && t.sourceFile == s.sourceFile && t.refFiles == refs && t.mode == mode
           && [Initializing, AnalysisStarted(|refs|)] <= tp.1.logs
           && t.speakerProfiles == (if n > |refs| then PlannedProfiles(refs, script) else [])
           && t.prosodyNote == (if mode == Mimic && n > |refs| + 1 then ProsodyText(ResponseOf(script(|refs|))) else "")
           && t.transcription == (if n == PlanLength(refs, mode) then PlannedTranscript(refs, mode, script) else "")
    by {
      AttemptSpec(s0, src, script, decode);
      assert s0.logs + [AnalysisStarted(|refs|)] == [Initializing, AnalysisStarted(|refs|)];
    }
    FinishState(t, tp.1, s, script);
  }

  // ---------------------------------------------------------------------------
  // The outcome
  // ---------------------------------------------------------------------------

  /**
   * How a started run ends: with audio exactly when the whole plan was
   * answered with audio data, and then the WAVE file of the decoded data;
   * with an error message exactly when it ends without audio.
   */
  predicate OutcomeAfter(r: RunResult, s: Session, script: nat -> Reply, decode: string -> Wav.AudioBuffer) {
    var a := r.after;
    var n := |r.sent|;
    var audio := PlannedAudio(s.refFiles, s.mode, script);
    && n >= 1
    && (a.errorMessage.None? <==> a.generatedAudio.Some?)
    && (a.generatedAudio.Some? <==> n == PlanLength(s.refFiles, s.mode) && script(n - 1).Returned? && audio != "")
    && (a.generatedAudio.Some? ==> a.generatedAudio.value == Wav.WavFile(decode(audio)))
  }

  lemma FinishOutcome(t: Session, p: Progress, s: Session, src: AudioFile, script: nat -> Reply,
                      decode: string -> Wav.AudioBuffer)
    requires var audio := PlannedAudio(s.refFiles, s.mode, script);
      && RequestsOk(p, s.refFiles, s.mode, src, script)
      && t.generatedAudio == (if p.thrown.None? && audio != "" then Some(Wav.WavFile(decode(audio))) else None)
      && t.errorMessage == (if p.thrown.None? && audio == "" then Some(NoAudioMessage) else None)
    ensures OutcomeAfter(RunResult(Finish(t, p), p.sent), s, script, decode)
  {
    StopReason(p, s.refFiles, s.mode, src, script);
  }

  lemma RunOutcome(s: Session, apiKey: string, script: nat -> Reply, decode: string -> Wav.AudioBuffer)
    requires Started(s, apiKey)
    ensures OutcomeAfter(Run(s, apiKey, script, decode), s, script, decode)
  {
    var src := s.sourceFile.value;
    var audio := PlannedAudio(s.refFiles, s.mode, script);
    var s0 := Reset(s);
    var tp := Attempt(s0, src, script, decode);
    RunShape(s, apiKey, script, decode);
    assert && RequestsOk(tp.1, s.refFiles, s.mode, src, script)
           && tp.0.generatedAudio == (if tp.1.thrown.None? && audio != "" then Some(Wav.WavFile(decode(audio))) else None)
           && tp.0.errorMessage == (if tp.1.thrown.None? && audio == "" then Some(NoAudioMessage) else None)
    by {
      AttemptSpec(s0, src, script, decode);
    }
    FinishOutcome(tp.0, tp.1, s, src, script, decode);
  }

  /**
   * The error a started run reports: the message of the exception that ended
   * it, logged as its last entry; the empty transcript; or the missing audio.
   */
  predicate ErrorsAfter(r: RunResult, s: Session, script: nat -> Reply) {
    var a := r.after;
    var n := |r.sent|;
    && n >= 1 && |a.logs| >= 1
    && (script(n - 1).Threw? ==>
          a.errorMessage == Some(ErrorText(script(n - 1).message))
          && a.logs[|a.logs| - 1] == Error(ErrorText(script(n - 1).message)))
    && (n == PlanLength(s.refFiles, s.mode) && script(n - 1).Returned? && PlannedAudio(s.refFiles, s.mode, script) == "" ==>
          a.errorMessage == Some(NoAudioMessage))
    && (n == TranscriptIndex(s.refFiles, s.mode) + 1 && script(n - 1).Returned? ==>
          a.errorMessage == Some(TranscriptionFailedMessage))
  }

  lemma FinishErrors(t: Session, p: Progress, s: Session, src: AudioFile, script: nat -> Reply)
    requires var audio := PlannedAudio(s.refFiles, s.mode, script);
      && RequestsOk(p, s.refFiles, s.mode, src, script)
      && t.errorMessage == (if p.thrown.None? && audio == "" then Some(NoAudioMessage) else None)
      && [Initializing, AnalysisStarted(|s.refFiles|)] <= p.logs
    ensures ErrorsAfter(RunResult(Finish(t, p), p.sent), s, script)
  {
    StopReason(p, s.refFiles, s.mode, src, script);
  }

  lemma RunErrors(s: Session, apiKey: string, script: nat -> Reply, decode: string -> Wav.AudioBuffer)
    requires Started(s, apiKey)
    ensures ErrorsAfter(Run(s, apiKey, script, decode), s, script)
  {
    var refs := s.refFiles;
    var src := s.sourceFile.value;
    var audio := PlannedAudio(refs, s.mode, script);
    var s0 := Reset(s);
    var tp := Attempt(s0, src, script, decode);
    RunShape(s, apiKey, script, decode);
    assert && RequestsOk(tp.1, refs, s.mode, src, script)
           && tp.0.errorMessage == (if tp.1.thrown.None? && audio == "" then Some(NoAudioMessage) else None)
           && [Initializing, AnalysisStarted(|refs|)] <= tp.1.logs
    by {
      AttemptSpec(s0, src, script, decode);
      assert s0.logs + [AnalysisStarted(|refs|)] == [Initializing, AnalysisStarted(|refs|)];
    }
    FinishErrors(tp.0, tp.1, s, src, script);
  }

  // ---------------------------------------------------------------------------
  // The two modes
  // ---------------------------------------------------------------------------

  /**
   * A started run takes the steps in order, analyses first; it asks for a
   * delivery description only in mimic mode, and leaves no prosody note in
   * clean mode.
   */
  lemma RunSteps(s: Session, apiKey: string, script: nat -> Reply, decode: string -> Wav.AudioBuffer)
    requires Started(s, apiKey)
    ensures var r := Run(s, apiKey, script, decode);
      InStepOrder(r.sent, s.mode) && (s.mode == Clean ==> r.after.prosodyNote == "")
  {
    var r := Run(s, apiKey, script, decode);
    RunRequests(s, apiKey, script, decode);
    RunState(s, apiKey, script, decode);
    FollowsPlanInStepOrder(r.sent, s.refFiles, s.mode, s.sourceFile.value, script);
  }
}

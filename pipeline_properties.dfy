/**
 * What a conversion run does, stated against the request plan a run follows
 * when every step succeeds: which requests go out and in what order, where a
 * run stops, and what it leaves in the component state.
 */
module PipelineProperties {
  import opened Wrappers
  import opened Text
  import Wav
  import opened Pipeline

  /** The pre-flight checks pass: the run talks to the service. */
  predicate Started(s: Session, apiKey: string) {
    apiKey != "" && s.sourceFile.Some? && |s.refFiles| > 0
  }

  /** The response inside a reply; an empty one for a thrown call. */
  function ResponseOf(reply: Reply): Response {
    if reply.Returned? then reply.response else Response("", Unparsable, "")
  }

  /** Every request before number `n` got a response. */
  predicate RepliedBefore(script: nat -> Reply, n: nat) {
    forall k: nat :: k < n ==> script(k).Returned?
  }

  /** The number of the transcription request: after the analyses and, in mimic mode, the prosody request. */
  function TranscriptIndex(refs: seq<AudioFile>, mode: Mode): nat {
    |refs| + if mode == Mimic then 1 else 0
  }

  /** The number of requests of a run in which no step fails. */
  function PlanLength(refs: seq<AudioFile>, mode: Mode): nat {
    TranscriptIndex(refs, mode) + 2
  }

  /** The profiles the loop builds from the first |refs| replies. */
  function PlannedProfiles(refs: seq<AudioFile>, script: nat -> Reply): seq<SpeakerProfile> {
    seq(|refs|, j requires 0 <= j < |refs| => AnalysisProfile(j + 1, ResponseOf(script(j))))
  }

  /** The prosody note after step 2: the described delivery in mimic mode, `note` otherwise. */
  function PlannedNote(refs: seq<AudioFile>, mode: Mode, script: nat -> Reply, note: string): string {
    if mode == Mimic then ProsodyText(ResponseOf(script(|refs|))) else note
  }

  function PlannedInstruction(refs: seq<AudioFile>, mode: Mode, script: nat -> Reply): string {
    if mode == Mimic then ProsodyInstruction(ProsodyText(ResponseOf(script(|refs|)))) else ""
  }

  function PlannedTranscript(refs: seq<AudioFile>, mode: Mode, script: nat -> Reply): string {
    Trim(ResponseOf(script(TranscriptIndex(refs, mode))).text)
  }

  /** The audio data of the synthesis reply. */
  function PlannedAudio(refs: seq<AudioFile>, mode: Mode, script: nat -> Reply): string {
    ResponseOf(script(PlanLength(refs, mode) - 1)).inlineAudio
  }

  /** Request number k of a run in which no step fails. */
  function Planned(refs: seq<AudioFile>, mode: Mode, src: AudioFile, script: nat -> Reply, k: nat): Request
    requires k < PlanLength(refs, mode)
  {
    if k < |refs| then AnalyzeVoice(refs[k], MimeOf(refs[k]))
    else if k < TranscriptIndex(refs, mode) then DescribeProsody(src, MimeOf(src))
    else if k == TranscriptIndex(refs, mode) then Transcribe(src, MimeOf(src), |refs|)
    else Synthesize(mode, PlannedInstruction(refs, mode, script), PlannedTranscript(refs, mode, script),
                    VoiceConfigs(PlannedProfiles(refs, script)))
  }

  /** `sent` is a prefix of the plan. */
  predicate FollowsPlan(sent: seq<Request>, refs: seq<AudioFile>, mode: Mode, src: AudioFile, script: nat -> Reply) {
    |sent| <= PlanLength(refs, mode) && forall k :: 0 <= k < |sent| ==> sent[k] == Planned(refs, mode, src, script, k)
  }

  /**
   * Where a run stops: a run that threw nothing sent the whole plan and got the
   * synthesis reply; a run that threw stopped at a thrown call, or at an empty
   * transcript.
   */
  predicate Stopped(q: Progress, refs: seq<AudioFile>, mode: Mode, script: nat -> Reply) {
    && (q.thrown.None? ==> |q.sent| == PlanLength(refs, mode) && script(PlanLength(refs, mode) - 1).Returned?)
    && (q.thrown.Some? ==>
          || (1 <= |q.sent| && script(|q.sent| - 1) == Threw(q.thrown.value))
          || (|q.sent| == TranscriptIndex(refs, mode) + 1 && script(TranscriptIndex(refs, mode)).Returned?
              && PlannedTranscript(refs, mode, script) == "" && q.thrown.value == TranscriptionFailedMessage))
  }

  /** The requests of a block: a non-empty prefix of the plan, every one answered but the last, stopped as above. */
  predicate RequestsOk(q: Progress, refs: seq<AudioFile>, mode: Mode, src: AudioFile, script: nat -> Reply) {
    && 1 <= |q.sent| && FollowsPlan(q.sent, refs, mode, src, script)
    && RepliedBefore(script, |q.sent| - 1) && Stopped(q, refs, mode, script)
  }

  /**
   * The state a block leaves, from the state `s0` it started in: each cell
   * holds the value its step set if the run got past that step, else its old value.
   */
  predicate StateOk(t: Session, q: Progress, s0: Session, script: nat -> Reply, decode: string -> Wav.AudioBuffer) {
    var refs := s0.refFiles;
    var mode := s0.mode;
    var audio := PlannedAudio(refs, mode, script);
    && t.sourceFile == s0.sourceFile && t.refFiles == refs && t.mode == mode
    && t.isProcessing == s0.isProcessing && t.logs == s0.logs
    && t.speakerProfiles == (if |q.sent| > |refs| then PlannedProfiles(refs, script) else s0.speakerProfiles)
    && t.prosodyNote == (if mode == Mimic && |q.sent| > |refs| + 1 then ProsodyText(ResponseOf(script(|refs|)))
                         else s0.prosodyNote)
    && t.transcription == (if |q.sent| == PlanLength(refs, mode) then PlannedTranscript(refs, mode, script) else s0.transcription)
    && t.generatedAudio == (if q.thrown.None? && audio != "" then Some(Wav.WavFile(decode(audio))) else s0.generatedAudio)
    && t.errorMessage == (if q.thrown.None? && audio == "" then Some(NoAudioMessage) else s0.errorMessage)
    && s0.logs + [AnalysisStarted(|refs|)] <= q.logs
  }

  // ---------------------------------------------------------------------------
  // Step 1: the profile loop
  // ---------------------------------------------------------------------------

  /** The loop only extends the log. */
  lemma {:induction false} AnalyzeFromLog(p: Progress, refs: seq<AudioFile>, i: nat,
                                          profiles: seq<SpeakerProfile>, script: nat -> Reply)
    ensures p.logs <= AnalyzeFrom(p, refs, i, profiles, script).0.logs
    decreases |refs| - i
  {
    if i < |refs| {
      var id := i + 1;
      var asked := p.Log(SpeakerAnalysisStarted(id, refs[i].name)).Send(AnalyzeVoice(refs[i], MimeOf(refs[i])));
      match script(|p.sent|)
      case Threw(m) =>
      case Returned(resp) =>
        var profile := AnalysisProfile(id, resp);
        var checked := if ParseFails(resp) then asked.Log(ParseWarning(id)) else asked;
        AnalyzeFromLog(checked.Log(SpeakerMatched(id, profile.voiceName, profile.styleDescription)),
                       refs, i + 1, profiles + [profile], script);
    }
  }

  /**
   * From reference i on (request number i), the loop builds profile j from
   * reply j with id j+1 and stops at the first thrown call; it has then sent one
   * request more than it has built profiles.
   */
  lemma {:induction false} AnalyzeFromCounts(p: Progress, refs: seq<AudioFile>, i: nat,
                                             profiles: seq<SpeakerProfile>, script: nat -> Reply)
    requires i <= |refs| && |p.sent| == i && |profiles| == i && p.thrown.None?
    ensures var r := AnalyzeFrom(p, refs, i, profiles, script);
      && i <= |r.1| <= |refs|
      && (r.0.thrown.None? ==> |r.1| == |r.0.sent| == |refs|)
      && (r.0.thrown.Some? ==> |r.0.sent| == |r.1| + 1 && script(|r.1|) == Threw(r.0.thrown.value))
    decreases |refs| - i
  {
    if i < |refs| {
      var id := i + 1;
      var asked := p.Log(SpeakerAnalysisStarted(id, refs[i].name)).Send(AnalyzeVoice(refs[i], MimeOf(refs[i])));
      match script(i)
      case Threw(m) =>
      case Returned(resp) =>
        var profile := AnalysisProfile(id, resp);
        var checked := if ParseFails(resp) then asked.Log(ParseWarning(id)) else asked;
        var next := checked.Log(SpeakerMatched(id, profile.voiceName, profile.styleDescription));
        AnalyzeFromCounts(next, refs, i + 1, profiles + [profile], script);
    }
  }

  lemma {:induction false} AnalyzeFromProfiles(p: Progress, refs: seq<AudioFile>, i: nat,
                                               profiles: seq<SpeakerProfile>, script: nat -> Reply)
    requires i <= |refs| && |p.sent| == i && |profiles| == i
    ensures var r := AnalyzeFrom(p, refs, i, profiles, script);
      && i <= |r.1| && r.1[..i] == profiles
      && (forall j :: i <= j < |r.1| ==> script(j).Returned? && r.1[j] == AnalysisProfile(j + 1, script(j).response))
    decreases |refs| - i
  {
    if i < |refs| {
      var id := i + 1;
      var asked := p.Log(SpeakerAnalysisStarted(id, refs[i].name)).Send(AnalyzeVoice(refs[i], MimeOf(refs[i])));
      match script(i)
      case Threw(m) =>
      case Returned(resp) =>
        var profile := AnalysisProfile(id, resp);
        var checked := if ParseFails(resp) then asked.Log(ParseWarning(id)) else asked;
        var next := checked.Log(SpeakerMatched(id, profile.voiceName, profile.styleDescription));
        AnalyzeFromProfiles(next, refs, i + 1, profiles + [profile], script);
        var ps := AnalyzeFrom(next, refs, i + 1, profiles + [profile], script).1;
        assert ps[..i] == ps[..i + 1][..i];
    }
  }

  /** From request number i on, request j is the analysis of reference j. */
  lemma {:induction false} AnalyzeFromRequests(p: Progress, refs: seq<AudioFile>, i: nat,
                                               profiles: seq<SpeakerProfile>, script: nat -> Reply)
    requires i <= |refs| && |p.sent| == i
    ensures var q := AnalyzeFrom(p, refs, i, profiles, script).0;
      && i <= |q.sent| <= |refs| && q.sent[..i] == p.sent
      && (forall j :: i <= j < |q.sent| ==> q.sent[j] == AnalyzeVoice(refs[j], MimeOf(refs[j])))
    decreases |refs| - i
  {
    if i < |refs| {
      var id := i + 1;
      var asked := p.Log(SpeakerAnalysisStarted(id, refs[i].name)).Send(AnalyzeVoice(refs[i], MimeOf(refs[i])));
      match script(i)
      case Threw(m) =>
      case Returned(resp) =>
        var profile := AnalysisProfile(id, resp);
        var checked := if ParseFails(resp) then asked.Log(ParseWarning(id)) else asked;
        var next := checked.Log(SpeakerMatched(id, profile.voiceName, profile.styleDescription));
        AnalyzeFromRequests(next, refs, i + 1, profiles + [profile], script);
        var q := AnalyzeFrom(next, refs, i + 1, profiles + [profile], script).0;
        assert q.sent[..i] == q.sent[..i + 1][..i];
    }
  }

  /** The analysis phase: on the plan, stopped by the first thrown call or complete. */
  lemma AnalysisPhase(s: Session, src: AudioFile, script: nat -> Reply)
    requires |s.refFiles| > 0
    ensures var r := AnalyzeFrom(Progress(s.logs + [AnalysisStarted(|s.refFiles|)], [], None),
                                 s.refFiles, 0, [], script);
      && s.logs + [AnalysisStarted(|s.refFiles|)] <= r.0.logs
      && 1 <= |r.0.sent| <= |s.refFiles|
      && FollowsPlan(r.0.sent, s.refFiles, s.mode, src, script)
      && RepliedBefore(script, |r.0.sent| - 1)
      && (r.0.thrown.Some? ==> script(|r.0.sent| - 1) == Threw(r.0.thrown.value))
      && (r.0.thrown.None? ==> |r.0.sent| == |s.refFiles| && RepliedBefore(script, |s.refFiles|)
                               && r.1 == PlannedProfiles(s.refFiles, script))
  {
    var refs := s.refFiles;
    var p := Progress(s.logs + [AnalysisStarted(|refs|)], [], None);
    AnalyzeFromLog(p, refs, 0, [], script);
    AnalyzeFromCounts(p, refs, 0, [], script);
    AnalyzeFromProfiles(p, refs, 0, [], script);
    AnalyzeFromRequests(p, refs, 0, [], script);
    var r := AnalyzeFrom(p, refs, 0, [], script);
    if r.0.thrown.None? {
      assert r.1 == PlannedProfiles(refs, script);
    }
  }

  // ---------------------------------------------------------------------------
  // Steps 2 to 4
  // ---------------------------------------------------------------------------

  /** Appending the next planned request keeps a run on the plan. */
  lemma SendFollows(sent: seq<Request>, refs: seq<AudioFile>, mode: Mode, src: AudioFile, script: nat -> Reply, req: Request)
    requires FollowsPlan(sent, refs, mode, src, script) && |sent| < PlanLength(refs, mode)
    requires req == Planned(refs, mode, src, script, |sent|)
    ensures FollowsPlan(sent + [req], refs, mode, src, script)
  {
    forall k | 0 <= k < |sent| + 1 ensures (sent + [req])[k] == Planned(refs, mode, src, script, k) {
      if k < |sent| {
        assert (sent + [req])[k] == sent[k];
      }
    }
  }

  lemma PrefixGrows<T>(a: seq<T>, b: seq<T>, c: seq<T>)
    requires a <= b
    ensures a <= b + c
  {
    assert (b + c)[..|a|] == b[..|a|];
  }

  /** Each of steps 2 to 4 only appends to the log. */
  lemma StepsExtendLog(p: Progress, mode: Mode, profiles: seq<SpeakerProfile>, instruction: string, text: string,
                       speakerCount: nat, src: AudioFile, script: nat -> Reply, decode: string -> Wav.AudioBuffer)
    ensures p.logs <= AnalyzeProsody(p, mode, src, script).0.logs
    ensures p.logs <= TranscribeSource(p, speakerCount, src, script).0.logs
    ensures p.logs <= SynthesizeSpeech(p, mode, profiles, instruction, text, script, decode).0.logs
  {
    PrefixGrows(p.logs, p.logs, [ProsodyStarted]);
    PrefixGrows(p.logs, p.logs, [TranscriptionStarted]);
    PrefixGrows(p.logs, p.logs, [SynthesisStarted(mode)]);
    var pText := ProsodyText(ResponseOf(script(|p.sent|)));
    PrefixGrows(p.logs, p.logs + [ProsodyStarted], [ProsodyExtracted(pText)]);
    var text := Trim(ResponseOf(script(|p.sent|)).text);
    PrefixGrows(p.logs, p.logs + [TranscriptionStarted], [Transcribed(|text|)]);
    PrefixGrows(p.logs, p.logs + [SynthesisStarted(mode)], [Error(NoAudioMessage)]);
    PrefixGrows(p.logs, p.logs + [SynthesisStarted(mode)], [Decoding]);
    PrefixGrows(p.logs, p.logs + [SynthesisStarted(mode)] + [Decoding], [Succeeded]);
  }

  lemma PrefixTransitive<T>(a: seq<T>, b: seq<T>, c: seq<T>)
    requires a <= b && b <= c
    ensures a <= c
  {
    assert c[..|a|] == c[..|b|][..|a|];
  }

  /** Step 4 on: from a run that has sent and had answered everything up to the synthesis request. */
  lemma AfterTranscriptionSpec(t: Session, p: Progress, profiles: seq<SpeakerProfile>, instruction: string, text: string,
                               s0: Session, src: AudioFile, script: nat -> Reply, decode: string -> Wav.AudioBuffer)
    requires var refs := s0.refFiles; var mode := s0.mode;
      && p.thrown.None? && |p.sent| == TranscriptIndex(refs, mode) + 1
      && FollowsPlan(p.sent, refs, mode, src, script) && RepliedBefore(script, |p.sent|)
      && profiles == PlannedProfiles(refs, script) && instruction == PlannedInstruction(refs, mode, script)
      && text == PlannedTranscript(refs, mode, script) && text != ""
      && t == s0.(speakerProfiles := profiles, prosodyNote := PlannedNote(refs, mode, script, s0.prosodyNote),
                  transcription := text)
      && s0.logs + [AnalysisStarted(|refs|)] <= p.logs
    ensures var r := AfterTranscription(t, p, profiles, instruction, text, script, decode);
      RequestsOk(r.1, s0.refFiles, s0.mode, src, script) && StateOk(r.0, r.1, s0, script, decode)
  {
    var refs := s0.refFiles;
    var mode := s0.mode;
    SendFollows(p.sent, refs, mode, src, script, Synthesize(mode, instruction, text, VoiceConfigs(profiles)));
    var asked := p.Log(SynthesisStarted(mode)).Send(Synthesize(mode, instruction, text, VoiceConfigs(profiles)));
    PrefixGrows(s0.logs + [AnalysisStarted(|refs|)], p.logs, [SynthesisStarted(mode)]);
    var r := AfterTranscription(t, p, profiles, instruction, text, script, decode);
    assert |asked.sent| == PlanLength(refs, mode) == |p.sent| + 1;
    match script(|p.sent|)
    case Threw(m) =>
      assert r == (t, asked.Throw(m));
    case Returned(resp) =>
      assert PlannedAudio(refs, mode, script) == resp.inlineAudio;
      if resp.inlineAudio != "" {
        PrefixGrows(s0.logs + [AnalysisStarted(|refs|)], asked.logs, [Decoding]);
        PrefixGrows(s0.logs + [AnalysisStarted(|refs|)], asked.logs + [Decoding], [Succeeded]);
        assert r == (t.(generatedAudio := Some(Wav.WavFile(decode(resp.inlineAudio)))), asked.Log(Decoding).Log(Succeeded));
      } else {
        PrefixGrows(s0.logs + [AnalysisStarted(|refs|)], asked.logs, [Error(NoAudioMessage)]);
        assert r == (t.(errorMessage := Some(NoAudioMessage)), asked.Log(Error(NoAudioMessage)));
      }
  }

  /** One more answered request. */
  lemma RepliedThrough(script: nat -> Reply, n: nat)
    requires RepliedBefore(script, n) && script(n).Returned?
    ensures RepliedBefore(script, n + 1)
  {
  }

  /** Step 3 on: from a run that has sent and had answered everything before the transcription request. */
  lemma AfterProsodySpec(t: Session, p: Progress, profiles: seq<SpeakerProfile>, instruction: string,
                         s0: Session, src: AudioFile, script: nat -> Reply, decode: string -> Wav.AudioBuffer)
    requires var refs := s0.refFiles; var mode := s0.mode;
      && p.thrown.None? && |p.sent| == TranscriptIndex(refs, mode)
      && FollowsPlan(p.sent, refs, mode, src, script) && RepliedBefore(script, |p.sent|)
      && profiles == PlannedProfiles(refs, script) && instruction == PlannedInstruction(refs, mode, script)
      && t == s0.(speakerProfiles := profiles, prosodyNote := PlannedNote(refs, mode, script, s0.prosodyNote))
      && s0.logs + [AnalysisStarted(|refs|)] <= p.logs
    ensures var r := AfterProsody(t, p, profiles, instruction, src, script, decode);
      RequestsOk(r.1, s0.refFiles, s0.mode, src, script) && StateOk(r.0, r.1, s0, script, decode)
  {
    var refs := s0.refFiles;
    var mode := s0.mode;
    var asked := p.Log(TranscriptionStarted).Send(Transcribe(src, MimeOf(src), |refs|));
    SendFollows(p.sent, refs, mode, src, script, Transcribe(src, MimeOf(src), |refs|));
    PrefixGrows(s0.logs + [AnalysisStarted(|refs|)], p.logs, [TranscriptionStarted]);
    var r := AfterProsody(t, p, profiles, instruction, src, script, decode);
    match script(|p.sent|)
    case Threw(m) =>
      assert r == (t, asked.Throw(m));
    case Returned(resp) =>
      var text := Trim(resp.text);
      if text == "" {
        assert r == (t, asked.Throw(TranscriptionFailedMessage));
      } else {
        var next := asked.Log(Transcribed(|text|));
        PrefixGrows(s0.logs + [AnalysisStarted(|refs|)], asked.logs, [Transcribed(|text|)]);
        RepliedThrough(script, |p.sent|);
        assert r == AfterTranscription(t.(transcription := text), next, profiles, instruction, text, script, decode);
        AfterTranscriptionSpec(t.(transcription := text), next, profiles, instruction, text, s0, src, script, decode);
      }
  }

  /** Step 2 on: from a run whose analysis loop went through every reference. */
  lemma AfterAnalysisSpec(t: Session, p: Progress, profiles: seq<SpeakerProfile>,
                          s0: Session, src: AudioFile, script: nat -> Reply, decode: string -> Wav.AudioBuffer)
    requires var refs := s0.refFiles; var mode := s0.mode;
      && p.thrown.None? && |p.sent| == |refs|
      && FollowsPlan(p.sent, refs, mode, src, script) && RepliedBefore(script, |p.sent|)
      && profiles == PlannedProfiles(refs, script) && t == s0.(speakerProfiles := profiles)
      && s0.logs + [AnalysisStarted(|refs|)] <= p.logs
    ensures var r := AfterAnalysis(t, p, profiles, src, script, decode);
      RequestsOk(r.1, s0.refFiles, s0.mode, src, script) && StateOk(r.0, r.1, s0, script, decode)
  {
    var refs := s0.refFiles;
    var mode := s0.mode;
    var r := AfterAnalysis(t, p, profiles, src, script, decode);
    if mode == Clean {
      assert r == AfterProsody(t, p, profiles, "", src, script, decode);
      AfterProsodySpec(t, p, profiles, "", s0, src, script, decode);
    } else {
      var asked := p.Log(ProsodyStarted).Send(DescribeProsody(src, MimeOf(src)));
      SendFollows(p.sent, refs, mode, src, script, DescribeProsody(src, MimeOf(src)));
      PrefixGrows(s0.logs + [AnalysisStarted(|refs|)], p.logs, [ProsodyStarted]);
      match script(|p.sent|)
      case Threw(m) =>
        assert r == (t, asked.Throw(m));
      case Returned(resp) =>
        var note := ProsodyText(resp);
        var next := asked.Log(ProsodyExtracted(note));
        PrefixGrows(s0.logs + [AnalysisStarted(|refs|)], asked.logs, [ProsodyExtracted(note)]);
        RepliedThrough(script, |p.sent|);
        assert r == AfterProsody(t.(prosodyNote := note), next, profiles, ProsodyInstruction(note), src, script, decode);
        AfterProsodySpec(t.(prosodyNote := note), next, profiles, ProsodyInstruction(note), s0, src, script, decode);
    }
  }

  /** The whole `try` block from state `s`. */
  lemma AttemptSpec(s: Session, src: AudioFile, script: nat -> Reply, decode: string -> Wav.AudioBuffer)
    requires |s.refFiles| > 0
    ensures var r := Attempt(s, src, script, decode);
      RequestsOk(r.1, s.refFiles, s.mode, src, script) && StateOk(r.0, r.1, s, script, decode)
  {
    var refs := s.refFiles;
    AnalysisPhase(s, src, script);
    var a := AnalyzeFrom(Progress(s.logs + [AnalysisStarted(|refs|)], [], None), refs, 0, [], script);
    var r := Attempt(s, src, script, decode);
    if a.0.thrown.Some? {
      assert r == (s, a.0);
    } else {
      assert r == AfterAnalysis(s.(speakerProfiles := a.1), a.0, a.1, src, script, decode);
      AfterAnalysisSpec(s.(speakerProfiles := a.1), a.0, a.1, s, src, script, decode);
    }
  }

  /** Why a block stopped, read off its requests: it threw nothing exactly when the whole plan was answered. */
  lemma StopReason(q: Progress, refs: seq<AudioFile>, mode: Mode, src: AudioFile, script: nat -> Reply)
    requires RequestsOk(q, refs, mode, src, script)
    ensures var n := |q.sent|;
      && (q.thrown.None? <==> n == PlanLength(refs, mode) && script(n - 1).Returned?)
      && (script(n - 1).Threw? ==> q.thrown == Some(script(n - 1).message))
      && (q.thrown.Some? && script(n - 1).Returned? ==>
            n == TranscriptIndex(refs, mode) + 1 && PlannedTranscript(refs, mode, script) == ""
            && q.thrown.value == TranscriptionFailedMessage)
  {
  }

  /** The step a request belongs to. */
  function StepOf(req: Request): nat {
    match req
    case AnalyzeVoice(_, _) => 1
    case DescribeProsody(_, _) => 2
    case Transcribe(_, _, _) => 3
    case Synthesize(_, _, _, _) => 4
  }

  /**
   * The plan takes the steps in order: analyses first, one per reference,
   * then at most one request of each later step, the prosody request only in
   * mimic mode.
   */
  lemma PlanOrder(refs: seq<AudioFile>, mode: Mode, src: AudioFile, script: nat -> Reply, i: nat, j: nat)
    requires i < j < PlanLength(refs, mode)
    ensures var a := Planned(refs, mode, src, script, i);
      var b := Planned(refs, mode, src, script, j);
      StepOf(a) < StepOf(b) || StepOf(a) == StepOf(b) == 1
    ensures Planned(refs, mode, src, script, i).DescribeProsody? ==> mode == Mimic
    ensures Planned(refs, mode, src, script, j).DescribeProsody? ==> mode == Mimic
  {
  }

  /** Requests in step order, analyses first, at most one of each later step, and no prosody request in clean mode. */
  predicate InStepOrder(sent: seq<Request>, mode: Mode) {
    && (forall i, j | 0 <= i < j < |sent| :: StepOf(sent[i]) < StepOf(sent[j]) || StepOf(sent[i]) == StepOf(sent[j]) == 1)
    && (mode == Clean ==> forall k | 0 <= k < |sent| :: !sent[k].DescribeProsody?)
  }

  lemma FollowsPlanInStepOrder(sent: seq<Request>, refs: seq<AudioFile>, mode: Mode, src: AudioFile, script: nat -> Reply)
    requires FollowsPlan(sent, refs, mode, src, script)
    ensures InStepOrder(sent, mode)
  {
    forall i, j | 0 <= i < j < |sent|
      ensures StepOf(sent[i]) < StepOf(sent[j]) || StepOf(sent[i]) == StepOf(sent[j]) == 1
    {
      PlanOrder(refs, mode, src, script, i, j);
    }
  }
}

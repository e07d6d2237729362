/**
 * What the request parts promise: the speaker labels the transcript and the
 * voice configuration share, the transcription prompt for each reference
 * count, the synthesis prompt, and the delivery note.
 */
module PromptProperties {
  import opened Text
  import opened Pipeline
  import opened PipelineProperties

  /** `Speaker ${id}` names one speaker: distinct ids give distinct labels. */
  lemma SpeakerLabelInjective(a: nat, b: nat)
    requires SpeakerLabel(a) == SpeakerLabel(b)
    ensures a == b
  {
    assert NatToString(a) == SpeakerLabel(a)[8..];
    assert NatToString(b) == SpeakerLabel(b)[8..];
    NatToStringInjective(a, b);
  }

  /**
   * The voice configuration has one entry per profile, labelled by the
   * profile's id, with the profile's voice or, for an empty one, the default.
   */
  lemma VoiceConfigsSpec(profiles: seq<SpeakerProfile>)
    ensures var v := VoiceConfigs(profiles);
      && |v| == |profiles|
      && forall i | 0 <= i < |v| ::
           && v[i].speaker == SpeakerLabel(profiles[i].id)
           && v[i].voiceName != ""
           && (profiles[i].voiceName != "" ==> v[i].voiceName == profiles[i].voiceName)
           && (profiles[i].voiceName == "" ==> v[i].voiceName == DefaultVoice)
  {
  }

  /** Profiles with distinct ids get distinct speaker labels. */
  lemma VoiceLabelsDistinct(profiles: seq<SpeakerProfile>)
    requires forall i, j | 0 <= i < j < |profiles| :: profiles[i].id != profiles[j].id
    ensures var v := VoiceConfigs(profiles);
      forall i, j | 0 <= i < j < |v| :: v[i].speaker != v[j].speaker
  {
    var v := VoiceConfigs(profiles);
    forall i, j | 0 <= i < j < |v| ensures v[i].speaker != v[j].speaker {
      if v[i].speaker == v[j].speaker {
        SpeakerLabelInjective(profiles[i].id, profiles[j].id);
      }
    }
  }

  /** The voice reply `resp` selects: its parsed closest voice, or the default when it has none. */
  function RepliedVoice(resp: Response): string {
    if resp.text != "" && resp.json.Parsed? && resp.json.closestVoice != "" then resp.json.closestVoice
    else DefaultVoice
  }

  /**
   * The synthesis request of a complete run names "Speaker 1" .. "Speaker N",
   * one distinct label per reference, in reference order, each with the voice
   * its analysis reply selected.
   */
  lemma PlannedVoices(refs: seq<AudioFile>, script: nat -> Reply)
    ensures var v := VoiceConfigs(PlannedProfiles(refs, script));
      && |v| == |refs|
      && (forall i | 0 <= i < |v| ::
            v[i].speaker == SpeakerLabel(i + 1) && v[i].voiceName == RepliedVoice(ResponseOf(script(i))))
      && (forall i, j | 0 <= i < j < |v| :: v[i].speaker != v[j].speaker)
  {
    var profiles := PlannedProfiles(refs, script);
    forall i | 0 <= i < |profiles|
      ensures profiles[i].id == i + 1
      ensures (if profiles[i].voiceName == "" then DefaultVoice else profiles[i].voiceName) == RepliedVoice(ResponseOf(script(i)))
    {
      AnalysisProfileSpec(i + 1, ResponseOf(script(i)));
    }
    VoiceConfigsSpec(profiles);
    VoiceLabelsDistinct(profiles);
  }

  lemma MiddleOfConcat<T>(p: seq<T>, x: seq<T>, q: seq<T>)
    ensures (p + x + q)[|p|..|p| + |x|] == x
  {
  }

  lemma MiddleInjective<T>(p: seq<T>, x: seq<T>, y: seq<T>, q: seq<T>)
    requires p + x + q == p + y + q
    ensures x == y
  {
    MiddleOfConcat(p, x, q);
    MiddleOfConcat(p, y, q);
  }

  /**
   * Every transcription prompt opens with the same instruction. For one
   * reference it then asks for the single-speaker format "Speaker 1: [text]";
   * for more, it names the last speaker, in quotes, and so differs from the
   * one-reference prompt.
   */
  lemma TranscriptPromptCases(count: nat)
    ensures |TranscriptPrompt(count)| >= |TranscriptPromptBase|
    ensures TranscriptPrompt(count)[..|TranscriptPromptBase|] == TranscriptPromptBase
    ensures count <= 1 ==> TranscriptPrompt(count) == TranscriptPrompt(1)
    ensures count <= 1 ==>
      var p := TranscriptPrompt(count);
      |p| >= |SingleSpeakerFormat| && p[|p| - |SingleSpeakerFormat|..] == SingleSpeakerFormat
    ensures count > 1 ==>
      var start := |TranscriptPromptBase + DiariseRequest|;
      TranscriptPrompt(count)[start..start + |SpeakerLabel(count)|] == SpeakerLabel(count)
    ensures count > 1 ==> TranscriptPrompt(count) != TranscriptPrompt(1)
  {
    var base := |TranscriptPromptBase|;
    if count > 1 {
      var p := TranscriptPrompt(count);
      MiddleOfConcat(TranscriptPromptBase + DiariseRequest, SpeakerLabel(count), DiariseFormat);
      assert p[..base] == TranscriptPromptBase;
      assert |DiariseRequest| > |SingleSpeakerFormat|;
    } else {
      SuffixOfConcat(TranscriptPromptBase, SingleSpeakerFormat);
      assert TranscriptPrompt(count)[..base] == TranscriptPromptBase;
    }
  }

  /** Different reference counts above one give different transcription prompts. */
  lemma TranscriptPromptInjective(a: nat, b: nat)
    requires a > 1 && b > 1 && TranscriptPrompt(a) == TranscriptPrompt(b)
    ensures a == b
  {
    MiddleInjective(TranscriptPromptBase + DiariseRequest, SpeakerLabel(a), SpeakerLabel(b), DiariseFormat);
    SpeakerLabelInjective(a, b);
  }

  lemma SuffixOfConcat<T>(p: seq<T>, x: seq<T>)
    ensures |p + x| >= |x| && (p + x)[|p + x| - |x|..] == x
  {
  }

  /**
   * The synthesis prompt ends with the transcript. In mimic mode it opens
   * with the re-enactment preamble and carries the delivery instruction
   * verbatim right after it; in clean mode it opens with its own preamble and
   * is the same whatever instruction is passed.
   */
  lemma TtsPromptParts(mode: Mode, instruction: string, transcript: string, other: string)
    ensures var p := TtsPrompt(mode, instruction, transcript);
      |p| >= |transcript| && p[|p| - |transcript|..] == transcript
    ensures mode == Mimic ==> var p := TtsPrompt(mode, instruction, transcript);
      && |p| >= |MimicPreamble| + |instruction|
      && p[..|MimicPreamble|] == MimicPreamble
      && p[|MimicPreamble|..|MimicPreamble| + |instruction|] == instruction
    ensures mode == Clean ==> var p := TtsPrompt(mode, instruction, transcript);
      && |p| == |CleanPreamble| + |transcript|
      && p[..|CleanPreamble|] == CleanPreamble
      && TtsPrompt(mode, other, transcript) == p
  {
  }

  /**
   * Within one mode the transcript can be read back from the synthesis
   * prompt, and in mimic mode so can a delivery instruction of known length.
   */
  lemma {:induction false} TtsPromptInjective(mode: Mode, instruction1: string, transcript1: string,
                                              instruction2: string, transcript2: string)
    requires TtsPrompt(mode, instruction1, transcript1) == TtsPrompt(mode, instruction2, transcript2)
    ensures mode == Clean ==> transcript1 == transcript2
    ensures mode == Mimic && |instruction1| == |instruction2| ==>
      instruction1 == instruction2 && transcript1 == transcript2
  {
    TtsPromptParts(mode, instruction1, transcript1, instruction2);
    TtsPromptParts(mode, instruction2, transcript2, instruction1);
  }

  /**
   * The delivery note is never empty and has no surrounding whitespace: it is
   * the trimmed reply text, or "Normal pacing." for a missing or blank reply.
   */
  lemma ProsodyTextTrimmed(resp: Response)
    ensures ProsodyText(resp) != "" && Trim(ProsodyText(resp)) == ProsodyText(resp)
    ensures Trim(resp.text) == "" ==> ProsodyText(resp) == DefaultProsody
    ensures Trim(resp.text) != "" ==> ProsodyText(resp) == Trim(resp.text)
  {
    if Trim(resp.text) == "" {
      assert TrimStart(DefaultProsody) == DefaultProsody;
      assert TrimEnd(DefaultProsody) == DefaultProsody;
    } else {
      TrimIdempotent(resp.text);
    }
  }

  /** The reported error message is never empty, and is the exception's own message when it has one. */
  lemma ErrorTextSpec(message: string)
    ensures ErrorText(message) != ""
    ensures message != "" ==> ErrorText(message) == message
  {
  }

  /**
   * A profile carries its reference's id. The default voice and style are
   * used exactly when the reply text is missing or does not parse, and the
   * parse warning is logged only in the second case; an empty voice name can
   * only come from a reply that parsed without one.
   */
  lemma AnalysisProfileSpec(id: nat, resp: Response)
    ensures var p := AnalysisProfile(id, resp);
      && p.id == id
      && (resp.text == "" || ParseFails(resp) ==> p.voiceName == DefaultVoice && p.styleDescription == DefaultStyle)
      && (ParseFails(resp) ==> resp.text != "")
      && (resp.text != "" && !ParseFails(resp) ==>
            p.voiceName == resp.json.closestVoice && p.styleDescription == resp.json.styleDescription)
      && (p.voiceName == "" <==> resp.text != "" && resp.json.Parsed? && resp.json.closestVoice == "")
  {
  }
}

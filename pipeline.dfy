/**
 * The multi-speaker conversion run (`processConversion`) as a function of the
 * component state before the run and of the replies of the hosted model.
 *
 * The hosted service is a script: the k-th request of a run (counting from 0)
 * receives `script(k)`, which either returns a response or throws. Every run
 * creates its own client, so the count restarts at 0.
 */
module Pipeline {
  import opened Wrappers
  import opened Text
  import Wav

  datatype Mode = Mimic | Clean

  /** A picked audio file: its name and its MIME type (`""` when the browser reports none). */
  datatype AudioFile = AudioFile(name: string, mimeType: string)

  datatype SpeakerProfile = SpeakerProfile(id: nat, voiceName: string, styleDescription: string)

  /** What `JSON.parse` makes of a profile-analysis reply; `""` stands for a missing field. */
  datatype Json = Parsed(styleDescription: string, closestVoice: string) | Unparsable

  /**
   * A `generateContent` response: its `text` (`""` when absent), what parsing that
   * text as JSON gives, and the base64 `inlineData.data` of the first part of the
   * first candidate (`""` when that part has none, even if a later part does).
   */
  datatype Response = Response(text: string, json: Json, inlineAudio: string)

  datatype Reply = Returned(response: Response) | Threw(message: string)

  datatype SpeakerVoiceConfig = SpeakerVoiceConfig(speaker: string, voiceName: string)

  /**
   * The requests a run sends, with the parts that vary between runs. A
   * transcription request records the reference count its prompt is built from,
   * a synthesis request the mode, delivery instruction and transcript of its
   * prompt; `PromptOf` gives the text sent.
   */
  datatype Request =
    | AnalyzeVoice(clip: AudioFile, mimeType: string)
    | DescribeProsody(clip: AudioFile, mimeType: string)
    | Transcribe(clip: AudioFile, mimeType: string, speakerCount: nat)
    | Synthesize(mode: Mode, instruction: string, transcript: string, voices: seq<SpeakerVoiceConfig>)

  /** The component state the run reads and writes; `generatedAudio` holds the bytes behind the audio URL. */
  datatype Session = Session(
    sourceFile: Option<AudioFile>,
    refFiles: seq<AudioFile>,
    mode: Mode,
    isProcessing: bool,
    logs: seq<LogEntry>,
    generatedAudio: Option<seq<Wav.uint8>>,
    errorMessage: Option<string>,
    speakerProfiles: seq<SpeakerProfile>,
    transcription: string,
    prosodyNote: string)

  // ---------------------------------------------------------------------------
  // Constants and messages
  // ---------------------------------------------------------------------------

  const MaxReferences: nat := 3
  const DefaultVoice: string := "Fenrir"
  const DefaultStyle: string := "通用样式"
  const DefaultMimeType: string := "audio/wav"
  const DefaultProsody: string := "Normal pacing."

  const MissingKeyMessage: string := "缺少 VITE_GEMINI_API_KEY，请在 .env.local 中配置。"
  const MissingInputMessage: string := "请上传源文件和至少一个目标参考音频。"
  const TranscriptionFailedMessage: string := "无法转录源音频。"
  const NoAudioMessage: string := "未收到TTS模型生成的音频数据。"
  const UnknownErrorMessage: string := "发生未知错误"

  /** The entries `addLog` appends; `LogText` gives the line shown (without its timestamp). */
  datatype LogEntry =
    | Error(message: string)
    | Initializing
    | AnalysisStarted(count: nat)
    | SpeakerAnalysisStarted(id: nat, fileName: string)
    | ParseWarning(id: nat)
    | SpeakerMatched(id: nat, voiceName: string, styleDescription: string)
    | ProsodyStarted
    | ProsodyExtracted(description: string)
    | TranscriptionStarted
    | Transcribed(length: nat)
    | SynthesisStarted(mode: Mode)
    | Decoding
    | Succeeded
    | ReferenceLimit

  function LogText(e: LogEntry): string {
    match e
    case Error(message) => "错误: " + message
    case Initializing => "正在初始化转换流程..."
    case AnalysisStarted(count) => "步骤 1: 正在分析 " + NatToString(count) + " 个目标声音特征..."
    case SpeakerAnalysisStarted(id, fileName) => "正在分析说话人 " + NatToString(id) + " (参考文件: " + fileName + ")..."
    case ParseWarning(id) => "警告: 无法解析说话人 " + NatToString(id) + " 的分析结果，使用默认值。"
    case SpeakerMatched(id, voiceName, style) =>
      "说话人 " + NatToString(id) + " -> 匹配音色: " + voiceName + " | 风格: \"" + style + "\""
    case ProsodyStarted => "步骤 2 (Mimic模式): 正在分析源音频的韵律和节奏..."
    case ProsodyExtracted(description) => "韵律特征提取完毕: \"" + description + "\""
    case TranscriptionStarted => "步骤 3: 正在转录源音频内容并识别说话人..."
    case Transcribed(length) => "转录完成 (" + NatToString(length) + " 字符)."
    case SynthesisStarted(mode) => "步骤 4: 正在合成语音 (" + (if mode == Mimic then "保持语气" else "自动生成") + ")..."
    case Decoding => "正在解码音频流..."
    case Succeeded => "成功! 转换已完成。"
    case ReferenceLimit => "警告: 最多只允许3个参考文件。"
  }

  /** The text the catch block reports for an exception message (`e.message || "发生未知错误"`). */
  function ErrorText(message: string): string {
    if message == "" then UnknownErrorMessage else message
  }

  // ---------------------------------------------------------------------------
  // Request parts
  // ---------------------------------------------------------------------------

  /** `file.type || 'audio/wav'`. */
  function MimeOf(f: AudioFile): string {
    if f.mimeType == "" then DefaultMimeType else f.mimeType
  }

  /** The label the transcript and the voice configuration use for speaker `id`. */
  function SpeakerLabel(id: nat): string {
    "Speaker " + NatToString(id)
  }

  /** The profile built from reference `id`'s analysis reply: the parsed fields, or the default profile. */
  function AnalysisProfile(id: nat, resp: Response): SpeakerProfile {
    if resp.text != "" && resp.json.Parsed? then
      SpeakerProfile(id, resp.json.closestVoice, resp.json.styleDescription)
    else
      SpeakerProfile(id, DefaultVoice, DefaultStyle)
  }

  /** The reply text was present but did not parse: the run logs a warning. */
  predicate ParseFails(resp: Response) {
    resp.text != "" && resp.json.Unparsable?
  }

  /** `prosodyResponse.text?.trim() || "Normal pacing."`. */
  function ProsodyText(resp: Response): string {
    if Trim(resp.text) == "" then DefaultProsody else Trim(resp.text)
  }

  function ProsodyInstruction(pText: string): string {
    "Perform with this specific delivery style: " + pText + ". "
  }

  const TranscriptPromptBase: string := "Transcribe exactly what is spoken in this audio. "
  const SingleSpeakerFormat: string := "Format the output as: Speaker 1: [text]"
  /** The diarisation request, up to the opening quote of the last speaker's label. */
  const DiariseRequest: string :=
    "Identify distinct speakers. Label them strictly as \"Speaker 1\", \"Speaker 2\", etc., up to \""
  /** The rest of the diarisation request, from the closing quote of the last speaker's label. */
  const DiariseFormat: string :=
    "\". Format the output as a script, e.g., \nSpeaker 1: Hello there.\nSpeaker 2: Hi, how are you?"

  /** The transcription prompt for `count` references: diarised up to "Speaker count", or one speaker. */
  function TranscriptPrompt(count: nat): string {
    if count > 1 then TranscriptPromptBase + DiariseRequest + SpeakerLabel(count) + DiariseFormat
    else TranscriptPromptBase + SingleSpeakerFormat
  }

  /** `profiles.map(...)`: one voice entry per profile, labelled by its id, with the default voice for an empty name. */
  function VoiceConfigs(profiles: seq<SpeakerProfile>): seq<SpeakerVoiceConfig> {
    seq(|profiles|, i requires 0 <= i < |profiles| =>
      SpeakerVoiceConfig(SpeakerLabel(profiles[i].id),
                         if profiles[i].voiceName == "" then DefaultVoice else profiles[i].voiceName))
  }

  const MimicPreamble: string := "Re-enact the following conversation using the assigned voices. \n\nIMPORTANT INSTRUCTION: "
  const TranscriptHeading: string := "\n\nTranscript:\n"
  const CleanPreamble: string := "Synthesize the following conversation clearly and naturally.\n\nTranscript:\n"

  /** The synthesis prompt: a re-enactment with the delivery instruction, or a clean reading. */
  function TtsPrompt(mode: Mode, prosodyInstruction: string, transcript: string): string {
    if mode == Mimic then MimicPreamble + prosodyInstruction + TranscriptHeading + transcript
    else CleanPreamble + transcript
  }

  const AnalysisPrompt: string :=
    "Analyze this speaker's voice. \n"
    + "                       1. Provide a concise style description (gender, age, tone, speed, emotion). \n"
    + "                       2. Select the closest matching voice personality from this list: [Puck, Charon, Kore, Fenrir, Zephyr].\n"
    + "                       "
  const ProsodyPrompt: string :=
    "Describe the pacing, speed, pauses, and emotional intensity of this audio in one clear sentence. "
    + "Do not mention the content, only the delivery style."

  /** The text part of a request. */
  function PromptOf(req: Request): string {
    match req
    case AnalyzeVoice(_, _) => AnalysisPrompt
    case DescribeProsody(_, _) => ProsodyPrompt
    case Transcribe(_, _, count) => TranscriptPrompt(count)
    case Synthesize(mode, instruction, transcript, _) => TtsPrompt(mode, instruction, transcript)
  }

  // ---------------------------------------------------------------------------
  // The run, step by step
  // ---------------------------------------------------------------------------

  /**
   * A run inside its `try` block: the log so far, the requests so far, and the
   * exception that ended the block. The other state cells each get one value,
   * which the step that sets it returns.
   */
  datatype Progress = Progress(logs: seq<LogEntry>, sent: seq<Request>, thrown: Option<string>) {
    function Log(entry: LogEntry): Progress {
      this.(logs := logs + [entry])
    }

    function Send(req: Request): Progress {
      this.(sent := sent + [req])
    }

    function Throw(message: string): Progress {
      this.(thrown := Some(message))
    }
  }

  /** Step 1: the profile loop over references i.., one request each, with ids i+1.. . */
  function AnalyzeFrom(p: Progress, refs: seq<AudioFile>, i: nat, profiles: seq<SpeakerProfile>,
                       script: nat -> Reply): (Progress, seq<SpeakerProfile>)
    decreases |refs| - i
  {
    if i >= |refs| then (p, profiles)
    else
      var file := refs[i];
      var id := i + 1;
      var asked := p.Log(SpeakerAnalysisStarted(id, file.name)).Send(AnalyzeVoice(file, MimeOf(file)));
      match script(|p.sent|)
      case Threw(m) => (asked.Throw(m), profiles)
      case Returned(resp) =>
        var profile := AnalysisProfile(id, resp);
        var checked := if ParseFails(resp) then asked.Log(ParseWarning(id)) else asked;
        AnalyzeFrom(checked.Log(SpeakerMatched(id, profile.voiceName, profile.styleDescription)),
                    refs, i + 1, profiles + [profile], script)
  }

  /** Step 2: in mimic mode, one prosody request; its text is the new prosody note. */
  function AnalyzeProsody(p: Progress, mode: Mode, src: AudioFile, script: nat -> Reply): (Progress, Option<string>) {
    if mode != Mimic then (p, None)
    else
      var asked := p.Log(ProsodyStarted).Send(DescribeProsody(src, MimeOf(src)));
      match script(|p.sent|)
      case Threw(m) => (asked.Throw(m), None)
      case Returned(resp) => (asked.Log(ProsodyExtracted(ProsodyText(resp))), Some(ProsodyText(resp)))
  }

  /** Step 3: the transcription request; an empty trimmed transcript throws. */
  function TranscribeSource(p: Progress, speakerCount: nat, src: AudioFile, script: nat -> Reply): (Progress, string) {
    var asked := p.Log(TranscriptionStarted).Send(Transcribe(src, MimeOf(src), speakerCount));
    match script(|p.sent|)
    case Threw(m) => (asked.Throw(m), "")
    case Returned(resp) =>
      var text := Trim(resp.text);
      if text == "" then (asked.Throw(TranscriptionFailedMessage), "")
      else (asked.Log(Transcribed(|text|)), text)
  }

  /** Step 4: the synthesis request; its audio part, when there is one, becomes the WAVE file. */
  function SynthesizeSpeech(p: Progress, mode: Mode, profiles: seq<SpeakerProfile>, instruction: string,
                            text: string, script: nat -> Reply, decode: string -> Wav.AudioBuffer)
    : (Progress, Option<seq<Wav.uint8>>)
  {
    var asked := p.Log(SynthesisStarted(mode)).Send(Synthesize(mode, instruction, text, VoiceConfigs(profiles)));
    match script(|p.sent|)
    case Threw(m) => (asked.Throw(m), None)
    case Returned(resp) =>
      if resp.inlineAudio != "" then
        (asked.Log(Decoding).Log(Succeeded), Some(Wav.WavFile(decode(resp.inlineAudio))))
      else
        (asked.Log(Error(NoAudioMessage)), None)
  }

  /** The `try` block from the reset state `s`: the four steps, each skipped once an earlier one has thrown. */
  function Attempt(s: Session, src: AudioFile, script: nat -> Reply, decode: string -> Wav.AudioBuffer): (Session, Progress) {
    var refs := s.refFiles;
    var (analysed, profiles) := AnalyzeFrom(Progress(s.logs + [AnalysisStarted(|refs|)], [], None), refs, 0, [], script);
    if analysed.thrown.Some? then (s, analysed)
    else AfterAnalysis(s.(speakerProfiles := profiles), analysed, profiles, src, script, decode)
  }

  /** The rest of the block once the profiles are set: step 2, then the rest. */
  function AfterAnalysis(s: Session, p: Progress, profiles: seq<SpeakerProfile>, src: AudioFile,
                         script: nat -> Reply, decode: string -> Wav.AudioBuffer): (Session, Progress)
  {
    var (prosodic, note) := AnalyzeProsody(p, s.mode, src, script);
    var noted := if note.Some? then s.(prosodyNote := note.value) else s;
    if prosodic.thrown.Some? then (noted, prosodic)
    else
      var instruction := if note.Some? then ProsodyInstruction(note.value) else "";
      AfterProsody(noted, prosodic, profiles, instruction, src, script, decode)
  }

  /** Step 3, then the rest. */
  function AfterProsody(s: Session, p: Progress, profiles: seq<SpeakerProfile>, instruction: string, src: AudioFile,
                        script: nat -> Reply, decode: string -> Wav.AudioBuffer): (Session, Progress)
  {
    var (transcribed, text) := TranscribeSource(p, |s.refFiles|, src, script);
    if transcribed.thrown.Some? then (s, transcribed)
    else AfterTranscription(s.(transcription := text), transcribed, profiles, instruction, text, script, decode)
  }

  /** Step 4 and its outcome: the audio, or the missing-audio error. */
  function AfterTranscription(s: Session, p: Progress, profiles: seq<SpeakerProfile>, instruction: string, text: string,
                              script: nat -> Reply, decode: string -> Wav.AudioBuffer): (Session, Progress)
  {
    var (synthesized, audio) := SynthesizeSpeech(p, s.mode, profiles, instruction, text, script, decode);
    if synthesized.thrown.Some? then (s, synthesized)
    else if audio.Some? then (s.(generatedAudio := audio), synthesized)
    else (s.(errorMessage := Some(NoAudioMessage)), synthesized)
  }

  /** The `catch` block: the exception's message is logged and shown. */
  function Caught(s: Session, message: string): Session {
    s.(logs := s.logs + [Error(ErrorText(message))], errorMessage := Some(ErrorText(message)))
  }

  /** The derived state cleared at the start of a run. */
  function Reset(s: Session): Session {
    s.(isProcessing := true, logs := [Initializing], generatedAudio := None, speakerProfiles := [],
       transcription := "", prosodyNote := "", errorMessage := None)
  }

  /** After the `try` block that left `t` and `p`: the log it wrote, the `catch` block if it threw, then the `finally` block. */
  function Finish(t: Session, p: Progress): Session {
    var logged := t.(logs := p.logs);
    var settled := if p.thrown.Some? then Caught(logged, p.thrown.value) else logged;
    settled.(isProcessing := false)
  }

  datatype RunResult = RunResult(after: Session, sent: seq<Request>)

  /** One press of the convert button with API key `apiKey` (`""` when unset). */
  function Run(s: Session, apiKey: string, script: nat -> Reply, decode: string -> Wav.AudioBuffer): RunResult {
    if apiKey == "" then
      RunResult(s.(logs := s.logs + [Error(MissingKeyMessage)], errorMessage := Some(MissingKeyMessage)), [])
    else if s.sourceFile.None? || |s.refFiles| == 0 then
      RunResult(s.(logs := s.logs + [Error(MissingInputMessage)], errorMessage := Some(MissingInputMessage)), [])
    else
      var (t, p) := Attempt(Reset(s), s.sourceFile.value, script, decode);
      RunResult(Finish(t, p), p.sent)
  }
}

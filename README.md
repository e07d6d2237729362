# VoiceAlchemy conversion core in Dafny

VoiceAlchemy is a single-page React application. It re-voices a recorded
conversation: each speaker of a source recording takes on the voice of one of up
to three reference recordings. The application component, `App.tsx`, holds three
pieces of logic, and this project models and proves each of them.

- **The WAVE encoder `audioBufferToWav`.** It serialises an N-channel, L-frame
  Web Audio buffer into a 16-bit PCM RIFF/WAVE file of `44 + L*N*2` bytes. It writes
  a little-endian header through a moving cursor, then the clamped and
  quantised samples, interleaved frame by frame.
  - `wav.dfy` (module `Wav`) defines the file as a function of the buffer and proves
    its layout: the size, every header field, and where each sample lies and what it holds.
  - `wav_encoder.dfy` (module `WavEncoder`) is the encoder itself. It writes a fresh
    byte array through a cursor, and its result is proved equal to that function.
- **The conversion run `processConversion`.** The run goes through these stages:
  - it checks for an API key, then for a source file and at least one reference;
  - it resets the derived state;
  - it analyses each reference into a speaker profile;
  - in mimic mode, it describes the source's delivery;
  - it transcribes the source;
  - it asks the text-to-speech model for the re-voiced conversation.

  The run then ends either with a WAVE file or with an error message, and in every
  started case it clears the processing flag.
  - `pipeline.dfy` (module `Pipeline`) states the run as a function `Run` of the
    component state before it, and of the replies the hosted model gives. The k-th
    request of a run gets `script(k)`.
  - `pipeline_properties.dfy`, `run_properties.dfy` and `prompt_properties.dfy`
    prove what a run does:
    - which requests go out, and in what order;
    - what prompts and voice configurations they carry;
    - where a run stops;
    - what it leaves in each state cell;
    - which error it reports.
- **The reference list.** `handleRefUpload` appends a picked file unless three are
  already present, in which case it logs a warning. `removeRefFile` drops one
  position.

`app.dfy` (module `App`) is the component itself: a class `Converter` whose fields
are the state cells and whose methods are the handlers. Each method updates the
fields step by step, as the handler does. `ProcessConversion` is proved to reach
exactly the state, and to issue exactly the requests, that `Pipeline.Run` gives.
When there is audio, the method produces it by calling the imperative encoder.

`text.dfy` (module `Text`) gives two pieces of string handling the run relies on:
- the decimal rendering of `${n}` for naturals, with its inverse;
- ECMAScript `trim`, proved to remove exactly the whitespace at each end.

`wrappers.dfy` holds the `Option` type.

Modelling conventions:
- `""` stands for a missing (`undefined`) text field.
- `JSON.parse` of an analysis reply is either a record of two fields or a failure.
- Log entries are a datatype, and `LogText` renders each without its timestamp.
- The foreign decoder (`decode` followed by `decodeAudioData`) is a parameter from
  the base64 audio data to an audio buffer.

## Model

| member | source | states |
|---|---|---|
| Wav.ToUint16 | App.tsx:628-631 | the value `setUint16` stores always lies in 0..65535 |
| Wav.ToUint32 | App.tsx:633-636 | the value `setUint32` stores always lies in 0..2^32-1 |
| Wav.Le16Reads | App.tsx:628-631 | the two bytes written for a 16-bit value read back, low byte first, as that value |
| Wav.Le32Reads | App.tsx:633-636 | the four bytes written for a 32-bit value read back, little-endian, as that value |
| Wav.I16Reads | App.tsx:620 | the two bytes written for a signed 16-bit sample read back, as two's complement, as that sample |
| Wav.WavLength | App.tsx:586 | the allocated length is at least the 44 header bytes |
| Wav.ClampBounds | App.tsx:618 | a clamped sample lies in [-1, 1], and a sample already in range is unchanged |
| Wav.TruncateBounds | App.tsx:619 | the bitwise-or with 0 rounds toward zero: the result is within one of the real value, on the side of zero |
| Wav.QuantizeRange | App.tsx:618-619 | every stored sample is a signed 16-bit value, -32768..32767 |
| Wav.QuantizeTruncates | App.tsx:618-619 | a stored sample is `trunc(s*32768)` when the clamped sample s is below -0.5, and `trunc(s*32767)` otherwise |
| Wav.QuantizeQuarterNegative | App.tsx:619 | -0.25 is stored as -8191, because the guard `0.5 + sample < 0` uses the positive scale on [-0.5, 0) |
| Wav.DequantizeQuantize | App.tsx:618-619 | every clamped sample can be recovered from its stored value to within 1/32767 |
| Wav.ChannelBytesSize | App.tsx:617-622 | one frame's samples take two bytes per channel |
| Wav.DataBytesSize | App.tsx:616-624 | the sample data of f frames of N channels is f*N*2 bytes |
| Wav.WavFileSize | App.tsx:586-587 | the file is exactly 44 + L*N*2 bytes, the length allocated |
| Wav.HeaderIsPrefix | App.tsx:595-610 | the first 44 bytes of the file are the header |
| Wav.WavTags | App.tsx:595-610 | "RIFF" at offset 0, "WAVE" at 8, "fmt " at 12 and "data" at 36 |
| Wav.WavSizeFields | App.tsx:595-610 | the RIFF size at offset 4 is the length less 8; the data size at offset 40 is the length less 44, which is L*N*2 |
| Wav.WavFormatFields | App.tsx:600-607 | fmt length 16, format 1, N channels at 22, the sample rate at 24, rate*2*N at 28, N*2 at 32, 16 bits at 34 |
| Wav.ChannelBytesAt | App.tsx:617-622 | within one frame, the value of channel c sits at byte 2*c |
| Wav.FrameBytesAt | App.tsx:616-624 | the bytes of frame f follow directly after those of frames 0..f-1 |
| Wav.DataBytesAt | App.tsx:616-624 | value (f, c) of the table sits at byte 2*(f*N + c) of the data: frame-major, channel-minor |
| Wav.WavSampleAt | App.tsx:584-637 | the signed 16-bit value at byte 44 + 2*(f*N + c) of the file is the quantised sample of channel c at frame f |
| WavEncoder.SetUint16 | App.tsx:628-631 | the cursor advances by two, and the two little-endian bytes of the value follow the bytes already written, and every byte after them is unchanged |
| WavEncoder.SetUint32 | App.tsx:633-636 | the cursor advances by four, and the four little-endian bytes of the value follow the bytes already written, and every byte after them is unchanged |
| WavEncoder.SetInt16 | App.tsx:620 | the two bytes of the sample's two's-complement bits, the same bits `setUint16` would store, follow the bytes already written, and every byte after them is unchanged |
| WavEncoder.DataBytesBelow | App.tsx:616 | the data of a prefix of the frames never outgrows the whole data, and is the whole data once it is as long |
| WavEncoder.WriteRiffDescriptor | App.tsx:595-598 | the cursor advances by 12 over the RIFF tag, the length less 8, and the WAVE tag; the bytes after the cursor are unchanged |
| WavEncoder.WriteFormatCode | App.tsx:600-603 | the cursor advances by 12 over the fmt tag, 16, format 1 and the channel count; the bytes after the cursor are unchanged |
| WavEncoder.WriteFormatRates | App.tsx:604-607 | the cursor advances by 12 over the rate, the byte rate, the block alignment and the sample width; the bytes after the cursor are unchanged |
| WavEncoder.WriteFormatChunk | App.tsx:600-607 | the cursor advances by 24 over the format chunk; the bytes after the cursor are unchanged |
| WavEncoder.WriteDataChunkHeader | App.tsx:609-610 | from offset 36, the data tag and `length - pos - 4` fill the header up to byte 44; the bytes after it are unchanged |
| WavEncoder.WriteHeader | App.tsx:595-610 | the cursor reaches 44, and the bytes before it are the three chunks in order, and the sample area after it is untouched |
| WavEncoder.ScaleSample | App.tsx:618-619 | the clamped and scaled sample is the quantised value, in -32768..32767 |
| WavEncoder.WriteFrame | App.tsx:617-622 | the inner loop advances the cursor by 2*N over the bytes of frame `offset`, appended to what was there; the bytes after the cursor are unchanged |
| WavEncoder.FrameAppended | App.tsx:616-623 | one more frame appends that frame's 2*N bytes, and the data stays within its final size |
| WavEncoder.WriteSamples | App.tsx:615-624 | the `while (pos < length)` loop ends with the cursor at the end of the buffer, and the header is followed by all sample data |
| WavEncoder.AudioBufferToWav | App.tsx:584-637 | the bytes of the returned file are exactly `WavFile(buffer)`: header, then interleaved samples |
| Text.NatToStringDigits | App.tsx:135 | `${n}` for a natural is a non-empty string of digits, with a leading 0 only for 0 |
| Text.DecimalValueOfNatToString | App.tsx:144 | reading the digits of `${n}` back gives n |
| Text.NatToStringInjective | App.tsx:242 | distinct numbers render as distinct strings |
| Text.TrimStartSpec | App.tsx:206 | the leading-trim is the shortest suffix that drops only whitespace and does not start with whitespace |
| Text.TrimEndSpec | App.tsx:206 | the trailing-trim is the shortest prefix that drops only whitespace and does not end with whitespace |
| Text.TrimIsInnerSlice | App.tsx:232 | `trim` keeps a slice of the text: it removes whitespace only at the ends, and the result neither begins nor ends with whitespace |
| Text.TrimEmptyIffBlank | App.tsx:232-233 | the trimmed transcript is empty exactly when the whole reply text is whitespace |
| Text.TrimIdempotent | App.tsx:206 | trimming twice is trimming once |
| PromptProperties.SpeakerLabelInjective | App.tsx:242 | `Speaker ${id}` labels are equal only for equal ids |
| PromptProperties.VoiceConfigsSpec | App.tsx:241-248 | one voice entry per profile, in order, labelled `Speaker id`, with the profile's voice, or "Fenrir" when that is empty |
| PromptProperties.VoiceLabelsDistinct | App.tsx:241-248 | profiles with distinct ids get distinct speaker labels |
| PromptProperties.PlannedVoices | App.tsx:181-248 | a complete loop gives N distinct entries labelled "Speaker 1".."Speaker N" in reference order, each with the closest voice that reference's analysis reply parsed to, or "Fenrir" when the reply gives none |
| PromptProperties.TranscriptPromptCases | App.tsx:215-220 | every prompt opens with the transcription instruction; one reference (or none) ends with the "Speaker 1: [text]" format; more name the last speaker in quotes and differ from the one-reference prompt |
| PromptProperties.TranscriptPromptInjective | App.tsx:215-220 | different reference counts above one give different transcription prompts |
| PromptProperties.TtsPromptParts | App.tsx:251-256 | the prompt ends with the transcript; in mimic mode the delivery instruction follows the re-enactment preamble verbatim; in clean mode the prompt opens with its own preamble, is that preamble plus the transcript in length, and does not depend on the instruction |
| PromptProperties.TtsPromptInjective | App.tsx:251-256 | within one mode, equal prompts have equal transcripts, and in mimic mode equal instructions of equal length |
| PromptProperties.ProsodyTextTrimmed | App.tsx:206 | the delivery note is the trimmed reply text, or "Normal pacing." for a missing or blank reply; it is never empty and has no surrounding whitespace |
| PromptProperties.ErrorTextSpec | App.tsx:297-299 | the reported error is never empty, and is the exception's own message when it has one |
| PromptProperties.AnalysisProfileSpec | App.tsx:172-185 | a profile carries its reference's id; it has "Fenrir" and the default style when the text is missing or does not parse, the parse warning comes only with present text, a parsed reply gives its own fields, and the voice is empty exactly when the reply parsed without one |
| PipelineProperties.AnalyzeFromLog | App.tsx:140-188 | the profile loop only appends to the log |
| PipelineProperties.AnalyzeFromCounts | App.tsx:140-188 | the loop builds one profile per answered request and stops at the first thrown call, having sent one request more; otherwise it covers every reference |
| PipelineProperties.AnalyzeFromProfiles | App.tsx:172-187 | profile j is built from reply j with id j+1, after the profiles that were already built |
| PipelineProperties.AnalyzeFromRequests | App.tsx:140-170 | request j of the loop analyses reference j, with its MIME type or "audio/wav" |
| PipelineProperties.AnalysisPhase | App.tsx:134-189 | step 1 sends 1..N requests on the plan, all answered but the last; stopped by a thrown call, or complete with the planned profiles |
| PipelineProperties.SendFollows | App.tsx:131-296 | sending the next planned request keeps a run on the plan |
| PipelineProperties.StepsExtendLog | App.tsx:193-296 | steps 2 to 4 only append to the log |
| PipelineProperties.AfterTranscriptionSpec | App.tsx:238-296 | from an answered transcription, step 4 stays on the plan, and the audio cell, or the missing-audio error, is set as the reply says |
| PipelineProperties.AfterProsodySpec | App.tsx:212-296 | from step 3 on, the run stays on the plan; an empty trimmed transcript throws "无法转录源音频。" and no later request is sent |
| PipelineProperties.AfterAnalysisSpec | App.tsx:193-296 | from step 2 on, the prosody request is sent only in mimic mode, and its text becomes the prosody note |
| PipelineProperties.AttemptSpec | App.tsx:131-296 | the whole try block follows the plan, stops exactly as it should, and leaves each state cell as its step set it, or unchanged |
| PipelineProperties.StopReason | App.tsx:131-296 | a block threw nothing exactly when the whole plan was answered; otherwise it threw the failed call's message, or the transcription error |
| PipelineProperties.PlanOrder | App.tsx:131-296 | the planned requests go in step order, and the prosody request belongs to mimic mode only |
| PipelineProperties.FollowsPlanInStepOrder | App.tsx:131-296 | any prefix of the plan is in step order, with no prosody request in clean mode |
| RunProperties.RunRejected | App.tsx:109-120 | without a key, or without a source and a reference, nothing is sent, and only the log entry and the error message change |
| RunProperties.RunRequests | App.tsx:131-299 | a started run sends a non-empty prefix of the plan, all answered but the last, and stops short only at a thrown call or an empty transcript |
| RunProperties.FinishState | App.tsx:297-303 | after the catch and finally blocks, the inputs are kept, the flag is cleared, the log starts with the run's first two entries, and profiles, note and transcript are as the block left them |
| RunProperties.RunState | App.tsx:122-304 | a started run keeps its inputs, ends with the flag cleared and a fresh log, and sets profiles, note and transcript only once the run gets past the step that sets them |
| RunProperties.FinishOutcome | App.tsx:272-303 | after the catch and finally blocks there is audio exactly when the whole plan was answered with audio data, and an error message exactly when there is no audio |
| RunProperties.RunOutcome | App.tsx:272-299 | a run has audio exactly when the whole plan was answered with audio data, the audio is then the WAVE file of the decoded data, and there is an error message exactly when there is no audio |
| RunProperties.FinishErrors | App.tsx:297-303 | the catch block reports a thrown call's message as the error and logs it last; the transcription and missing-audio errors are reported as the stop reason says |
| RunProperties.RunErrors | App.tsx:232-299 | a thrown call's message, the transcription error, or the missing-audio error is reported, as the stop reason says |
| RunProperties.RunSteps | App.tsx:194-256 | requests go in step order, analyses first; the prosody request, and a prosody note, only in mimic mode |
| App.KeepOthersFrom | App.tsx:104-106 | from position i on, the filter drops position `index` if it lies ahead, and keeps the rest in order |
| App.RemoveIndexSpec | App.tsx:104-106 | `removeRefFile(i)` removes element i only, keeps the others in order, and changes nothing when i is out of range |
| App.Converter.constructor | App.tsx:40-54 | the first render: no files, clean mode, empty log, nothing produced |
| App.Converter.SetMode | App.tsx:429-447 | the mode radio buttons set the mode and nothing else |
| App.Converter.HandleSourceUpload | App.tsx:60-67 | a picked file becomes the source and clears the previous result; no file changes nothing |
| App.Converter.HandleRefUpload | App.tsx:91-102 | with three references, exactly one warning entry is logged; otherwise the file is appended at the end; nothing else changes, and the list never exceeds three |
| App.Converter.RemoveRefFile | App.tsx:104-106 | the list becomes the filtered list: element i removed, the others in order, unchanged for an out-of-range i |
| App.Converter.AnalyzeReferences | App.tsx:134-188 | the loop's log, requests, stop and profiles are those of `AnalyzeFrom` |
| App.Converter.AnalyzeSourceProsody | App.tsx:193-210 | step 2 is `AnalyzeProsody`, and the note is stored when there is one |
| App.Converter.TranscribeSourceAudio | App.tsx:212-236 | step 3 is `TranscribeSource` |
| App.Converter.SynthesizeAudio | App.tsx:238-296 | step 4 is `SynthesizeSpeech`, with the file produced by the imperative encoder |
| App.Converter.ContinueAfterTranscription | App.tsx:238-296 | the state reached is that of `AfterTranscription` |
| App.Converter.ContinueAfterProsody | App.tsx:212-296 | the state reached is that of `AfterProsody` |
| App.Converter.ContinueAfterAnalysis | App.tsx:189-296 | the state reached is that of `AfterAnalysis` |
| App.Converter.AttemptConversion | App.tsx:131-296 | the state reached is that of `Attempt` |
| App.Converter.ResetRun | App.tsx:122-129 | the state becomes `Reset` of the old state |
| App.Converter.FinishRun | App.tsx:297-303 | the catch and finally blocks give `Finish` of the block's state |
| App.Converter.ProcessConversion | App.tsx:108-304 | the new state and the requests sent are exactly `Run` of the old state, and the list bound is kept |

## Left out

- The hosted model. No network request is made: each reply is `script(k)`. Its JSON
  parsing is abstracted to `Parsed` or `Unparsable`, so malformed fields
  inside parsed JSON are not modelled.
- `fileToBase64`, `decode` and `decodeAudioData` are foreign code. The base64 data of
  a file is not modelled: a request records the file it carries. Decoding is a total
  function parameter `decode`. A failure inside these three helpers, and the
  exception it would raise, is not modelled.
- The `if (!file) continue` branch of the profile loop (App.tsx:142) is left out,
  because a `File[]` holds no empty entries.
- The `AudioContext` creation, object URLs and their revocation effects, the
  source preview, and the `Blob` wrapper. `generatedAudio` holds the bytes the
  URL points to.
- Log timestamps from `toLocaleTimeString`. Entries are structured values.
- The length of the transcript in the log is the length of the Dafny string, that is
  the number of code points, not the number of UTF-16 code units.
- Samples are exact reals. IEEE-754 rounding, NaN and infinities are not modelled. The
  sample rate is a natural number.
- Concurrency and re-entrancy: each handler runs to completion before the next.
  React's batched state updates are modelled as immediate field updates. In the
  handlers that read stale closure state, this gives the same result for
  sequential runs.
- JSX rendering, the icon components and the visualiser.
- Wav.QuantizeTruncates follows the guard as written, `0.5 + sample < 0` (App.tsx:619),
  which holds only below -0.5. A sign-based mapping would scale every negative sample
  by 32768; the code's guard does so only below -0.5, and samples in [-0.5, 0) use the
  positive scale 32767.
- A reply that parses but has no `closestVoice` or `styleDescription`: the source
  interpolates `undefined` into the "匹配音色" log line (App.tsx:187). The model writes
  `""` for a missing field, so `LogText` renders an empty string there. The voice
  configuration is the same either way, because both `undefined` and `""` fall back
  to "Fenrir" (App.tsx:245).

/**
 * The `App` component as an object: its state cells are the fields of a
 * `Converter`, and each handler is a method that updates them in the order the
 * handler's code runs. `ProcessConversion` is proved to leave exactly the state
 * that the functional model `Pipeline.Run` describes.
 */
module App {
  import opened Wrappers
  import opened Pipeline
  import Wav
  import WavEncoder

  /** The value of every state cell on the first render. */
  const InitialSession: Session := Session(None, [], Clean, false, [], None, None, [], "", "")

  /** The filter callback of `removeRefFile`, from position `i` on: every element whose position is not `index`. */
  function KeepOthers(s: seq<AudioFile>, index: int, i: nat): seq<AudioFile>
    requires i <= |s|
    decreases |s| - i
  {
    if i == |s| then []
    else (if i != index then [s[i]] else []) + KeepOthers(s, index, i + 1)
  }

  /** The filter drops the element at `index` when there is one, and keeps the list as it is otherwise. */
  lemma {:induction false} KeepOthersFrom(s: seq<AudioFile>, index: int, i: nat)
    requires i <= |s|
    ensures KeepOthers(s, index, i) == if i <= index < |s| then s[i..index] + s[index + 1..] else s[i..]
    decreases |s| - i
  {
    if i < |s| {
      KeepOthersFrom(s, index, i + 1);
      if i == index {
        assert s[i..index] == [];
      } else if i < index < |s| {
        assert s[i..index] == [s[i]] + s[i + 1..index];
      } else {
        assert s[i..] == [s[i]] + s[i + 1..];
      }
    }
  }

  /** The whole filter: the element at `index` is gone and the others keep their order. */
  lemma RemoveIndexSpec(s: seq<AudioFile>, index: int)
    ensures 0 <= index < |s| ==> KeepOthers(s, index, 0) == s[..index] + s[index + 1..]
    ensures 0 <= index < |s| ==> |KeepOthers(s, index, 0)| == |s| - 1
    ensures !(0 <= index < |s|) ==> KeepOthers(s, index, 0) == s
  {
    KeepOthersFrom(s, index, 0);
  }

  class Converter {
    var sourceFile: Option<AudioFile>
    var refFiles: seq<AudioFile>
    var mode: Mode
    var isProcessing: bool
    var logs: seq<LogEntry>
    var generatedAudio: Option<seq<Wav.uint8>>
    var errorMessage: Option<string>
    var speakerProfiles: seq<SpeakerProfile>
    var transcription: string
    var prosodyNote: string

    /** The state cells as one value. */
    function Snapshot(): Session
      reads this
    {
      Session(sourceFile, refFiles, mode, isProcessing, logs, generatedAudio, errorMessage,
              speakerProfiles, transcription, prosodyNote)
    }

    /** The upload handler never lets the reference list grow beyond its limit. */
    predicate Valid()
      reads this
    {
      |refFiles| <= MaxReferences
    }

    /** The first render: no files, clean mode, nothing produced. */
    constructor ()
      ensures Snapshot() == InitialSession
      ensures Valid()
    {
      sourceFile := None;
      refFiles := [];
      mode := Clean;
      isProcessing := false;
      logs := [];
      generatedAudio := None;
      errorMessage := None;
      speakerProfiles := [];
      transcription := "";
      prosodyNote := "";
    }

    /** `handleSourceUpload`: a picked file becomes the source and drops the previous result. */
    method HandleSourceUpload(file: Option<AudioFile>)
      modifies this`sourceFile, this`generatedAudio
      ensures file.None? ==> Snapshot() == old(Snapshot())
      ensures file.Some? ==> Snapshot() == old(Snapshot()).(sourceFile := file, generatedAudio := None)
    {
      if file.Some? {
        sourceFile := file;
        generatedAudio := None;
      }
    }

    /** The mode radio buttons: `setMode('mimic')` or `setMode('clean')`. */
    method SetMode(m: Mode)
      modifies this`mode
      ensures Snapshot() == old(Snapshot()).(mode := m)
    {
      mode := m;
    }

    /** `handleRefUpload`: a picked file is appended unless three are already there, which is logged instead. */
    method HandleRefUpload(file: Option<AudioFile>)
      requires Valid()
      modifies this`refFiles, this`logs
      ensures Valid()
      ensures file.None? ==> Snapshot() == old(Snapshot())
      ensures file.Some? && old(|refFiles|) >= MaxReferences ==>
                Snapshot() == old(Snapshot()).(logs := old(logs) + [ReferenceLimit])
      ensures file.Some? && old(|refFiles|) < MaxReferences ==>
                Snapshot() == old(Snapshot()).(refFiles := old(refFiles) + [file.value])
    {
      if file.Some? {
        if |refFiles| >= MaxReferences {
          logs := logs + [ReferenceLimit];
          return;
        }
        refFiles := refFiles + [file.value];
      }
    }

    /** `removeRefFile`: the reference at `index` is dropped, the others keep their order. */
    method RemoveRefFile(index: int)
      requires Valid()
      modifies this`refFiles
      ensures Valid()
      ensures Snapshot() == old(Snapshot()).(refFiles := KeepOthers(old(refFiles), index, 0))
      ensures 0 <= index < old(|refFiles|) ==> refFiles == old(refFiles[..index] + refFiles[index + 1..])
      ensures !(0 <= index < old(|refFiles|)) ==> refFiles == old(refFiles)
    {
      RemoveIndexSpec(refFiles, index);
      refFiles := KeepOthers(refFiles, index, 0);
    }

    /** Step 1 of the run: the announcement, then one analysis request per reference until one throws. */
    method AnalyzeReferences(script: nat -> Reply) returns (sent: seq<Request>, thrown: Option<string>,
                                                            profiles: seq<SpeakerProfile>)
      modifies this`logs
      ensures (Progress(logs, sent, thrown), profiles)
              == AnalyzeFrom(Progress(old(logs) + [AnalysisStarted(|refFiles|)], [], None), refFiles, 0, [], script)
    {
      logs := logs + [AnalysisStarted(|refFiles|)];
      ghost var start := Progress(logs, [], None);
      sent, thrown, profiles := [], None, [];
      var i := 0;
      while i < |refFiles| && thrown.None?
        invariant 0 <= i <= |refFiles|
        invariant thrown.None? ==>
                    AnalyzeFrom(Progress(logs, sent, None), refFiles, i, profiles, script)
                    == AnalyzeFrom(start, refFiles, 0, [], script)
        invariant thrown.Some? ==> (Progress(logs, sent, thrown), profiles) == AnalyzeFrom(start, refFiles, 0, [], script)
        decreases |refFiles| - i, if thrown.None? then 1 else 0
      {
        var file := refFiles[i];
        var id := i + 1;
        var reply := script(|sent|);
        logs := logs + [SpeakerAnalysisStarted(id, file.name)];
        sent := sent + [AnalyzeVoice(file, MimeOf(file))];
        if reply.Threw? {
          thrown := Some(reply.message);
        } else {
          var profile := AnalysisProfile(id, reply.response);
          if ParseFails(reply.response) {
            logs := logs + [ParseWarning(id)];
          }
          profiles := profiles + [profile];
          logs := logs + [SpeakerMatched(id, profile.voiceName, profile.styleDescription)];
          i := i + 1;
        }
      }
    }

    /** Step 2 of the run: in mimic mode, the prosody request, whose text becomes the prosody note. */
    method AnalyzeSourceProsody(src: AudioFile, script: nat -> Reply, before: seq<Request>)
      returns (sent: seq<Request>, thrown: Option<string>, note: Option<string>)
      modifies this`logs, this`prosodyNote
      ensures (Progress(logs, sent, thrown), note) == AnalyzeProsody(Progress(old(logs), before, None), mode, src, script)
      ensures prosodyNote == if note.Some? then note.value else old(prosodyNote)
    {
      sent, thrown, note := before, None, None;
      if mode == Mimic {
        var reply := script(|sent|);
        logs := logs + [ProsodyStarted];
        sent := sent + [DescribeProsody(src, MimeOf(src))];
        if reply.Threw? {
          thrown := Some(reply.message);
        } else {
          var pText := ProsodyText(reply.response);
          note := Some(pText);
          prosodyNote := pText;
          logs := logs + [ProsodyExtracted(pText)];
        }
      }
    }

    /** Step 3 of the run: the transcription request; an empty trimmed transcript throws. */
    method TranscribeSourceAudio(src: AudioFile, script: nat -> Reply, before: seq<Request>)
      returns (sent: seq<Request>, thrown: Option<string>, text: string)
      modifies this`logs
      ensures (Progress(logs, sent, thrown), text) == TranscribeSource(Progress(old(logs), before, None), |refFiles|, src, script)
    {
      var reply := script(|before|);
      logs := logs + [TranscriptionStarted];
      sent := before + [Transcribe(src, MimeOf(src), |refFiles|)];
      thrown, text := None, "";
      if reply.Threw? {
        thrown := Some(reply.message);
      } else if Text.Trim(reply.response.text) == "" {
        thrown := Some(TranscriptionFailedMessage);
      } else {
        text := Text.Trim(reply.response.text);
        logs := logs + [Transcribed(|text|)];
      }
    }

    /** Step 4 of the run: the synthesis request; its audio part is decoded and encoded as a WAVE file. */
    method SynthesizeAudio(profiles: seq<SpeakerProfile>, instruction: string, text: string, script: nat -> Reply,
                           decode: string -> Wav.AudioBuffer, before: seq<Request>)
      returns (sent: seq<Request>, thrown: Option<string>, audio: Option<seq<Wav.uint8>>)
      modifies this`logs
      ensures (Progress(logs, sent, thrown), audio)
              == SynthesizeSpeech(Progress(old(logs), before, None), mode, profiles, instruction, text, script, decode)
    {
      var reply := script(|before|);
      logs := logs + [SynthesisStarted(mode)];
      sent := before + [Synthesize(mode, instruction, text, VoiceConfigs(profiles))];
      thrown, audio := None, None;
      if reply.Threw? {
        thrown := Some(reply.message);
      } else if reply.response.inlineAudio != "" {
        logs := logs + [Decoding];
        var blob := WavEncoder.AudioBufferToWav(decode(reply.response.inlineAudio));
        audio := Some(blob);
        logs := logs + [Succeeded];
      } else {
        logs := logs + [Error(NoAudioMessage)];
      }
    }

    /** The state reached by the `try` block that the functional model leaves as `r`: its state cells, requests and exception. */
    predicate Mirrors(r: (Session, Progress), sent: seq<Request>, thrown: Option<string>)
      reads this
    {
      Snapshot() == r.0.(logs := r.1.logs) && sent == r.1.sent && thrown == r.1.thrown
    }

    /** The try block after step 3: step 4 and its outcome, from the state `t` with the log in `logs`. */
    method ContinueAfterTranscription(ghost t: Session, profiles: seq<SpeakerProfile>, instruction: string, text: string,
                                      script: nat -> Reply, decode: string -> Wav.AudioBuffer, before: seq<Request>)
      returns (sent: seq<Request>, thrown: Option<string>)
      requires Snapshot() == t.(logs := logs)
      modifies this`logs, this`generatedAudio, this`errorMessage
      ensures Mirrors(AfterTranscription(t, Progress(old(logs), before, None), profiles, instruction, text, script, decode),
                      sent, thrown)
    {
      var audio: Option<seq<Wav.uint8>>;
      sent, thrown, audio := SynthesizeAudio(profiles, instruction, text, script, decode, before);
      if thrown.None? {
        if audio.Some? {
          generatedAudio := audio;
        } else {
          errorMessage := Some(NoAudioMessage);
        }
      }
    }

    /** The try block after step 2: step 3, the transcription cell, then the rest. */
    method ContinueAfterProsody(ghost t: Session, profiles: seq<SpeakerProfile>, instruction: string, src: AudioFile,
                                script: nat -> Reply, decode: string -> Wav.AudioBuffer, before: seq<Request>)
      returns (sent: seq<Request>, thrown: Option<string>)
      requires Snapshot() == t.(logs := logs)
      modifies this`logs, this`transcription, this`generatedAudio, this`errorMessage
      ensures Mirrors(AfterProsody(t, Progress(old(logs), before, None), profiles, instruction, src, script, decode),
                      sent, thrown)
    {
      var text: string;
      sent, thrown, text := TranscribeSourceAudio(src, script, before);
      if thrown.None? {
        transcription := text;
        sent, thrown := ContinueAfterTranscription(t.(transcription := text), profiles, instruction, text, script, decode, sent);
      }
    }

    /** The try block after step 1: step 2, the delivery instruction, then the rest. */
    method ContinueAfterAnalysis(ghost t: Session, profiles: seq<SpeakerProfile>, src: AudioFile,
                                 script: nat -> Reply, decode: string -> Wav.AudioBuffer, before: seq<Request>)
      returns (sent: seq<Request>, thrown: Option<string>)
      requires Snapshot() == t.(logs := logs)
      modifies this`logs, this`prosodyNote, this`transcription, this`generatedAudio, this`errorMessage
      ensures Mirrors(AfterAnalysis(t, Progress(old(logs), before, None), profiles, src, script, decode), sent, thrown)
    {
      var note: Option<string>;
      sent, thrown, note := AnalyzeSourceProsody(src, script, before);
      ghost var noted := if note.Some? then t.(prosodyNote := note.value) else t;
      if thrown.None? {
        var instruction := if note.Some? then ProsodyInstruction(note.value) else "";
        sent, thrown := ContinueAfterProsody(noted, profiles, instruction, src, script, decode, sent);
      }
    }

    /** The whole `try` block from the reset state: step 1, the profiles cell, then the rest. */
    method AttemptConversion(src: AudioFile, script: nat -> Reply, decode: string -> Wav.AudioBuffer)
      returns (sent: seq<Request>, thrown: Option<string>)
      modifies this`logs, this`speakerProfiles, this`prosodyNote, this`transcription, this`generatedAudio,
               this`errorMessage
      ensures Mirrors(Attempt(old(Snapshot()), src, script, decode), sent, thrown)
    {
      var profiles: seq<SpeakerProfile>;
      sent, thrown, profiles := AnalyzeReferences(script);
      if thrown.None? {
        speakerProfiles := profiles;
        sent, thrown := ContinueAfterAnalysis(old(Snapshot()).(speakerProfiles := profiles), profiles, src, script, decode, sent);
      }
    }

    /** The cells a run clears before its `try` block. */
    method ResetRun()
      modifies this`isProcessing, this`logs, this`generatedAudio, this`speakerProfiles, this`transcription,
               this`prosodyNote, this`errorMessage
      ensures Snapshot() == Reset(old(Snapshot()))
    {
      isProcessing := true;
      logs := [Initializing];
      generatedAudio := None;
      speakerProfiles := [];
      transcription := "";
      prosodyNote := "";
      errorMessage := None;
    }

    /** The `catch` block when the `try` block threw, then the `finally` block. */
    method FinishRun(thrown: Option<string>)
      modifies this`logs, this`errorMessage, this`isProcessing
      ensures Snapshot() == Finish(old(Snapshot()), Progress(old(logs), [], thrown))
    {
      if thrown.Some? {
        logs := logs + [Error(ErrorText(thrown.value))];
        errorMessage := Some(ErrorText(thrown.value));
      }
      isProcessing := false;
    }

    /** `processConversion`: one press of the convert button; `sent` are the requests it issues. */
    method ProcessConversion(apiKey: string, script: nat -> Reply, decode: string -> Wav.AudioBuffer)
      returns (sent: seq<Request>)
      requires Valid()
      modifies this
      ensures Valid()
      ensures RunResult(Snapshot(), sent) == Run(old(Snapshot()), apiKey, script, decode)
    {
      sent := [];
      if apiKey == "" {
        logs := logs + [Error(MissingKeyMessage)];
        errorMessage := Some(MissingKeyMessage);
        return;
      }
      if sourceFile.None? || |refFiles| == 0 {
        logs := logs + [Error(MissingInputMessage)];
        errorMessage := Some(MissingInputMessage);
        return;
      }
      ResetRun();
      var thrown: Option<string>;
      sent, thrown := AttemptConversion(sourceFile.value, script, decode);
      FinishRun(thrown);
    }
  }
}

/** `POST /stt`: multer stores the `audio` part under `uploads/`, then the
    handler checks for the file and the API key, sends the file to the
    transcription service and removes it. The files under `uploads/` are
    the state this route changes. */
module SpeechToText {
  import opened Text
  import opened JsValues
  import opened Upload

  type Path = string

  /** The multipart request as multer sees it: no `audio` part, or one
      with its original file name and its length in bytes. */
  datatype AudioPart = NoAudio | Audio(originalName: string, size: nat)

  /** What `openai.audio.transcriptions.create` resolves to or throws. */
  datatype TranscriptionOutcome = Transcribed(text: string) | TranscriptionThrew(error: Thrown)

  /** How the multer middleware ends: it hands the request on, with the
      stored file or without one, or it passes an error to `next`. */
  datatype Stage = HandOn(file: Option<Path>) | UploadError(verdict: Verdict)

  /** What the route does to the world, in order. */
  datatype Effect =
    | Stored(path: Path)
    | Called(call: Call)
    | Unlinked(path: Path)
    | Replied(reply: Response)

  const WhisperModel := "whisper-1"
  const NoAudioError := "No audio file provided"
  const SttFailedError := "Speech-to-text conversion failed"

  /** The message of the error `fs.unlinkSync` throws for a missing file. */
  function UnlinkMissingMessage(path: Path): string {
    "ENOENT: no such file or directory, unlink '" + path + "'"
  }

  class Backend {
    /** The files under `uploads/`. */
    var disk: set<Path>
    /** Everything the routes have done so far, in order. */
    var effects: seq<Effect>

    constructor ()
      ensures disk == {} && effects == []
    {
      disk := {};
      effects := [];
    }

    /** `upload.single("audio")` with disk storage: the filter runs on the
        part's header, before anything is written; a part that trips the
        size limit is written and then removed again by multer. */
    method Receive(part: AudioPart, path: Path) returns (stage: Stage)
      modifies this
      ensures part.NoAudio? ==> stage == HandOn(None) && disk == old(disk) && effects == old(effects)
      ensures part.Audio? && Judge(part.originalName, part.size) == Store ==>
                stage == HandOn(Some(path)) && disk == old(disk) + {path} &&
                effects == old(effects) + [Stored(path)]
      ensures part.Audio? && Judge(part.originalName, part.size) == FilterRejected ==>
                stage == UploadError(FilterRejected) && disk == old(disk) && effects == old(effects)
      ensures part.Audio? && Judge(part.originalName, part.size) == TooLarge ==>
                stage == UploadError(TooLarge) && disk == old(disk) - {path} &&
                effects == old(effects) + [Stored(path), Unlinked(path)]
    {
      if part.NoAudio? {
        return HandOn(None);
      }
      var verdict := Judge(part.originalName, part.size);
      if verdict == FilterRejected {
        return UploadError(FilterRejected);
      }
      disk := disk + {path};
      effects := effects + [Stored(path)];
      if verdict == TooLarge {
        disk := disk - {path};
        effects := effects + [Unlinked(path)];
        return UploadError(TooLarge);
      }
      stage := HandOn(Some(path));
    }

    /** The route handler. `file` is `req.file`, `apiKey` is
        `process.env.OPENAI_API_KEY`, `outcome` is what the transcription
        call gives. The missing-key return skips the cleanup: the upload
        stays on disk. */
    method HandleStt(file: Option<Path>, apiKey: Option<string>, outcome: TranscriptionOutcome)
      returns (reply: Response)
      modifies this
      ensures file.None? ==>
                reply == ErrorReply(400, NoAudioError) &&
                disk == old(disk) && effects == old(effects) + [Replied(reply)]
      ensures file.Some? && !IsSet(apiKey) ==>
                reply == ErrorReply(500, KeyNotConfigured) &&
                disk == old(disk) && effects == old(effects) + [Replied(reply)]
      ensures file.Some? && IsSet(apiKey) ==> disk == old(disk) - {file.value}
      ensures file.Some? && IsSet(apiKey) && file.value in old(disk) ==>
                effects == old(effects) +
                  [Called(Transcription(file.value, WhisperModel)), Unlinked(file.value), Replied(reply)]
      ensures file.Some? && IsSet(apiKey) && file.value in old(disk) && outcome.Transcribed? ==>
                reply == JsonReply(200, JObj(map["text" := JStr(outcome.text)]))
      ensures file.Some? && IsSet(apiKey) && outcome.TranscriptionThrew? ==>
                reply == FailureReply(SttFailedError, outcome.error)
      ensures file.Some? && IsSet(apiKey) && file.value !in old(disk) ==>
                effects == old(effects) + [Called(Transcription(file.value, WhisperModel)), Replied(reply)] &&
                reply.Status() == 500
    {
      if file.None? {
        reply := ErrorReply(400, NoAudioError);
        effects := effects + [Replied(reply)];
        return;
      }
      var path := file.value;
      if !IsSet(apiKey) {
        reply := ErrorReply(500, KeyNotConfigured);
        effects := effects + [Replied(reply)];
        return;
      }
      effects := effects + [Called(Transcription(path, WhisperModel))];
      var thrown: Option<Thrown> := None;
      if outcome.TranscriptionThrew? {
        thrown := Some(outcome.error);
      } else if path in disk {
        // fs.unlinkSync(req.file.path)
        disk := disk - {path};
        effects := effects + [Unlinked(path)];
      } else {
        thrown := Some(ErrorValue(UnlinkMissingMessage(path)));
      }
      if thrown.None? {
        reply := JsonReply(200, JObj(map["text" := JStr(outcome.text)]));
      } else {
        // catch: remove the upload if it still exists
        if path in disk {
          disk := disk - {path};
          effects := effects + [Unlinked(path)];
        }
        reply := FailureReply(SttFailedError, thrown.value);
      }
      effects := effects + [Replied(reply)];
    }

    /** The whole route: multer, then the handler. An upload error goes to
        Express's built-in error handler, which answers 500. `path` is the
        random name multer picks, so no file of that name exists yet. */
    method PostStt(part: AudioPart, apiKey: Option<string>, path: Path, outcome: TranscriptionOutcome)
      returns (reply: Response)
      requires path !in disk
      modifies this
      ensures part.NoAudio? ==> reply == ErrorReply(400, NoAudioError) && disk == old(disk) && effects == old(effects) + [Replied(reply)]
      ensures part.Audio? && Judge(part.originalName, part.size) == FilterRejected ==>
                reply == DefaultErrorPage(500) && disk == old(disk) &&
                effects == old(effects) + [Replied(reply)]
      ensures part.Audio? && Judge(part.originalName, part.size) == TooLarge ==>
                reply == DefaultErrorPage(500) && disk == old(disk) &&
                effects == old(effects) + [Stored(path), Unlinked(path), Replied(reply)]
      ensures part.Audio? && Judge(part.originalName, part.size) == Store && !IsSet(apiKey) ==>
                reply == ErrorReply(500, KeyNotConfigured) && disk == old(disk) + {path} &&
                effects == old(effects) + [Stored(path), Replied(reply)]
      ensures part.Audio? && Judge(part.originalName, part.size) == Store && IsSet(apiKey) ==>
                disk == old(disk) &&
                effects == old(effects) +
                  [Stored(path), Called(Transcription(path, WhisperModel)), Unlinked(path), Replied(reply)] &&
                reply == match outcome {
                  case Transcribed(text) => JsonReply(200, JObj(map["text" := JStr(text)]))
                  case TranscriptionThrew(e) => FailureReply(SttFailedError, e)
                }
      ensures path in disk <==>
                part.Audio? && Judge(part.originalName, part.size) == Store && !IsSet(apiKey)
      ensures old(effects) <= effects
      ensures forall c :: Called(c) in effects[|old(effects)|..] ==>
                part.Audio? && Judge(part.originalName, part.size) == Store && IsSet(apiKey)
    {
      var stage := Receive(part, path);
      if stage.UploadError? {
        reply := DefaultErrorPage(500);
        effects := effects + [Replied(reply)];
        return;
      }
      reply := HandleStt(stage.file, apiKey, outcome);
    }
  }

  /** Two accepted uploads transcribed with a key set: the same transcript
      gives the same reply both times and no file is left behind. */
  method TranscribeTwice(apiKey: Option<string>, name: string, size: nat, first: Path, second: Path, text: string)
    returns (store: Backend, r1: Response, r2: Response)
    requires IsSet(apiKey) && AcceptsName(name) && AcceptsSize(size)
    ensures store.disk == {}
    ensures r1 == r2 == JsonReply(200, JObj(map["text" := JStr(text)]))
  {
    store := new Backend();
    r1 := store.PostStt(Audio(name, size), apiKey, first, Transcribed(text));
    r2 := store.PostStt(Audio(name, size), apiKey, second, Transcribed(text));
  }

  /** An accepted upload while `OPENAI_API_KEY` is the empty string (the
      client cannot even be built with the variable unset): the reply is
      500 and the file stays under `uploads/`. */
  method MissingKeyLeavesUpload(name: string, size: nat, path: Path, outcome: TranscriptionOutcome)
    returns (store: Backend, reply: Response)
    requires AcceptsName(name) && AcceptsSize(size)
    ensures store.disk == {path}
    ensures reply == ErrorReply(500, KeyNotConfigured)
  {
    store := new Backend();
    reply := store.PostStt(Audio(name, size), Some(""), path, outcome);
  }
}

/** Types shared by the model of the text-to-speech server's engine
    (tts-server/server.py). */
module Common {

  /** Raw bytes: the WAV data held in the memory cache and in the cache files. */
  type Bytes = seq<bv8>

  /** A cache key: the hexadecimal digest naming a cached clip (file `{key}.wav`). */
  type Key = string

  datatype Option<T> = None | Some(value: T)

  /** An exception raised by a foreign call; only its identity matters here. */
  datatype Exception = Exception(message: string)

  /** The outcome of a call that returns a value or raises. */
  datatype Outcome<T> = Ok(value: T) | Raised(error: Exception)

  /** The voice-cloning prompt object built by the speech model; opaque, so it is
      modelled as a handle the model hands out. */
  datatype VoicePrompt = VoicePrompt(handle: nat)

  /** What a generator of the speech model returns: a float sample buffer and its
      sample rate. */
  datatype Samples = Samples(audio: seq<real>, sampleRate: int)

  /** The fields of the server configuration that the engine reads. */
  datatype Config = Config(modelName: string, referenceText: string)

  /** The deterministic foreign functions the engine relies on, left uninterpreted:
      any functions of these types may be plugged in. */
  datatype Externals = Externals(
    formatRate: real -> string,             // how a float rate prints inside an f-string
    md5Hex: string -> Key,                  // hexadecimal MD5 digest of the UTF-8 encoded string
    arrayToWav: Samples -> Outcome<Bytes>)  // the WAV encoder, which may raise

  /** What `open(path, "wb")` followed by `f.write(data)` does on the cache directory. */
  datatype FileWrite =
    | Written                                 // the whole clip is on disk
    | OpenFailed(error: Exception)            // the file could not be created
    | WriteFailed(error: Exception, kept: nat) // created, but only a prefix reached the disk

  function Min(a: int, b: int): int { if a <= b then a else b }
}

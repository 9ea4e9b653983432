/** `TTSEngine` of tts-server/server.py as a class whose methods update its fields
    step by step; each method is proved to do what the functions of `EngineSpec`
    say, so the lemmas there carry over to the object. */
module Engine {
  import opened Common
  import opened CacheKey
  import opened EngineSpec

  class TTSEngine {
    const config: Config
    const ext: Externals

    var initialized: bool                 // _initialized
    var modelLoaded: bool                 // whether `model` holds a loaded speech model
    var voicePrompt: Option<VoicePrompt>  // voice_prompt
    var audioCache: map<Key, Bytes>       // audio_cache
    var cacheFiles: map<Key, Bytes>       // the files `{key}.wav` in the cache directory
    ghost var calls: seq<ModelCall>       // the speech-model calls made so far

    /** The engine's state as a value. */
    ghost function State(): EngineState
      reads this
    {
      EngineState(initialized, modelLoaded, voicePrompt, audioCache, cacheFiles, calls)
    }

    ghost predicate Valid()
      reads this
    {
      EngineSpec.Valid(State())
    }

    /** A new engine; the cache directory may already hold files from earlier runs. */
    constructor (config: Config, ext: Externals, files: map<Key, Bytes>)
      ensures Valid()
      ensures this.config == config && this.ext == ext
      ensures State() == Startup(files)
    {
      this.config := config;
      this.ext := ext;
      initialized := false;
      modelLoaded := false;
      voicePrompt := None;
      audioCache := map[];
      cacheFiles := files;
      calls := [];
      StartupValid(files);
    }

    /** `_load_voice_prompt`, given whether the reference file exists and what the
        model's prompt builder returns if it is called. */
    method LoadVoicePrompt(referenceExists: bool, created: Outcome<VoicePrompt>)
      requires Valid()
      modifies this
      ensures Valid()
      ensures State() == EngineSpec.LoadVoicePrompt(old(State()), config, referenceExists, created)
    {
      LoadVoicePromptOutcomes(State(), config, referenceExists, created);
      if !referenceExists {
        return;
      }
      if !modelLoaded {
        // the attribute access on a missing model raises, and the handler clears the prompt
        voicePrompt := None;
        return;
      }
      calls := calls + [CreateVoiceClonePrompt(config.referenceText)];
      match created {
        case Ok(p) => voicePrompt := Some(p);
        case Raised(_) => voicePrompt := None;
      }
    }

    /** `initialize`: returns `Ok(())` or the exception it re-raises. */
    method Initialize(env: InitEnv) returns (r: Outcome<()>)
      requires Valid()
      modifies this
      ensures Valid()
      ensures Step(r, State()) == EngineSpec.Initialize(old(State()), config, env)
    {
      if initialized {
        return Ok(());
      }
      InitializeOutcome(State(), config, env);
      if env.loadModel.Raised? {
        return Raised(env.loadModel.error);
      }
      modelLoaded := true;
      if env.makeCacheDir.Raised? {
        return Raised(env.makeCacheDir.error);
      }
      LoadVoicePrompt(env.referenceExists, env.createdPrompt);
      initialized := true;
      return Ok(());
    }

    /** `synthesize`: returns the clip or the exception it re-raises. */
    method Synthesize(text: string, rate: real, env: RequestEnv) returns (r: Outcome<Bytes>)
      requires Valid()
      modifies this
      ensures Valid()
      ensures Step(r, State()) == EngineSpec.Synthesize(old(State()), config, ext, text, rate, env)
    {
      SynthesizeKeepsValid(State(), config, ext, text, rate, env);
      if !initialized {
        var init := Initialize(env.startup);
        if init.Raised? {
          return Raised(init.error);
        }
      }

      var key := DeriveKey(ext, text, rate, config.modelName);
      if key in audioCache {
        return Ok(audioCache[key]);
      }

      if key in cacheFiles {
        var data := cacheFiles[key];
        audioCache := audioCache[key := data];
        return Ok(data);
      }

      match voicePrompt {
        case Some(p) => calls := calls + [GenerateVoiceClone(text, p, rate)];
        case None => calls := calls + [Generate(text, rate)];
      }
      if env.generated.Raised? {
        return Raised(env.generated.error);
      }
      var encoded := ext.arrayToWav(env.generated.value);
      if encoded.Raised? {
        return Raised(encoded.error);
      }
      var audio := encoded.value;

      audioCache := audioCache[key := audio];
      match env.write {
        case Written =>
          cacheFiles := cacheFiles[key := audio];
          r := Ok(audio);
        case OpenFailed(e) =>
          r := Raised(e);
        case WriteFailed(e, kept) =>
          cacheFiles := cacheFiles[key := Truncated(audio, kept)];
          r := Raised(e);
      }
    }
  }
}

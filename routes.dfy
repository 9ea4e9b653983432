/** The pure pieces of the HTTP routes: the rate clamp of `/synthesize` and what
    `/health` and `/voices` report about the engine. */
module Routes {
  import opened Common
  import opened CacheKey
  import opened EngineSpec

  const MinRate: real := 0.5
  const MaxRate: real := 2.0
  const DefaultRate: real := 1.0

  /** `max(0.5, min(2.0, rate))`: out-of-range rates are clamped, never rejected. */
  function ClampRate(rate: real): (r: real)
    ensures MinRate <= r <= MaxRate
    ensures MinRate <= rate <= MaxRate ==> r == rate
    ensures rate < MinRate ==> r == MinRate
    ensures rate > MaxRate ==> r == MaxRate
  {
    var upper := if rate < MaxRate then rate else MaxRate;
    if upper > MinRate then upper else MinRate
  }

  /** The rate a `/synthesize` request runs at: the given rate, or the default when
      the body has none, clamped in either case. */
  function RequestRate(given: Option<real>): (r: real)
    ensures MinRate <= r <= MaxRate
    ensures given.None? ==> r == DefaultRate
    ensures given.Some? ==> r == ClampRate(given.value)
  {
    ClampRate(match given case Some(rate) => rate case None => DefaultRate)
  }

  /** Rates clamped to the same bound, e.g. 10.0 and 2.0, are treated identically: the
      clamped rate, which is both the generator's speed and part of the key, is the
      same, and so is the cache key. */
  lemma ClampedRatesShareKey(ext: Externals, config: Config, text: string, r1: real, r2: real)
    requires (r1 >= MaxRate && r2 >= MaxRate) || (r1 <= MinRate && r2 <= MinRate)
    ensures ClampRate(r1) == ClampRate(r2)
    ensures DeriveKey(ext, text, ClampRate(r1), config.modelName)
         == DeriveKey(ext, text, ClampRate(r2), config.modelName)
  {
  }

  /** The fields of the `/health` reply. */
  datatype HealthReport = HealthReport(status: string, initialized: bool,
                                       voiceCloneActive: bool, model: string)

  /** `/health`: cloning is reported active only for an initialised engine. */
  function Health(s: EngineState, config: Config): HealthReport
  {
    HealthReport("ok", IsInitialized(s),
                 if IsInitialized(s) then HasVoiceClone(s) else false,
                 config.modelName)
  }

  /** The one voice `/voices` lists. */
  datatype VoiceDescriptor = VoiceDescriptor(id: string, name: string, lang: string,
                                             description: string, status: string)

  /** The status of the narrator voice: "active" when initialised with a clone. */
  function VoiceStatus(s: EngineState): string
  {
    if IsInitialized(s) && HasVoiceClone(s) then "active" else "default"
  }

  /** `/voices`. */
  function Voices(s: EngineState): seq<VoiceDescriptor>
  {
    [VoiceDescriptor("gm-narrator", "Game Master (Lovecraft)", "en",
                     "Mysterious narrator voice for GM commentary", VoiceStatus(s))]
  }

  /** Both routes report cloning exactly when the engine is initialised and has a
      prompt; an uninitialised engine is reported inactive even when a prompt exists. */
  lemma CloneReportsAgree(s: EngineState, config: Config)
    ensures Health(s, config).voiceCloneActive <==> s.initialized && s.voicePrompt.Some?
    ensures Voices(s)[0].status == "active" <==> Health(s, config).voiceCloneActive
    ensures Voices(s)[0].status == "default" <==> !Health(s, config).voiceCloneActive
    ensures Health(s, config).initialized == s.initialized && |Voices(s)| == 1
  {
  }

  /** A fresh engine started without a reference file reports no clone after any
      initialisation attempt. */
  lemma NoReferenceNoClone(config: Config, files: map<Key, Bytes>, env: InitEnv)
    requires !env.referenceExists
    ensures !Health(Initialize(Startup(files), config, env).state, config).voiceCloneActive
  {
  }
}

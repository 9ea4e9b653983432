# TTSEngine: lazy initialisation and a two-tier audio cache

This project models the engine of the local text-to-speech server
(`tts-server/server.py`). The model covers:

- `TTSEngine` and its lazy initialisation;
- the voice-cloning prompt loader;
- `synthesize`, which checks a memory cache first and then the `{key}.wav` files in a cache directory. On a miss it runs the speech model and the WAV encoder and writes the clip back. Memory is written first, then the file;
- the cache key, which is the digest of `text|rate|model_name`;
- the rate clamp of the `/synthesize` route;
- the voice-cloning status reported by `/health` and `/voices`.

Modules:

- `Common` (common.dfy): bytes, keys, `Option`, `Outcome` (a value or a raised exception), configuration, and the uninterpreted foreign functions (`Externals`).
- `CacheKey` (cache_key.dfy): the key content string and its digest, with proofs that, under the one model name a process uses, the content string fixes the text and the printed rate, and that changing any one field alone changes it.
- `EngineSpec` (engine_spec.dfy): the engine state as a value. It has the flag, whether a model is loaded, the prompt, the memory cache, the cache files, and a log of speech-model calls. Each operation is a function on that value. The lemmas state the cache and initialisation properties.
- `Engine` (engine.dfy): the class `TTSEngine`. Its fields are updated in place. Each method is proved to leave exactly the state, and return exactly the result, that the matching `EngineSpec` function gives. Each method also keeps the invariant `Valid`.
- `Routes` (routes.dfy): `ClampRate` and the `/health` and `/voices` projections.

Foreign behaviour comes in as parameters:

- `InitEnv` holds the outcomes of loading the model, creating the cache directory, checking whether the reference file exists, and building the prompt.
- `RequestEnv` holds that, plus the output of whichever generator is called and the outcome of the cache-file write.

Each outcome is used only if the call actually happens. One request can therefore see a different generator output from the next, so the speech model need not be deterministic. MD5, the printing of a float rate, and the WAV encoder are function-typed fields of `Externals`, and any functions may be supplied.

Places where the code differs from the documented intent of the system (the model follows the code):

- **Write order.** The documented intent is that a failed file write caches nothing and that the two tiers hold either both or neither entry for a key. The code stores the clip in memory before it opens the file. A failed write therefore re-raises but leaves a memory entry, and later requests in the same process are served from it (`EngineSpec.FileWriteFailure`). If the failure comes after the file was created, a truncated file stays on disk and is served after a restart.
- **Missing reference file.** The documented intent is that the loader then yields no profile. The code returns early and leaves any existing prompt in place.
- **Empty text.** The documented intent is that the text is non-empty. The route accepts any text value, including the empty string, so the model puts no condition on `text`.
- **Reference upload before initialisation.** Loading the prompt before any model was loaded makes the attribute access on `None` raise. The handler catches this and clears the prompt. The model keeps that case.

## Model

| member | source | states |
|---|---|---|
| `CacheKey.KeyContent` | tts-server/server.py:182 | the content is the text, the separator (the pipe character), the printed rate, the separator and the model name, in that order and nothing else |
| `CacheKey.DeriveKey` | tts-server/server.py:180-183 | the key is the digest of the key content, so it depends on the text, the rate and the model name only; the digest itself is uninterpreted |
| `CacheKey.SameModelContentDeterminesRequest` | tts-server/server.py:180-183 | under one model name, equal key contents mean equal text, even a text containing the separator, and equal printed rate, as long as the printed rates contain no separator |
| `CacheKey.ContentDeterminesText` | tts-server/server.py:182 | with rate and model name fixed, equal contents mean equal texts: changing the text alone changes the content |
| `CacheKey.ContentDeterminesRate` | tts-server/server.py:182 | with text and model name fixed, equal contents mean equal printed rates |
| `CacheKey.ContentDeterminesModel` | tts-server/server.py:182 | with text and rate fixed, equal contents mean equal model names |
| `CacheKey.SplitAtLastSeparator` | tts-server/server.py:182 | any two heads, each joined to a separator-free tail by the separator, are equal only when both heads and tails are equal |
| `CacheKey.KeyContentDeterminesFields` | tts-server/server.py:180-183 | if the text and the printed rate contain no separator (the pipe character), equal key contents mean equal text, printed rate and model name |
| `CacheKey.SplitAtSeparator` | tts-server/server.py:182 | two separator-free fields, each joined to a tail by the separator, are equal only when both the fields and the tails are equal |
| `CacheKey.PipeInTextCollides` | tts-server/server.py:182 | a text containing the separator can give the same key content as a request made under a different model name, e.g. after a restart with another configuration, since the cache files persist |
| `EngineSpec.Startup` | tts-server/server.py:59-64 | the state of a new engine: not initialised, no model, no prompt, empty memory cache, and the cache files already on disk |
| `EngineSpec.IsInitialized` | tts-server/server.py:203-205 | the `is_initialized` property: the initialisation flag |
| `EngineSpec.HasVoiceClone` | tts-server/server.py:207-209 | the `has_voice_clone` property: a prompt is present |
| `EngineSpec.LoadVoicePrompt` | tts-server/server.py:108-126 | the prompt loader as a function of the state; its outcomes are stated by `EngineSpec.LoadVoicePromptOutcomes` |
| `EngineSpec.Initialize` | tts-server/server.py:66-106 | initialisation as a function of the state and the foreign outcomes; its behaviour is stated by `EngineSpec.InitializeIdempotent` and `EngineSpec.InitializeOutcome` |
| `EngineSpec.GeneratorCall` | tts-server/server.py:151-164 | the generator call a miss makes; which one is stated by `EngineSpec.GeneratorChoice` |
| `EngineSpec.Serve` | tts-server/server.py:133-178 | the request after initialisation, memory then file then generation, with memory written before the file; its paths are stated by the lemmas from `EngineSpec.MemoryHit` to `EngineSpec.FileWriteFailure` |
| `EngineSpec.Synthesize` | tts-server/server.py:128-178 | a whole request, lazy initialisation first; its properties are stated by the lemmas below |
| `EngineSpec.StartupValid` | tts-server/server.py:59-64 | a new engine is uninitialised, has no prompt and satisfies the engine invariant |
| `EngineSpec.LoadVoicePromptOutcomes` | tts-server/server.py:108-126 | missing reference file: nothing changes. With a model, success installs the new prompt and a failure clears it. With no model, the prompt is cleared. The prompt and the call log are the only fields that can change |
| `EngineSpec.InitializeIdempotent` | tts-server/server.py:66-69 | `initialize` on an initialised engine returns and changes nothing |
| `EngineSpec.InitializeOutcome` | tts-server/server.py:66-106 | initialisation succeeds iff the model loads and the cache directory is created; the flag is raised only then, after the prompt is loaded; a failure re-raises that exception with the flag still false; the caches are untouched |
| `EngineSpec.InitFailureAborts` | tts-server/server.py:128-131 | a failed lazy initialisation re-raises before the cache is consulted and leaves the engine uninitialised |
| `EngineSpec.MemoryHit` | tts-server/server.py:133-137 | a memory hit returns the stored bytes and leaves the whole state, files and model-call log included, unchanged |
| `EngineSpec.FileHit` | tts-server/server.py:139-146 | a memory miss with the file present returns the file's bytes, copies exactly those bytes into memory under the key, and changes nothing else |
| `EngineSpec.FullMiss` | tts-server/server.py:148-174 | a full miss with successful generation, encoding and write returns the clip, stores it under the same key in both tiers, and records exactly one generator call |
| `EngineSpec.GeneratorChoice` | tts-server/server.py:151-164 | the voice-cloning generator is called, with the current prompt, exactly when `has_voice_clone` holds; otherwise the default generator is called |
| `EngineSpec.GenerationFailure` | tts-server/server.py:151-178 | if generation or encoding raises, that exception propagates, no cache entry is created, and only the generator call is recorded |
| `EngineSpec.FileWriteFailure` | tts-server/server.py:166-178 | a failed write re-raises, and the whole new state is given: the clip stays in memory, one generator call is recorded, and nothing else changes. After a failed open the key is in memory only. After a failed write the file holds a prefix of the clip |
| `EngineSpec.ServedClipIsInMemory` | tts-server/server.py:128-174 | every successful request leaves the engine initialised, with the returned bytes in memory under the request's key |
| `EngineSpec.SecondRequestServedFromMemory` | tts-server/server.py:133-137 | after one success, the same (text, rate) returns byte-identical audio and changes nothing, whatever the foreign calls would now return |
| `EngineSpec.SynthesizeFootprint` | tts-server/server.py:128-178 | a request never replaces or removes an existing entry in either tier, and leaves every other key's memory and file entries as they were |
| `EngineSpec.SynthesizeKeepsEngineFields` | tts-server/server.py:128-178 | on an initialised engine a request keeps the flag set and leaves the model and the prompt unchanged |
| `EngineSpec.SynthesizeKeepsValid` | tts-server/server.py:128-178 | every request keeps the invariant: initialised only with a model, a prompt only with a model, memory empty before initialisation |
| `Engine.TTSEngine.constructor` | tts-server/server.py:59-64 | the new object's state is the startup state over the existing cache files |
| `Engine.TTSEngine.LoadVoicePrompt` | tts-server/server.py:108-126 | the in-place loader leaves the state `EngineSpec.LoadVoicePrompt` gives and keeps `Valid` |
| `Engine.TTSEngine.Initialize` | tts-server/server.py:66-106 | the in-place initialiser returns the outcome and leaves the state `EngineSpec.Initialize` gives, and keeps `Valid` |
| `Engine.TTSEngine.Synthesize` | tts-server/server.py:128-178 | the in-place request returns the outcome and leaves the state `EngineSpec.Synthesize` gives, and keeps `Valid` |
| `Routes.ClampRate` | tts-server/server.py:253 | the clamped rate lies in [0.5, 2.0], equals the input when the input is in range, and is the nearer bound otherwise |
| `Routes.RequestRate` | tts-server/server.py:250-253 | the request's rate is the given one clamped, or the default 1.0 when none is given, and always lies in [0.5, 2.0] |
| `Routes.ClampedRatesShareKey` | tts-server/server.py:250-256 | two rates clamped to the same bound, such as 10.0 and 2.0, are treated identically: the same clamped rate, which the generator receives, and the same cache key |
| `Routes.Health` | tts-server/server.py:219-227 | the `/health` reply: status ok, the flag, cloning active only when initialised, the model name |
| `Routes.VoiceStatus` | tts-server/server.py:285-288 | the voice's status: active when initialised with a prompt, default otherwise |
| `Routes.Voices` | tts-server/server.py:273-290 | the `/voices` list: the one narrator voice with that status |
| `Routes.CloneReportsAgree` | tts-server/server.py:219-290 | `/health` reports cloning active, and `/voices` reports status `"active"`, exactly when the engine is initialised and has a prompt; `/voices` lists one voice |
| `Routes.NoReferenceNoClone` | tts-server/server.py:108-115 | a fresh engine with no reference file reports no voice clone after any initialisation attempt |

## Left out

- HTTP routing, JSON parsing, responses and CORS. Also `main` and the banner and log output. These are plumbing around the engine. Of the routes, only the rate clamp and the two status projections are modelled.
- The `/reference` upload route and the `/status` route. `/reference` saves a file, rewrites the configured reference transcript and then calls the prompt loader. The loader is modelled, but the engine's configuration is a constant, so the rewritten transcript that the next prompt is built from is not followed; a prompt call records the transcript the engine was created with. The cloning flag that `/status` reports is the same expression as the one in `/health`.
- Loading the speech library and model, and choosing the device. These are one abstract outcome that may raise. The loaded model is tracked only as "a model is loaded".
- MD5, the way Python prints a float rate, and the WAV encoder `_array_to_wav`, with its float-to-int16 scaling. These are foreign or floating-point code, so they appear as uninterpreted functions. The digest's collision resistance is not modelled. Equal key contents give equal keys, and nothing is claimed for different contents.
- Routes.ClampRate: works over mathematical reals. A NaN rate, an infinite rate, and a rate that is a JSON integer (printed as `1` rather than `1.0`, so it gets a different key) are not modelled. Neither is a non-numeric rate, which raises.
- Encoding the key content as UTF-8 before hashing. For a text holding a lone surrogate this raises after lazy initialisation and before any cache lookup. Dafny strings cannot hold such a character, and the digest is a total function, so that error path is not modelled.
- Real file-system calls: `mkdir`, `exists`, `open`, `read`, `write`. The cache directory is a map from key to bytes, the reference file is a boolean, and each call's failure is a parameter. Reading a file that exists is assumed to succeed.
- Multithreaded serving, and the race between two first requests that both initialise. Concurrency is not modelled.
- The unused `_download_progress` field and all logging.

/** The process-wide retrieval settings of lib/rag-settings.ts: the defaults, the in-memory
    store and its get, update and reset operations. Settings are values, so every copy the
    source makes with a spread is a fresh value here. */
module RagSettings {
  import opened Collections

  datatype RAGSettings = RAGSettings(
    threshold: real, maxResults: int, maxExcerpts: int, temperature: real, minThreshold: real)

  /** A `Partial<RAGSettings>`: a present field overrides, an absent one keeps the old value. */
  datatype PartialSettings = PartialSettings(
    threshold: Option<real>, maxResults: Option<int>, maxExcerpts: Option<int>,
    temperature: Option<real>, minThreshold: Option<real>)

  const DefaultRAGSettings: RAGSettings := RAGSettings(0.6, 5, 3, 0.7, 0.35)

  const NoChange: PartialSettings := PartialSettings(None, None, None, None, None)

  /** The defaults try their own threshold first and end below the fixed middle step 0.45 of
      the dynamic-threshold search. */
  lemma DefaultsOrdered()
    ensures DefaultRAGSettings.minThreshold < 0.45 < DefaultRAGSettings.threshold
    ensures DefaultRAGSettings.maxResults == 5 && DefaultRAGSettings.maxExcerpts == 3
  {
  }

  function Pick<T>(patch: Option<T>, current: T): T
  {
    if patch.Some? then patch.value else current
  }

  /** `{ ...current, ...patch }`. */
  function Merge(current: RAGSettings, patch: PartialSettings): (r: RAGSettings)
    ensures patch.threshold.Some? ==> r.threshold == patch.threshold.value
    ensures patch.threshold.None? ==> r.threshold == current.threshold
    ensures patch.maxResults.Some? ==> r.maxResults == patch.maxResults.value
    ensures patch.maxResults.None? ==> r.maxResults == current.maxResults
    ensures patch.maxExcerpts.Some? ==> r.maxExcerpts == patch.maxExcerpts.value
    ensures patch.maxExcerpts.None? ==> r.maxExcerpts == current.maxExcerpts
    ensures patch.temperature.Some? ==> r.temperature == patch.temperature.value
    ensures patch.temperature.None? ==> r.temperature == current.temperature
    ensures patch.minThreshold.Some? ==> r.minThreshold == patch.minThreshold.value
    ensures patch.minThreshold.None? ==> r.minThreshold == current.minThreshold
  {
    RAGSettings(
      Pick(patch.threshold, current.threshold), Pick(patch.maxResults, current.maxResults),
      Pick(patch.maxExcerpts, current.maxExcerpts), Pick(patch.temperature, current.temperature),
      Pick(patch.minThreshold, current.minThreshold))
  }

  /** Applying the same partial update twice changes nothing the first did not. */
  lemma MergeIdempotent(current: RAGSettings, patch: PartialSettings)
    ensures Merge(Merge(current, patch), patch) == Merge(current, patch)
  {
  }

  /** An empty partial update keeps every setting. */
  lemma MergeNothing(current: RAGSettings)
    ensures Merge(current, NoChange) == current
  {
  }

  /** The fields of `later`, with those of `earlier` where `later` has none. */
  function Then(earlier: PartialSettings, later: PartialSettings): PartialSettings
  {
    PartialSettings(
      if later.threshold.Some? then later.threshold else earlier.threshold,
      if later.maxResults.Some? then later.maxResults else earlier.maxResults,
      if later.maxExcerpts.Some? then later.maxExcerpts else earlier.maxExcerpts,
      if later.temperature.Some? then later.temperature else earlier.temperature,
      if later.minThreshold.Some? then later.minThreshold else earlier.minThreshold)
  }

  /** Two updates in a row are one update with the later values winning. */
  lemma MergeTwice(current: RAGSettings, earlier: PartialSettings, later: PartialSettings)
    ensures Merge(Merge(current, earlier), later) == Merge(current, Then(earlier, later))
  {
  }

  /** The module-level `currentSettings` and the functions that read and replace it. */
  class SettingsStore {
    var current: RAGSettings

    /** Module load: a copy of the defaults, then the overrides found in the environment
        (`env` holds the already parsed values of the variables that are set). */
    constructor (env: PartialSettings)
      ensures current == Merge(DefaultRAGSettings, env)
    {
      current := DefaultRAGSettings;
      new;
      if env.threshold.Some? { current := current.(threshold := env.threshold.value); }
      if env.maxResults.Some? { current := current.(maxResults := env.maxResults.value); }
      if env.maxExcerpts.Some? { current := current.(maxExcerpts := env.maxExcerpts.value); }
      if env.temperature.Some? { current := current.(temperature := env.temperature.value); }
      if env.minThreshold.Some? { current := current.(minThreshold := env.minThreshold.value); }
    }

    /** `getRAGSettings`: the stored settings, as a value the caller cannot alias. */
    method GetRAGSettings() returns (s: RAGSettings)
      ensures s == current
    {
      s := current;
    }

    /** `updateRAGSettings`: the present fields replace the stored ones; the result is what
        the next `getRAGSettings` returns. */
    method UpdateRAGSettings(patch: PartialSettings) returns (s: RAGSettings)
      modifies this
      ensures current == Merge(old(current), patch)
      ensures s == current
    {
      current := Merge(current, patch);
      s := current;
    }

    /** `resetRAGSettings`: back to a copy of the defaults, whatever came before. */
    method ResetRAGSettings() returns (s: RAGSettings)
      modifies this
      ensures current == DefaultRAGSettings
      ensures s == current
    {
      current := DefaultRAGSettings;
      s := current;
    }
  }
}

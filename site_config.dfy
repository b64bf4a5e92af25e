/**
 * The slider part of the page configuration: built-in defaults for the two
 * carousels (both disabled, `count == 0`) and the shallow, key-wise merge of the
 * fetched document's `sliders` object over them (`Object.assign`).
 */
module SiteConfig {
  import opened Wrappers

  /** One carousel's configuration: the folder holding its numbered images, and how many there are. */
  datatype SliderConfig = SliderConfig(folder: string, count: int)

  const MEMORIES: string := "memories"
  const PRESHOOT: string := "preshoot"

  const DEFAULT_SLIDERS: map<string, SliderConfig> := map[
    MEMORIES := SliderConfig("images/memories", 0),
    PRESHOOT := SliderConfig("images/preshoot", 0)
  ]

  /** `Object.assign(base, overrides)` on a map of whole entries: an overriding entry replaces the base entry. */
  function Merge(base: map<string, SliderConfig>, overrides: map<string, SliderConfig>): (r: map<string, SliderConfig>)
    ensures r.Keys == base.Keys + overrides.Keys
    ensures forall k :: k in overrides ==> r[k] == overrides[k]
    ensures forall k :: k in base && k !in overrides ==> r[k] == base[k]
  {
    base + overrides
  }

  /** Merging the same overrides a second time changes nothing. */
  lemma MergeIdempotent(base: map<string, SliderConfig>, overrides: map<string, SliderConfig>)
    ensures Merge(Merge(base, overrides), overrides) == Merge(base, overrides)
  {
  }

  /**
   * The configurations the page constructs its two sliders with: none when the
   * document has no `sliders` object, otherwise the memories and preshoot
   * entries of the merged configuration.
   */
  function SliderConfigs(sliders: Option<map<string, SliderConfig>>): (r: Option<(SliderConfig, SliderConfig)>)
    ensures sliders.None? <==> r.None?
    ensures sliders.Some? ==>
      && r.value.0 == (if MEMORIES in sliders.value then sliders.value[MEMORIES] else SliderConfig("images/memories", 0))
      && r.value.1 == (if PRESHOOT in sliders.value then sliders.value[PRESHOOT] else SliderConfig("images/preshoot", 0))
  {
    match sliders
    case None => None
    case Some(overrides) =>
      var merged := Merge(DEFAULT_SLIDERS, overrides);
      Some((merged[MEMORIES], merged[PRESHOOT]))
  }
}

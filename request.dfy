/** The request-level inputs of the retrieve-then-read approach: the overrides
    bag a caller sends with each question, and the configuration the approach
    object is constructed with. */
module Request {
  import opened Wrappers

  /** What `overrides.get(key)` sees: the key is missing, it is present with
      the JSON null value, or it is present with a value. */
  datatype Entry<T> = Missing | Null | Given(value: T)

  /** A sampling temperature. It is passed to the completion service
      unchanged; the only thing the approach asks of it is whether it is zero
      (Python's truthiness of a number). */
  datatype Temperature = Temperature(value: real)

  /** The overrides the approach reads. `retrieval_mode` is a string in
      practice; any value that is not one of the recognised strings behaves
      like an unrecognised string. */
  datatype Overrides = Overrides(
    retrievalMode: Entry<string>,
    semanticRanker: Entry<bool>,
    semanticCaptions: Entry<bool>,
    top: Entry<int>,
    temperature: Entry<Temperature>,
    promptTemplate: Entry<string>)

  /** `context.get("overrides", {})` when the caller sent no overrides. */
  const NoOverrides := Overrides(Missing, Missing, Missing, Missing, Missing, Missing)

  /** The fields of the approach object that its answers depend on. */
  datatype Config = Config(
    chatgptModel: string,
    embeddingModel: string,
    queryLanguage: string,
    querySpeller: string)

  /** Python truthiness of a boolean switch read with `overrides.get`. */
  predicate Enabled(e: Entry<bool>)
  {
    e == Given(true)
  }

  /** The number of results asked of the index. */
  const DefaultTop := 3

  /** `overrides.get("top", 3)`: the default replaces a missing key only; an
      explicit null is passed on as null. */
  function Top(o: Overrides): (t: Option<int>)
    ensures t.None? <==> o.top.Null?
    ensures o.top.Missing? ==> t == Some(DefaultTop)
    ensures o.top.Given? ==> t == Some(o.top.value)
  {
    match o.top
    case Missing => Some(DefaultTop)
    case Null => None
    case Given(n) => Some(n)
  }

  const DefaultTemperature := Temperature(0.3)

  /** `overrides.get("temperature") or 0.3`: a missing, null or zero
      temperature falls back to 0.3, so the completion service is never asked
      for temperature zero. */
  function SamplingTemperature(o: Overrides): (t: Temperature)
    ensures t.value != 0.0
    ensures t == DefaultTemperature || o.temperature == Given(t)
    ensures (o.temperature.Given? && o.temperature.value.value != 0.0) <==> o.temperature == Given(t)
  {
    if o.temperature.Given? && o.temperature.value.value != 0.0 then o.temperature.value
    else DefaultTemperature
  }
}

/** The three model names the form offers and the inference endpoints they map to.
    The form offers `DeBERTa-v3` while the map's key is spelt `DeBERTa-V3`, so looking
    up that choice fails (a `KeyError` that ends the run). */
module Endpoints {

  import opened Options

  const ApiBase: string := "https://api-inference.huggingface.co/models/"

  const UrlMap: map<string, string> := map[
    "distil-bart" := ApiBase + "valhalla/distilbart-mnli-12-3",
    "bart-large" := ApiBase + "facebook/bart-large-mnli",
    "DeBERTa-V3" := ApiBase + "MoritzLaurer/DeBERTa-v3-base-mnli-fever-anli"
  ]

  /** The options of the model select box, in display order. */
  const ModelChoices: seq<string> := ["distil-bart", "bart-large", "DeBERTa-v3"]

  /** `url_map[model]`, with `None` for the `KeyError`. */
  function LookupUrl(model: string): (url: Option<string>)
    ensures url.Some? <==> model in UrlMap.Keys
    ensures url.Some? ==> ApiBase <= url.value && url.value in UrlMap.Values
  {
    if model in UrlMap then Some(UrlMap[model]) else None
  }

  /** Of the offered choices, exactly the third has no endpoint. */
  lemma OnlyDebertaChoiceFails()
    ensures forall i | 0 <= i < |ModelChoices| :: LookupUrl(ModelChoices[i]).None? <==> i == 2
    ensures LookupUrl("distil-bart") == Some(ApiBase + "valhalla/distilbart-mnli-12-3")
    ensures LookupUrl("bart-large") == Some(ApiBase + "facebook/bart-large-mnli")
  {
  }
}

/** The query-string keys of the admin product filter, in chip order, and
    their chip labels. */
module ProductFilterFields {

  const Keys: seq<string> := [
    "brand", "type", "subType", "isWireless", "isRGB", "minPrice", "maxPrice"
  ]

  const Labels: map<string, string> := map[
    "brand" := "Brand",
    "type" := "Type",
    "subType" := "Sub-Type",
    "isWireless" := "Wireless",
    "isRGB" := "RGB",
    "minPrice" := "Min Start Price",
    "maxPrice" := "Max Start Price"
  ]

  /** Seven keys, pairwise distinct. */
  lemma KeysDistinct()
    ensures |Keys| == 7
    ensures forall i, j :: 0 <= i < j < |Keys| ==> Keys[i] != Keys[j]
  {
  }

  /** Every key has a label, every label is non-empty, and nothing else is
      labelled. */
  lemma LabelsCoverKeys()
    ensures Labels.Keys == set k | k in Keys
    ensures forall k :: k in Labels ==> Labels[k] != ""
  {
  }
}

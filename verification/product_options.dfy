/** The product option lists offered by the product and auction forms:
    ten brands, five product types, and the sub-types of each type.
 */
module ProductOptions {

  const BrandList: seq<string> := [
    "Razer", "Nubwo", "Logitech", "Signo", "SteelSeries",
    "HyperX", "Corsair", "Neolution E-sport", "Keychron", "Zowie"
  ]

  const TypeList: seq<string> := [
    "Headphone", "Mouse", "Keyboard", "Streaming", "Table&Chair"
  ]

  const SubTypeMap: map<string, seq<string>> := map[
    "Headphone" := ["TrueWireless", "Wireless", "Fullsize", "InEar", "Earbud", "SoundCard", "Accessory"],
    "Mouse" := ["Mouse", "Mousepad", "Accessory"],
    "Keyboard" := ["RubberDome", "Mechanical", "WristRest"],
    "Streaming" := ["Webcam", "Microphone", "Accessory"],
    "Table&Chair" := ["Table", "Chair"]
  ]

  predicate Distinct(xs: seq<string>) {
    forall i, j :: 0 <= i < j < |xs| ==> xs[i] != xs[j]
  }

  /** Ten distinct brands and five distinct types. */
  lemma ListsAreDistinct()
    ensures |BrandList| == 10 && Distinct(BrandList)
    ensures |TypeList| == 5 && Distinct(TypeList)
  {
  }

  /** The sub-type table has an entry for exactly the listed types. */
  lemma SubTypeMapCoversTypes()
    ensures SubTypeMap.Keys == set t | t in TypeList
  {
  }

  /** Every type offers at least one sub-type, none of them twice. */
  lemma SubTypeListsWellFormed()
    ensures forall t :: t in SubTypeMap ==> SubTypeMap[t] != [] && Distinct(SubTypeMap[t])
  {
  }

  /** A sub-type does not determine its type: "Accessory" belongs to three
      types. */
  lemma SubTypeIsShared()
    ensures "Accessory" in SubTypeMap["Headphone"]
    ensures "Accessory" in SubTypeMap["Mouse"]
    ensures "Accessory" in SubTypeMap["Streaming"]
    ensures !(forall s, t, u :: t in SubTypeMap && u in SubTypeMap && s in SubTypeMap[t] && s in SubTypeMap[u] ==> t == u)
  {
    assert SubTypeMap["Headphone"][6] == "Accessory";
    assert SubTypeMap["Mouse"][2] == "Accessory";
  }
}

/**
 * The constant tables of client/src/config/constants.ts: the editor tabs,
 * the filter tabs, the download tab and the `DecalTypes` lookup.
 * Icons are imported assets; a tab's icon is modelled by the name it is
 * imported under.
 */
module Constants {
  import opened Wrappers

  /** `TabType`: a tab name, an optional icon and an optional button label. */
  datatype Tab = Tab(name: string, icon: Option<string>, buttonName: Option<string>)

  /** Every name the `TabType.name` union admits. */
  const TabNames: set<string> :=
    {"colorpicker", "filepicker", "aipicker", "stylishShirt", "logoShirt",
     "download", "leftShoulder", "rightShoulder", "back"}

  const EditorTabs: seq<Tab> := [
    Tab("colorpicker", Some("swatch"), None),
    Tab("filepicker", Some("fileIcon"), None),
    Tab("aipicker", Some("ai"), None)
  ]

  const FilterTabs: seq<Tab> := [
    Tab("logoShirt", None, Some("Chest")),
    Tab("stylishShirt", None, Some("Full")),
    Tab("leftShoulder", None, Some("Left")),
    Tab("rightShoulder", None, Some("Right")),
    Tab("back", None, Some("Back"))
  ]

  const DownloadTab: Tab := Tab("download", Some("download"), None)

  /** One entry of `DecalTypes`: the state property it names and its filter tab. */
  datatype DecalEntry = DecalEntry(stateProperty: string, filterTab: string)

  const DecalTypes: map<string, DecalEntry> := map[
    "logo" := DecalEntry("logoDecal", "logoShirt"),
    "full" := DecalEntry("fullDecal", "stylishShirt"),
    "leftShoulder" := DecalEntry("isLeftShoulderLogo", "leftShoulder"),
    "rightShoulder" := DecalEntry("isRightShoulderLogo", "rightShoulder"),
    "back" := DecalEntry("isBackLogo", "back")
  ]

  /** The names of a tab table, in table order. */
  function Names(tabs: seq<Tab>): (r: seq<string>)
    ensures |r| == |tabs|
    ensures forall i :: 0 <= i < |tabs| ==> r[i] == tabs[i].name
  {
    if tabs == [] then [] else [tabs[0].name] + Names(tabs[1..])
  }

  lemma FilterTabsInOrder()
    ensures Names(FilterTabs) == ["logoShirt", "stylishShirt", "leftShoulder", "rightShoulder", "back"]
  {
  }

  lemma FilterTabNamesDistinct()
    ensures forall i, j :: 0 <= i < j < |FilterTabs| ==> FilterTabs[i].name != FilterTabs[j].name
  {
  }

  lemma EditorTabsInOrder()
    ensures Names(EditorTabs) == ["colorpicker", "filepicker", "aipicker"]
  {
  }

  /** Every `DecalTypes` entry points at a filter tab that the filter bar shows. */
  lemma DecalFilterTabsAreFilterTabs()
    ensures forall k :: k in DecalTypes ==> DecalTypes[k].filterTab in Names(FilterTabs)
  {
    FilterTabsInOrder();
  }

  /** The download tab is a tab of its own: it is in neither table. */
  lemma DownloadTabIsSeparate()
    ensures DownloadTab.name == "download"
    ensures DownloadTab.name !in Names(FilterTabs) && DownloadTab.name !in Names(EditorTabs)
  {
    FilterTabsInOrder();
    EditorTabsInOrder();
  }

  /** Every tab of every table carries a name the `TabType` union admits. */
  lemma TabsUseDeclaredNames()
    ensures forall t :: t in EditorTabs + FilterTabs + [DownloadTab] ==> t.name in TabNames
  {
  }
}

/**
 * The customiser page of client/src/pages/Customizer.tsx: its component
 * state (the chosen file, the open editor tab and the five filter-tab
 * switches) and the handlers that drive it together with the shared store.
 *
 * `Session` is everything the handlers read and write at one moment; the
 * functions below give each handler's effect on a `Session`, and the class
 * `Page` performs the same effect on the shared `Store.State` object and its
 * own fields in place. React's state setters are applied immediately, in the
 * order the handler calls them.
 */
module Customizer {
  import opened Wrappers
  import Constants
  import Store

  /** A file the user picked; only its identity matters here. */
  datatype FileHandle = FileHandle(name: string)

  /** What reading a file yields: a data URL, an `ArrayBuffer` or `null`. */
  datatype ReadResult = DataUrl(url: string) | Buffer | Null

  /** The editor panel `generateTabContent` shows. */
  datatype Panel = ColorPicker | FilePicker

  /** The filter-tab switches as the page mounts them. */
  const InitialFilterTabs: map<string, bool> := map[
    "logoShirt" := true,
    "stylishShirt" := false,
    "leftShoulder" := false,
    "rightShoulder" := false,
    "back" := false
  ]

  /** `activeFilterTab[name]` read as a condition: a missing key is `undefined`, which is false. */
  predicate IsOn(tabs: map<string, bool>, name: string) {
    name in tabs && tabs[name]
  }

  datatype Session = Session(
    store: Store.Record,
    file: Option<FileHandle>,
    activeEditorTab: string,
    activeFilterTab: map<string, bool>)

  /** The store as created and the page's component state as mounted. */
  const Mounted: Session := Session(Store.Initial, None, "", InitialFilterTabs)

  /** The texture flags agree with the chest and full filter switches. */
  predicate Consistent(s: Session) {
    && s.store.isLogoTexture == IsOn(s.activeFilterTab, "logoShirt")
    && s.store.isFullTexture == IsOn(s.activeFilterTab, "stylishShirt")
  }

  /** `generateTabContent`: the panel for the open editor tab, if it has one. */
  function TabContent(activeEditorTab: string): (r: Option<Panel>)
    ensures r == Some(ColorPicker) <==> activeEditorTab == "colorpicker"
    ensures r == Some(FilePicker) <==> activeEditorTab == "filepicker"
    ensures r.Some? ==> activeEditorTab in Constants.TabNames
  {
    match activeEditorTab
    case "colorpicker" => Some(ColorPicker)
    case "filepicker" => Some(FilePicker)
    case _ => None
  }

  /** The decal kinds `handleDecals` knows. */
  const DecalKinds: set<string> := {"logo", "full", "leftShoulder", "rightShoulder", "back"}

  /** The filter-tab names of the filter bar (the `FilterTabNames` type). */
  const FilterTabNames: set<string> := {"logoShirt", "stylishShirt", "leftShoulder", "rightShoulder", "back"}

  /** What `handleDecals` does for one decal kind: its flag, its filter tab and the image field it writes. */
  datatype DecalType = DecalType(stateProperty: Store.BooleanKey, filterTab: string, imageProperty: Store.StringKey)

  /** The switch at the top of `handleDecals`; `None` is its `default: return`. */
  function DecalTypeOf(kind: string): (r: Option<DecalType>)
    ensures r.Some? <==> kind in DecalKinds
    ensures r.Some? ==> r.value.filterTab in FilterTabNames
    ensures r.Some? ==> r.value.imageProperty == (if kind == "full" then Store.FullDecal else Store.LogoDecal)
    ensures r.Some? ==> (r.value.stateProperty == Store.IsLogoTexture <==> kind == "logo")
    ensures r.Some? ==> (r.value.stateProperty == Store.IsFullTexture <==> kind == "full")
  {
    match kind
    case "logo" => Some(DecalType(Store.IsLogoTexture, "logoShirt", Store.LogoDecal))
    case "full" => Some(DecalType(Store.IsFullTexture, "stylishShirt", Store.FullDecal))
    case "leftShoulder" => Some(DecalType(Store.IsLeftShoulderLogo, "leftShoulder", Store.LogoDecal))
    case "rightShoulder" => Some(DecalType(Store.IsRightShoulderLogo, "rightShoulder", Store.LogoDecal))
    case "back" => Some(DecalType(Store.IsBackLogo, "back", Store.LogoDecal))
    case _ => None
  }

  /**
   * `handleActiveFilterTab`: flips the named switch; for the chest and full
   * tabs the matching texture flag follows the new switch, for any other
   * name the chest texture is turned on and the full texture off.
   */
  function ToggleFilterTab(s: Session, tabName: string): (r: Session)
    ensures IsOn(r.activeFilterTab, tabName) == !IsOn(s.activeFilterTab, tabName)
    ensures forall n :: n != tabName ==> IsOn(r.activeFilterTab, n) == IsOn(s.activeFilterTab, n)
    ensures r.activeFilterTab.Keys == s.activeFilterTab.Keys + {tabName}
    ensures tabName == "logoShirt" ==>
      r.store.isLogoTexture == IsOn(r.activeFilterTab, "logoShirt") &&
      r.store.(isLogoTexture := s.store.isLogoTexture) == s.store
    ensures tabName == "stylishShirt" ==>
      r.store.isFullTexture == IsOn(r.activeFilterTab, "stylishShirt") &&
      r.store.(isFullTexture := s.store.isFullTexture) == s.store
    ensures tabName != "logoShirt" && tabName != "stylishShirt" ==>
      r.store.isLogoTexture && !r.store.isFullTexture &&
      r.store.(isLogoTexture := s.store.isLogoTexture, isFullTexture := s.store.isFullTexture) == s.store
    ensures r.file == s.file && r.activeEditorTab == s.activeEditorTab
  {
    var store :=
      if tabName == "logoShirt" then s.store.(isLogoTexture := !IsOn(s.activeFilterTab, tabName))
      else if tabName == "stylishShirt" then s.store.(isFullTexture := !IsOn(s.activeFilterTab, tabName))
      else s.store.(isLogoTexture := true, isFullTexture := false);
    s.(store := store,
       activeFilterTab := s.activeFilterTab[tabName := !IsOn(s.activeFilterTab, tabName)])
  }

  /**
   * `handleDecals`: for a known kind and a data URL, writes the URL to the
   * kind's image field and makes sure its filter tab is on (toggling it only
   * when it was off); anything else changes nothing. Toggling the tab on
   * turns on the chest texture for "logo", the full texture for "full", and
   * for the shoulder and back kinds takes the toggle's default branch:
   * chest texture on, full texture off.
   */
  function ApplyDecal(s: Session, kind: string, result: ReadResult): (r: Session)
    ensures kind !in DecalKinds || !result.DataUrl? ==> r == s
    ensures kind in DecalKinds && result.DataUrl? ==>
      var d := DecalTypeOf(kind).value;
      && r.store.Text(d.imageProperty) == result.url
      && IsOn(r.activeFilterTab, d.filterTab)
      && (forall n :: n != d.filterTab ==> IsOn(r.activeFilterTab, n) == IsOn(s.activeFilterTab, n))
      && (IsOn(s.activeFilterTab, d.filterTab) ==>
            r.activeFilterTab == s.activeFilterTab && r.store == s.store.WithText(d.imageProperty, result.url))
    ensures kind in DecalKinds && result.DataUrl? && !IsOn(s.activeFilterTab, DecalTypeOf(kind).value.filterTab) ==>
      && (kind == "logo" ==> r.store.isLogoTexture && r.store.isFullTexture == s.store.isFullTexture)
      && (kind == "full" ==> r.store.isFullTexture && r.store.isLogoTexture == s.store.isLogoTexture)
      && (kind != "logo" && kind != "full" ==> r.store.isLogoTexture && !r.store.isFullTexture)
    ensures forall k :: k != Store.IsLogoTexture && k != Store.IsFullTexture ==> r.store.Flag(k) == s.store.Flag(k)
    ensures forall k :: k != Store.LogoDecal && k != Store.FullDecal ==> r.store.Text(k) == s.store.Text(k)
    ensures kind == "full" ==> r.store.logoDecal == s.store.logoDecal
    ensures kind != "full" ==> r.store.fullDecal == s.store.fullDecal
    ensures r.file == s.file && r.activeEditorTab == s.activeEditorTab
  {
    match DecalTypeOf(kind)
    case None => s
    case Some(d) =>
      if result.DataUrl? then
        var written := s.(store := s.store.WithText(d.imageProperty, result.url));
        if !IsOn(written.activeFilterTab, d.filterTab) then ToggleFilterTab(written, d.filterTab) else written
      else s
  }

  /**
   * `readFile` together with the completion of its read: without a chosen
   * file nothing happens; otherwise the decal is applied and the editor
   * panel is closed.
   */
  function CompleteRead(s: Session, kind: string, result: ReadResult): (r: Session)
    ensures s.file.None? ==> r == s
    ensures s.file.Some? ==>
      && r.activeEditorTab == ""
      && TabContent(r.activeEditorTab).None?
      && r.store == ApplyDecal(s, kind, result).store
      && r.activeFilterTab == ApplyDecal(s, kind, result).activeFilterTab
    ensures r.file == s.file
  {
    if s.file.None? then s
    else ApplyDecal(s, kind, result).(activeEditorTab := "")
  }

  /** Clicking an editor tab opens it. */
  function OpenEditorTab(s: Session, tabName: string): (r: Session)
    ensures r.activeEditorTab == tabName
    ensures TabContent(r.activeEditorTab).Some? <==> tabName == "colorpicker" || tabName == "filepicker"
    ensures r.store == s.store && r.file == s.file && r.activeFilterTab == s.activeFilterTab
  {
    s.(activeEditorTab := tabName)
  }

  /** The "Back" button returns to the intro page. */
  function BackToIntro(s: Session): (r: Session)
    ensures r.store.intro
    ensures r.store.(intro := s.store.intro) == s.store
    ensures r.file == s.file && r.activeEditorTab == s.activeEditorTab && r.activeFilterTab == s.activeFilterTab
  {
    s.(store := s.store.(intro := true))
  }

  /** The file picker hands the chosen file (or none) to `setFile`. */
  function ChooseFile(s: Session, file: Option<FileHandle>): (r: Session)
    ensures r.file == file
    ensures r.store == s.store && r.activeEditorTab == s.activeEditorTab && r.activeFilterTab == s.activeFilterTab
  {
    s.(file := file)
  }

  /** The mounted page: the shared store plus the component's own state. */
  class Page {
    const state: Store.State
    var file: Option<FileHandle>
    var activeEditorTab: string
    var activeFilterTab: map<string, bool>

    function Current(): Session
      reads this, state
    {
      Session(state.Snapshot(), file, activeEditorTab, activeFilterTab)
    }

    /** Mounting the page; the shared store is whatever it holds at that moment. */
    constructor (state: Store.State)
      ensures this.state == state
      ensures file == None && activeEditorTab == "" && activeFilterTab == InitialFilterTabs
    {
      this.state := state;
      file := None;
      activeEditorTab := "";
      activeFilterTab := InitialFilterTabs;
    }

    method HandleActiveFilterTab(tabName: string)
      modifies state, this`activeFilterTab
      ensures Current() == ToggleFilterTab(old(Current()), tabName)
    {
      if tabName == "logoShirt" {
        state.isLogoTexture := !IsOn(activeFilterTab, tabName);
      } else if tabName == "stylishShirt" {
        state.isFullTexture := !IsOn(activeFilterTab, tabName);
      } else {
        state.isLogoTexture := true;
        state.isFullTexture := false;
      }
      activeFilterTab := activeFilterTab[tabName := !IsOn(activeFilterTab, tabName)];
    }

    method HandleDecals(kind: string, result: ReadResult)
      modifies state, this`activeFilterTab
      ensures Current() == ApplyDecal(old(Current()), kind, result)
    {
      var decalType := DecalTypeOf(kind);
      if decalType.None? {
        return;
      }
      var d := decalType.value;
      if result.DataUrl? {
        state.SetText(d.imageProperty, result.url);
        if !IsOn(activeFilterTab, d.filterTab) {
          HandleActiveFilterTab(d.filterTab);
        }
      }
    }

    /** `readFile(kind)` once `reader(file)` has produced `result`. */
    method ReadFile(kind: string, result: ReadResult)
      modifies state, this`activeFilterTab, this`activeEditorTab
      ensures Current() == CompleteRead(old(Current()), kind, result)
    {
      if file.None? {
        return;
      }
      HandleDecals(kind, result);
      activeEditorTab := "";
    }

    method SelectEditorTab(tabName: string)
      modifies this`activeEditorTab
      ensures Current() == OpenEditorTab(old(Current()), tabName)
    {
      activeEditorTab := tabName;
    }

    method GoBack()
      modifies state`intro
      ensures Current() == BackToIntro(old(Current()))
    {
      state.intro := true;
    }

    method SetFile(f: Option<FileHandle>)
      modifies this`file
      ensures Current() == ChooseFile(old(Current()), f)
    {
      file := f;
    }

    /** `generateTabContent` reads only the open editor tab. */
    function GenerateTabContent(): (r: Option<Panel>)
      reads this
      ensures r.Some? ==> activeEditorTab in Constants.Names(Constants.EditorTabs)
      ensures r.None? <==> activeEditorTab != "colorpicker" && activeEditorTab != "filepicker"
    {
      Constants.EditorTabsInOrder();
      TabContent(activeEditorTab)
    }
  }
}

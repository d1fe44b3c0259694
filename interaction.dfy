/**
 * Sequences of user interactions on the customiser page, and what every
 * such sequence keeps or can break: which store fields no handler writes,
 * and when the texture flags stay in step with the chest and full filter
 * switches.
 */
module Interaction {
  import opened Wrappers
  import Constants
  import Store
  import opened Customizer

  /** One thing the user (or a finished file read) does to the page. */
  datatype Event =
    | ClickFilterTab(tabName: string)
    | ClickEditorTab(tabName: string)
    | PickFile(file: Option<FileHandle>)
    | FileLoaded(kind: string, result: ReadResult)
    | ClickBack

  function Step(s: Session, e: Event): Session {
    match e
    case ClickFilterTab(t) => ToggleFilterTab(s, t)
    case ClickEditorTab(t) => OpenEditorTab(s, t)
    case PickFile(f) => ChooseFile(s, f)
    case FileLoaded(kind, result) => CompleteRead(s, kind, result)
    case ClickBack => BackToIntro(s)
  }

  /** The session after the events, in order. */
  function Run(s: Session, es: seq<Event>): Session
    decreases |es|
  {
    if es == [] then s else Run(Step(s, es[0]), es[1..])
  }

  /** No handler writes the shoulder and back flags, the colour or the mode. */
  predicate Untouched(s: Session, r: Session) {
    && r.store.isLeftShoulderLogo == s.store.isLeftShoulderLogo
    && r.store.isRightShoulderLogo == s.store.isRightShoulderLogo
    && r.store.isBackLogo == s.store.isBackLogo
    && r.store.color == s.store.color
    && r.store.mode == s.store.mode
  }

  lemma StepLeavesUntouched(s: Session, e: Event)
    ensures Untouched(s, Step(s, e))
  {
    match e
    case FileLoaded(kind, result) =>
      var r := ApplyDecal(s, kind, result);
      assert r.store.Flag(Store.IsLeftShoulderLogo) == s.store.Flag(Store.IsLeftShoulderLogo);
      assert r.store.Flag(Store.IsRightShoulderLogo) == s.store.Flag(Store.IsRightShoulderLogo);
      assert r.store.Flag(Store.IsBackLogo) == s.store.Flag(Store.IsBackLogo);
      assert r.store.Text(Store.Color) == s.store.Text(Store.Color);
      assert r.store.Text(Store.Mode) == s.store.Text(Store.Mode);
    case _ =>
  }

  lemma {:induction false} RunLeavesUntouched(s: Session, es: seq<Event>)
    ensures Untouched(s, Run(s, es))
    decreases |es|
  {
    if es != [] {
      StepLeavesUntouched(s, es[0]);
      RunLeavesUntouched(Step(s, es[0]), es[1..]);
    }
  }

  /**
   * From the mounted page, after any sequence of the events above, the
   * shoulder and back placement flags stay off (so their decals are never
   * drawn) and the colour and mode keep their initial values. The colour
   * picker, which writes the colour, is not one of these events.
   */
  lemma MountedRunsKeepShoulderAndBackOff(es: seq<Event>)
    ensures var r := Run(Mounted, es);
      && !r.store.isLeftShoulderLogo && !r.store.isRightShoulderLogo && !r.store.isBackLogo
      && r.store.color == "#EFBD4E" && r.store.mode == "prod"
  {
    RunLeavesUntouched(Mounted, es);
  }

  lemma MountedIsConsistent()
    ensures Consistent(Mounted)
    ensures Mounted.store.isLogoTexture && IsOn(Mounted.activeFilterTab, "logoShirt")
    ensures !Mounted.store.isFullTexture && !IsOn(Mounted.activeFilterTab, "stylishShirt")
  {
  }

  /** The chest and full toggles keep the texture flags in step with their switches. */
  lemma TextureToggleKeepsConsistency(s: Session, tabName: string)
    requires Consistent(s)
    requires tabName == "logoShirt" || tabName == "stylishShirt"
    ensures Consistent(ToggleFilterTab(s, tabName))
  {
  }

  /**
   * Any other toggle keeps the flags in step exactly when the chest switch
   * is on and the full switch off before it.
   */
  lemma OtherToggleConsistentIff(s: Session, tabName: string)
    requires Consistent(s)
    requires tabName != "logoShirt" && tabName != "stylishShirt"
    ensures Consistent(ToggleFilterTab(s, tabName)) <==>
      IsOn(s.activeFilterTab, "logoShirt") && !IsOn(s.activeFilterTab, "stylishShirt")
  {
  }

  /** The mounted page once the home page has cleared `intro`, so that its tabs are shown. */
  const Editing: Session := Mounted.(store := Mounted.store.(intro := false))

  /** Turning the chest tab off and then clicking "back" leaves the chest texture on with its switch off. */
  lemma BackAfterChestOffBreaksConsistency()
    ensures var r := Run(Editing, [ClickFilterTab("logoShirt"), ClickFilterTab("back")]);
      r.store.isLogoTexture && !IsOn(r.activeFilterTab, "logoShirt") && !Consistent(r)
  {
    var s1 := ToggleFilterTab(Editing, "logoShirt");
    assert Run(Editing, [ClickFilterTab("logoShirt"), ClickFilterTab("back")])
        == Run(s1, [ClickFilterTab("back")]);
  }

  /**
   * A shoulder or back upload keeps the texture flags in step exactly when
   * its tab was already on, or the chest switch was on and the full switch
   * off before it.
   */
  lemma OtherUploadConsistentIff(s: Session, kind: string, result: ReadResult)
    requires Consistent(s)
    requires kind == "leftShoulder" || kind == "rightShoulder" || kind == "back"
    requires result.DataUrl?
    ensures Consistent(ApplyDecal(s, kind, result)) <==>
      IsOn(s.activeFilterTab, kind) ||
      (IsOn(s.activeFilterTab, "logoShirt") && !IsOn(s.activeFilterTab, "stylishShirt"))
  {
    var d := DecalTypeOf(kind).value;
    var written := s.(store := s.store.WithText(d.imageProperty, result.url));
    assert Consistent(written);
    if !IsOn(s.activeFilterTab, kind) {
      OtherToggleConsistentIff(written, kind);
    }
  }

  /** With the full tab on, loading a "back" image whose tab is off breaks the texture flags' agreement. */
  lemma BackUploadWithFullOnBreaksConsistency(s: Session, url: string)
    requires Consistent(s)
    requires IsOn(s.activeFilterTab, "stylishShirt") && !IsOn(s.activeFilterTab, "back")
    ensures var r := ApplyDecal(s, "back", DataUrl(url));
      r.store.logoDecal == url && !r.store.isFullTexture && IsOn(r.activeFilterTab, "stylishShirt") && !Consistent(r)
  {
    OtherUploadConsistentIff(s, "back", DataUrl(url));
  }

  /** Toggling the chest or full tab twice, from a consistent session, restores it. */
  lemma TextureToggleTwiceRestores(s: Session, tabName: string)
    requires Consistent(s)
    requires tabName == "logoShirt" || tabName == "stylishShirt"
    requires tabName in s.activeFilterTab
    ensures ToggleFilterTab(ToggleFilterTab(s, tabName), tabName) == s
  {
    var m := s.activeFilterTab;
    assert m[tabName := !m[tabName]][tabName := m[tabName]] == m;
  }

  /** Loading a chest or full image keeps the texture flags in step. */
  lemma LogoOrFullDecalKeepsConsistency(s: Session, kind: string, result: ReadResult)
    requires Consistent(s)
    requires kind == "logo" || kind == "full"
    ensures Consistent(ApplyDecal(s, kind, result))
  {
    if result.DataUrl? {
      var d := DecalTypeOf(kind).value;
      var written := s.(store := s.store.WithText(d.imageProperty, result.url));
      assert Consistent(written);
      if !IsOn(written.activeFilterTab, d.filterTab) {
        TextureToggleKeepsConsistency(written, d.filterTab);
      }
    }
  }

  /** Loading the same image for the same kind twice has the effect of loading it once. */
  lemma ApplyDecalIdempotent(s: Session, kind: string, result: ReadResult)
    ensures ApplyDecal(ApplyDecal(s, kind, result), kind, result) == ApplyDecal(s, kind, result)
  {
    if kind in DecalKinds && result.DataUrl? {
      var d := DecalTypeOf(kind).value;
      var r := ApplyDecal(s, kind, result);
      assert r.store.WithText(d.imageProperty, result.url) == r.store;
    }
  }

  /** The events after which the texture flags are certain to stay in step. */
  predicate KeepsTextureSync(e: Event) {
    match e
    case ClickFilterTab(t) => t == "logoShirt" || t == "stylishShirt"
    case FileLoaded(kind, _) => kind != "leftShoulder" && kind != "rightShoulder" && kind != "back"
    case _ => true
  }

  lemma StepKeepsConsistency(s: Session, e: Event)
    requires Consistent(s)
    requires KeepsTextureSync(e)
    ensures Consistent(Step(s, e))
  {
    match e
    case ClickFilterTab(t) => TextureToggleKeepsConsistency(s, t);
    case FileLoaded(kind, result) =>
      if kind == "logo" || kind == "full" {
        LogoOrFullDecalKeepsConsistency(s, kind, result);
      }
    case _ =>
  }

  /**
   * A run that clicks only the chest and full filter tabs and loads only
   * chest and full images (plus any editor-tab, file and back clicks)
   * keeps the texture flags in step with the switches.
   */
  lemma {:induction false} RunKeepsConsistency(s: Session, es: seq<Event>)
    requires Consistent(s)
    requires forall i :: 0 <= i < |es| ==> KeepsTextureSync(es[i])
    ensures Consistent(Run(s, es))
    decreases |es|
  {
    if es != [] {
      StepKeepsConsistency(s, es[0]);
      RunKeepsConsistency(Step(s, es[0]), es[1..]);
    }
  }

  /** The page's decal switch agrees with the `DecalTypes` table on every kind. */
  lemma DecalTypeOfMatchesDecalTypes()
    ensures forall k :: k in Constants.DecalTypes <==> k in DecalKinds
    ensures forall k :: k in Constants.DecalTypes ==>
      var d := DecalTypeOf(k).value;
      && Constants.DecalTypes[k].filterTab == d.filterTab
      && Constants.DecalTypes[k].stateProperty ==
           (if k == "logo" || k == "full" then d.imageProperty.Name() else d.stateProperty.Name())
  {
  }

  /** `DecalTypes` names image fields for the chest and full kinds and boolean flags for the others. */
  lemma DecalTypesStatePropertyKinds()
    ensures forall k :: k in Constants.DecalTypes ==>
      (k == "logo" || k == "full" <==>
        exists j: Store.StringKey :: Constants.DecalTypes[k].stateProperty == j.Name())
    ensures forall k :: k in Constants.DecalTypes && k != "logo" && k != "full" ==>
      exists b: Store.BooleanKey :: Constants.DecalTypes[k].stateProperty == b.Name()
  {
    assert Constants.DecalTypes["logo"].stateProperty == Store.StringKey.LogoDecal.Name();
    assert Constants.DecalTypes["full"].stateProperty == Store.StringKey.FullDecal.Name();
    assert Constants.DecalTypes["leftShoulder"].stateProperty == Store.BooleanKey.IsLeftShoulderLogo.Name();
    assert Constants.DecalTypes["rightShoulder"].stateProperty == Store.BooleanKey.IsRightShoulderLogo.Name();
    assert Constants.DecalTypes["back"].stateProperty == Store.BooleanKey.IsBackLogo.Name();
  }

  /** Of the three editor tabs, the colour and file pickers open a panel and the AI picker does not. */
  lemma EditorTabPanels()
    ensures forall i :: 0 <= i < |Constants.EditorTabs| ==>
      (TabContent(Constants.EditorTabs[i].name).Some? <==> Constants.EditorTabs[i].name != "aipicker")
    ensures TabContent("").None?
  {
  }
}

# T-shirt customiser: the decal state machine

This project models the part of the 3D T-shirt customiser that decides which
decals appear on the shirt. Three pieces make it up. The shared customisation
record holds the intro flag, the colour, the mode, five placement flags and
two image references. The customiser page holds its own state: the chosen
file, the open editor tab and five filter-tab switches. The page's handlers
drive both.

- `Constants` (client/src/config/constants.ts): the editor-tab,
  filter-tab and download-tab tables and the `DecalTypes` lookup, as
  constant sequences and a map.
- `Store` (client/src/store/index.ts): `Record` is the record's value.
  `State` is the one mutable shared object that handlers assign field by
  field. `Initial` holds the defaults.
- `Customizer` (client/src/pages/Customizer.tsx): `Session` is the store
  record plus the page's component state. Each handler is given twice:
  - as a function on `Session` (`ToggleFilterTab`, `ApplyDecal`,
    `CompleteRead`, `OpenEditorTab`, `BackToIntro`, `ChooseFile`), whose
    `ensures` say which fields it writes and which it leaves alone;
  - as a method of the class `Page`, which changes the shared `State` object
    and its own fields in place and is proved to have exactly that function's
    effect.
  `TabContent` is `generateTabContent`, and `DecalTypeOf` is the kind switch
  inside `handleDecals`.
- `Interaction`: sequences of user events (`Run`) and lemmas about every
  such sequence. No handler writes the shoulder and back flags, the colour
  or the mode. The texture flags stay equal to the chest and full switches
  (`Consistent`) under the chest and full toggles and under chest and full
  uploads. A shoulder or back toggle keeps them equal exactly when the chest
  switch is on and the full switch off; clicking "back" after turning the
  chest tab off breaks the equality. Shoulder and back uploads that turn their
  tab on behave like those toggles, so a "back" upload with the full tab on
  breaks it too.

Handler inputs are strings, as in the program, so the `default` branches are
modelled too. A tab name outside the five reaches the default branch of
`handleActiveFilterTab`. A decal kind outside the five hits the early
`return` of `handleDecals`. `activeFilterTab` is a `map<string, bool>`. Reading
a missing key gives JavaScript's `undefined`, which is false (`IsOn`).

Two source facts the model keeps:
- `readFile` is typed for "logo" and "full" only, but the file picker also
  calls it with "back" (client/src/components/FilePicker.tsx:38). So the
  decal kind ranges over all strings.
- Every kind except "full" writes its image into `logoDecal`. Uploading a
  "back" image therefore replaces the chest image.

## Model

| member | source | states |
|---|---|---|
| Constants.FilterTabsInOrder | client/src/config/constants.ts:34-55 | the filter bar has exactly five tabs: logoShirt, stylishShirt, leftShoulder, rightShoulder, back, in that order |
| Constants.FilterTabNamesDistinct | client/src/config/constants.ts:34-55 | no two filter tabs share a name |
| Constants.EditorTabsInOrder | client/src/config/constants.ts:19-32 | the editor tabs are exactly colorpicker, filepicker, aipicker, in that order |
| Constants.DecalFilterTabsAreFilterTabs | client/src/config/constants.ts:62-83 | every `DecalTypes` entry's filter tab is the name of a filter-bar tab |
| Constants.DownloadTabIsSeparate | client/src/config/constants.ts:19-60 | the download tab is named "download" and is in neither the filter nor the editor table |
| Constants.TabsUseDeclaredNames | client/src/config/constants.ts:3-60 | every tab in the three tables has a name that the `TabType` name union admits |
| Store.InitialPlacement | client/src/store/index.ts:3-14 | initially intro is on; of the five placement flags only the chest flag is on; both images are './threejs.png'; the colour is '#EFBD4E' and the mode "prod" |
| Store.State.constructor | client/src/store/index.ts:3-14 | the shared record starts with exactly the `Initial` values |
| Store.Record.WithText | client/src/pages/Customizer.tsx:91 | writing a string field by its key: that field reads the new value, and every other string field and every flag is unchanged |
| Store.State.SetText | client/src/pages/Customizer.tsx:91 | the in-place assignment `state[key] = value` changes the record exactly as `WithText` does |
| Customizer.TabContent | client/src/pages/Customizer.tsx:47-56 | the colour picker is shown exactly for "colorpicker" and the file picker exactly for "filepicker"; a shown panel belongs to a declared tab name |
| Customizer.Page.GenerateTabContent | client/src/pages/Customizer.tsx:47-56 | the page shows a panel only when the open tab is one of the editor-table tabs, and shows none for every other value |
| Customizer.DecalTypeOf | client/src/pages/Customizer.tsx:69-87 | a mapping exists exactly for the five decal kinds; its filter tab is a filter-bar tab; the image field is `fullDecal` for "full" and `logoDecal` for every other kind; the flag is the chest flag only for "logo" and the full flag only for "full" |
| Customizer.ToggleFilterTab | client/src/pages/Customizer.tsx:100-122 | the named switch flips and every other switch keeps its value. For "logoShirt" and "stylishShirt" the matching texture flag becomes the new switch value and the rest of the store is unchanged. For any other name the chest texture turns on, the full texture turns off and the rest of the store is unchanged |
| Customizer.Page.HandleActiveFilterTab | client/src/pages/Customizer.tsx:100-122 | the in-place handler changes the shared store and `activeFilterTab` exactly as `ToggleFilterTab` says |
| Customizer.ApplyDecal | client/src/pages/Customizer.tsx:59-98 | an unknown kind or a non-string result changes nothing. Otherwise the kind's image field holds the URL, the kind's filter tab is on afterwards, no other switch changes and an already-on tab is not toggled. When the upload turns its tab on, "logo" turns the chest texture on, "full" turns the full texture on, and the shoulder and back kinds turn the chest texture on and the full texture off. Only the texture flags and the two image fields can change |
| Customizer.Page.HandleDecals | client/src/pages/Customizer.tsx:59-98 | the in-place handler has exactly `ApplyDecal`'s effect on the shared store and the filter switches |
| Customizer.CompleteRead | client/src/pages/Customizer.tsx:124-130 | with no file chosen nothing changes; otherwise the store and switches are as `ApplyDecal` leaves them and the editor tab is closed, so no panel is shown |
| Customizer.Page.ReadFile | client/src/pages/Customizer.tsx:124-130 | the in-place handler has exactly `CompleteRead`'s effect |
| Customizer.OpenEditorTab | client/src/pages/Customizer.tsx:143-145 | clicking an editor tab makes it the open tab, which shows a panel exactly for the colour and file pickers; nothing else changes |
| Customizer.Page.SelectEditorTab | client/src/pages/Customizer.tsx:143-145 | the in-place click has exactly `OpenEditorTab`'s effect |
| Customizer.BackToIntro | client/src/pages/Customizer.tsx:175 | the "Back" button turns intro on and changes nothing else |
| Customizer.Page.GoBack | client/src/pages/Customizer.tsx:175 | the in-place click has exactly `BackToIntro`'s effect |
| Customizer.ChooseFile | client/src/components/FilePicker.tsx:26 | picking a file records it and changes nothing else |
| Customizer.Page.SetFile | client/src/components/FilePicker.tsx:26 | the in-place setter has exactly `ChooseFile`'s effect |
| Customizer.Page.constructor | client/src/pages/Customizer.tsx:36-44 | the page mounts with no file, no open editor tab and only the chest filter switch on |
| Interaction.StepLeavesUntouched | client/src/pages/Customizer.tsx:59-130 | no single handler writes the shoulder and back flags, the colour or the mode |
| Interaction.RunLeavesUntouched | client/src/pages/Customizer.tsx:59-130 | over any sequence of events those five fields keep their values |
| Interaction.MountedRunsKeepShoulderAndBackOff | client/src/store/index.ts:5-13 | from the initial state, after any sequence of events, the shoulder and back flags are still off and the colour and mode are still the defaults |
| Interaction.MountedIsConsistent | client/src/pages/Customizer.tsx:38-44 | initially the chest texture and chest switch are both on, and the full texture and full switch both off |
| Interaction.TextureToggleKeepsConsistency | client/src/pages/Customizer.tsx:100-107 | toggling "logoShirt" or "stylishShirt" keeps both texture flags equal to their switches |
| Interaction.OtherToggleConsistentIff | client/src/pages/Customizer.tsx:108-121 | from a consistent state, any other toggle keeps consistency if and only if the chest switch was on and the full switch off |
| Interaction.BackAfterChestOffBreaksConsistency | client/src/pages/Customizer.tsx:100-121 | on the page as shown (intro cleared), turning the chest tab off and then clicking "back" leaves the chest texture on while its switch is off |
| Interaction.OtherUploadConsistentIff | client/src/pages/Customizer.tsx:89-111 | from a consistent state, a shoulder or back upload keeps consistency if and only if its tab was already on, or the chest switch was on and the full switch off |
| Interaction.BackUploadWithFullOnBreaksConsistency | client/src/components/FilePicker.tsx:38 | with the full tab on and the back tab off, a "back" upload writes the chest image, turns the full texture off while its switch stays on, and so breaks consistency |
| Interaction.TextureToggleTwiceRestores | client/src/pages/Customizer.tsx:100-121 | from a consistent state, toggling the chest or full tab twice restores the whole session |
| Interaction.LogoOrFullDecalKeepsConsistency | client/src/pages/Customizer.tsx:89-97 | loading a chest or full image keeps the texture flags equal to their switches |
| Interaction.ApplyDecalIdempotent | client/src/pages/Customizer.tsx:89-97 | loading the same image for the same kind twice is the same as loading it once |
| Interaction.StepKeepsConsistency | client/src/pages/Customizer.tsx:59-145 | one chest/full toggle, chest/full load, editor-tab click, file pick or back click keeps consistency |
| Interaction.RunKeepsConsistency | client/src/pages/Customizer.tsx:59-145 | any sequence of those events keeps the texture flags equal to the chest and full switches |
| Interaction.DecalTypeOfMatchesDecalTypes | client/src/config/constants.ts:62-83 | the page's own kind switch and the `DecalTypes` table have the same kinds and the same filter tabs. The table's state property is the page's image field for "logo" and "full" and the page's flag for the other kinds |
| Interaction.DecalTypesStatePropertyKinds | client/src/config/constants.ts:63-82 | `DecalTypes` names a string (image) field for "logo" and "full" and a boolean flag for the shoulder and back kinds |
| Interaction.EditorTabPanels | client/src/pages/Customizer.tsx:47-56 | of the three editor tabs, the colour and file pickers open a panel and the AI picker does not; the closed tab "" shows none |

## Left out

- Rendering in client/src/canvas/Shirt.tsx, client/src/canvas/index.tsx and client/src/canvas/CameraRig.tsx is not part of this model. That covers three.js decals, gizmo drags, the matrix decomposition, the per-frame preview rotation and the camera group. All of it is floating-point work inside the rendering library.
- client/src/canvas/Shirt.tsx also reads `leftShoulderDecal`, `rightShoulderDecal`, `backDecal` and `preview`. The store does not declare these fields, so the model has none of them.
- The file reader and `downloadCanvasToImage` (client/src/config/helpers) are not part of this model. They are asynchronous browser I/O. The read's outcome is a parameter of `ReadFile`/`CompleteRead` (`DataUrl`, `Buffer` or `Null`), and the download tab's click is not modelled.
- The colour picker and the page that clears `intro` are not part of this model. So `color` is only ever written by the constructor here, and `intro` only by the "Back" button.
- Customizer.Page.ReadFile: the read and its completion are one step. A file change between the click and the completion is not modelled.
- Customizer.Page.HandleActiveFilterTab: React state is updated immediately. In the program the handlers read `activeFilterTab` from the render that created them, and the setter applies to the latest state. The two agree only when updates are not batched. Stale reads after batching are not modelled.
- Animations, the `useSnapshot` subscription and render batching are not modelled. The tab components' styling (client/src/components/Tab.tsx) is presentation and is not modelled either.

# User-data exchange layer of the Slime Rancher 2 interactive map

The interactive map keeps three datasets in the browser's `localStorage`:

- the planned plots (`planned_plots`);
- the user's map pins (`user_pins`);
- seven "found" keys that record which gordos, locked doors, map nodes,
  research drones, treasure pods, stabilizing gates and shadow doors the
  player has found.

React state mirrors each dataset. The data buttons export, import and clear
them. The older plot-planner buttons import and clear the plot plans on
their own. The sidebar keeps a selection of datasets and a dark-mode flag
that is persisted in storage.

This project models that layer in Dafny and proves what it promises. It has
seven modules:

- `Json`: parsed JSON values, plus the JavaScript semantics the code relies
  on. That is property reads (`undefined` is `None`), truthiness and
  `Object.keys`.
- `Env`: the store (`map<string, Entry>`) and the page (`class Page`). The
  page holds the store, the three state mirrors and two flags, one for a
  triggered reload and one for an alert. An optional state setter is
  `Absent`, `Live` or `Throwing`; each corresponds to a branch of the
  code's `typeof … === "function"` / `try … catch`.
- `Shapes`: the storage keys, the key-to-property table of the found data,
  the three import validators, and typed readings of valid exports.
- `Backup`: the values the export buttons would download.
- `UserData`: the imports, the clears, pin placement and the data button's
  dispatch, as module-level methods that take the `Page` and change its
  fields. Each is proved against a store function
  (`ImportedStore`, `FoundImportStore`, `CompositeStore`, `MergeFound`, …).
  Lemmas prove the per-key and round-trip properties.
- `PlotPlanner`: the older plot-planner import and clear, and the export's
  read of the stored text.
- `Sidebar`: the selection updaters, the theme resolution and the
  toggles.

`JSON.parse` is a parameter `parse: string -> Option<Json>`, where `None`
is a thrown `SyntaxError`. A stored entry is either `Stringified(v)` or
`Raw(text)`. `Stringified(v)` is what `JSON.stringify(v)` wrote. Every
value the model represents has finite numbers, so it reads back as `v`;
the overflow case where this fails is listed under "Left out". `Raw(text)` is text stored verbatim, as the plot-planner
import and the theme toggle store it.

Some behaviours of the code are worth knowing before reading the model:

- The "all" import validates nothing. It writes every truthy field and
  always reloads (`UserData.ImportAllFile`).
- `exportFoundData` and `exportAll` call `JSON.parse` without a `catch`. A
  stored value that does not parse makes them throw
  (`Backup.ExportFoundData`, `Backup.ExportAll`). `exportPins` falls back
  to `[]` instead (`Backup.ExportPins`).
- There is one export per dataset, and the backup always holds all three
  fields, whichever are wanted.
- The single-dataset imports call the setter when there is one. They
  reload when there is none or when it throws.
- A composite `{ "found": {…} }` backup is rejected by the found import,
  whose validator sees only the top-level keys
  (`UserData.FoundOnlyBackupRejected`, `Backup.BackupIsRejectedAsFoundData`).
- After a successful found import, storage and the found state can
  disagree:
  - A flat file keyed by the seven `found_*` property names is accepted,
    because it has seven keys. It writes no storage key, yet its values
    reach the state (`UserData.PropertyNamedFileSkipsStorage`).
  - A composite file whose `found` is absent or `null` leaves its
    top-level found keys out of storage. The state is still patched from
    them (`UserData.AbsentFoundPatchesFromTopLevel`,
    `UserData.NullFoundPatchesFromTopLevel`).
  - A flat file whose `found` is falsy but not `null` (`false`, `0`, `""`)
    writes its found keys to storage, but the state is patched from that
    primitive `found`, so it is left as it was
    (`UserData.FalsyFoundFlatFileSkipsState`).
- The plot-planner export offers an empty file when nothing is stored,
  and the plot-planner import rejects an empty file
  (`PlotPlanner.EmptyExportIsRejected`).

## Model

| member | source | states |
|---|---|---|
| Shapes.KeysDisjoint | src/components/manager/userData.tsx:17-27 | the seven found keys are neither `planned_plots`/`user_pins`, nor `plots`/`pins`/`found`, nor a `found_*` property name |
| Shapes.TableValues | src/components/manager/userData.tsx:117-125 | `LOCAL_TO_USERDATA` is defined on exactly the seven found keys, and its values are exactly the seven `found_*` property names |
| Shapes.TableInjective | src/components/manager/userData.tsx:117-125 | `LOCAL_TO_USERDATA` maps distinct found keys to distinct property names |
| Env.GetItem | src/components/manager/userData.tsx:58 | `localStorage.getItem`: the entry stored at the key, or nothing for a missing key; `Env.ReadJson` and `Sidebar.PersistedThemeIsRead` state what it reads |
| Env.ReadJson | src/components/manager/userData.tsx:58 | a missing key reads as `[]`, and a stringified entry reads as the value that was stored |
| Env.Page.SetItem | src/components/manager/userData.tsx:96 | `localStorage.setItem` replaces the entry at one key and leaves every other key as it was |
| Env.Page.Reload | src/components/manager/userData.tsx:100 | `window.location.reload()` is recorded on the page |
| Env.Page.Alert | src/components/manager/userData.tsx:294 | `window.alert` is recorded on the page |
| Shapes.IsValidPlotExport | src/components/manager/userData.tsx:76-78 | an array whose every element has a string `site` and an array `plotPlans`; `Shapes.PlotExportIsDecodable` characterises it |
| Shapes.IsValidPinsExport | src/components/manager/userData.tsx:80-82 | an array whose every element has a string `icon` and a truthy `pos` with numeric `x` and `y`; `Shapes.PinsExportIsDecodable` characterises it |
| Shapes.IsValidFoundExport | src/components/manager/userData.tsx:84-89 | an object or array that names a found key or has exactly seven keys; `Shapes.FoundExportRule` characterises it |
| Shapes.DecodePlotItems | src/components/manager/userData.tsx:76-78 | a sequence reads as plot plans exactly when every element is a plot record, element by element |
| Shapes.DecodePinItems | src/components/manager/userData.tsx:80-82 | a sequence reads as pins exactly when every element is a pin record, element by element |
| Shapes.PlotExportIsDecodable | src/components/manager/userData.tsx:76-78 | the plot validator accepts exactly the arrays that read as plot plans, and it accepts `[]` |
| Shapes.PinsExportIsDecodable | src/components/manager/userData.tsx:80-82 | the pin validator accepts exactly the arrays that read as pins and accepts `[]`; an element without a string `icon` or a numeric `pos.x`/`pos.y` makes it reject |
| Shapes.FoundExportRule | src/components/manager/userData.tsx:84-89 | the found validator rejects `null` and primitives; it accepts an object naming any found key, and any object or array with seven keys; an array passes iff it has seven elements; an object without found keys passes only with seven keys |
| Backup.ReadOrEmpty | src/components/manager/userData.tsx:48-51 | a missing key, or text that does not parse, reads as `[]`; otherwise the result is the parsed value, and a stringified entry reads as the value stored |
| Backup.StoredPlotPlans | src/components/manager/userData.tsx:44 | the stored plot plans read as `[]` for a missing key, and as the stored value for a stringified entry |
| Backup.ExportPins | src/components/manager/userData.tsx:48-53 | the pins export is the parsed stored list, and `[]` for a missing key or text that does not parse |
| Backup.ExportFoundData | src/components/manager/userData.tsx:55-61 | the found export is defined iff every found key parses; it then has exactly the seven found keys, each holding the key's parsed value, with `[]` for a missing key |
| Backup.ExportAll | src/components/manager/userData.tsx:63-73 | the backup is defined iff the pins and every found key parse; it has exactly `plots`, `pins` and `found`, where `plots` is the stored plot plans, `pins` the parsed stored pins and `found` the found export, with `[]` for a missing key |
| Backup.ExportSelected | src/components/manager/userData.tsx:307-313 | each dataset's file name and value; only the found and backup exports can throw, each exactly when a value does not parse; a found export passes the found validator and a backup fails it |
| Backup.FoundExportIsAccepted | src/components/manager/userData.tsx:84-89 | every found export passes the found validator |
| Backup.BackupIsRejectedAsFoundData | src/components/manager/userData.tsx:84-89 | every composite backup fails the found validator, so the found import throws on it before any write |
| UserData.FoundWrites | src/components/manager/userData.tsx:138-140 | the entries a found-key copy loop writes: each key the rule lets through, with its stringified value; `UserData.WriteKeys` and `UserData.SingleFoundWrite` state its meaning |
| UserData.IsComposite | src/components/manager/userData.tsx:134 | a file reads as a composite backup when `plots`, `pins` or `found` is truthy; `UserData.FoundImportAt` states what each reading writes |
| UserData.CompositeStore | src/components/manager/userData.tsx:134-141 | the store after a composite backup's writes; `UserData.CompositeWritesAt` states it key by key |
| UserData.FoundImportStore | src/components/manager/userData.tsx:134-146 | the store after the found import's writes, composite or flat; `UserData.FoundImportAt` states it key by key |
| UserData.AllImportStore | src/components/manager/userData.tsx:281-285 | the store after the "all" import's writes, where only truthy found values are written; `UserData.CompositeWritesAt` with the truthy rule states it key by key |
| UserData.FoundOrigin | src/components/manager/userData.tsx:132-146 | the object whose found keys the found import copies: the file itself when it is not composite, a truthy `found` in a composite, none otherwise; `UserData.FoundImportAt` states what is written from it |
| UserData.CompositeWritesAt | src/components/manager/userData.tsx:134-141 | after a composite write, each key holds what was written there or keeps its old value: found keys from a truthy `found` when the value passes the rule, `planned_plots`/`user_pins` from truthy `plots`/`pins` |
| UserData.FoundImportAt | src/components/manager/userData.tsx:134-146 | the found import writes a found key only when its source (the composite `found` or the flat file) defines it, and writes that value; it writes `plots`/`pins` only when truthy in a composite; every other key keeps its value |
| UserData.PatchByKey | src/components/manager/userData.tsx:153-158 | `partial` gets the property of each found key the source defines, holding the source's value, and nothing else |
| UserData.PatchByName | src/components/manager/userData.tsx:160-164 | `partial` gets each `found_*` name the source itself has, with its value, and nothing else |
| UserData.BuildPartial | src/components/manager/userData.tsx:150-164 | the two loops build exactly the rename patch overlaid by the name patch |
| UserData.CopyByKey | src/components/manager/userData.tsx:153-158 | the first loop builds the rename patch |
| UserData.CopyByName | src/components/manager/userData.tsx:161-164 | the second loop builds the name patch, whatever order `Object.keys` gives |
| UserData.FoundSource | src/components/manager/userData.tsx:151 | `found ?? file`: the whole file when `found` is absent or `null`, otherwise `found` whatever its value; this is the object whose found keys were written to storage when `found` is truthy, or when the file is flat without a `found` member |
| UserData.FoundPatch | src/components/manager/userData.tsx:150-164 | the `partial` object: the rename patch overlaid by the name patch; `UserData.MergeFoundAt`, `UserData.MergeKeepsOtherFields` and `UserData.PrimitivePatchIsEmpty` state its meaning |
| UserData.PrimitivePatchIsEmpty | src/components/manager/userData.tsx:150-164 | a source that is not an object (a primitive `found`, or an array) gives an empty `partial` |
| UserData.MergeFound | src/components/manager/userData.tsx:166 | the found state merged with `partial`; `UserData.MergeFoundAt` and `UserData.MergeKeepsOtherFields` state its meaning |
| UserData.MergeFoundAt | src/components/manager/userData.tsx:150-166 | a `found_*` property takes the source's value under the property name if present, else the value under the storage key, else keeps its previous value |
| UserData.MergeAt | src/components/manager/userData.tsx:150-166 | the same per-property merge for any injective key table |
| UserData.MergeKeepsOtherFields | src/components/manager/userData.tsx:166 | the found-state merge keeps every field that is not a `found_*` property |
| UserData.ClearedFound | src/components/manager/userData.tsx:191-200 | clearing the found state sets every `found_*` property to `[]` and keeps every other field |
| UserData.SpreadFound | src/components/manager/userData.tsx:289 | an object's members override the state and every other field is kept |
| UserData.WriteKeys | src/components/manager/userData.tsx:138-145 | the copy loop over the found keys writes exactly the keys whose value passes the rule, each with that value |
| UserData.WriteComposite | src/components/manager/userData.tsx:134-141 | the composite writes produce the composite store |
| UserData.ClearKeys | src/components/manager/userData.tsx:189 | the clear loop sets every found key to `[]` and changes nothing else |
| UserData.ImportPlotsFile | src/components/manager/userData.tsx:92-102 | a parse failure or invalid shape throws with the page unchanged; otherwise only `planned_plots` is written, with the parsed value, and the setter receives that value or the page reloads (also when the setter throws) |
| UserData.ImportPinsFile | src/components/manager/userData.tsx:104-114 | the same for `user_pins` and the pin validator |
| UserData.ImportFoundFile | src/components/manager/userData.tsx:127-173 | throws before any write on a parse failure or a failed found validator; otherwise the store becomes the found-import store, and the found state is merged with the source (`found ?? file`) or the page reloads |
| UserData.WriteFoundImport | src/components/manager/userData.tsx:134-146 | the composite or flat writes of the found import |
| UserData.UpdateFoundState | src/components/manager/userData.tsx:148-172 | a working setter merges `partial` into the found state; a missing or throwing one reloads |
| UserData.ImportAllFile | src/components/manager/userData.tsx:278-290 | no validation: only a parse failure or `null` throws; truthy `plots`/`pins` and the truthy found values of a truthy `found` are written, each working setter with a truthy field receives it, and the page always reloads |
| UserData.Accepts | src/components/manager/userData.tsx:92-146 | which file each dataset's import accepts: the plot, pin or found validator, or for "all" anything but `null` (whose member read throws, :281); `UserData.ImportSelected` states that a rejected file alerts and changes nothing |
| UserData.ImportedStore | src/components/manager/userData.tsx:270-290 | the store after each dataset's import of an accepted file; `UserData.ImportSelected` states that a succeeding import leaves exactly this store |
| UserData.ImportSelected | src/components/manager/userData.tsx:270-296 | without a file or confirmation nothing happens; a failing import alerts and leaves store and state unchanged; a succeeding one leaves the dataset's import store and raises no alert |
| UserData.ClearPlots | src/components/manager/userData.tsx:176-180 | `planned_plots` becomes `[]`, then the setter receives `[]` or the page reloads; a throwing setter propagates |
| UserData.ClearPins | src/components/manager/userData.tsx:182-186 | the same for `user_pins` |
| UserData.ClearFound | src/components/manager/userData.tsx:188-204 | all seven found keys become `[]`; then exactly the `found_*` properties become `[]`, keeping other fields, or the page reloads |
| UserData.ClearAll | src/components/manager/userData.tsx:206-210 | plots, then pins, then found are cleared; a throwing setter stops the sequence, and the store, each state field and the reload flag are stated for every case |
| UserData.ClearSelected | src/components/manager/userData.tsx:316-321 | a declined prompt changes nothing; a confirmed one gives that dataset's clear: the store, each state field and the reload flag, other datasets' state untouched, and for "all" the plots-pins-found order that stops at a throwing setter |
| UserData.NewPin | src/components/manager/userData.tsx:228-232 | the new pin is a valid pin record with the selected icon, `pos.x` = latitude, `pos.y` = longitude and the current map as `dimension` |
| UserData.SpreadItems | src/components/manager/userData.tsx:226-227 | spreading an array gives its elements and a string its characters; anything else throws |
| UserData.PlacePin | src/components/manager/userData.tsx:224-237 | the pin state and `user_pins` both receive the old list with the new pin appended |
| UserData.PlacedPinAppends | src/components/manager/userData.tsx:226-236 | exactly one pin is added, at the end, and earlier pins are unchanged; a valid pin list stays valid and reads as the old pins followed by the new record |
| UserData.PlotsRoundTrip | src/components/manager/userData.tsx:92-102 | re-importing a plot export is accepted iff it reads as a sequence of plot plans, always when nothing was stored, and the store then reads and exports the same plans |
| UserData.PinsRoundTrip | src/components/manager/userData.tsx:104-114 | re-importing a pins export is accepted iff it reads as a sequence of pins, always when the key is missing or the stored text unreadable, and the store then reads and exports the same list |
| UserData.FoundExportRoundTrip | src/components/manager/userData.tsx:127-146 | a found export is accepted by the found import as a flat map, and exporting again gives the same value |
| UserData.BackupRoundTrip | src/components/manager/userData.tsx:278-285 | a backup re-imported through the "all" import exports as the same backup |
| UserData.BackupReimportReadsSame | src/components/manager/userData.tsx:278-285 | re-importing a backup changes how no key reads |
| UserData.PinsOnlyBackupTouchesOnlyPins | src/components/manager/userData.tsx:281-285 | a file with only a truthy `pins` makes the "all" import write `user_pins` alone, and the found import rejects it |
| UserData.PropertyNamedFileSkipsStorage | src/components/manager/userData.tsx:143-166 | a flat file keyed by the seven `found_*` names is accepted, leaves storage unchanged, and puts each of its values into the found state |
| UserData.NullFoundPatchesFromTopLevel | src/components/manager/userData.tsx:134-166 | a composite file with `found: null` and a top-level found key writes only `plots`, but the found state takes that key's value |
| UserData.AbsentFoundPatchesFromTopLevel | src/components/manager/userData.tsx:134-166 | a composite file with no `found` and a top-level found key is accepted and writes only `plots`, but the found state takes that key's value |
| UserData.FalsyFoundFlatFileSkipsState | src/components/manager/userData.tsx:134-166 | a flat file with a found key and a falsy non-`null` `found` is accepted and writes that key, but leaves the found state exactly as it was |
| UserData.FoundOnlyBackupRejected | src/components/manager/userData.tsx:84-89 | a file `{ "found": { <found key>: … } }` fails the found validator |
| UserData.FoundOnlyBackupWritesKey | src/components/manager/userData.tsx:283-285 | the same file through the "all" import writes exactly that found key when its value is truthy |
| UserData.SingleFoundWrite | src/components/manager/userData.tsx:284 | an object with one key whose value passes the rule makes the copy loop write that key alone |
| PlotPlanner.IsBlank | src/components/planner/PlotPlannerData.tsx:56 | a text that is empty, or that `trim()` reduces to `""` (white space only); `PlotPlanner.CheckPlotFile` states that exactly these texts are rejected as empty |
| PlotPlanner.CheckPlotFile | src/components/planner/PlotPlannerData.tsx:56-64 | blank text (empty or `trim` white space) is rejected first, then text that does not parse, then a value that is not an array; each iff, and everything else is accepted with the parsed array |
| PlotPlanner.AnyArrayIsAccepted | src/components/planner/PlotPlannerData.tsx:62-66 | any parsed array is accepted whatever its elements, even one the plot validator rejects |
| PlotPlanner.ImportPlotPlans | src/components/planner/PlotPlannerData.tsx:47-80 | a declined confirm changes nothing; a rejected file only alerts, with no write, state change or reload; an accepted one stores the raw text verbatim, then a working setter sets the plot state to the parsed array and the page reloads, while a throwing (or missing) setter leaves the text stored and the state as it was, and alerts without reloading |
| PlotPlanner.ClearPlotPlans | src/components/planner/PlotPlannerData.tsx:94-99 | a declined clear changes nothing; a throwing (or missing) setter throws before the write, leaving the page unchanged; otherwise the state and `planned_plots` become `[]` and the page reloads |
| PlotPlanner.ExportedPlotText | src/components/planner/PlotPlannerData.tsx:9-23 | the file offered is the render-time read: the stored entry, or `""` for a missing key (the effect's `"[]"` never reaches the link) |
| PlotPlanner.EmptyExportIsRejected | src/components/planner/PlotPlannerData.tsx:9-58 | with nothing stored the export offers `""`, which the import rejects as an empty file |
| PlotPlanner.ImportedTextIsExported | src/components/planner/PlotPlannerData.tsx:66 | after an accepted import the export offers the uploaded text itself, and the stored plans read as the parsed array |
| PlotPlanner.ClearedPlansReadEmpty | src/components/planner/PlotPlannerData.tsx:97 | after a clear the export offers the stringified `[]` and the stored plans read as `[]` |
| Sidebar.Checked | src/components/Sidebar.tsx:59 | checking appends the data set at the end, and the previous selection is a prefix |
| Sidebar.Unchecked | src/components/Sidebar.tsx:61 | unchecking removes every occurrence and keeps every other element with its multiplicity |
| Sidebar.UncheckedDistributes | src/components/Sidebar.tsx:61 | filtering is piecewise, so the remaining elements keep their order |
| Sidebar.UncheckedNoOp | src/components/Sidebar.tsx:61 | unchecking an unselected data set leaves the selection unchanged |
| Sidebar.CheckThenUncheck | src/components/Sidebar.tsx:57-62 | check then uncheck leaves no occurrence and equals unchecking alone |
| Sidebar.OriginalTheme | src/components/Sidebar.tsx:13-19 | with nothing stored the system preference decides; otherwise dark iff the stored text is `"true"` |
| Sidebar.ThemeEntry | src/components/Sidebar.tsx:47-51 | the text a toggle stores, `"true"` or `"false"`; `Sidebar.PersistedThemeIsRead` states that it reads back as the same mode |
| Sidebar.PersistedThemeIsRead | src/components/Sidebar.tsx:41-55 | the text a toggle stores reads back as the same mode, whatever the system preference |
| Sidebar.Sidebar.constructor | src/components/Sidebar.tsx:29-30 | the mode starts as the resolved theme and the selection starts empty |
| Sidebar.Sidebar.ToggleDarkMode | src/components/Sidebar.tsx:41-55 | the mode flips, `darkMode` stores `"true"`/`"false"` to match, and the stored text resolves to the new mode |
| Sidebar.Sidebar.ToggleDataset | src/components/Sidebar.tsx:57-62 | a checked box appends and an unchecked one filters |
| Sidebar.ToggleDarkModeTwice | src/components/Sidebar.tsx:41-55 | two toggles restore the mode, and the store then holds that mode's text |

## Left out

- Downloading a file (`downloadJSON`, `Blob`, `URL.createObjectURL`), since it is DOM I/O. An export is modelled as the value that would be serialized.
- Reading the file (`file.text()`, `FileReader`). The file content is a string parameter.
- The JSON grammar and `JSON.stringify` formatting. `JSON.parse` is a parameter, and `Stringified(v)` stands for the stringified text.
- `window.confirm`, `console.error` and `window.open`. A confirmation is a boolean parameter; reload and alert are flags on the page.
- React and Leaflet plumbing (JSX, hooks, `useMapEvents`). A map click is a method taking the coordinates and the current map.
- The text of the seven found keys. It is defined in `globals.ts`, which is not part of this model. Stand-in strings are used, and the proofs use only that they are seven distinct names that differ from the other keys and names.
- `getStoredPlotPlans`, which lives in `util` and is not part of this model. It is modelled as a read of `planned_plots` with `[]` as the fallback.
- Numbers are finite reals. `JSON.parse` of a literal that overflows, such as `1e400`, gives `Infinity`, and `JSON.stringify` writes `Infinity` as `null`, so such a value does not read back as itself. The pin validator accepts `Infinity` (its type is `"number"`), so a pins import of `[{"icon":"a","pos":{"x":1e400,"y":0}}]` puts `Infinity` into the state while storage holds `null` there, which the same validator rejects. The model cannot show this: in it a stored value always reads back as itself, and a pins export re-imports as accepted.
- `matchMedia`. The system preference is a parameter.
- The sidebar's DOM class-list edits and its rendered children.
- The `DataSet` type that `Sidebar.tsx:3` imports, which the user-data module shown does not export. It is modelled as an opaque three-valued enumeration, not wired to the data button.
- Writes from other tabs to the same storage, which the code does not handle.
- The export action's "unknown dataset" branch. The dataset type has only the four values.
- The file-input handlers' early return when no file is chosen, for the plot-planner import. `UserData.ImportSelected` does model it.
- Storage quota errors. `setItem` never fails in the model.
- UserData.SpreadFound, UserData.ImportAllFile: the "all" import's `{ ...prev, ...found }` is modelled for an object `found` only. An array or string `found` would add index keys, which are not modelled (the state is left as it was).
- UserData.ImportSelected: on success it states only the store. The state fields and reload flag are those its dataset's import method states.
- PlotPlanner.ExportedPlotText: it gives the stored entry, not its text, because stringification is abstract.
- The found state is modelled as an object. A `null` previous state (`prev ?? {}`) is therefore not represented.

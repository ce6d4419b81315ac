# MicroManager, modelled in Dafny

MicroManager is an Unreal Editor plugin for housekeeping in the content
browser. This project models the rules underneath its editor plumbing:

- the module (`FMicroManagerModule`). It remembers the folders selected in the
  path view. It offers "Delete Unused Assets" and "Delete Empty Folders" sweeps
  over the first selected folder. It gathers and filters the assets that its
  manager tab lists.
- the quick asset actions (`UQuickAssetAction`). They duplicate assets under
  numbered names, prefix asset names from a class-to-prefix table, and remove
  selected assets that nothing references.
- the quick material creation widget (`UQuickMaterialCreationWidget`). It
  checks the material name and the texture selection, refuses a name already
  used in the folder, creates the material, and wires the first texture whose
  name marks it as base colour into the material's base-colour input.

Files and modules:

- `sequences.dfy` (`Sequences`): order-preserving filtering and its laws.
- `text.dfy` (`Text`): the `FString` and `FPaths` operations the rules use.
  `Contains`, `StartsWith`, `EndsWith`, `RemoveFromStart` and `RemoveFromEnd`
  compare case-insensitively, as their engine defaults do. The engine folds
  only ASCII letters, so the model does too. `Equals` is case-sensitive by
  default and is plain equality here.
- `editor.dfy` (`Editor`): the values passed around (`FAssetData`, loaded
  objects, classes, dialog answers). It also holds the engine services as one
  record of uninterpreted functions, and the editor effects a command produces.
- `micro_manager.dfy` (`MicroManager`): the module, as a class whose field is
  the remembered folder selection.
- `quick_asset_action.dfy` (`QuickAssetAction`): the prefix table, and the
  three asset actions.
- `quick_material_creation.dfy` (`QuickMaterialCreation`): the widget, as a
  class with its editable fields. The material and its texture-sample nodes are
  classes that the widget updates in place.

Each command is a method that returns the log of effects it has on the editor,
in order: dialogs, notifications, redirector fix-ups, deletions, copies,
saves and renames. The answer to a confirmation dialog is a parameter. Each
loop of the source is a loop here, proved against a specification function.
The lemmas state the properties of those functions.

## Model

| member | source | states |
|---|---|---|
| MicroManager.MicroManagerModule.CustomBBMenuExtender | Plugins/MicroManager/Source/MicroManager/Private/MicroManager.cpp:55-73 | The menu entries are added, and the selected folders are remembered, exactly when the incoming selection is non-empty. An empty selection leaves the remembered folders as they were. |
| MicroManager.MicroManagerModule.OnDeleteUnusedAssetsButtonClicked | Plugins/MicroManager/Source/MicroManager/Private/MicroManager.cpp:113-180 | More than one selected folder gives only the "one directory" dialog. No selected folder is an out-of-range index. Otherwise the effects are the unused-asset sweep of the first folder. |
| MicroManager.MicroManagerModule.CollectUnusedAssets | Plugins/MicroManager/Source/MicroManager/Private/MicroManager.cpp:143-170 | The loop collects, in listing order, the data of every listed path that is not excluded, exists and has no referencers. |
| MicroManager.MicroManagerModule.OnDeleteUnusedFoldersButtonClicked | Plugins/MicroManager/Source/MicroManager/Private/MicroManager.cpp:188-243 | The effects are the empty-folder sweep of the folders collected under the first selected folder. The counter is the number of successful deletions, or 0 when cancelled. No selected folder is an out-of-range index. |
| MicroManager.MicroManagerModule.CollectEmptyFolders | Plugins/MicroManager/Source/MicroManager/Private/MicroManager.cpp:196-218 | The collected folders are, in listing order, the non-excluded existing folders without assets. The dialog text lists each of them on its own line. |
| MicroManager.MicroManagerModule.DeleteEmptyFolders | Plugins/MicroManager/Source/MicroManager/Private/MicroManager.cpp:230-236 | One deletion per collected folder, in order, each failure followed by its dialog; the counter is the number of folders the engine deleted. |
| MicroManager.MicroManagerModule.GetAllAssetDataUnderSelectedFolders | Plugins/MicroManager/Source/MicroManager/Private/MicroManager.cpp:301-341 | With no folder selected the list is empty. Otherwise it holds, in listing order, the data of every non-excluded existing asset under the first folder whose data is valid. |
| MicroManager.MicroManagerModule.DeleteSingleAssetForAssetList | Plugins/MicroManager/Source/MicroManager/Private/MicroManager.cpp:352-365 | The asset is handed to the engine's deletion as a list of one, and that is the only effect. The call succeeds exactly when the engine reports the asset deleted. |
| MicroManager.MicroManagerModule.DeleteMultipleAssetsForAssetList | Plugins/MicroManager/Source/MicroManager/Private/MicroManager.cpp:367-376 | The whole batch is handed to the engine's deletion in one call, and that is the only effect. The call succeeds exactly when the engine reports at least one asset deleted. |
| MicroManager.MicroManagerModule.ListUnusedAssetsForAssetList | Plugins/MicroManager/Source/MicroManager/Private/MicroManager.cpp:380-403 | The output starts empty. It ends as the entries whose asset nothing references, in input order, with null entries dropped. |
| MicroManager.SweepsSkipExcludedPaths | Plugins/MicroManager/Source/MicroManager/Private/MicroManager.cpp:149-156 | No path containing `Developers`, `Collections`, `_ExternalActors_`, `_ExternalObjects_` or `Maps` enters the unused-asset list, the empty-folder list or the gathered asset list. |
| MicroManager.UnusedAssetPathsExact | Plugins/MicroManager/Source/MicroManager/Private/MicroManager.cpp:145-170 | A path is kept as unused if and only if it is listed, not excluded, exists and has no referencers. The kept paths are a subsequence of the listing. |
| MicroManager.DeclinedSweepChangesNothing | Plugins/MicroManager/Source/MicroManager/Private/MicroManager.cpp:131-141 | Answering "No" to the confirmation fixes no redirectors and deletes nothing. |
| MicroManager.SweepDeletesOnlyUnusedAssets | Plugins/MicroManager/Source/MicroManager/Private/MicroManager.cpp:141-179 | A deletion happens only after a confirmation other than "No". The log is then exactly the confirmation, the redirector fix-up and, last, the deletion. It deletes a non-empty list, and only the data of unused assets of the folder. |
| MicroManager.NoUnusedAssetNoDeletion | Plugins/MicroManager/Source/MicroManager/Private/MicroManager.cpp:172-179 | A folder with no unused asset is never deleted from. Once confirmed, the sweep ends with the "no unused asset" dialog. |
| MicroManager.SweepDeletesEveryUnusedAsset | Plugins/MicroManager/Source/MicroManager/Private/MicroManager.cpp:145-173 | Conversely, after confirmation every unused asset of the folder is in the deleted list. |
| MicroManager.FolderDeletionsTargets | Plugins/MicroManager/Source/MicroManager/Private/MicroManager.cpp:230-236 | Every deletion targets a collected folder. Every dialog reports a collected folder that failed to delete. |
| MicroManager.EmptyFolderSweepBounds | Plugins/MicroManager/Source/MicroManager/Private/MicroManager.cpp:209-241 | The deletion counter is at most the number of collected folders. The confirmation is shown even when none were collected, after the "none found" dialog. Cancelling deletes nothing. Every deleted folder is a listed, non-excluded empty folder. |
| MicroManager.UnusedEntriesExact | Plugins/MicroManager/Source/MicroManager/Private/MicroManager.cpp:384-402 | An entry is kept if and only if it is non-null and its asset has no referencers. The output is a subsequence of the input, and filtering it again changes nothing. |
| MicroManager.GatheredAssetsAreValid | Plugins/MicroManager/Source/MicroManager/Private/MicroManager.cpp:314-336 | Every gathered asset is valid and comes from a non-excluded existing path of the listing. |
| QuickAssetAction.DuplicateAssets | Plugins/MicroManager/Source/MicroManager/Private/AssetActions/QuickAssetAction.cpp:12-44 | A count of zero or less gives only the invalid-number dialog and copies nothing. Otherwise every selected asset is copied count times, each success is saved and counted, and the notification appears exactly when the counter is positive. |
| QuickAssetAction.DuplicateOneAsset | Plugins/MicroManager/Source/MicroManager/Private/AssetActions/QuickAssetAction.cpp:25-40 | The copies of one asset are attempted in order. The number made is the number of successful attempts. |
| QuickAssetAction.DuplicateEffectsAppend | Plugins/MicroManager/Source/MicroManager/Private/AssetActions/QuickAssetAction.cpp:23-41 | The effects of successive assets' copies are concatenated in selection order. |
| QuickAssetAction.DuplicateAttemptsLength | Plugins/MicroManager/Source/MicroManager/Private/AssetActions/QuickAssetAction.cpp:23-26 | Exactly count attempts are made per selected asset. |
| QuickAssetAction.DuplicateCountBound | Plugins/MicroManager/Source/MicroManager/Private/AssetActions/QuickAssetAction.cpp:31-37 | The duplicate counter is at most the count times the number of selected assets. |
| QuickAssetAction.DuplicateAttemptAt | Plugins/MicroManager/Source/MicroManager/Private/AssetActions/QuickAssetAction.cpp:25-29 | The `k`-th copy of an asset is named after the asset, then `_`, then `k` in decimal, for `k` from 1 to the count. It is placed under the asset's package path. |
| QuickAssetAction.DuplicateNamesDistinct | Plugins/MicroManager/Source/MicroManager/Private/AssetActions/QuickAssetAction.cpp:28 | Different copy numbers give different names. |
| QuickAssetAction.DuplicateTargetsDistinct | Plugins/MicroManager/Source/MicroManager/Private/AssetActions/QuickAssetAction.cpp:28-29 | The copies of one asset go to pairwise distinct target paths. |
| QuickAssetAction.FindPrefix | Plugins/MicroManager/Source/MicroManager/Private/AssetActions/QuickAssetAction.cpp:55-63 | The lookup returns the prefix of the first table entry whose class the object's class derives from, or none. |
| QuickAssetAction.AddPrefixes | Plugins/MicroManager/Source/MicroManager/Private/AssetActions/QuickAssetAction.cpp:46-91 | Every selected object that needs a prefix is renamed, in order. The counter equals the number of renames, and the count notification is always shown. |
| QuickAssetAction.PrefixForFirstMatch | Plugins/MicroManager/Source/MicroManager/Private/AssetActions/QuickAssetAction.cpp:55-63 | The prefix found is that of the first matching table entry. |
| QuickAssetAction.PrefixForNoMatch | Plugins/MicroManager/Source/MicroManager/Private/AssetActions/QuickAssetAction.cpp:64-69 | Without a matching entry there is no prefix, and the object is skipped. |
| QuickAssetAction.PrefixedNameShape | Plugins/MicroManager/Source/MicroManager/Private/AssetActions/QuickAssetAction.cpp:53-86 | An object is renamed if and only if a non-empty prefix matches its class and its name does not already start with that prefix, ignoring case. The new name starts with the prefix. |
| QuickAssetAction.StripInstanceAffixes | Plugins/MicroManager/Source/MicroManager/Private/AssetActions/QuickAssetAction.cpp:77-82 | For a material instance, exactly one leading `M_` and one trailing `_Inst` are removed. |
| QuickAssetAction.MaterialInstanceRename | Plugins/MicroManager/Source/MicroManager/Private/AssetActions/QuickAssetAction.cpp:77-86 | A material instance named `M_<core>_Inst` is renamed `MI_<core>`. |
| QuickAssetAction.RenamedObjectIsSkipped | Plugins/MicroManager/Source/MicroManager/Private/AssetActions/QuickAssetAction.cpp:72-76 | A renamed object already starts with its prefix, so it is skipped the next time. |
| QuickAssetAction.AddPrefixesIdempotent | Plugins/MicroManager/Source/MicroManager/Private/AssetActions/QuickAssetAction.cpp:46-91 | Running the action again on its result renames nothing. |
| QuickAssetAction.RenameCountBound | Plugins/MicroManager/Source/MicroManager/Private/AssetActions/QuickAssetAction.cpp:86-90 | There is at most one rename per selected object. |
| QuickAssetAction.RemoveUnusedAssets | Plugins/MicroManager/Source/MicroManager/Private/AssetActions/QuickAssetAction.cpp:102-128 | Redirectors are fixed first. With no unreferenced selected asset, only the "no unused assets" dialog follows and nothing is deleted. Otherwise exactly those assets are deleted, and the result dialog appears unless nothing was deleted. |
| QuickAssetAction.RemoveUnusedAssetsExact | Plugins/MicroManager/Source/MicroManager/Private/AssetActions/QuickAssetAction.cpp:106-116 | An asset is collected if and only if it is selected and has no referencers, in selection order. |
| QuickAssetAction.PrefixTableWellFormed | Plugins/MicroManager/Source/MicroManager/Public/AssetActions/QuickAssetAction.h:69-131 | Every prefix in the table is non-empty and ends with `_`. |
| QuickAssetAction.BlueprintAndMaterialEntries | Plugins/MicroManager/Source/MicroManager/Public/AssetActions/QuickAssetAction.h:72-82 | `Blueprint` maps to `BP_` and comes before `AnimBlueprint` (`ABP_`). `Material` maps to `M_` and `MaterialInstanceConstant` to `MI_`. |
| QuickAssetAction.SharedPrefixEntries | Plugins/MicroManager/Source/MicroManager/Public/AssetActions/QuickAssetAction.h:86-119 | Both texture classes map to `T_`. The three curve classes share `Curve_`, and the two data-asset classes share `DA_`. |
| QuickAssetAction.AnimBlueprintGetsBlueprintPrefix | Plugins/MicroManager/Source/MicroManager/Public/AssetActions/QuickAssetAction.h:72-73 | First-match lookup gives an anim blueprint `BP_`, never `ABP_`. |
| QuickAssetAction.MaterialInstanceGetsItsPrefix | Plugins/MicroManager/Source/MicroManager/Public/AssetActions/QuickAssetAction.h:76-82 | A material instance that derives from none of the earlier classes gets `MI_`. |
| QuickMaterialCreation.QuickMaterialCreationWidget.constructor | Plugins/MicroManager/Source/MicroManager/Public/AssetActions/QuickMaterialCreationWidget.h:34-105 | The defaults are: no channel packing; custom name, material instance and no parameters; the `BaseColorTexture` parameter name; the name `M_`; and the six suffix tables in declaration order. |
| QuickMaterialCreation.QuickMaterialCreationWidget.CreateMaterialFromSelectedTextures | Plugins/MicroManager/Source/MicroManager/Private/AssetActions/QuickMaterialCreationWidget.cpp:12-43 | A custom name that is empty or exactly `M_` is refused before anything else. A refused selection, a used name or a failed creation each stops with its dialog. Otherwise the material is created, and at most one texture is wired: the first base-colour texture, and exactly when one exists. |
| QuickMaterialCreation.QuickMaterialCreationWidget.ProcessSelectedData | Plugins/MicroManager/Source/MicroManager/Private/AssetActions/QuickMaterialCreationWidget.cpp:45-83 | Fails on an empty selection and at the first loaded asset that is not a texture, with the matching dialog. Assets that do not load are skipped. Returns the textures up to that point, the first texture's package path, and (without a custom name) the name derived from the first texture. |
| QuickMaterialCreation.QuickMaterialCreationWidget.CheckIsNameUsed | Plugins/MicroManager/Source/MicroManager/Private/AssetActions/QuickMaterialCreationWidget.cpp:85-99 | True if and only if some asset listed directly in the folder has exactly the name as its base file name. |
| QuickMaterialCreation.QuickMaterialCreationWidget.TryConnectBaseColor | Plugins/MicroManager/Source/MicroManager/Private/AssetActions/QuickMaterialCreationWidget.cpp:130-148 | Connects if and only if the texture name contains some base-colour suffix, ignoring case. On success the node samples the texture, is appended as the only new expression, becomes the base colour and moves 600 units left. On failure nothing changes. |
| QuickMaterialCreation.QuickMaterialCreationWidget.DefaultCreateMaterialNodes | Plugins/MicroManager/Source/MicroManager/Private/AssetActions/QuickMaterialCreationWidget.cpp:110-124 | The pin counter grows by one, and a new node is wired, exactly when base colour was unconnected and the texture is a base-colour texture. Otherwise the material is unchanged. |
| QuickMaterialCreation.AcceptedCountAt | Plugins/MicroManager/Source/MicroManager/Private/AssetActions/QuickMaterialCreationWidget.cpp:54-66 | Processing stops at the first rejected asset, or runs to the end. |
| QuickMaterialCreation.PackagePathNeverOverwritten | Plugins/MicroManager/Source/MicroManager/Private/AssetActions/QuickMaterialCreationWidget.cpp:69-72 | Once the package path is set, later textures do not change it. |
| QuickMaterialCreation.PackagePathEmptyWithoutTexture | Plugins/MicroManager/Source/MicroManager/Private/AssetActions/QuickMaterialCreationWidget.cpp:57-72 | Before the first texture, no texture is collected and the package path is empty. |
| QuickMaterialCreation.FirstTextureDecides | Plugins/MicroManager/Source/MicroManager/Private/AssetActions/QuickMaterialCreationWidget.cpp:66-80 | The package path is that of the first texture, when non-empty. Without a custom name the material is named after the first texture, and later textures do not change the name. |
| QuickMaterialCreation.TexturesAppend | Plugins/MicroManager/Source/MicroManager/Private/AssetActions/QuickMaterialCreationWidget.cpp:66 | The collected textures of consecutive selections are concatenated in order. |
| QuickMaterialCreation.AutoNameOfTexture | Plugins/MicroManager/Source/MicroManager/Private/AssetActions/QuickMaterialCreationWidget.cpp:74-79 | A texture named `T_<core>` names the material `M_<core>`. |
| QuickMaterialCreation.DefaultNameIsRefused | Plugins/MicroManager/Source/MicroManager/Public/AssetActions/QuickMaterialCreationWidget.h:59 | The default name `M_` is exactly the refused custom name, and the comparison is case-sensitive. |
| QuickMaterialCreation.ObjectPathMakesNameUsed | Plugins/MicroManager/Source/MicroManager/Private/AssetActions/QuickMaterialCreationWidget.cpp:88-91 | An asset whose object path is `/Dir/Name.Name` makes `Name` a used name. |
| QuickMaterialCreation.LongerSuffixesSubsumed | Plugins/MicroManager/Source/MicroManager/Public/AssetActions/QuickMaterialCreationWidget.h:67-99 | Under case-insensitive substring matching, `_RoughnessMap` is subsumed by `_Roughness`, `_NormalMap` by `_Normal`, `_AmbientOcclusionMap` by `_AmbientOcclusion` and `_Diffuse` by `_diff`. |
| QuickMaterialCreation.BaseColorSuffixMatches | Plugins/MicroManager/Source/MicroManager/Public/AssetActions/QuickMaterialCreationWidget.h:67-72 | A texture name ending in any default base-colour suffix is a base-colour texture. |
| Text.FromInt | Plugins/MicroManager/Source/MicroManager/Private/AssetActions/QuickAssetAction.cpp:28 | `FString::FromInt` of a count gives at least one decimal digit, with more than one exactly from 10 on. |
| Text.FromIntInjective | Plugins/MicroManager/Source/MicroManager/Private/AssetActions/QuickAssetAction.cpp:28 | Distinct counts give distinct decimal strings. |
| Text.BaseFilenameOfObjectPath | Plugins/MicroManager/Source/MicroManager/Private/AssetActions/QuickMaterialCreationWidget.cpp:90 | `FPaths::GetBaseFilename` of an object path `/Dir/Name.Name` is `Name`. |
| Text.ContainsNeedlePrefix | Plugins/MicroManager/Source/MicroManager/Private/AssetActions/QuickMaterialCreationWidget.cpp:137 | A name that contains a suffix also contains every prefix of that suffix, ignoring case. |

## Left out

- Slate UI: the manager tab's widget tree, row generation and checkbox handlers, the style set, and the build rules.
- Module and menu registration: `StartupModule`, `InitCBMenuExtension`, `AddCBMenuEntry`, tab spawning and `OnMicroManagerClicked`. They are lifecycle and UI wiring only.
- The debug helper: print and log output are not modelled. Dialogs and notifications are effects carrying their message. The dialog's answer is a parameter. The notification's fade-in 0.2 s, fade-out 0.5 s and expiry 4.0 s are floating-point display timings and are not modelled.
- Engine services are uninterpreted functions of the `Services` record, not behaviour. These are: asset and folder listing, existence checks, referencer lookup, asset data lookup, loading, the class-subtype relation, deletion, duplication and material creation. Saving and renaming are logged as `SaveAsset` and `RenameAsset` effects, but what they do to the editor is not modelled; renaming is taken to succeed. `PostEditChange` is left out entirely.
- Redirector fix-up (`FixUpRedirectors`, the registry query and `FixupReferencers`) is one effect in the log. Its internals are engine calls.
- The stubbed actor-action widget always returns false and is not modelled.
- Declared members without a definition are not modelled. These are `TryConnectMetalic`, `TryConnectRoughness`, `TryConnectNormal`, `TryConnectAO`, `TryConnectORM`, `CreateMaterialInstanceFromSelectedMaterial`, `CreateMaterialInstanceAsset`, `ListSameNameAssetsForAssetList` and `SyncCBToClickedAssetForAssetList`.
- `BaseColorTint` is an `FLinearColor`, floating point, and unused by the logic.
- QuickAssetAction.DuplicateAssets: the `uint32` counters are `nat`s here. Wrap-around after 2^32 is not modelled. This covers the copy counter of `DuplicateAssets` (QuickAssetAction.cpp:21), the rename counter of `AddPrefixes` (QuickAssetAction.cpp:49) and the deletion counter of `OnDeleteUnusedFoldersButtonClicked` (MicroManager.cpp:191).
- QuickAssetAction.AddPrefixes: renaming is taken to succeed. `AddPrefixesIdempotent` holds for the names the first run assigns.
- QuickAssetAction.PrefixTableWellFormed: the table's keys are distinct classes, but that is not proved. The lookup takes the first match, so this does not affect any result.
- QuickMaterialCreation.QuickMaterialCreationWidget.DefaultCreateMaterialNodes: `NewObject` is taken never to return null.
- QuickMaterialCreation.QuickMaterialCreationWidget.CreateMaterialFromSelectedTextures: the null check in the node loop is not modelled. The collected textures come from successful casts, so it never fires. The `uint32` pin counter is at most 1.
- MicroManager.MicroManagerModule.OnDeleteUnusedAssetsButtonClicked: with no folder selected, indexing the first folder fails the engine's range check. The log then ends with `IndexOutOfRange`, and what the editor does next is not modelled. The same holds for `OnDeleteUnusedFoldersButtonClicked`.
- `Contains` with an empty needle is true, as in the engine. No default suffix table has an empty entry.

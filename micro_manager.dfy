/** The editor module's content-browser commands: the unused-asset sweep, the
    empty-folder sweep, the gathering of assets for the manager tab, and the
    tab's unused-asset filter and delete helpers. */
module MicroManager {
  import opened Text
  import opened Sequences
  import opened Editor

  /** Paths that no sweep ever touches. */
  predicate IsExcludedPath(path: string)
  {
    Contains(path, "Developers") || Contains(path, "Collections")
    || Contains(path, "_ExternalActors_") || Contains(path, "_ExternalObjects_")
    || Contains(path, "Maps")
  }

  /** An asset the unused-asset sweep deletes: not excluded, existing, and
      without referencers. */
  predicate IsUnusedAsset(ed: Services, path: string)
  {
    !IsExcludedPath(path) && ed.doesAssetExist(path) && |ed.findPackageReferencers(path)| == 0
  }

  function UnusedAssetTest(ed: Services): (test: string -> bool)
  {
    path => IsUnusedAsset(ed, path)
  }

  /** A folder the empty-folder sweep collects. */
  predicate IsEmptyFolder(ed: Services, path: string)
  {
    !IsExcludedPath(path) && ed.doesDirectoryExist(path) && !ed.doesDirectoryHaveAssets(path)
  }

  function EmptyFolderTest(ed: Services): (test: string -> bool)
  {
    path => IsEmptyFolder(ed, path)
  }

  /** An asset the manager tab lists. */
  predicate IsAvailableAsset(ed: Services, path: string)
  {
    !IsExcludedPath(path) && ed.doesAssetExist(path) && ed.findAssetData(path).isValid
  }

  function AvailableAssetTest(ed: Services): (test: string -> bool)
  {
    path => IsAvailableAsset(ed, path)
  }

  /** A non-null entry of the tab's list whose asset has no referencers. */
  predicate IsUnreferencedEntry(ed: Services, entry: Option<AssetData>)
  {
    entry.Some? && |ed.findPackageReferencers(entry.value.objectPath)| == 0
  }

  function UnreferencedEntryTest(ed: Services): (test: Option<AssetData> -> bool)
  {
    entry => IsUnreferencedEntry(ed, entry)
  }

  /** The asset data the unused-asset sweep hands to `DeleteAssets`. */
  function UnusedAssetsData(ed: Services, paths: seq<string>): (unused: seq<AssetData>)
  {
    MapSeq(ed.findAssetData, Filter(paths, UnusedAssetTest(ed)))
  }

  /** Everything the unused-asset sweep does once one folder is selected. */
  function UnusedAssetSweep(ed: Services, folder: string, answer: AppReturn): (log: seq<Effect>)
  {
    var paths := ed.listAssets(folder, true, false);
    if |paths| == 0 then [ShowDialog(NoAssetsUnderFolder)]
    else if answer == No then [ShowDialog(ConfirmAssetDeletion(|paths|))]
    else
      var unused := UnusedAssetsData(ed, paths);
      [ShowDialog(ConfirmAssetDeletion(|paths|)), FixUpRedirectors]
      + (if |unused| > 0 then [DeleteAssets(unused)] else [ShowDialog(NoUnusedAssetUnderFolder)])
  }

  /** The list of folder names shown in the confirmation, one per line. */
  function FolderListText(folders: seq<string>): (text: string)
  {
    if |folders| == 0 then ""
    else FolderListText(folders[..|folders| - 1]) + folders[|folders| - 1] + "\n"
  }

  /** The attempts to delete each folder, with a dialog for each failure. */
  function FolderDeletions(ed: Services, folders: seq<string>): (log: seq<Effect>)
  {
    if |folders| == 0 then []
    else
      var last := folders[|folders| - 1];
      FolderDeletions(ed, folders[..|folders| - 1]) + [DeleteDirectory(last)]
      + (if ed.deleteDirectory(last) then [] else [ShowDialog(FailedToDeleteFolder(last))])
  }

  /** Everything the empty-folder sweep does once `empty` has been collected. */
  function EmptyFolderSweep(ed: Services, empty: seq<string>, answer: AppReturn): (log: seq<Effect>)
  {
    var deleted := |Filter(empty, ed.deleteDirectory)|;
    (if |empty| == 0 then [ShowDialog(NoEmptyFolders)] else [])
    + [ShowDialog(ConfirmFolderDeletion(FolderListText(empty)))]
    + (if answer == Cancel then []
       else FolderDeletions(ed, empty)
            + (if deleted > 0 then [ShowNotification(DeletedEmptyFolders(deleted))] else []))
  }

  /** The plugin's editor module; it remembers the folders last selected in the
      content browser's path view. */
  class MicroManagerModule {
    var folderPathsSelected: seq<string>

    constructor ()
      ensures folderPathsSelected == []
    {
      folderPathsSelected := [];
    }

    /** Builds the path-view context menu. The menu entries are added, and the
        selection is remembered, only when some path is selected. */
    method CustomBBMenuExtender(selectedPaths: seq<string>) returns (entriesAdded: bool)
      modifies this
      ensures entriesAdded <==> |selectedPaths| > 0
      ensures folderPathsSelected == if |selectedPaths| > 0 then selectedPaths else old(folderPathsSelected)
    {
      entriesAdded := false;
      if |selectedPaths| > 0 {
        entriesAdded := true;
        folderPathsSelected := selectedPaths;
      }
    }

    /** "Delete Unused Assets": refuses more than one folder, asks for
        confirmation, fixes redirectors, then deletes every non-excluded
        existing asset of the folder that nothing references. */
    method OnDeleteUnusedAssetsButtonClicked(ed: Services, answer: AppReturn) returns (log: seq<Effect>)
      ensures |folderPathsSelected| > 1 ==> log == [ShowDialog(OnlyOneDirectory)]
      ensures |folderPathsSelected| == 0 ==> log == [IndexOutOfRange]
      ensures |folderPathsSelected| == 1 ==> log == UnusedAssetSweep(ed, folderPathsSelected[0], answer)
    {
      if |folderPathsSelected| > 1 {
        return [ShowDialog(OnlyOneDirectory)];
      }
      if |folderPathsSelected| == 0 {
        return [IndexOutOfRange];
      }
      var paths := ed.listAssets(folderPathsSelected[0], true, false);
      if |paths| == 0 {
        return [ShowDialog(NoAssetsUnderFolder)];
      }
      log := [ShowDialog(ConfirmAssetDeletion(|paths|))];
      if answer == No {
        return;
      }
      log := log + [FixUpRedirectors];
      var unused := CollectUnusedAssets(ed, paths);
      if |unused| > 0 {
        log := log + [DeleteAssets(unused)];
      } else {
        log := log + [ShowDialog(NoUnusedAssetUnderFolder)];
      }
    }

    /** The loop of "Delete Unused Assets": the data of every listed path
        that is not excluded, exists and has no referencers, in order. */
    method CollectUnusedAssets(ed: Services, paths: seq<string>) returns (unused: seq<AssetData>)
      ensures unused == UnusedAssetsData(ed, paths)
    {
      unused := [];
      for i := 0 to |paths|
        invariant unused == MapSeq(ed.findAssetData, Filter(paths[..i], UnusedAssetTest(ed)))
      {
        FilterExtend(paths, i, UnusedAssetTest(ed));
        var path := paths[i];
        if IsExcludedPath(path) {
          continue;
        }
        if !ed.doesAssetExist(path) {
          continue;
        }
        if |ed.findPackageReferencers(path)| == 0 {
          MapSeqExtend(ed.findAssetData, Filter(paths[..i], UnusedAssetTest(ed)), path);
          unused := unused + [ed.findAssetData(path)];
        }
      }
      assert paths[..|paths|] == paths;
    }

    /** "Delete Empty Folders": collects the non-excluded existing folders
        without assets under the first selected folder, always asks for
        confirmation, and deletes them one by one, counting the successes. */
    method OnDeleteUnusedFoldersButtonClicked(ed: Services, answer: AppReturn)
      returns (log: seq<Effect>, counter: nat)
      ensures |folderPathsSelected| == 0 ==> log == [IndexOutOfRange] && counter == 0
      ensures |folderPathsSelected| > 0 ==>
        var empty := Filter(ed.listAssets(folderPathsSelected[0], true, true), EmptyFolderTest(ed));
        && log == EmptyFolderSweep(ed, empty, answer)
        && counter == (if answer == Cancel then 0 else |Filter(empty, ed.deleteDirectory)|)
    {
      if |folderPathsSelected| == 0 {
        return [IndexOutOfRange], 0;
      }
      var folderPaths := ed.listAssets(folderPathsSelected[0], true, true);
      var empty, names := CollectEmptyFolders(ed, folderPaths);
      var shown: seq<Effect> := [];
      if |empty| == 0 {
        shown := [ShowDialog(NoEmptyFolders)];
      }
      shown := shown + [ShowDialog(ConfirmFolderDeletion(names))];
      if answer == Cancel {
        return shown, 0;
      }
      var deletions;
      deletions, counter := DeleteEmptyFolders(ed, empty);
      if counter > 0 {
        deletions := deletions + [ShowNotification(DeletedEmptyFolders(counter))];
      }
      log := shown + deletions;
    }

    /** The first loop of "Delete Empty Folders": the folders to delete and
        the text that lists them. */
    method CollectEmptyFolders(ed: Services, folderPaths: seq<string>)
      returns (empty: seq<string>, names: string)
      ensures empty == Filter(folderPaths, EmptyFolderTest(ed))
      ensures names == FolderListText(empty)
    {
      names := "";
      empty := [];
      for i := 0 to |folderPaths|
        invariant empty == Filter(folderPaths[..i], EmptyFolderTest(ed))
        invariant names == FolderListText(empty)
      {
        FilterExtend(folderPaths, i, EmptyFolderTest(ed));
        var path := folderPaths[i];
        if IsExcludedPath(path) {
          continue;
        }
        if !ed.doesDirectoryExist(path) {
          continue;
        }
        if !ed.doesDirectoryHaveAssets(path) {
          assert (empty + [path])[..|empty|] == empty;
          names := names + path + "\n";
          empty := empty + [path];
        }
      }
      assert folderPaths[..|folderPaths|] == folderPaths;
    }

    /** The second loop of "Delete Empty Folders": one deletion per folder,
        a dialog per failure, and the number of successes. */
    method DeleteEmptyFolders(ed: Services, empty: seq<string>) returns (log: seq<Effect>, counter: nat)
      ensures log == FolderDeletions(ed, empty)
      ensures counter == |Filter(empty, ed.deleteDirectory)|
    {
      log := [];
      counter := 0;
      for i := 0 to |empty|
        invariant log == FolderDeletions(ed, empty[..i])
        invariant counter == |Filter(empty[..i], ed.deleteDirectory)|
      {
        FilterExtend(empty, i, ed.deleteDirectory);
        assert empty[..i + 1][..i] == empty[..i];
        log := log + [DeleteDirectory(empty[i])];
        if ed.deleteDirectory(empty[i]) {
          counter := counter + 1;
        } else {
          log := log + [ShowDialog(FailedToDeleteFolder(empty[i]))];
        }
      }
      assert empty[..|empty|] == empty;
    }

    /** The assets the manager tab lists: none without a selected folder,
        otherwise the valid data of every non-excluded existing asset under
        the first selected folder. */
    method GetAllAssetDataUnderSelectedFolders(ed: Services) returns (available: seq<AssetData>)
      ensures |folderPathsSelected| == 0 ==> available == []
      ensures |folderPathsSelected| > 0 ==>
        available == MapSeq(ed.findAssetData,
                             Filter(ed.listAssets(folderPathsSelected[0], true, false), AvailableAssetTest(ed)))
    {
      if |folderPathsSelected| == 0 {
        return [];
      }
      var paths := ed.listAssets(folderPathsSelected[0], true, false);
      available := [];
      for i := 0 to |paths|
        invariant available == MapSeq(ed.findAssetData, Filter(paths[..i], AvailableAssetTest(ed)))
      {
        FilterExtend(paths, i, AvailableAssetTest(ed));
        var path := paths[i];
        if IsExcludedPath(path) {
          continue;
        }
        if !ed.doesAssetExist(path) {
          continue;
        }
        var data := ed.findAssetData(path);
        if data.isValid {
          MapSeqExtend(ed.findAssetData, Filter(paths[..i], AvailableAssetTest(ed)), path);
          available := available + [data];
        }
      }
      assert paths[..|paths|] == paths;
    }

    /** `DeleteSingleAssetForAssetList`: deletes the one asset as a list of
        one, and succeeds when the engine deleted it. */
    method DeleteSingleAssetForAssetList(ed: Services, asset: AssetData) returns (deleted: bool, log: seq<Effect>)
      ensures log == [DeleteAssets([asset])]
      ensures deleted <==> ed.deleteAssets([asset]) > 0
    {
      var assetsDataArrayForDeletion := [asset];
      log := [DeleteAssets(assetsDataArrayForDeletion)];
      deleted := ed.deleteAssets(assetsDataArrayForDeletion) > 0;
    }

    /** `DeleteMultipleAssetsForAssetList`: deletes the whole batch in one
        call, and succeeds when the engine deleted any of it. */
    method DeleteMultipleAssetsForAssetList(ed: Services, assets: seq<AssetData>) returns (deleted: bool, log: seq<Effect>)
      ensures log == [DeleteAssets(assets)]
      ensures deleted <==> ed.deleteAssets(assets) > 0
    {
      log := [DeleteAssets(assets)];
      deleted := ed.deleteAssets(assets) > 0;
    }

    /** The tab's unused-asset filter: the output starts empty and receives,
        in order, every non-null entry whose asset nothing references. */
    method ListUnusedAssetsForAssetList(ed: Services, assetsToFilter: seq<Option<AssetData>>)
      returns (unused: seq<Option<AssetData>>)
      ensures unused == Filter(assetsToFilter, UnreferencedEntryTest(ed))
    {
      unused := [];
      for i := 0 to |assetsToFilter|
        invariant unused == Filter(assetsToFilter[..i], UnreferencedEntryTest(ed))
      {
        FilterExtend(assetsToFilter, i, UnreferencedEntryTest(ed));
        var entry := assetsToFilter[i];
        if entry.None? {
          continue;
        }
        if |ed.findPackageReferencers(entry.value.objectPath)| == 0 {
          unused := unused + [entry];
        }
      }
      assert assetsToFilter[..|assetsToFilter|] == assetsToFilter;
    }
  }

  // ---------------------------------------------------------------- lemmas

  /** No excluded path is ever deleted as unused, collected as an empty
      folder, or listed in the tab. */
  lemma SweepsSkipExcludedPaths(ed: Services, paths: seq<string>, path: string)
    requires path in Filter(paths, UnusedAssetTest(ed))
          || path in Filter(paths, EmptyFolderTest(ed))
          || path in Filter(paths, AvailableAssetTest(ed))
    ensures path in paths && !IsExcludedPath(path)
  {
  }

  /** The unused paths are exactly the listed paths that are not excluded,
      exist and have no referencers, in listing order. */
  lemma UnusedAssetPathsExact(ed: Services, paths: seq<string>)
    ensures forall p :: p in Filter(paths, UnusedAssetTest(ed)) <==> p in paths && IsUnusedAsset(ed, p)
    ensures IsSubsequence(Filter(paths, UnusedAssetTest(ed)), paths)
  {
    forall p | p in paths && IsUnusedAsset(ed, p)
      ensures p in Filter(paths, UnusedAssetTest(ed))
    {
      FilterComplete(paths, UnusedAssetTest(ed), p);
    }
    FilterIsSubsequence(paths, UnusedAssetTest(ed));
  }

  /** Answering "No" returns before redirectors are fixed or anything is deleted. */
  lemma DeclinedSweepChangesNothing(ed: Services, folder: string)
    ensures FixUpRedirectors !in UnusedAssetSweep(ed, folder, No)
    ensures forall e :: e in UnusedAssetSweep(ed, folder, No) ==> !e.DeleteAssets?
  {
  }

  /** What the sweep deletes is non-empty and is the data of unused assets
      of the folder only. */
  lemma SweepDeletesOnlyUnusedAssets(ed: Services, folder: string, answer: AppReturn, assets: seq<AssetData>)
    requires DeleteAssets(assets) in UnusedAssetSweep(ed, folder, answer)
    ensures answer != No && |assets| > 0
    ensures var log := UnusedAssetSweep(ed, folder, answer);
      && |log| == 3
      && log[0] == ShowDialog(ConfirmAssetDeletion(|ed.listAssets(folder, true, false)|))
      && log[1] == FixUpRedirectors
      && log[2] == DeleteAssets(assets)
    ensures forall d :: d in assets ==>
      exists p :: p in ed.listAssets(folder, true, false) && IsUnusedAsset(ed, p) && d == ed.findAssetData(p)
  {
    var paths := ed.listAssets(folder, true, false);
    var kept := Filter(paths, UnusedAssetTest(ed));
    assert assets == MapSeq(ed.findAssetData, kept);
    var log := UnusedAssetSweep(ed, folder, answer);
    assert log[1] == FixUpRedirectors && log[2] == DeleteAssets(assets);
    forall d | d in assets
      ensures exists p :: p in paths && IsUnusedAsset(ed, p) && d == ed.findAssetData(p)
    {
      var k :| 0 <= k < |assets| && assets[k] == d;
      assert kept[k] in kept;
    }
  }

  /** A folder without unused assets is never deleted from; once confirmed,
      the sweep ends with the "no unused asset" dialog. */
  lemma NoUnusedAssetNoDeletion(ed: Services, folder: string, answer: AppReturn)
    requires forall i :: 0 <= i < |ed.listAssets(folder, true, false)| ==>
      !IsUnusedAsset(ed, ed.listAssets(folder, true, false)[i])
    ensures forall e :: e in UnusedAssetSweep(ed, folder, answer) ==> !e.DeleteAssets?
    ensures answer != No && |ed.listAssets(folder, true, false)| > 0 ==>
      UnusedAssetSweep(ed, folder, answer)[2] == ShowDialog(NoUnusedAssetUnderFolder)
  {
    FilterEmptyWhenNoneKept(ed.listAssets(folder, true, false), UnusedAssetTest(ed));
  }

  /** Conversely, once confirmed, the data of every unused asset of the
      folder is deleted. */
  lemma SweepDeletesEveryUnusedAsset(ed: Services, folder: string, answer: AppReturn, path: string)
    requires answer != No
    requires path in ed.listAssets(folder, true, false) && IsUnusedAsset(ed, path)
    ensures DeleteAssets(UnusedAssetsData(ed, ed.listAssets(folder, true, false))) in UnusedAssetSweep(ed, folder, answer)
    ensures ed.findAssetData(path) in UnusedAssetsData(ed, ed.listAssets(folder, true, false))
  {
    var paths := ed.listAssets(folder, true, false);
    var kept := Filter(paths, UnusedAssetTest(ed));
    FilterComplete(paths, UnusedAssetTest(ed), path);
    var k :| 0 <= k < |kept| && kept[k] == path;
    assert UnusedAssetsData(ed, paths)[k] == ed.findAssetData(path);
  }

  /** The folders the sweep tries to delete are the collected ones, in order. */
  lemma {:induction false} FolderDeletionsTargets(ed: Services, folders: seq<string>)
    ensures forall e :: e in FolderDeletions(ed, folders) && e.DeleteDirectory? ==> e.directory in folders
    ensures forall e :: e in FolderDeletions(ed, folders) && e.ShowDialog? ==>
      e.message.FailedToDeleteFolder? && e.message.folder in folders && !ed.deleteDirectory(e.message.folder)
  {
    if |folders| > 0 {
      FolderDeletionsTargets(ed, folders[..|folders| - 1]);
    }
  }

  /** The empty-folder sweep deletes only collected, non-excluded folders;
      its counter is at most the number collected; the confirmation is shown
      even when nothing was collected; cancelling deletes nothing. */
  lemma EmptyFolderSweepBounds(ed: Services, folderPaths: seq<string>, answer: AppReturn)
    ensures var empty := Filter(folderPaths, EmptyFolderTest(ed));
      && |Filter(empty, ed.deleteDirectory)| <= |empty|
      && ShowDialog(ConfirmFolderDeletion(FolderListText(empty))) in EmptyFolderSweep(ed, empty, answer)
      && (|empty| == 0 ==> EmptyFolderSweep(ed, empty, answer)[0] == ShowDialog(NoEmptyFolders))
      && (answer == Cancel ==> forall e :: e in EmptyFolderSweep(ed, empty, answer) ==> !e.DeleteDirectory?)
      && forall e :: e in EmptyFolderSweep(ed, empty, answer) && e.DeleteDirectory? ==>
           e.directory in folderPaths && IsEmptyFolder(ed, e.directory)
  {
    var empty := Filter(folderPaths, EmptyFolderTest(ed));
    FolderDeletionsTargets(ed, empty);
  }

  /** The tab's filter keeps exactly the non-null unreferenced entries, in
      order, and filtering its output again changes nothing. */
  lemma UnusedEntriesExact(ed: Services, entries: seq<Option<AssetData>>)
    ensures forall e :: e in Filter(entries, UnreferencedEntryTest(ed)) <==> e in entries && IsUnreferencedEntry(ed, e)
    ensures IsSubsequence(Filter(entries, UnreferencedEntryTest(ed)), entries)
    ensures Filter(Filter(entries, UnreferencedEntryTest(ed)), UnreferencedEntryTest(ed))
            == Filter(entries, UnreferencedEntryTest(ed))
  {
    forall e | e in entries && IsUnreferencedEntry(ed, e)
      ensures e in Filter(entries, UnreferencedEntryTest(ed))
    {
      FilterComplete(entries, UnreferencedEntryTest(ed), e);
    }
    FilterIsSubsequence(entries, UnreferencedEntryTest(ed));
    FilterIdempotent(entries, UnreferencedEntryTest(ed));
  }

  /** Every asset listed in the tab is valid and comes from a non-excluded
      existing path of the folder. */
  lemma GatheredAssetsAreValid(ed: Services, paths: seq<string>)
    ensures forall d :: d in MapSeq(ed.findAssetData, Filter(paths, AvailableAssetTest(ed))) ==>
      d.isValid && exists p :: p in paths && !IsExcludedPath(p) && ed.doesAssetExist(p) && d == ed.findAssetData(p)
  {
    var kept := Filter(paths, AvailableAssetTest(ed));
    forall d | d in MapSeq(ed.findAssetData, kept)
      ensures d.isValid && exists p :: p in paths && !IsExcludedPath(p) && ed.doesAssetExist(p) && d == ed.findAssetData(p)
    {
      var k :| 0 <= k < |kept| && MapSeq(ed.findAssetData, kept)[k] == d;
      assert kept[k] in kept;
    }
  }
}

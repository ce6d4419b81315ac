/** The content browser's quick asset actions: duplicating the selected
    assets, adding the conventional class prefix to their names, and removing
    the selected assets that nothing references. */
module QuickAssetAction {
  import opened Text
  import opened Sequences
  import opened Editor

  /** The prefix table, in declaration order. It is an engine map filled once
      by its initializer, so it is walked in that order. */
  const PrefixMap: seq<(AssetClass, string)> := [
    // Blueprints & Widgets
    (Blueprint, "BP_"), (AnimBlueprint, "ABP_"), (UserWidget, "WBP_"),
    // Meshes
    (StaticMesh, "SM_"), (SkeletalMesh, "SK_"),
    // Materials
    (Material, "M_"), (MaterialInstanceConstant, "MI_"), (MaterialFunctionInterface, "MF_"),
    // Textures
    (Texture2D, "T_"), (TextureCube, "T_"), (TextureRenderTarget2D, "RT_"),
    // Sounds
    (SoundCue, "SC_"), (SoundWave, "SW_"),
    // Effects
    (ParticleSystem, "PS_"), (NiagaraSystem, "NS_"), (NiagaraEmitter, "NE_"),
    // Animation
    (AnimSequence, "A_"), (AnimMontage, "AM_"), (AnimComposite, "AC_"),
    (BlendSpace, "BS_"), (AimOffsetBlendSpace, "AO_"),
    // Skeleton & Physics
    (Skeleton, "SKEL_"), (PhysicsAsset, "PHYS_"),
    // Fonts & Curves
    (Font, "Font_"), (CurveFloat, "Curve_"), (CurveVector, "Curve_"), (CurveLinearColor, "Curve_"),
    // Data Assets
    (DataTable, "DT_"), (DataAsset, "DA_"), (PrimaryDataAsset, "DA_"),
    // Cinematics / Cameras
    (LevelSequence, "Seq_"), (CameraShakeBase, "CS_"), (CameraComponent, "CC_"),
    // World / Level
    (World, "Lvl_"), (Volume, "Vol_"), (Light, "Light_"), (StaticMeshActor, "SMA_")
  ]

  // ------------------------------------------------------------ duplicating

  /** The name of the `k`-th copy of an asset. */
  function DuplicateName(assetName: string, k: nat): (name: string)
  {
    assetName + "_" + FromInt(k)
  }

  /** The source and target paths of the `n` copies of one asset. */
  function AssetDuplicates(asset: AssetData, n: nat): (copies: seq<(string, string)>)
  {
    seq(n, i requires 0 <= i < n =>
      (asset.objectPath, CombinePath(asset.packagePath, DuplicateName(asset.assetName, i + 1))))
  }

  /** Every duplication attempted, asset after asset. */
  function DuplicateAttempts(assets: seq<AssetData>, n: nat): (attempts: seq<(string, string)>)
  {
    if |assets| == 0 then []
    else DuplicateAttempts(assets[..|assets| - 1], n) + AssetDuplicates(assets[|assets| - 1], n)
  }

  function DuplicateSucceeds(ed: Services): (succeeds: ((string, string)) -> bool)
  {
    (attempt: (string, string)) => ed.duplicateAsset(attempt.0, attempt.1)
  }

  /** The effects of the attempts: each copy is made, and saved when made. */
  function DuplicateEffects(ed: Services, attempts: seq<(string, string)>): (log: seq<Effect>)
  {
    if |attempts| == 0 then []
    else
      var last := attempts[|attempts| - 1];
      DuplicateEffects(ed, attempts[..|attempts| - 1]) + [DuplicateAsset(last.0, last.1)]
      + (if ed.duplicateAsset(last.0, last.1) then [SaveAsset(last.1)] else [])
  }

  /** `DuplicateAssets`: a non-positive count is refused; otherwise every
      selected asset is copied `n` times, each copy saved when made, and a
      notification reports how many copies were made when there were any. */
  method DuplicateAssets(ed: Services, numOfDuplicates: int, selected: seq<AssetData>)
    returns (log: seq<Effect>, counter: nat)
    ensures numOfDuplicates <= 0 ==> log == [ShowDialog(InvalidNumber)] && counter == 0
    ensures numOfDuplicates > 0 ==>
      var attempts := DuplicateAttempts(selected, numOfDuplicates);
      && counter == |Filter(attempts, DuplicateSucceeds(ed))|
      && log == DuplicateEffects(ed, attempts)
                + (if counter > 0 then [ShowNotification(DuplicatedFiles(counter))] else [])
  {
    if numOfDuplicates <= 0 {
      return [ShowDialog(InvalidNumber)], 0;
    }
    var n: nat := numOfDuplicates;
    log, counter := [], 0;
    for a := 0 to |selected|
      invariant log == DuplicateEffects(ed, DuplicateAttempts(selected[..a], n))
      invariant counter == |Filter(DuplicateAttempts(selected[..a], n), DuplicateSucceeds(ed))|
    {
      var effects, made := DuplicateOneAsset(ed, selected[a], n);
      ghost var done := DuplicateAttempts(selected[..a], n);
      ghost var copies := AssetDuplicates(selected[a], n);
      assert selected[..a + 1][..a] == selected[..a];
      assert DuplicateAttempts(selected[..a + 1], n) == done + copies;
      DuplicateEffectsAppend(ed, done, copies);
      FilterAppend(done, copies, DuplicateSucceeds(ed));
      log := log + effects;
      counter := counter + made;
    }
    assert selected[..|selected|] == selected;
    if counter > 0 {
      log := log + [ShowNotification(DuplicatedFiles(counter))];
    }
  }

  /** The inner loop of `DuplicateAssets`: the `n` copies of one asset. */
  method DuplicateOneAsset(ed: Services, asset: AssetData, n: nat) returns (log: seq<Effect>, made: nat)
    ensures log == DuplicateEffects(ed, AssetDuplicates(asset, n))
    ensures made == |Filter(AssetDuplicates(asset, n), DuplicateSucceeds(ed))|
  {
    ghost var copies := AssetDuplicates(asset, n);
    log, made := [], 0;
    for i := 0 to n
      invariant log == DuplicateEffects(ed, copies[..i])
      invariant made == |Filter(copies[..i], DuplicateSucceeds(ed))|
    {
      var sourceAssetPath := asset.objectPath;
      var newPathName := CombinePath(asset.packagePath, DuplicateName(asset.assetName, i + 1));
      assert copies[i] == (sourceAssetPath, newPathName);
      assert copies[..i + 1][..i] == copies[..i];
      FilterExtend(copies, i, DuplicateSucceeds(ed));
      log := log + [DuplicateAsset(sourceAssetPath, newPathName)];
      if ed.duplicateAsset(sourceAssetPath, newPathName) {
        log := log + [SaveAsset(newPathName)];
        made := made + 1;
      }
    }
    assert copies[..n] == copies;
  }

  /** The effects of two runs of attempts are those of the first, then the second. */
  lemma {:induction false} DuplicateEffectsAppend(ed: Services, a: seq<(string, string)>, b: seq<(string, string)>)
    ensures DuplicateEffects(ed, a + b) == DuplicateEffects(ed, a) + DuplicateEffects(ed, b)
  {
    if |b| == 0 {
      assert a + b == a;
    } else {
      var n := |b| - 1;
      assert (a + b)[..|a + b| - 1] == a + b[..n];
      DuplicateEffectsAppend(ed, a, b[..n]);
    }
  }

  // --------------------------------------------------------------- prefixes

  /** The prefix of the first table entry whose class `cls` derives from. */
  function PrefixFor(table: seq<(AssetClass, string)>, cls: AssetClass,
                     isChildOf: (AssetClass, AssetClass) -> bool): (prefix: Option<string>)
  {
    if |table| == 0 then None
    else if isChildOf(cls, table[0].0) then Some(table[0].1)
    else PrefixFor(table[1..], cls, isChildOf)
  }

  /** The new name `AddPrefixes` gives `obj`, or None when it skips it: no
      entry matches, the prefix is empty, or the name already starts with it.
      A material instance first loses one leading `M_` and one trailing `_Inst`. */
  function PrefixedName(ed: Services, obj: EditorObject): (newName: Option<string>)
  {
    match PrefixFor(PrefixMap, obj.cls, ed.isChildOf)
    case None => None
    case Some(prefix) =>
      if |prefix| == 0 || StartsWith(obj.name, prefix) then None
      else if ed.isChildOf(obj.cls, MaterialInstanceConstant)
      then Some(prefix + RemoveFromEnd(RemoveFromStart(obj.name, "M_"), "_Inst"))
      else Some(prefix + obj.name)
  }

  /** The renames `AddPrefixes` performs, in selection order. */
  function PrefixRenames(ed: Services, selected: seq<Option<EditorObject>>): (renames: seq<Effect>)
  {
    if |selected| == 0 then []
    else
      var rest := PrefixRenames(ed, selected[..|selected| - 1]);
      match selected[|selected| - 1]
      case None => rest
      case Some(obj) =>
        match PrefixedName(ed, obj)
        case None => rest
        case Some(newName) => rest + [RenameAsset(obj, newName)]
  }

  /** The inner loop of `AddPrefixes`: walk the table and stop at the first
      entry whose class `cls` derives from. */
  method FindPrefix(ed: Services, cls: AssetClass) returns (prefixFound: Option<string>)
    ensures prefixFound == PrefixFor(PrefixMap, cls, ed.isChildOf)
  {
    prefixFound := None;
    var i := 0;
    while i < |PrefixMap|
      invariant 0 <= i <= |PrefixMap|
      invariant PrefixFor(PrefixMap, cls, ed.isChildOf) == PrefixFor(PrefixMap[i..], cls, ed.isChildOf)
    {
      assert PrefixMap[i..][1..] == PrefixMap[i + 1..];
      if ed.isChildOf(cls, PrefixMap[i].0) {
        prefixFound := Some(PrefixMap[i].1);
        return;
      }
      i := i + 1;
    }
  }

  /** `AddPrefixes`: renames every selected object that needs its class
      prefix, counts the renames, and always reports the count. */
  method AddPrefixes(ed: Services, selected: seq<Option<EditorObject>>) returns (log: seq<Effect>, counter: nat)
    ensures counter == |PrefixRenames(ed, selected)|
    ensures log == PrefixRenames(ed, selected) + [ShowNotification(AddedPrefixes(counter))]
  {
    log, counter := [], 0;
    for i := 0 to |selected|
      invariant log == PrefixRenames(ed, selected[..i])
      invariant counter == |log|
    {
      assert selected[..i + 1][..i] == selected[..i];
      if selected[i].None? {
        continue;
      }
      var obj := selected[i].value;
      var prefixFound := FindPrefix(ed, obj.cls);
      if prefixFound.None? || |prefixFound.value| == 0 {
        continue;
      }
      var prefix := prefixFound.value;
      var oldName := obj.name;
      if StartsWith(oldName, prefix) {
        continue;
      }
      if ed.isChildOf(obj.cls, MaterialInstanceConstant) {
        oldName := RemoveFromStart(oldName, "M_");
        oldName := RemoveFromEnd(oldName, "_Inst");
      }
      var newNameWithPrefix := prefix + oldName;
      log := log + [RenameAsset(obj, newNameWithPrefix)];
      counter := counter + 1;
    }
    assert selected[..|selected|] == selected;
    log := log + [ShowNotification(AddedPrefixes(counter))];
  }

  /** The selection after the renames of `AddPrefixes` have taken effect. */
  function AfterPrefixing(ed: Services, selected: seq<Option<EditorObject>>): (renamed: seq<Option<EditorObject>>)
  {
    seq(|selected|, i requires 0 <= i < |selected| =>
      match selected[i]
      case None => None
      case Some(obj) =>
        match PrefixedName(ed, obj)
        case None => Some(obj)
        case Some(newName) => Some(EditorObject(obj.cls, newName)))
  }

  // --------------------------------------------------------- unused assets

  function IsUnreferenced(ed: Services): (test: AssetData -> bool)
  {
    (asset: AssetData) => |ed.findPackageReferencers(asset.objectPath)| == 0
  }

  /** `RemoveUnusedAssets`: fixes redirectors, collects the selected assets
      that nothing references, and deletes them; with none it only says so. */
  method RemoveUnusedAssets(ed: Services, selected: seq<AssetData>) returns (log: seq<Effect>)
    ensures var unused := Filter(selected, IsUnreferenced(ed));
      log == [FixUpRedirectors]
             + if |unused| == 0 then [ShowDialog(NoUnusedAssets)]
               else [DeleteAssets(unused)]
                    + (var deleted := ed.deleteAssets(unused);
                       if deleted == 0 then [] else [ShowDialog(RemovedUnusedFiles(deleted))])
  {
    var unused: seq<AssetData> := [];
    log := [FixUpRedirectors];
    for i := 0 to |selected|
      invariant unused == Filter(selected[..i], IsUnreferenced(ed))
    {
      FilterExtend(selected, i, IsUnreferenced(ed));
      if |ed.findPackageReferencers(selected[i].objectPath)| == 0 {
        unused := unused + [selected[i]];
      }
    }
    assert selected[..|selected|] == selected;
    if |unused| == 0 {
      log := log + [ShowDialog(NoUnusedAssets)];
      return;
    }
    var numOfAssetsDeleted := ed.deleteAssets(unused);
    log := log + [DeleteAssets(unused)];
    if numOfAssetsDeleted == 0 {
      return;
    }
    log := log + [ShowDialog(RemovedUnusedFiles(numOfAssetsDeleted))];
  }

  // ---------------------------------------------------------------- lemmas

  /** `n` copies are attempted per selected asset. */
  lemma {:induction false} DuplicateAttemptsLength(selected: seq<AssetData>, n: nat)
    ensures |DuplicateAttempts(selected, n)| == n * |selected|
  {
    if |selected| > 0 {
      DuplicateAttemptsLength(selected[..|selected| - 1], n);
      assert n * |selected| == n * (|selected| - 1) + n;
    }
  }

  /** The counter of successful copies is at most `n` times the selection. */
  lemma DuplicateCountBound(ed: Services, selected: seq<AssetData>, n: nat)
    ensures |Filter(DuplicateAttempts(selected, n), DuplicateSucceeds(ed))| <= n * |selected|
  {
    DuplicateAttemptsLength(selected, n);
  }

  /** Attempt `a * n + k` copies the `a`-th selected asset to the name ending
      in `_(k+1)` under that asset's package path. */
  lemma {:induction false} DuplicateAttemptAt(selected: seq<AssetData>, n: nat, a: nat, k: nat)
    requires a < |selected| && k < n
    ensures a * n + k < |DuplicateAttempts(selected, n)|
    ensures DuplicateAttempts(selected, n)[a * n + k]
            == (selected[a].objectPath,
                CombinePath(selected[a].packagePath, selected[a].assetName + "_" + FromInt(k + 1)))
  {
    var m := |selected| - 1;
    var init := DuplicateAttempts(selected[..m], n);
    DuplicateAttemptsLength(selected[..m], n);
    assert DuplicateAttempts(selected, n) == init + AssetDuplicates(selected[m], n);
    if a < m {
      assert selected[..m][a] == selected[a];
      DuplicateAttemptAt(selected[..m], n, a, k);
    } else {
      assert a == m;
      assert a * n == n * m == |init|;
      assert DuplicateAttempts(selected, n)[a * n + k] == AssetDuplicates(selected[m], n)[k];
      assert AssetDuplicates(selected[m], n)[k]
             == (selected[m].objectPath,
                 CombinePath(selected[m].packagePath, DuplicateName(selected[m].assetName, k + 1)));
    }
  }

  /** The copies of one asset get pairwise distinct names. */
  lemma DuplicateNamesDistinct(assetName: string, i: nat, j: nat)
    requires i != j
    ensures DuplicateName(assetName, i) != DuplicateName(assetName, j)
  {
    var ni, nj := DuplicateName(assetName, i), DuplicateName(assetName, j);
    if ni == nj {
      assert ni[|assetName| + 1..] == FromInt(i);
      assert nj[|assetName| + 1..] == FromInt(j);
      FromIntInjective(i, j);
    }
  }

  /** ... and so pairwise distinct target paths. */
  lemma DuplicateTargetsDistinct(asset: AssetData, n: nat, i: nat, j: nat)
    requires i < n && j < n && i != j
    ensures AssetDuplicates(asset, n)[i].1 != AssetDuplicates(asset, n)[j].1
  {
    var dir := asset.packagePath;
    var x, y := DuplicateName(asset.assetName, i + 1), DuplicateName(asset.assetName, j + 1);
    DuplicateNamesDistinct(asset.assetName, i + 1, j + 1);
    assert x[0] == y[0];
    var tx, ty := CombinePath(dir, x), CombinePath(dir, y);
    assert AssetDuplicates(asset, n)[i].1 == tx && AssetDuplicates(asset, n)[j].1 == ty;
    if |dir| > 0 && !IsPathSeparator(dir[|dir| - 1]) && x[0] != '/' {
      assert tx[|dir| + 1..] == x && ty[|dir| + 1..] == y;
    } else {
      assert tx[|dir|..] == x && ty[|dir|..] == y;
    }
  }

  /** Every prefix of the table is non-empty and ends with `_`. */
  lemma PrefixTableWellFormed()
    ensures forall i :: 0 <= i < |PrefixMap| ==>
      |PrefixMap[i].1| > 0 && PrefixMap[i].1[|PrefixMap[i].1| - 1] == '_'
  {
  }

  /** The blueprint and material entries: a class before its subclass, and
      the instance entry after the material entry. */
  lemma BlueprintAndMaterialEntries()
    ensures PrefixMap[0] == (Blueprint, "BP_") && PrefixMap[1] == (AnimBlueprint, "ABP_")
    ensures PrefixMap[5] == (Material, "M_") && PrefixMap[6] == (MaterialInstanceConstant, "MI_")
  {
  }

  /** The texture, curve and data-asset classes that share one prefix. */
  lemma SharedPrefixEntries()
    ensures PrefixMap[8] == (Texture2D, "T_") && PrefixMap[9] == (TextureCube, "T_")
    ensures PrefixMap[24] == (CurveFloat, "Curve_") && PrefixMap[25] == (CurveVector, "Curve_")
    ensures PrefixMap[26] == (CurveLinearColor, "Curve_")
    ensures PrefixMap[28] == (DataAsset, "DA_") && PrefixMap[29] == (PrimaryDataAsset, "DA_")
  {
  }

  /** First-match lookup: the entry found is the first one whose class
      `cls` derives from. */
  lemma {:induction false} PrefixForFirstMatch(table: seq<(AssetClass, string)>, cls: AssetClass,
                                               isChildOf: (AssetClass, AssetClass) -> bool, i: nat)
    requires i < |table| && isChildOf(cls, table[i].0)
    requires forall j :: 0 <= j < i ==> !isChildOf(cls, table[j].0)
    ensures PrefixFor(table, cls, isChildOf) == Some(table[i].1)
  {
    if i > 0 {
      PrefixForFirstMatch(table[1..], cls, isChildOf, i - 1);
    }
  }

  /** Without a matching entry there is no prefix. */
  lemma {:induction false} PrefixForNoMatch(table: seq<(AssetClass, string)>, cls: AssetClass,
                                            isChildOf: (AssetClass, AssetClass) -> bool)
    requires forall j :: 0 <= j < |table| ==> !isChildOf(cls, table[j].0)
    ensures PrefixFor(table, cls, isChildOf) == None
  {
    if |table| > 0 {
      PrefixForNoMatch(table[1..], cls, isChildOf);
    }
  }

  /** `UBlueprint` comes before its subclass `UAnimBlueprint`, so an anim
      blueprint is given `BP_`, never its declared `ABP_`. */
  lemma AnimBlueprintGetsBlueprintPrefix(isChildOf: (AssetClass, AssetClass) -> bool)
    requires isChildOf(AnimBlueprint, Blueprint)
    ensures PrefixFor(PrefixMap, AnimBlueprint, isChildOf) == Some("BP_")
  {
  }

  /** A material instance constant that derives from none of the six
      classes listed before it gets `MI_`. */
  lemma MaterialInstanceGetsItsPrefix(isChildOf: (AssetClass, AssetClass) -> bool)
    requires isChildOf(MaterialInstanceConstant, MaterialInstanceConstant)
    requires forall j :: 0 <= j < 6 ==> !isChildOf(MaterialInstanceConstant, PrefixMap[j].0)
    ensures PrefixFor(PrefixMap, MaterialInstanceConstant, isChildOf) == Some("MI_")
  {
    PrefixForFirstMatch(PrefixMap, MaterialInstanceConstant, isChildOf, 6);
  }

  /** An object is renamed exactly when a non-empty prefix matches its class
      and its name does not already start with it; the new name then starts
      with that prefix, character for character. */
  lemma PrefixedNameShape(ed: Services, obj: EditorObject)
    ensures PrefixedName(ed, obj).Some? <==>
      var found := PrefixFor(PrefixMap, obj.cls, ed.isChildOf);
      found.Some? && |found.value| > 0 && !StartsWith(obj.name, found.value)
    ensures PrefixedName(ed, obj).Some? ==>
      var prefix := PrefixFor(PrefixMap, obj.cls, ed.isChildOf).value;
      var newName := PrefixedName(ed, obj).value;
      |prefix| <= |newName| && newName[..|prefix|] == prefix && StartsWith(newName, prefix)
  {
    if PrefixedName(ed, obj).Some? {
      var prefix := PrefixFor(PrefixMap, obj.cls, ed.isChildOf).value;
      var newName := PrefixedName(ed, obj).value;
      StartsWithConcat(prefix, newName[|prefix|..]);
      assert newName == prefix + newName[|prefix|..];
    }
  }

  /** `M_<core>_Inst` loses exactly its `M_` and its `_Inst`. */
  lemma StripInstanceAffixes(core: string)
    ensures RemoveFromEnd(RemoveFromStart("M_" + core + "_Inst", "M_"), "_Inst") == core
  {
    var name := "M_" + core + "_Inst";
    assert name[..2] == "M_";
    assert name[2..] == core + "_Inst";
    assert (core + "_Inst")[|core|..] == "_Inst";
    assert (core + "_Inst")[..|core|] == core;
  }

  /** A material instance `M_<core>_Inst` is renamed to `MI_<core>`. */
  lemma MaterialInstanceRename(ed: Services, core: string)
    requires ed.isChildOf(MaterialInstanceConstant, MaterialInstanceConstant)
    requires forall j :: 0 <= j < 6 ==> !ed.isChildOf(MaterialInstanceConstant, PrefixMap[j].0)
    ensures PrefixedName(ed, EditorObject(MaterialInstanceConstant, "M_" + core + "_Inst")) == Some("MI_" + core)
  {
    MaterialInstanceGetsItsPrefix(ed.isChildOf);
    var name := "M_" + core + "_Inst";
    assert ToUpper(name[1]) != ToUpper("MI_"[1]);
    StripInstanceAffixes(core);
  }

  /** Once renamed, an object is left alone by a second `AddPrefixes`. */
  lemma RenamedObjectIsSkipped(ed: Services, obj: EditorObject)
    requires PrefixedName(ed, obj).Some?
    ensures PrefixedName(ed, EditorObject(obj.cls, PrefixedName(ed, obj).value)).None?
  {
    PrefixedNameShape(ed, obj);
  }

  /** Applying `AddPrefixes` twice renames nothing the second time. */
  lemma {:induction false} AddPrefixesIdempotent(ed: Services, selected: seq<Option<EditorObject>>)
    ensures PrefixRenames(ed, AfterPrefixing(ed, selected)) == []
  {
    if |selected| > 0 {
      var n := |selected| - 1;
      var after := AfterPrefixing(ed, selected);
      assert after[..n] == AfterPrefixing(ed, selected[..n]);
      AddPrefixesIdempotent(ed, selected[..n]);
      match selected[n]
      case None =>
      case Some(obj) =>
        if PrefixedName(ed, obj).Some? {
          RenamedObjectIsSkipped(ed, obj);
        }
    }
  }

  /** At most one rename per selected object. */
  lemma {:induction false} RenameCountBound(ed: Services, selected: seq<Option<EditorObject>>)
    ensures |PrefixRenames(ed, selected)| <= |selected|
  {
    if |selected| > 0 {
      RenameCountBound(ed, selected[..|selected| - 1]);
    }
  }

  /** The unused assets are exactly the selected ones without referencers, in
      selection order. */
  lemma RemoveUnusedAssetsExact(ed: Services, selected: seq<AssetData>)
    ensures forall a :: a in Filter(selected, IsUnreferenced(ed)) <==>
      a in selected && |ed.findPackageReferencers(a.objectPath)| == 0
    ensures IsSubsequence(Filter(selected, IsUnreferenced(ed)), selected)
  {
    forall a | a in selected && |ed.findPackageReferencers(a.objectPath)| == 0
      ensures a in Filter(selected, IsUnreferenced(ed))
    {
      FilterComplete(selected, IsUnreferenced(ed), a);
    }
    FilterIsSubsequence(selected, IsUnreferenced(ed));
  }
}

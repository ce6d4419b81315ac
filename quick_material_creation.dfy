/** The quick material creation widget: builds a material from the selected
    textures and wires a texture whose name marks it as base colour into the
    material's base-colour input. */
module QuickMaterialCreation {
  import opened Text
  import opened Sequences
  import opened Editor

  /** `E_ChannelPackingType` */
  datatype ChannelPackingType = NoChannelPacking | OcclusionRoughnessMetallic | ChannelPackingMax

  /** The widget's default name, which is also the rejected custom name. */
  const DefaultMaterialName: string := "M_"

  // The suffix tables, as the widget declares them.
  const DefaultBaseColorArray: seq<string> := ["_BaseColor", "_Albedo", "_Diffuse", "_diff"]
  const DefaultMetallicArray: seq<string> := ["_Metallic", "_metal"]
  const DefaultRoughnessArray: seq<string> := ["_Roughness", "_RoughnessMap", "_rough"]
  const DefaultNormalArray: seq<string> := ["_Normal", "_NormalMap", "_nor"]
  const DefaultAmbientOcclusionArray: seq<string> := ["_AmbientOcclusion", "_AmbientOcclusionMap", "_AO"]
  const DefaultORMArray: seq<string> := ["_arm", "_OcclusionRoughnessMetallic", "_ORM"]

  /** A custom material name the widget refuses (compared case-sensitively). */
  predicate IsInvalidCustomName(name: string)
  {
    name == [] || name == "M_"
  }

  /** The texture name carries one of the suffixes. */
  predicate HasSuffixFrom(textureName: string, suffixes: seq<string>)
  {
    exists i :: 0 <= i < |suffixes| && Contains(textureName, suffixes[i])
  }

  // ------------------------------------------------------- selection rules

  /** The selected asset loads as a 2D texture. */
  predicate IsTexture(ed: Services, data: AssetData)
  {
    ed.getAsset(data).Some? && ed.isChildOf(ed.getAsset(data).value.cls, Texture2D)
  }

  /** The selected asset loads, and is not a 2D texture. */
  predicate IsRejected(ed: Services, data: AssetData)
  {
    ed.getAsset(data).Some? && !ed.isChildOf(ed.getAsset(data).value.cls, Texture2D)
  }

  /** How many entries are processed before the first rejected one. */
  function AcceptedCount(ed: Services, selected: seq<AssetData>): (k: nat)
    ensures k <= |selected|
    ensures forall i :: 0 <= i < k ==> !IsRejected(ed, selected[i])
    ensures k < |selected| ==> IsRejected(ed, selected[k])
  {
    if |selected| == 0 then 0
    else if IsRejected(ed, selected[0]) then 0
    else 1 + AcceptedCount(ed, selected[1..])
  }

  /** The textures among processed entries, in order. */
  function TexturesIn(ed: Services, selected: seq<AssetData>): (textures: seq<EditorObject>)
  {
    if |selected| == 0 then []
    else
      var last := selected[|selected| - 1];
      TexturesIn(ed, selected[..|selected| - 1]) + (if IsTexture(ed, last) then [ed.getAsset(last).value] else [])
  }

  /** The output package path: taken from a texture while it is still empty. */
  function TexturePackagePath(ed: Services, selected: seq<AssetData>): (path: string)
  {
    if |selected| == 0 then ""
    else
      var last := selected[|selected| - 1];
      var path := TexturePackagePath(ed, selected[..|selected| - 1]);
      if path == "" && IsTexture(ed, last) then last.packagePath else path
  }

  /** The automatic name for a texture: `M_` and the name without one leading `T_`. */
  function AutoMaterialName(textureName: string): (name: string)
  {
    "M_" + RemoveFromStart(textureName, "T_")
  }

  /** The material name after processing: kept when custom, otherwise the
      automatic name of the first texture. */
  function NameAfterProcessing(ed: Services, selected: seq<AssetData>, custom: bool, name: string): (newName: string)
  {
    var textures := TexturesIn(ed, selected);
    if custom || |textures| == 0 then name else AutoMaterialName(textures[0].name)
  }

  /** The dialog `ProcessSelectedData` shows when it refuses the selection. */
  function ProcessDialogs(ed: Services, selected: seq<AssetData>): (log: seq<Effect>)
  {
    var k := AcceptedCount(ed, selected);
    if |selected| == 0 then [ShowDialog(NoTextureSelected)]
    else if k < |selected| then [ShowDialog(NotATexture(ed.getAsset(selected[k]).value.name))]
    else []
  }

  /** Some asset of the folder has `name` as its base file name. */
  predicate IsNameUsed(ed: Services, folder: string, name: string)
  {
    HasBaseFilename(ed.listAssets(folder, false, false), name)
  }

  /** Some path of the list has `name` as its base file name. */
  predicate HasBaseFilename(paths: seq<string>, name: string)
  {
    exists i :: 0 <= i < |paths| && BaseFilename(paths[i]) == name
  }

  /** The first texture whose name carries a base-colour suffix. */
  function FirstBaseColorTexture(textures: seq<EditorObject>, suffixes: seq<string>): (first: Option<EditorObject>)
  {
    if |textures| == 0 then None
    else
      var found := FirstBaseColorTexture(textures[..|textures| - 1], suffixes);
      if found.Some? then found
      else if HasSuffixFrom(textures[|textures| - 1].name, suffixes) then Some(textures[|textures| - 1])
      else None
  }

  // ------------------------------------------------------ material objects

  /** A texture-sample expression node of a material graph. */
  class TextureSampleNode {
    var texture: Option<EditorObject>
    var editorX: int

    constructor ()
      ensures texture == None && editorX == 0
    {
      texture := None;
      editorX := 0;
    }
  }

  /** The editor-only data of a material: its expressions and the expression
      wired into the base-colour input (null while unconnected). */
  class MaterialGraph {
    var expressions: seq<TextureSampleNode>
    var baseColor: TextureSampleNode?

    constructor ()
      ensures expressions == [] && baseColor == null
    {
      expressions := [];
      baseColor := null;
    }
  }

  // ----------------------------------------------------------------- widget

  class QuickMaterialCreationWidget {
    var channelPackingType: ChannelPackingType
    var customMaterialName: bool
    var createMaterialInstance: bool
    var useMaterialParameters: bool
    var baseColorParameterName: string
    var materialName: string
    var baseColorArray: seq<string>
    var metallicArray: seq<string>
    var roughnessArray: seq<string>
    var normalArray: seq<string>
    var ambientOcclusionArray: seq<string>
    var ormArray: seq<string>

    /** The widget with its declared defaults. */
    constructor ()
      ensures channelPackingType == NoChannelPacking
      ensures customMaterialName && createMaterialInstance && !useMaterialParameters
      ensures baseColorParameterName == "BaseColorTexture"
      ensures materialName == DefaultMaterialName
      ensures baseColorArray == DefaultBaseColorArray && metallicArray == DefaultMetallicArray
      ensures roughnessArray == DefaultRoughnessArray && normalArray == DefaultNormalArray
      ensures ambientOcclusionArray == DefaultAmbientOcclusionArray && ormArray == DefaultORMArray
    {
      channelPackingType := NoChannelPacking;
      customMaterialName := true;
      createMaterialInstance := true;
      useMaterialParameters := false;
      baseColorParameterName := "BaseColorTexture";
      materialName := DefaultMaterialName;
      baseColorArray := DefaultBaseColorArray;
      metallicArray := DefaultMetallicArray;
      roughnessArray := DefaultRoughnessArray;
      normalArray := DefaultNormalArray;
      ambientOcclusionArray := DefaultAmbientOcclusionArray;
      ormArray := DefaultORMArray;
    }

    /** Checks the selection: refuses an empty one and stops at the first
        loaded asset that is not a texture, skipping assets that do not load.
        It collects the textures, takes the package path of the first one and,
        without a custom name, names the material after the first texture. */
    method ProcessSelectedData(ed: Services, selected: seq<AssetData>)
      returns (ok: bool, textures: seq<EditorObject>, packagePath: string, log: seq<Effect>)
      modifies this`materialName
      ensures var k := AcceptedCount(ed, selected);
        && (ok <==> |selected| > 0 && k == |selected|)
        && textures == TexturesIn(ed, selected[..k])
        && packagePath == TexturePackagePath(ed, selected[..k])
        && materialName == NameAfterProcessing(ed, selected[..k], customMaterialName, old(materialName))
        && log == ProcessDialogs(ed, selected)
    {
      textures, packagePath := [], "";
      if |selected| == 0 {
        return false, textures, packagePath, [ShowDialog(NoTextureSelected)];
      }
      var materialNameSet := false;
      ghost var name0 := materialName;
      for i := 0 to |selected|
        invariant forall j :: 0 <= j < i ==> !IsRejected(ed, selected[j])
        invariant textures == TexturesIn(ed, selected[..i])
        invariant packagePath == TexturePackagePath(ed, selected[..i])
        invariant materialNameSet <==> !customMaterialName && |textures| > 0
        invariant materialName == NameAfterProcessing(ed, selected[..i], customMaterialName, name0)
      {
        assert selected[..i + 1][..i] == selected[..i];
        var asset := ed.getAsset(selected[i]);
        if asset.None? {
          continue;
        }
        if !ed.isChildOf(asset.value.cls, Texture2D) {
          AcceptedCountAt(ed, selected, i);
          return false, textures, packagePath, [ShowDialog(NotATexture(asset.value.name))];
        }
        textures := textures + [asset.value];
        if packagePath == "" {
          packagePath := selected[i].packagePath;
        }
        if !customMaterialName && !materialNameSet {
          materialName := asset.value.name;
          materialName := RemoveFromStart(materialName, "T_");
          materialName := "M_" + materialName;
          materialNameSet := true;
        }
      }
      AcceptedCountAt(ed, selected, |selected|);
      assert selected[..|selected|] == selected;
      ok, log := true, [];
    }

    /** Whether some asset directly in the folder already has the name. */
    method CheckIsNameUsed(ed: Services, folder: string, name: string) returns (used: bool)
      ensures used <==> IsNameUsed(ed, folder, name)
    {
      var existingAssetsPaths := ed.listAssets(folder, false, false);
      for i := 0 to |existingAssetsPaths|
        invariant forall j :: 0 <= j < i ==> BaseFilename(existingAssetsPaths[j]) != name
      {
        if BaseFilename(existingAssetsPaths[i]) == name {
          assert HasBaseFilename(existingAssetsPaths, name);
          return true;
        }
      }
      return false;
    }

    /** Wires the node into the base-colour input when the texture's name
        carries a base-colour suffix: the node samples the texture, joins the
        expressions, becomes the base colour, and moves 600 units left. */
    method TryConnectBaseColor(node: TextureSampleNode, texture: EditorObject, material: MaterialGraph)
      returns (connected: bool)
      modifies node, material
      ensures connected <==> HasSuffixFrom(texture.name, baseColorArray)
      ensures connected ==>
        && material.expressions == old(material.expressions) + [node]
        && material.baseColor == node
        && node.texture == Some(texture)
        && node.editorX == old(node.editorX) - 600
      ensures !connected ==>
        && material.expressions == old(material.expressions)
        && material.baseColor == old(material.baseColor)
        && node.texture == old(node.texture) && node.editorX == old(node.editorX)
    {
      for i := 0 to |baseColorArray|
        invariant forall j :: 0 <= j < i ==> !Contains(texture.name, baseColorArray[j])
      {
        if Contains(texture.name, baseColorArray[i]) {
          node.texture := Some(texture);
          material.expressions := material.expressions + [node];
          material.baseColor := node;
          node.editorX := node.editorX - 600;
          return true;
        }
      }
      return false;
    }

    /** Creates a sample node for the texture and, while the base colour is
        unconnected, tries to wire it there, counting the connection. */
    method DefaultCreateMaterialNodes(material: MaterialGraph, texture: EditorObject, pinsConnected: nat)
      returns (pinsConnectedAfter: nat)
      modifies material
      ensures var wired := old(material.baseColor) == null && HasSuffixFrom(texture.name, baseColorArray);
        && pinsConnectedAfter == (if wired then pinsConnected + 1 else pinsConnected)
        && (wired ==>
              && material.baseColor != null && fresh(material.baseColor)
              && material.expressions == old(material.expressions) + [material.baseColor]
              && material.baseColor.texture == Some(texture)
              && material.baseColor.editorX == -600)
        && (!wired ==>
              material.expressions == old(material.expressions) && material.baseColor == old(material.baseColor))
    {
      var textureSampleNode := new TextureSampleNode();
      pinsConnectedAfter := pinsConnected;
      if material.baseColor == null {
        var connected := TryConnectBaseColor(textureSampleNode, texture, material);
        if connected {
          pinsConnectedAfter := pinsConnected + 1;
          return;
        }
      }
    }

    /** "Create Material": refuses an invalid custom name, checks the
        selection and the name, creates the material and wires its nodes. */
    method CreateMaterialFromSelectedTextures(ed: Services, selected: seq<AssetData>)
      returns (log: seq<Effect>, material: MaterialGraph?, pinsConnected: nat)
      modifies this`materialName
      ensures customMaterialName && IsInvalidCustomName(old(materialName)) ==>
        log == [ShowDialog(InvalidMaterialName)] && material == null && materialName == old(materialName)
      ensures !(customMaterialName && IsInvalidCustomName(old(materialName))) ==>
        var k := AcceptedCount(ed, selected);
        var accepted := |selected| > 0 && k == |selected|;
        var textures := TexturesIn(ed, selected);
        var path := TexturePackagePath(ed, selected);
        && materialName == NameAfterProcessing(ed, selected[..k], customMaterialName, old(materialName))
        && (!accepted ==> log == ProcessDialogs(ed, selected) && material == null)
        && (accepted && IsNameUsed(ed, path, materialName) ==>
              log == [ShowDialog(NameAlreadyUsed(materialName))] && material == null)
        && (accepted && !IsNameUsed(ed, path, materialName) && !ed.createMaterialAsset(materialName, path) ==>
              log == [ShowDialog(FailedToCreateMaterial)] && material == null)
        && (accepted && !IsNameUsed(ed, path, materialName) && ed.createMaterialAsset(materialName, path) ==>
              && log == [] && material != null && fresh(material)
              && pinsConnected <= 1
              && (pinsConnected == 1 <==> FirstBaseColorTexture(textures, baseColorArray).Some?)
              && (pinsConnected == 1 ==>
                    && |material.expressions| == 1 && material.baseColor == material.expressions[0]
                    && material.baseColor.texture == FirstBaseColorTexture(textures, baseColorArray))
              && (pinsConnected == 0 ==> material.expressions == [] && material.baseColor == null))
    {
      material, pinsConnected := null, 0;
      if customMaterialName {
        if materialName == [] || materialName == "M_" {
          return [ShowDialog(InvalidMaterialName)], null, 0;
        }
      }
      var ok, textures, path;
      ok, textures, path, log := ProcessSelectedData(ed, selected);
      if !ok {
        return;
      }
      assert selected[..|selected|] == selected;
      var used := CheckIsNameUsed(ed, path, materialName);
      if used {
        return [ShowDialog(NameAlreadyUsed(materialName))], null, 0;
      }
      if !ed.createMaterialAsset(materialName, path) {
        return [ShowDialog(FailedToCreateMaterial)], null, 0;
      }
      var created := new MaterialGraph();
      ghost var processedName := materialName;
      for i := 0 to |textures|
        invariant materialName == processedName
        invariant pinsConnected <= 1
        invariant (pinsConnected == 1 <==> FirstBaseColorTexture(textures[..i], baseColorArray).Some?)
        invariant pinsConnected == 1 ==>
          && created.baseColor != null
          && created.expressions == [created.baseColor]
          && created.baseColor.texture == FirstBaseColorTexture(textures[..i], baseColorArray)
        invariant pinsConnected == 0 ==> created.expressions == [] && created.baseColor == null
      {
        assert textures[..i + 1][..i] == textures[..i];
        pinsConnected := DefaultCreateMaterialNodes(created, textures[i], pinsConnected);
      }
      assert textures[..|textures|] == textures;
      material := created;
    }
  }

  // ---------------------------------------------------------------- lemmas

  /** Where processing stops: at the first rejected entry, or at the end. */
  lemma {:induction false} AcceptedCountAt(ed: Services, selected: seq<AssetData>, i: nat)
    requires i <= |selected|
    requires forall j :: 0 <= j < i ==> !IsRejected(ed, selected[j])
    requires i < |selected| ==> IsRejected(ed, selected[i])
    ensures AcceptedCount(ed, selected) == i
  {
    if i > 0 {
      AcceptedCountAt(ed, selected[1..], i - 1);
    }
  }

  /** Once the package path is set, later entries do not change it. */
  lemma {:induction false} PackagePathNeverOverwritten(ed: Services, selected: seq<AssetData>, more: seq<AssetData>)
    requires TexturePackagePath(ed, selected) != ""
    ensures TexturePackagePath(ed, selected + more) == TexturePackagePath(ed, selected)
  {
    if |more| == 0 {
      assert selected + more == selected;
    } else {
      var n := |more| - 1;
      assert (selected + more)[..|selected + more| - 1] == selected + more[..n];
      PackagePathNeverOverwritten(ed, selected, more[..n]);
    }
  }

  /** Before the first texture the package path is still empty. */
  lemma {:induction false} PackagePathEmptyWithoutTexture(ed: Services, selected: seq<AssetData>)
    requires forall j :: 0 <= j < |selected| ==> !IsTexture(ed, selected[j])
    ensures TexturePackagePath(ed, selected) == ""
    ensures TexturesIn(ed, selected) == []
  {
    if |selected| > 0 {
      PackagePathEmptyWithoutTexture(ed, selected[..|selected| - 1]);
    }
  }

  /** The package path is that of the first texture (when it has one), and
      that texture also names the material when no custom name is used. */
  lemma FirstTextureDecides(ed: Services, selected: seq<AssetData>, first: nat, name: string)
    requires first < |selected| && IsTexture(ed, selected[first])
    requires forall j :: 0 <= j < first ==> !IsTexture(ed, selected[j])
    ensures selected[first].packagePath != "" ==>
      TexturePackagePath(ed, selected) == selected[first].packagePath
    ensures NameAfterProcessing(ed, selected, false, name)
            == AutoMaterialName(ed.getAsset(selected[first]).value.name)
  {
    var upTo, rest := selected[..first + 1], selected[first + 1..];
    assert selected == upTo + rest;
    assert upTo[..|upTo| - 1] == selected[..first];
    PackagePathEmptyWithoutTexture(ed, selected[..first]);
    assert TexturesIn(ed, upTo) == [ed.getAsset(selected[first]).value];
    TexturesAppend(ed, upTo, rest);
    if selected[first].packagePath != "" {
      assert TexturePackagePath(ed, upTo) == selected[first].packagePath;
      PackagePathNeverOverwritten(ed, upTo, rest);
    }
  }

  /** The textures of two runs are those of the first, then the second. */
  lemma {:induction false} TexturesAppend(ed: Services, a: seq<AssetData>, b: seq<AssetData>)
    ensures TexturesIn(ed, a + b) == TexturesIn(ed, a) + TexturesIn(ed, b)
  {
    if |b| == 0 {
      assert a + b == a;
    } else {
      var n := |b| - 1;
      assert (a + b)[..|a + b| - 1] == a + b[..n];
      TexturesAppend(ed, a, b[..n]);
    }
  }

  /** A texture named `T_<core>` gives the material `M_<core>`. */
  lemma AutoNameOfTexture(core: string)
    ensures AutoMaterialName("T_" + core) == "M_" + core
  {
    StartsWithConcat("T_", core);
    assert ("T_" + core)[2..] == core;
  }

  /** The default name is exactly the refused custom name, so a widget left
      at its defaults refuses to create a material; the comparison is
      case-sensitive, so `m_` is accepted. */
  lemma DefaultNameIsRefused()
    ensures IsInvalidCustomName(DefaultMaterialName)
    ensures !IsInvalidCustomName("m_")
  {
    assert "m_"[0] != "M_"[0];
  }

  /** A folder holding the object path `/Dir/Name.Name` uses the name `Name`. */
  lemma ObjectPathMakesNameUsed(ed: Services, folder: string, dir: string, name: string)
    requires forall i :: 0 <= i < |name| ==> !IsPathSeparator(name[i]) && name[i] != '.'
    requires dir + "/" + name + "." + name in ed.listAssets(folder, false, false)
    ensures IsNameUsed(ed, folder, name)
  {
    BaseFilenameOfObjectPath(dir, name);
    var paths := ed.listAssets(folder, false, false);
    var i :| 0 <= i < |paths| && paths[i] == dir + "/" + name + "." + name;
    assert BaseFilename(paths[i]) == name;
  }

  /** Under substring matching each longer entry is subsumed by a shorter
      one of the same table: `_RoughnessMap` by `_Roughness`, `_NormalMap` by
      `_Normal`, `_AmbientOcclusionMap` by `_AmbientOcclusion`, and, since the
      match ignores case, `_Diffuse` by `_diff`. */
  lemma LongerSuffixesSubsumed(textureName: string)
    ensures Contains(textureName, "_RoughnessMap") ==> Contains(textureName, "_Roughness")
    ensures Contains(textureName, "_NormalMap") ==> Contains(textureName, "_Normal")
    ensures Contains(textureName, "_AmbientOcclusionMap") ==> Contains(textureName, "_AmbientOcclusion")
    ensures Contains(textureName, "_Diffuse") ==> Contains(textureName, "_diff")
  {
    if Contains(textureName, "_RoughnessMap") {
      assert "_RoughnessMap" == "_Roughness" + "Map";
      ContainsLonger(textureName, "_Roughness", "Map");
    }
    if Contains(textureName, "_NormalMap") {
      assert "_NormalMap" == "_Normal" + "Map";
      ContainsLonger(textureName, "_Normal", "Map");
    }
    if Contains(textureName, "_AmbientOcclusionMap") {
      assert "_AmbientOcclusionMap" == "_AmbientOcclusion" + "Map";
      ContainsLonger(textureName, "_AmbientOcclusion", "Map");
    }
    if Contains(textureName, "_Diffuse") {
      assert EqualsIgnoreCase("_Diffuse"[..5], "_diff");
      ContainsNeedlePrefix(textureName, "_diff", "_Diffuse");
    }
  }

  /** A texture whose name ends in a base-colour suffix is wired as base colour. */
  lemma BaseColorSuffixMatches(stem: string, i: nat)
    requires i < |DefaultBaseColorArray|
    ensures HasSuffixFrom(stem + DefaultBaseColorArray[i], DefaultBaseColorArray)
  {
    var s, sub := stem + DefaultBaseColorArray[i], DefaultBaseColorArray[i];
    assert s[|stem|..|stem| + |sub|] == sub;
    assert OccursAt(s, sub, |stem|);
  }
}

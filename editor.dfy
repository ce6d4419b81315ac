/** The editor as the plugin sees it: the values it passes around and the
    engine services it calls. The services are not modelled; each is an
    uninterpreted total function, fixed for the duration of one command. */
module Editor {

  /** A pointer that may be null (`UObject*`, `TSharedPtr<FAssetData>`). */
  datatype Option<T> = None | Some(value: T)

  /** The engine classes the plugin names, and every other class. */
  datatype AssetClass =
    | Blueprint | AnimBlueprint | UserWidget
    | StaticMesh | SkeletalMesh
    | Material | MaterialInstanceConstant | MaterialFunctionInterface
    | Texture2D | TextureCube | TextureRenderTarget2D
    | SoundCue | SoundWave
    | ParticleSystem | NiagaraSystem | NiagaraEmitter
    | AnimSequence | AnimMontage | AnimComposite | BlendSpace | AimOffsetBlendSpace
    | Skeleton | PhysicsAsset
    | Font | CurveFloat | CurveVector | CurveLinearColor
    | DataTable | DataAsset | PrimaryDataAsset
    | LevelSequence | CameraShakeBase | CameraComponent
    | World | Volume | Light | StaticMeshActor
    | OtherClass(className: string)

  /** A loaded `UObject`: its class and its name (`GetClass()`, `GetName()`). */
  datatype EditorObject = EditorObject(cls: AssetClass, name: string)

  /** `FAssetData`: object path (`/Game/Dir/Name.Name`), package path
      (`/Game/Dir`), asset name (`Name`) and `IsValid()`. */
  datatype AssetData = AssetData(objectPath: string, packagePath: string, assetName: string, isValid: bool)

  /** `EAppReturnType::Type`, the answer to a message dialog. */
  datatype AppReturn = No | Yes | YesAll | NoAll | Cancel | Ok | Retry | Continue

  /** The texts the plugin shows in dialogs and notifications. */
  datatype Message =
    | OnlyOneDirectory                        // "You can only do this with one directory selected."
    | NoAssetsUnderFolder                     // "No assets found under the selected folder"
    | ConfirmAssetDeletion(assetCount: nat)   // "A Total of %d Assets to be confirmed for deletion. ..."
    | NoUnusedAssetUnderFolder                // "No unused asset found under the selected folder"
    | NoEmptyFolders                          // "No empty folders found under the selected folder"
    | ConfirmFolderDeletion(folderList: string) // "Empty Folders found in:\n" + list + "...Delete them all?"
    | FailedToDeleteFolder(folder: string)    // "Failed to delete folder: " + path
    | DeletedEmptyFolders(folderCount: nat)   // "Successfully Deleted %d Empty Folders"
    | InvalidNumber                           // "Please enter a VALID number"
    | DuplicatedFiles(fileCount: nat)         // "Successfully duplicated %d files"
    | AddedPrefixes(fileCount: nat)           // "Successfully added prefixes to %d files"
    | NoUnusedAssets                          // "No unused assets found"
    | RemovedUnusedFiles(fileCount: nat)      // "Successfully removed %d unused files"
    | InvalidMaterialName                     // "Please enter a valid name"
    | NoTextureSelected                       // "No texture selected"
    | NotATexture(assetName: string)          // "Please select only textures" + name + " is not a texture"
    | NameAlreadyUsed(materialName: string)   // name + " is already used by asset"
    | FailedToCreateMaterial                  // "Failed to create material"

  /** What a command does to the editor, in the order it does it. */
  datatype Effect =
    | ShowDialog(message: Message)
    | ShowNotification(notice: Message)
    | FixUpRedirectors
    | DeleteAssets(assets: seq<AssetData>)
    | DeleteDirectory(directory: string)
    | DuplicateAsset(source: string, target: string)
    | SaveAsset(savedPath: string)
    | RenameAsset(renamed: EditorObject, newName: string)
      /** `TArray::operator[]` past the end: the engine's range check halts the editor. */
    | IndexOutOfRange

  /** The engine services, as seen during one command. */
  datatype Services = Services(
    /** `UEditorAssetLibrary::ListAssets(path, bRecursive, bIncludeFolder)` */
    listAssets: (string, bool, bool) -> seq<string>,
    doesAssetExist: string -> bool,
    doesDirectoryExist: string -> bool,
    doesDirectoryHaveAssets: string -> bool,
    /** `UEditorAssetLibrary::FindPackageReferencersForAsset` */
    findPackageReferencers: string -> seq<string>,
    findAssetData: string -> AssetData,
    /** `FAssetData::GetAsset`: the loaded object, or null */
    getAsset: AssetData -> Option<EditorObject>,
    /** `UClass::IsChildOf`: the class-subtype relation */
    isChildOf: (AssetClass, AssetClass) -> bool,
    /** `ObjectTools::DeleteAssets`: how many assets were deleted */
    deleteAssets: seq<AssetData> -> nat,
    deleteDirectory: string -> bool,
    /** `UEditorAssetLibrary::DuplicateAsset(source, target)` succeeded */
    duplicateAsset: (string, string) -> bool,
    /** `IAssetTools::CreateAsset(name, path, UMaterial)` returned a material */
    createMaterialAsset: (string, string) -> bool)
}

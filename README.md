# Host adapters of the AYON / OpenPype pipeline, modelled in Dafny

The pipeline plugs into digital content creation applications through
small host adapters. Each adapter wraps a piece of host-independent
decision logic around calls into the host application. This project
models that logic for six adapters and proves what each one promises.

- **Editorial package validation** (traypublisher): every media file an
  OpenTimelineIO timeline refers to must be among the package's resource
  files. Matching is by file name only. On success the parsed timeline is
  stored on the instance.
- **TVPaint workfile creator**: creates a "workfile" instance for the
  current folder and task when none exists. When the context has moved it
  retargets the first existing one. A key missing from that instance
  stops it with an error.
- **ZBrush startup hook**: rewrites the launch so that the AYON launcher
  starts ZBrush through a launch script with a startup script. It records
  the executable in the environment.
- **Maya reference loader**: picks the container's reference node,
  reloads a representation into it, prunes `.placeHolderList` members, and
  derives the namespace on load.
- **Fusion pre-launch hook**: chooses the Python 3 home, writes the launch
  environment, and either copies the user's preferences into a managed
  profile folder or names the profile folder.
- **Substance Painter textures creator**: lists the export presets sorted
  by template name, persists its instance in the project metadata, and
  defines the fixed option tables of its attributes.

Host calls (Maya `cmds`, the Substance Painter API, the file system,
OpenTimelineIO parsing, product-name rules) are parameters: values,
function-typed oracles or the state of small classes. Where the source
updates objects in place (launch contexts, create contexts, containers,
project metadata), the model has a class with those fields. Its methods
are proved against specification functions. The properties are lemmas
about those functions.

Files:

- `common.dfy`: Python string and path helpers: `os.path.basename`,
  `os.path.join`, `str.split`, string ordering and `str(int)`.
- `editorial_package.dfy`
- `tvpaint_workfile.dfy`
- `zbrush_startup.dfy`
- `maya_reference_loader.dfy`
- `fusion_prelaunch.dfy`
- `substance_textures.dfy`

## Model

| member | source | states |
|---|---|---|
| Common.BasenameIsLastComponent | client/ayon_core/hosts/traypublisher/plugins/publish/validate_editorial_package.py:36-37 | `os.path.basename` yields a suffix of the path that contains no `/`, and the path has a `/` just before it whenever it is shorter than the path |
| Common.BasenameAfterDirectory | client/ayon_core/hosts/traypublisher/plugins/publish/validate_editorial_package.py:44 | the base name of `dir/name` is `name`, whatever the directory, and a bare name is its own base name |
| Common.BasenameAppend | client/ayon_core/hosts/traypublisher/plugins/publish/validate_editorial_package.py:44 | appending a slash-free tail to a path appends it to the base name |
| Common.JoinSplit | openpype/hosts/fusion/hooks/pre_fusion_setup.py:115 | splitting the Python 3 home on the path separator loses nothing: joining the parts back gives the original value |
| Common.Split | openpype/hosts/fusion/hooks/pre_fusion_setup.py:115 | `str.split(sep)` gives at least one part, and no part contains the separator |
| EditorialPackage.TrackUrlsMembership | client/ayon_core/hosts/traypublisher/plugins/publish/validate_editorial_package.py:60-66 | a URL is collected from a track iff it is non-empty and some clip's media reference targets it |
| EditorialPackage.TimelineUrlsMembership | client/ayon_core/hosts/traypublisher/plugins/publish/validate_editorial_package.py:55-68 | a URL is collected from the timeline iff it is non-empty and some clip of some track refers to it |
| EditorialPackage.GetAllTargetUrls | client/ayon_core/hosts/traypublisher/plugins/publish/validate_editorial_package.py:55-68 | the nested loops return the target URLs in track-then-clip order, and exactly the non-empty URLs of clips that have a media reference |
| EditorialPackage.CollectMissing | client/ayon_core/hosts/traypublisher/plugins/publish/validate_editorial_package.py:42-46 | a name is reported missing iff it is the base name of some target URL and not among the resource file names; duplicates collapse into a set |
| EditorialPackage.Process | client/ayon_core/hosts/traypublisher/plugins/publish/validate_editorial_package.py:22-53 | returns the validation verdict; the timeline is stored under `otio_data` on success, and the instance is unchanged on any error |
| EditorialPackage.NotCollectedFails | client/ayon_core/hosts/traypublisher/plugins/publish/validate_editorial_package.py:23-25 | without package data, validation fails with "not collected", whatever the timeline |
| EditorialPackage.MissingOtioFails | client/ayon_core/hosts/traypublisher/plugins/publish/validate_editorial_package.py:29-32 | an empty otio path fails with the folder path, and the verdict does not depend on the timeline, so the timeline is never read |
| EditorialPackage.MissingNameIff | client/ayon_core/hosts/traypublisher/plugins/publish/validate_editorial_package.py:36-46 | a name is in the reported missing set iff some clip refers to a non-empty URL with that base name and no resource path has that base name |
| EditorialPackage.PassesIffComplete | client/ayon_core/hosts/traypublisher/plugins/publish/validate_editorial_package.py:48-53 | validation passes iff every referenced file's base name is matched by some resource path's base name |
| EditorialPackage.DirectoriesIgnored | client/ayon_core/hosts/traypublisher/plugins/publish/validate_editorial_package.py:11-14 | a clip pointing at `clipDir/name` is satisfied by a resource `resourceDir/name`, whatever the two directories |
| EditorialPackage.SingleClipUrls | client/ayon_core/hosts/traypublisher/plugins/publish/validate_editorial_package.py:59-66 | a timeline of one clip with a non-empty target yields exactly that URL |
| EditorialPackage.ExampleDirectoryIgnored | client/ayon_core/hosts/traypublisher/plugins/publish/validate_editorial_package.py:11-14 | `/old/location/shot01.mov` is satisfied by a resource `shot01.mov` |
| EditorialPackage.ExampleMissingReported | client/ayon_core/hosts/traypublisher/plugins/publish/validate_editorial_package.py:42-51 | a clip whose file is not among the resources is reported by its base name alone |
| TVPaintWorkfile.FirstMatch | client/ayon_core/hosts/tvpaint/plugins/create/create_workfile.py:20-24 | the result is the first position whose creator identifier matches, or None when no instance matches |
| TVPaintWorkfile.FirstMatchUnique | client/ayon_core/hosts/tvpaint/plugins/create/create_workfile.py:20-24 | the first match is unique, so the scan and the specification agree |
| TVPaintWorkfile.FindExisting | client/ayon_core/hosts/tvpaint/plugins/create/create_workfile.py:20-24 | the scan loop with `break` finds the first instance made by the creator, or reports that there is none |
| TVPaintWorkfile.WorkfileCreator.Create | client/ayon_core/hosts/tvpaint/plugins/create/create_workfile.py:19-75 | when the first workfile instance lacks a key it reads, returns that `KeyError` with nothing changed; otherwise the context's instances and the document's list become the result of `CreateResult` |
| TVPaintWorkfile.CreateWhenAbsent | client/ayon_core/hosts/tvpaint/plugins/create/create_workfile.py:37-58 | with no workfile instance, `create` succeeds and appends exactly one instance to the context and the same one to the document; it has the current folder, the current task and the default variant; earlier entries keep their order |
| TVPaintWorkfile.CreateWhenMoved | client/ayon_core/hosts/tvpaint/plugins/create/create_workfile.py:60-75 | when the folder or task differs, a missing `variant` is the error; otherwise only `folderPath`, `task` and `productName` of that instance are set (to the current context and a new name), while other keys, other instances and the document's list stay |
| TVPaintWorkfile.CreateWhenCurrent | client/ayon_core/hosts/tvpaint/plugins/create/create_workfile.py:60-63 | when the existing instance already names the current folder and task, nothing changes, even if it has no `variant` |
| TVPaintWorkfile.CreateReadsKeysInOrder | client/ayon_core/hosts/tvpaint/plugins/create/create_workfile.py:32-63 | a missing `folderPath` always fails; a missing `task` fails only when the folder is unchanged, because the `or` stops at a changed folder |
| TVPaintWorkfile.CreateFailsOnlyOnFirstMatch | client/ayon_core/hosts/tvpaint/plugins/create/create_workfile.py:19-75 | only the first workfile instance is read: if it has `folderPath`, `task` and `variant`, `create` succeeds whatever later instances hold, and every error names a key that instance lacks |
| TVPaintWorkfile.ExampleLaterInstanceIgnored | client/ayon_core/hosts/tvpaint/plugins/create/create_workfile.py:19-63 | a second workfile instance with no `task` or `variant` does not stop `create` when the first is current |
| TVPaintWorkfile.CreateWritesOnlyWhenCreating | client/ayon_core/hosts/tvpaint/plugins/create/create_workfile.py:32-75 | on success, the document's list changes only when no workfile instance existed, and at most one instance is added |
| TVPaintWorkfile.CreateEstablishesCurrent | client/ayon_core/hosts/tvpaint/plugins/create/create_workfile.py:32-75 | after a successful `create` the first workfile instance names the current folder and task |
| TVPaintWorkfile.CreateIdempotent | client/ayon_core/hosts/tvpaint/plugins/create/create_workfile.py:19-75 | after a successful `create`, a second one in the same context succeeds and changes nothing |
| ZBrushStartup.RewriteLosesNothing | client/ayon_core/hosts/zbrush/hooks/force_startup_script.py:29-49 | the original arguments can be read back from the rewritten ones: the executable ends the first group and the leftovers follow the two groups |
| ZBrushStartup.RewriteShape | client/ayon_core/hosts/zbrush/hooks/force_startup_script.py:33-49 | the result is the launcher group ending in `run`, the script and the executable, then the startup script alone, then the leftovers in order; one original argument gives exactly two elements |
| ZBrushStartup.Execute | client/ayon_core/hosts/zbrush/hooks/force_startup_script.py:22-49 | an empty argument list is an error that changes nothing; otherwise it sets `ZBRUSH_EXE` and `AYON_ZBRUSH_CMD`, rewrites the arguments, and warns iff there were leftovers |
| MayaReferenceLoader.NodesOnlyMembership | colorbleed/maya/plugin.py:94 | the node-only membership is exactly the members whose names hold no `.`, so attribute entries such as `.placeHolderList[1]` are not in it |
| MayaReferenceLoader.ReferenceCandidatesMembership | colorbleed/maya/plugin.py:64 | the candidates are exactly the members that are reference nodes |
| MayaReferenceLoader.UniqueReferencesSpec | colorbleed/maya/plugin.py:62-75 | the collected references are the candidates other than `sharedReferenceNode`, without duplicates, led by the first such candidate |
| MayaReferenceLoader.DistinctCount | colorbleed/maya/plugin.py:78 | the list has as many entries as its set, so `len(set(references))` counts the references |
| MayaReferenceLoader.GetReferenceNode | colorbleed/maya/plugin.py:50-82 | fails when no reference remains, otherwise returns the first one and warns iff there is more than one; the node is a reference member and never `sharedReferenceNode` |
| MayaReferenceLoader.FileTypeTable | colorbleed/maya/plugin.py:97-103 | `ma`, `mb` and `abc` map to `mayaAscii`, `mayaBinary` and `Alembic`, and every other representation name is unsupported |
| MayaReferenceLoader.PruneKeepsOthers | colorbleed/maya/plugin.py:122-125 | after pruning, no member contains `.placeHolderList`, and every other member is kept |
| MayaReferenceLoader.AddMembersContains | colorbleed/maya/plugin.py:118 | after adding the new nodes, the set holds exactly the old members and the new nodes |
| MayaReferenceLoader.Update | colorbleed/maya/plugin.py:84-130 | errors in the source's order (reference node among the node members, file type, path), with nothing changed; on success the members gain the loaded nodes, lose the placeholders, and the representation id is recorded |
| MayaReferenceLoader.UpdatePicksReferenceNode | colorbleed/maya/plugin.py:94-95 | the node `update` reloads is a reference member, a node rather than an attribute entry, and never `sharedReferenceNode` |
| MayaReferenceLoader.ExamplePlaceholderNotPicked | colorbleed/maya/plugin.py:94-109 | with members `refRN.placeHolderList[1]` and `refRN`, `refRN` is reloaded even if every name were taken for a reference |
| MayaReferenceLoader.LoadNamespace | colorbleed/maya/plugin.py:23-44 | a given namespace is kept; otherwise the unique namespace is requested for `<asset>_` with suffix `_`, and with prefix `_` iff the asset name starts with a digit |
| MayaReferenceLoader.LoadNothingLoaded | colorbleed/maya/plugin.py:34-37 | when no nodes were loaded, nothing is containerised |
| FusionPrelaunch.SettingsDefaults | openpype/hosts/fusion/hooks/pre_fusion_setup.py:61-73 | missing settings give no copy, no forced sync and no copy path; an empty copy path counts as none; without `FUSION16_PROFILE` the profile is `Default` |
| FusionPrelaunch.SuffixIs | openpype/hosts/fusion/hooks/pre_fusion_setup.py:101 | a file has the suffix `.ext` iff its name ends with it and has at least one character before it |
| FusionPrelaunch.IsPrefsFileIff | openpype/hosts/fusion/hooks/pre_fusion_setup.py:100-103 | a file is copied iff its name ends, after at least one other character, in `.prefs`, `.def`, `.blocklist` or `.fu` |
| FusionPrelaunch.PrefsFilesMembership | openpype/hosts/fusion/hooks/pre_fusion_setup.py:100-103 | the copied files are exactly the source folder's entries with a preference suffix |
| FusionPrelaunch.CopySkipRule | openpype/hosts/fusion/hooks/pre_fusion_setup.py:84-103 | the copy is skipped iff the destination exists and no re-sync is forced; a completed copy takes exactly the preference files |
| FusionPrelaunch.CopyExistingPrefs | openpype/hosts/fusion/hooks/pre_fusion_setup.py:75-106 | the skip, folder-creation and missing-source exits and the filtering loop give the outcome of `CopyPlan` |
| FusionPrelaunch.FirstDirectorySpec | openpype/hosts/fusion/hooks/pre_fusion_setup.py:115-130 | the chosen home is the normalised form of the first candidate that is a directory, and there is none only when no candidate is a directory |
| FusionPrelaunch.FindPython3Home | openpype/hosts/fusion/hooks/pre_fusion_setup.py:115-130 | the `for`/`else` search over the separator-split value returns the first candidate that is a directory |
| FusionPrelaunch.Execute | openpype/hosts/fusion/hooks/pre_fusion_setup.py:108-163 | the successive environment writes and the error exits give the environment and outcome of `LaunchPlan` |
| FusionPrelaunch.NoPythonNoWrites | openpype/hosts/fusion/hooks/pre_fusion_setup.py:123-130 | when no candidate is a directory, the launch fails and no variable is written |
| FusionPrelaunch.SuccessfulLaunchPython | openpype/hosts/fusion/hooks/pre_fusion_setup.py:113-141 | on success `PATH` was set, both Python homes name the first candidate that is a directory (no earlier one is), and `PATH` gains `;dir` |
| FusionPrelaunch.SuccessfulLaunchProfile | openpype/hosts/fusion/hooks/pre_fusion_setup.py:146-163 | on success `OPENPYPE_FUSION` and the master prefs are set; the profile folder variable is written (as `str` of the path) iff no copy is configured, that is, copying is off or there is no copy path; when a copy is configured, whether it is made or skipped, the variable keeps its old value or stays unset |
| FusionPrelaunch.LaunchKeepsOtherVariables | openpype/hosts/fusion/hooks/pre_fusion_setup.py:108-163 | whatever the outcome, no variable other than the six the hook names is added, removed or changed |
| FusionPrelaunch.CopyAttemptedWhenConfigured | openpype/hosts/fusion/hooks/pre_fusion_setup.py:84-88 | with copying configured, no forced re-sync and the destination present, the launch skips the copy and does not name a profile folder |
| SubstanceTextures.TemplateNameOfPresetFile | openpype/hosts/substancepainter/plugins/create/create_textures.py:36-37 | a preset file's template name is its name without `.spexp`, except for names of dots only before the suffix, which `splitext` keeps whole |
| SubstanceTextures.ShelfPresetsMembership | openpype/hosts/substancepainter/plugins/create/create_textures.py:35-45 | a shelf offers an entry iff one of the listed files ends in `.spexp` and yields that URL and template name |
| SubstanceTextures.CandidatesMembership | openpype/hosts/substancepainter/plugins/create/create_textures.py:28-45 | an entry is assigned iff it comes from a `.spexp` file of a shelf whose `export-presets` folder exists |
| SubstanceTextures.AssignMembership | openpype/hosts/substancepainter/plugins/create/create_textures.py:45 | a dictionary assignment keeps every entry with another URL and replaces the one with the same URL |
| SubstanceTextures.AssignUnique | openpype/hosts/substancepainter/plugins/create/create_textures.py:45 | after an assignment each URL is still present once |
| SubstanceTextures.AssignUrls | openpype/hosts/substancepainter/plugins/create/create_textures.py:45 | an assignment adds its URL to the keys and removes none |
| SubstanceTextures.CollectedSpec | openpype/hosts/substancepainter/plugins/create/create_textures.py:25-45 | the dictionary has each URL once and exactly the assigned URLs, each mapped to the template name assigned last |
| SubstanceTextures.InsertSorted | openpype/hosts/substancepainter/plugins/create/create_textures.py:48-49 | inserting into a list ordered by template name keeps it ordered |
| SubstanceTextures.InsertPermutes | openpype/hosts/substancepainter/plugins/create/create_textures.py:48-49 | inserting adds exactly the one entry and loses none |
| SubstanceTextures.SortByNameSpec | openpype/hosts/substancepainter/plugins/create/create_textures.py:47-49 | the sort orders the entries by template name and is a permutation |
| SubstanceTextures.PermutedDictionary | openpype/hosts/substancepainter/plugins/create/create_textures.py:48-49 | reordering a dictionary's items keeps each URL once and keeps the same entries |
| SubstanceTextures.ExportPresetsSpec | openpype/hosts/substancepainter/plugins/create/create_textures.py:22-51 | the presets are ordered by template name and have each URL once; their URLs are those of the `.spexp` files found; each entry is the last one assigned to its URL and comes from such a file |
| SubstanceTextures.AddShelfPresets | openpype/hosts/substancepainter/plugins/create/create_textures.py:35-45 | the inner loop assigns the shelf's preset files into the dictionary in listing order |
| SubstanceTextures.GetExportPresets | openpype/hosts/substancepainter/plugins/create/create_textures.py:22-51 | the nested loops and the sort return `ExportPresets` |
| SubstanceTextures.LastWriter | openpype/hosts/substancepainter/plugins/create/create_textures.py:79-80 | the index found is the last update carrying the key, or -1 when none does |
| SubstanceTextures.MergeAllSpec | openpype/hosts/substancepainter/plugins/create/create_textures.py:76-81 | a shallow merge: a stored key survives unless an instance carries it; a carried key takes the value of the last instance that carries it |
| SubstanceTextures.MergeAllIdempotent | openpype/hosts/substancepainter/plugins/create/create_textures.py:76-81 | storing the same instances a second time changes nothing |
| SubstanceTextures.WithoutMembership | openpype/hosts/substancepainter/plugins/create/create_textures.py:87 | detaching an instance removes it and keeps every other instance |
| SubstanceTextures.DetachedMembership | openpype/hosts/substancepainter/plugins/create/create_textures.py:83-87 | after removal the context holds exactly its instances that were not removed |
| SubstanceTextures.SizeItemsArePowersOfTwo | openpype/hosts/substancepainter/plugins/create/create_textures.py:114-126 | after the "texture set's own size" item come the sizes 2^7 to 2^12 in increasing order, each keyed by its exponent k and labelled with the decimal spelling of 2^k |
| Common.NatToStringSpec | openpype/hosts/substancepainter/plugins/create/create_textures.py:114-126 | `str(n)` is a non-empty string of digits without a leading zero that reads back as `n` |
| SubstanceTextures.AttrDefsShape | openpype/hosts/substancepainter/plugins/create/create_textures.py:102-145 | the presets are offered in order with their URL as key; the dilation distance is a whole number from 0 to 256 that defaults to 16 |
| SubstanceTextures.UpdateAfterCreateIsStable | openpype/hosts/substancepainter/plugins/create/create_textures.py:63-81 | after `create` stores an instance, `update_instances` with that instance leaves the metadata as it is |
| SubstanceTextures.TexturesCreator.Create | openpype/hosts/substancepainter/plugins/create/create_textures.py:63-69 | does nothing when no project is open; otherwise adds the instance to the context and stores its data as the "textures" metadata |
| SubstanceTextures.TexturesCreator.CollectInstances | openpype/hosts/substancepainter/plugins/create/create_textures.py:71-74 | adds one instance iff the stored metadata is present and non-empty |
| SubstanceTextures.TexturesCreator.UpdateInstances | openpype/hosts/substancepainter/plugins/create/create_textures.py:76-81 | stores the old metadata, or `{}` when it is absent, merged with each instance's data in turn; with no instances it writes nothing |
| SubstanceTextures.TexturesCreator.RemoveInstances | openpype/hosts/substancepainter/plugins/create/create_textures.py:83-87 | detaches the instances from the context and leaves the project metadata untouched |
| SubstanceTextures.TexturesCreator.GetInstanceAttrDefs | openpype/hosts/substancepainter/plugins/create/create_textures.py:102-145 | the definitions are built on the export presets `get_export_presets` returns |
| SubstanceTextures.TexturesCreator.GetPreCreateAttrDefs | openpype/hosts/substancepainter/plugins/create/create_textures.py:147-149 | the pre-create definitions are the instance definitions |

## Left out

- Logging is left out. Where a warning is a stated behaviour (leftover ZBrush arguments, several Maya reference nodes), the model returns a flag saying whether it is logged.
- Exceptions (`PublishValidationError`, `ApplicationLaunchFailed`, `AssertionError`, `KeyError`, `IndexError`) become error values of a `Result` or `Option`. Their message texts are not modelled.
- OpenTimelineIO parsing is left out. The parsed timeline is an input, reduced to tracks of clips with an optional media reference.
- An `editorial_pckg` entry that is absent or empty (Python falsy) is modelled as None.
- The TVPaint creator's `apply_settings` (create_workfile.py:12-17) only reads project settings. The default variant is a field of the creator instead.
- `get_asset_by_name` and `get_product_name` are left out. They are folded into one product-name function passed as a parameter.
- `data_to_store` is taken to be the instance's data, in both the TVPaint and the Substance Painter creators. Framework-added keys are not modelled.
- Instances are values in sequences. Writes through the existing TVPaint instance object become an update of the sequence element. Aliasing between the context and other holders of that object is not modelled.
- ZBrushStartup.Execute: requires the first launch argument to be a plain string. A nested list in that position is not modelled.
- `get_ayon_launcher_args` joined by `subprocess.list2cmdline`, `get_openpype_execute_args` and the launch script path are inputs of the ZBrush hook. The launcher's own execute arguments are a parameter.
- The Maya loader's `remove` (plugin.py:132-171) is left out. It takes `_get_reference_node` of the full membership (the same choice `GetReferenceNode` models, on all members rather than the node members `update` uses), then removes that reference, deletes the container node and namespace, and swallows the exceptions of the last two.
- The `.verticesOnlySet` fix-up in `update` (plugin.py:113-115) is left out. It is a host attribute write.
- `process_reference` is abstract (it raises `NotImplementedError`). The nodes it loads are an input of `Load`.
- `unique_namespace`, `containerise` and `cmds.file` loading are left out. The namespace rule is a parameter function, the loaded nodes are an input, and the container is returned as a value.
- Python's `str.isdigit` is modelled on ASCII digits only, in the Maya namespace prefix rule.
- Maya object sets are sequences. `cmds.sets(content, forceElement=...)` is modelled as adding the nodes not already present.
- The Fusion platform default profile folder (pre_fusion_setup.py:49-58) is an input of `ProfileSource`. It is operating-system plumbing.
- `os.path.normpath`, `os.path.isdir`, `Path.exists`, `mkdir`, `iterdir` and `expanduser` are oracles in the Fusion and Substance Painter models. In particular, the Python behaviour that `normpath("")` is `"."` is not built in.
- `shutil.copy` is left out. The Fusion copy outcome reports which files would be copied and where.
- `ResourceID(...).url()` is a function parameter. `CreatedInstance.from_existing` is a function parameter as well.
- Substance Painter instance data holds string values only.
- Removal from the create context is by value, not by object identity.
- `EnumDef`, `NumberDef` and `UILabelDef` are plain data. Their widgets are not modelled.
- SubstanceTextures.SortByNameSpec: the definition is stable (equal template names keep their assignment order), but the lemma states only ordering and permutation, not stability.
- Common.Basename follows POSIX `os.path.basename`: only `/` separates. On Windows, `ntpath.basename` also splits on `\` and after a drive letter, so there `C:\old\shot01.mov` has base name `shot01.mov`, while this model keeps the whole string and would report the clip missing.
- Common.PathJoin follows POSIX `os.path.join`: Windows drive letters and `\` separators are not modelled.
- SubstanceTextures.TemplateName follows POSIX `os.path.splitext`: a `\` is not treated as a separator.
- A Maya member is taken to be a node, rather than an attribute or component entry, exactly when its name holds no `.` (`NodesOnly`).

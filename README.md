# YAML tree codec of the GitHub sync scripts

Two scripts keep a project of the low-code backend in a Git repository. The export,
`github/version/2/json_yaml.js`, takes the project document that the backend returns and writes
it out as a tree of YAML files:

- `datasources/rest/`, `datasources/environment/`, `components/`, `functions/`, `project/` and
  `widgets/` hold one file per record;
- `design/<kind>/` holds the design tokens;
- `pages/<page>/<page>.yaml` holds each page, and `pages/<page>/nodes/<varName>_<id>.yaml` holds
  one file per node of its layout.

Before writing, the export empties its seven top-level folders. It strips the id and audit keys
from the records, and it drops null-valued keys from the components, the pages and the nodes.

The import, `github/version/2/yaml_json.js`, walks the same tree. It rebuilds the document
category by category, using a fixed folder→key table. It rebuilds each page from its main file
and its node files, and it takes `projectId` from the project records.

The model has these parts:

- **Values.** The JSON values are `JsonValues.Json`. Objects are ordered member lists, in
  JavaScript's insertion order. `undefined` is `Base.Option.None`.
- **Export.** The export writes into `Disk.Fs`, a map of files plus a set of directories. The
  `Disk.FileSystem` class changes that state in place. Each operation of json_yaml.js is a method
  (`Export.ProcessAndSaveData`, `Export.ProcessPages`, `Export.DeleteFoldersOnDisk`,
  `Export.FetchAllData`, …). Each method is proved equal to a specification function over `Fs`
  that returns the final tree and the error that ended the run. The properties are lemmas about
  those functions, in `ExportProperties`:
  - nothing outside the seven folders changes, as long as every page and record name is a
    plain path segment;
  - the folders are empty before anything is written;
  - every record and every node gets its own file, and the last record of a name wins;
  - the ids are gone;
  - singletons are routed by their markers.
- **Import.** The import reads a `Tree.Item`, a folder tree whose entries are listed in
  `readdirSync` order. The `Import.Importer` class holds the script's module-level `projectId`
  and the walk's `dataCollection`. `PageImport` reads the pages. Again each method is proved
  equal to a specification function, and the lemmas say:
  - which folders feed which key;
  - when the import gets through;
  - what each page and its nodes become.
- **Node names.** `NodeNames` connects the two sides. A node exported under
  `<varName>_<id>.yaml` is read back under the id `<id>` whenever the id is free of `_` and
  `.yaml`, in whatever order the folder lists the files.

Every failure of the scripts ends the process with `process.exit(1)` or an uncaught exception.
Here each such failure is a `Base.Error` value: a TypeError or ReferenceError of JavaScript, a
failing `fs` call, or a YAML parse failure.

## Model

| member | source | states |
|---|---|---|
| Sanitize.FilterObj | github/version/2/json_yaml.js:48-57 | the result holds exactly the members of the input whose key is not one of `id`, `_id`, `branchId`, `userId`, `createdAt`, `updatedAt`, nor `projectId` unless it is kept |
| Sanitize.KeysToRemoveStripped | github/version/2/json_yaml.js:49-52 | the removal list holds the six fixed keys, plus `projectId` exactly when it is not excluded |
| Sanitize.FilterObjGet | github/version/2/json_yaml.js:54-56 | after filtering, a stripped key reads as undefined and every other key reads as in the input |
| Sanitize.RemoveIdsShallow | github/version/2/json_yaml.js:19-31 | `removeIds` keeps the length of a top-level array; it filters the array's object elements, turns its array elements into index-keyed filtered objects and leaves other elements alone; it filters a top-level object and leaves any other value unchanged; nested values are never touched |
| Sanitize.FilterObjIdempotent | github/version/2/json_yaml.js:48-57 | filtering twice is filtering once |
| Sanitize.RemoveIdsIdempotent | github/version/2/json_yaml.js:19-31 | `removeIds` is idempotent |
| Sanitize.RemoveNulls | github/version/2/json_yaml.js:33-46 | the loop version of `removeNulls` computes `WithoutNulls` |
| Sanitize.CleanItemsAt | github/version/2/json_yaml.js:34-35 | arrays keep their length, and element i becomes the cleaned element i |
| Sanitize.CleanMembersFrom | github/version/2/json_yaml.js:37-43 | every member of the cleaned object is a non-null member of the input, cleaned, and its keys are distinct |
| Sanitize.WithoutNullsKeepsKind | github/version/2/json_yaml.js:33-46 | null, objects and arrays stay null, objects and arrays |
| Sanitize.WithoutNullsClean | github/version/2/json_yaml.js:33-46 | after `removeNulls`, no object at any depth has a null-valued key, and all keys are distinct |
| Sanitize.CleanMembersGet | github/version/2/json_yaml.js:38-42 | a key whose value is null reads as undefined afterwards; any other key reads as its cleaned value |
| Sanitize.CleanMembersKeys | github/version/2/json_yaml.js:38-42 | no key is added |
| Sanitize.RemoveNullsArray | github/version/2/json_yaml.js:34-35 | null array elements are kept, and the length is kept |
| Sanitize.WithoutNullsFixpoint | github/version/2/json_yaml.js:33-46 | a value without null keys and with distinct keys is left as it is |
| Sanitize.RemoveNullsIdempotent | github/version/2/json_yaml.js:33-46 | `removeNulls` is idempotent |
| FileNames.StripLeadingNonAlnum | github/version/2/json_yaml.js:101 | exactly the leading run of non-alphanumerics is removed: the result is a suffix, every removed character is not a letter or digit, and the result is empty or starts with one |
| FileNames.SanitizeFileName | github/version/2/json_yaml.js:98-104 | the stem has only `[A-Za-z0-9_-]`, is empty or starts with a letter or digit, and is never longer than the path |
| FileNames.SanitizeStem | github/version/2/json_yaml.js:98-104 | a string that is already a stem comes back unchanged |
| FileNames.SanitizeFileNameIdempotent | github/version/2/json_yaml.js:98-104 | sanitising twice gives the same stem as sanitising once |
| FileNames.SanitizeIconPath | github/version/2/json_yaml.js:98-104 | `/icons/home.png` becomes `icons-home` |
| FileNames.ExtnameNoDot | github/version/2/json_yaml.js:99 | a path without a dot has no extension |
| Text.LastComponent | github/version/2/json_yaml.js:99 | the base name `path.extname` looks at is made of characters of the path |
| Text.RemoveFirstAt | github/version/2/yaml_json.js:53 | `replace` with a string pattern removes only its first occurrence |
| Text.AfterLast | github/version/2/yaml_json.js:53 | `split("_").slice(-1)[0]` contains no `_` and is no longer than the name |
| Text.AfterLastIndex | github/version/2/yaml_json.js:53 | the last piece of the split is exactly the text after the last `_`, or the whole name when it has none |
| Naming.NameField | github/version/2/json_yaml.js:122-126 | a truthy `functionName` wins; otherwise a truthy `displayName`; otherwise a truthy `name`; otherwise the default file name |
| Naming.ChooseName | github/version/2/json_yaml.js:122-126 | the three overwriting tests compute `NameField` |
| Naming.ItemFileName | github/version/2/json_yaml.js:122-136 | the name of a list record is the one `ItemStem` gives: `kind` for environments, a sanitised asset path for app assets, `NameField` otherwise, and a TypeError for a null record |
| Naming.AssetFileName | github/version/2/json_yaml.js:135 | `sanitizeFileName(item.assetData.localPath)`: errors when `assetData` is undefined or null, or when the path is not a string |
| Naming.EnvironmentNamedByKind | github/version/2/json_yaml.js:128-131 | an environment record is named by its `kind`, whatever its other name fields say |
| Naming.SingletonFileName | github/version/2/json_yaml.js:149-168 | the six tests compute `SingletonStem`: a design record is named by its last marker, a project record with a truthy `appDetails.displayName` is named "project-details", and reading a marker of undefined or null fails |
| Naming.DesignFileName | github/version/2/json_yaml.js:149-165 | the five marker tests compute `LastMarker` |
| Naming.LastMarkerWins | github/version/2/json_yaml.js:149-165 | the last truthy marker decides the name |
| Naming.LastMarkerNone | github/version/2/json_yaml.js:149-165 | without a truthy marker, the caller's folder name is kept |
| Naming.ThemeRoutesToColorTokens | github/version/2/json_yaml.js:152-154 | a design record with `THEME` and no later marker is named "color-tokens", whatever folder name is passed |
| Naming.NoMarkerKeepsFolder | github/version/2/json_yaml.js:149-165 | a design record without markers keeps the folder name given by the caller |
| Disk.MkdirP | github/version/2/json_yaml.js:108 | `mkdirSync(recursive)` fails exactly when a file stands on the path; otherwise it adds the path and its prefixes as directories |
| Disk.WriteFile | github/version/2/json_yaml.js:140 | `writeFileSync` fails on a directory or a missing parent; otherwise exactly that file changes |
| Disk.RemoveTree | github/version/2/json_yaml.js:92 | `rmSync(recursive)` removes exactly the files and directories under the path, and keeps the rest |
| Disk.MkdirPValid | github/version/2/json_yaml.js:108 | mkdir keeps the tree well formed |
| Disk.WriteFileValid | github/version/2/json_yaml.js:140 | a write keeps the tree well formed |
| Disk.RemoveTreeValid | github/version/2/json_yaml.js:92 | removal keeps the tree well formed |
| Disk.FileSystem.Mkdir | github/version/2/json_yaml.js:61 | the state becomes `MkdirP` of the old state, or stays unchanged with `MkdirFailed` |
| Disk.FileSystem.Write | github/version/2/json_yaml.js:75 | the state becomes `WriteFile` of the old state, or stays unchanged with `WriteFailed` |
| Disk.FileSystem.Present | github/version/2/json_yaml.js:91 | `existsSync`: whether the path is a file or a directory |
| Disk.FileSystem.Remove | github/version/2/json_yaml.js:92 | the state becomes `RemoveTree` of the old state |
| Export.ProcessAndSaveData | github/version/2/json_yaml.js:106-174 | the new tree and the error are those of `SaveData`: mkdir of `<parent>/<folder>`, then `removeIds` (keeping `projectId` for the project), then one file per list record or one singleton file |
| Export.SaveItemsOnDisk | github/version/2/json_yaml.js:120-145 | the loop over the records refines `SaveItems`, and the first failure ends it |
| Export.ProcessPages | github/version/2/json_yaml.js:59-87 | the run refines `PagesRun`: mkdir `pages`, then each page; a value that is not an array fails |
| Export.ProcessPageList | github/version/2/json_yaml.js:63-86 | the `forEach` over the pages refines `PageList`: each page in order, and the first failure ends it |
| Export.ProcessPage | github/version/2/json_yaml.js:64-83 | the run refines `PageRun`: the nodes folder, one file per node, then the main file |
| Export.WriteNodes | github/version/2/json_yaml.js:71-76 | the `forEach` over the nodes refines `NodeList`: one file `<varName>_<id>.yaml` per node, in order; a null node fails reading `varName` |
| Export.DeleteFoldersOnDisk | github/version/2/json_yaml.js:88-96 | the new state is `DeleteFolders` of the old state |
| Export.FetchAllData | github/version/2/json_yaml.js:177-220 | clears the seven folders, stops on a falsy payload and otherwise runs the twelve calls in source order: the new state and the error are `ExportSpec` |
| Export.SaveResponse | github/version/2/json_yaml.js:199-220 | the twelve calls, each on the tree the previous one left; the first error ends the dispatch |
| Export.CallStep | github/version/2/json_yaml.js:201-220 | one call: `removeNulls` for components and pages, and app-state and app-assets only when their value is truthy |
| Export.DispatchTable | github/version/2/json_yaml.js:201-220 | the twelve calls and their (parent, folder, category) arguments, in order |
| ExportProperties.ExportKeepsOutside | github/version/2/json_yaml.js:177-220 | with paths as segment lists, the whole export changes no file outside `datasources`, `components`, `design`, `functions`, `pages`, `project` and `widgets` |
| ExportProperties.SaveDataKept | github/version/2/json_yaml.js:106-174 | processAndSaveData writes only under its parent folder |
| ExportProperties.PageRunKept | github/version/2/json_yaml.js:63-86 | a page writes only under `pages` |
| ExportProperties.StepsKept | github/version/2/json_yaml.js:201-220 | the dispatch writes only into the folders of its calls |
| ExportProperties.DeleteFoldersKept | github/version/2/json_yaml.js:88-96 | deleting folders keeps every file outside them |
| ExportProperties.MissingIsCleared | github/version/2/json_yaml.js:91 | in a well-formed tree, a folder that `existsSync` does not see holds nothing |
| ExportProperties.DeleteFoldersClears | github/version/2/json_yaml.js:88-96 | afterwards no file or directory remains under any listed folder, whether it existed or not, and the tree is still well formed |
| ExportProperties.ExportStartsClean | github/version/2/json_yaml.js:177 | the export writes into a tree where its seven folders are empty |
| ExportProperties.LastWriteWins | github/version/2/json_yaml.js:140 | after a sequence of writes, a path holds what the last write to it wrote |
| ExportProperties.UnwrittenKept | github/version/2/json_yaml.js:140 | a path no write touches keeps its file, or its absence |
| ExportProperties.OnlyWrittenAdded | github/version/2/json_yaml.js:140 | only written paths gain files |
| ExportProperties.NodeListOk | github/version/2/json_yaml.js:72-76 | given the nodes folder, the node loop succeeds exactly when no node is null and no node file would land on a directory |
| ExportProperties.NodeListWrites | github/version/2/json_yaml.js:72-76 | a successful node loop is exactly the writes of the null-free nodes to `<varName>_<id>.yaml`, in order |
| ExportProperties.EachNodeItsFile | github/version/2/json_yaml.js:72-76 | nodes whose ids are distinct and free of `_` and `.yaml` each end up in their own file, holding the null-free node |
| ExportProperties.SaveItemsOk | github/version/2/json_yaml.js:120-145 | given the directory, the record loop succeeds exactly when every record can be named and no record file is a directory |
| ExportProperties.SaveItemsWrites | github/version/2/json_yaml.js:120-145 | a successful record loop is exactly the writes of the records to their names, in order |
| ExportProperties.SaveDataList | github/version/2/json_yaml.js:111-145 | for a list, the file named after record i holds record i with its ids removed, unless a later record has the same name |
| ExportProperties.ListRecordClean | github/version/2/json_yaml.js:20-26 | a list record that holds an object carries none of the stripped keys |
| ExportProperties.SingletonWrite | github/version/2/json_yaml.js:146-173 | anything but a list becomes one file `<parent>/<folder>/<stem>.yaml` holding the value with its ids removed, and no other file changes |
| ExportProperties.MarkersKept | github/version/2/json_yaml.js:112 | `removeIds` leaves the marker fields of a design record as they are |
| ExportProperties.ThemeRecordInTypographyFolder | github/version/2/json_yaml.js:107-171 | a theme record passed as typography lands in `design/font-tokens/color-tokens.yaml`: routing changes the file name, not the folder |
| ExportProperties.ProjectKeepsProjectId | github/version/2/json_yaml.js:114-116 | the project record keeps `projectId` and loses `id` |
| ExportProperties.OthersLoseProjectId | github/version/2/json_yaml.js:111-113 | other records lose `projectId` |
| ExportProperties.OptionalDesignSkipped | github/version/2/json_yaml.js:212-219 | a falsy `appState` or `filteredAppAsset` leaves the tree unchanged and the run going |
| ExportProperties.MissingAppSettingsAborts | github/version/2/json_yaml.js:211 | an undefined `appSettings` fails with "Cannot read properties of undefined (reading 'TYPOGRAPHY')" |
| ExportProperties.MainPageClean | github/version/2/json_yaml.js:79-82 | the main page file is an object with no stripped key and no `nodes` in an object layout; every other key holds the page's null-free value |
| ExportProperties.PageRunWrites | github/version/2/json_yaml.js:64-83 | a written page is mkdir of `pages/<name>/nodes`, then the node writes, then the main file |
| ExportProperties.PageFiles | github/version/2/json_yaml.js:64-83 | after a page is written, its main file holds `MainPage`, and with recoverable ids each node has its file |
| Tree.Find | github/version/2/yaml_json.js:31 | the first entry of a name, or none exactly when no entry has that name |
| Tree.ReadYamlFile | github/version/2/yaml_json.js:19-27 | `readYamlFile` succeeds exactly on a file that parses; a malformed file is a parse failure |
| Records.Documents | github/version/2/yaml_json.js:93 | one document per visited file |
| Records.WalkEntriesCollects | github/version/2/yaml_json.js:74-99 | a folder walk succeeds exactly when every `.yaml` file below it is accepted; it then collects their documents in depth-first listing order, and sets `projectId` from the last project document |
| Records.FileEntryExplained | github/version/2/yaml_json.js:80-94 | a `.yaml` file is visited, and any other file is passed over |
| Records.MissingFolderYieldsNothing | github/version/2/yaml_json.js:69-72 | a missing folder yields no documents and keeps `projectId` |
| Records.MalformedAborts | github/version/2/yaml_json.js:95-97 | an unparsable `.yaml` file anywhere below the folder aborts the walk |
| Records.TraverseCollects | github/version/2/yaml_json.js:65-105 | collectDataFromYamlFiles succeeds exactly when the path is no file and every `.yaml` file below it is accepted; it then returns their documents, with `projectId` from the last project document |
| Import.RecordList | github/version/2/yaml_json.js:125 | one JSON element per document; an empty document becomes null |
| Import.Importer.constructor | github/version/2/yaml_json.js:66 | `projectId` starts undefined and the collection empty |
| Import.Importer.TraverseFolder | github/version/2/yaml_json.js:68-100 | the recursive walk refines `WalkEntries` |
| Import.Importer.VisitEntry | github/version/2/yaml_json.js:77-94 | one entry: a folder is walked in turn, a `.yaml` file is visited |
| Import.Importer.VisitYamlFile | github/version/2/yaml_json.js:83-93 | one file: parse it, take `projectId` in the project folder, push the document |
| Import.Importer.CollectDataFromYamlFiles | github/version/2/yaml_json.js:65-105 | returns the documents of `Traverse` and leaves `projectId` as it says |
| Import.Importer.CollectAllData | github/version/2/yaml_json.js:107-135 | gathers the eleven table rows in order, then `pages`, matching `Gather` and `PagesSpec` |
| Import.UpdateAllData | github/version/2/yaml_json.js:137-143 | the body a fresh run would post is `ImportSpec` of the tree |
| Import.FolderTable | github/version/2/yaml_json.js:108-120 | the eleven keys in order; they are distinct, none is "pages", and only the first row is the project |
| Import.GatherExplained | github/version/2/yaml_json.js:124-126 | with distinct keys, the loop succeeds exactly when every folder reads; it then holds each folder's records under its key, in table order |
| Import.ProjectIdFromFirstRow | github/version/2/yaml_json.js:86-90 | `projectId` is that of the last document in `project/` |
| Import.ImportExplained | github/version/2/yaml_json.js:107-135 | the import succeeds exactly when every folder and `pages` read; the data is then the folder members followed by `pages`, and `projectId` is the last project document's |
| Import.ImportKeys | github/version/2/yaml_json.js:108-128 | the data keys are project, datasources, environments, components, typography, themeData, appSettings, appState, appAssets, widgets, functions and pages, in that order |
| Import.ImportRecords | github/version/2/yaml_json.js:124-126 | each key holds its folder's records; a missing folder gives `[]` |
| Import.ListedUnique | github/version/2/yaml_json.js:122-128 | the data object has no repeated key |
| Import.ParseFailureAborts | github/version/2/yaml_json.js:95-97 | an unparsable file below any table folder aborts the import |
| Import.MissingPagesAborts | github/version/2/yaml_json.js:31 | the import fails without a `pages` folder |
| PageImport.ReadEntry | github/version/2/yaml_json.js:19-27 | reading an entry succeeds exactly on a file that parses |
| PageImport.CollectDataFromPages | github/version/2/yaml_json.js:28-63 | refines `PagesSpec`: one page per folder of `pages`, in listing order; plain files are skipped |
| PageImport.ReadPage | github/version/2/yaml_json.js:36-57 | one page folder refines `PageOf` |
| PageImport.ReadNodes | github/version/2/yaml_json.js:46-57 | the default layout and the node files refine `WithNodes` |
| PageImport.AssignNodes | github/version/2/yaml_json.js:50-56 | the node loop refines `NodeAssignments`; on a layout that can hold no property, the first node fails |
| PageImport.Subfolders | github/version/2/yaml_json.js:34 | the entries kept are exactly the folders |
| PageImport.PageIsObject | github/version/2/yaml_json.js:36 | every page that reads is an object |
| PageImport.OnePagePerFolder | github/version/2/yaml_json.js:31-59 | the pages succeed exactly when every folder's page does; then there is one page per folder, in order |
| PageImport.AssignCopies | github/version/2/yaml_json.js:42 | `Object.assign({}, o)` copies an object with distinct keys as it is |
| PageImport.PageWithoutNodes | github/version/2/yaml_json.js:36-47 | without a nodes folder, the page is the main file's object, or `{}` when the file is missing or empty |
| PageImport.NodesReplaceLayoutNodes | github/version/2/yaml_json.js:49-56 | on an object layout, `layout.nodes` becomes the nodes read, and the other layout and page keys are kept |
| PageImport.NodeMembersOk | github/version/2/yaml_json.js:52-56 | the nodes folder reads exactly when every entry is a file that parses |
| PageImport.NodeKeys | github/version/2/yaml_json.js:53-55 | the node keys are ids recovered from file names, each once |
| PageImport.NodesLastWins | github/version/2/yaml_json.js:55 | the last file of an id decides the node; an empty document leaves the id out |
| PageImport.NodesOnlyFromFiles | github/version/2/yaml_json.js:53-55 | an id that no file stands for is no key |
| PageImport.NodeParseFailureAborts | github/version/2/yaml_json.js:54 | an unparsable node file aborts, whatever comes after it |
| PageImport.NodesAgree | github/version/2/yaml_json.js:55 | when all files of an id hold the same document, that document is the node |
| NodeNames.NodeIdRecovered | github/version/2/yaml_json.js:53 | the name `<varName>_<id>.yaml` written at json_yaml.js line 74 reads back as `<id>` when the id has no `_` and no `.yaml` |
| NodeNames.UnderscoreCutsId | github/version/2/yaml_json.js:53 | the id `a_b` reads back as `b` |
| NodeNames.NodeReadAppends | github/version/2/yaml_json.js:52-56 | the file written for a node whose id is new adds that node, without its nulls, after the others |
| NodeNames.NodesRoundTrip | github/version/2/yaml_json.js:52-56 | the files processPages wrote, listed in writing order, read back as the page's null-free nodes |
| NodeNames.NodesAnyOrder | github/version/2/yaml_json.js:52-56 | in any listing order, every node is read back under its id, and nothing else |
| NodeNames.ListedFile | github/version/2/yaml_json.js:53 | a listed file is the file of the node its name stands for |
| TokenFinding.FetchAllDataAsWritten | github/version/2/json_yaml.js:177-190 | as written the run deletes the seven folders and then stops with `ReferenceError("token")` |
| TokenFinding.TokenErasesExport | github/version/2/json_yaml.js:177-190 | as written, every file the intended export would write into its folders is missing |
| TokenFinding.DeleteFoldersWritesNothing | github/version/2/json_yaml.js:88-96 | deleting folders adds no file and changes no file it keeps |

## Left out

- The HTTP requests. Both axios calls (json_yaml.js lines 181-196, yaml_json.js lines 141-150) are outside the model. The export receives the `response.data.data.response` payload as a parameter. The import returns the body it would post. A falsy payload is `UnexpectedResponse`. The other two checks of line 193 are in that request.
- Command-line arguments, environment variables, `console` output and `process.exit`. A run that exits is an `Error` result.
- js-yaml. A file holds the value that was dumped into it. Loading returns what was dumped. `yaml.dump(undefined)` is the empty document, which loads as undefined. `sortKeys` only orders the text.
- JavaScript property order. For keys that look like integers, JavaScript puts them first, in numeric order; the model keeps insertion order for every key. When a node file loads as undefined, the model removes that node's id; in JavaScript the key stays with value undefined until JSON drops it, so a later file for the same id lands in a different position.
- `readdirSync` order. The model takes the listing order as given. Two entries of one folder with the same name cannot exist on a disk. For a tree that has them anyway, lookup finds the first.
- Paths. Paths are segment lists relative to `path.join(__dirname, '..')`, the parent of the scripts' folder, and `path.join` drops empty segments. `..`, absolute segments and `/` inside a name are not interpreted, and symbolic links are not modelled (`lstatSync`).
- ExportProperties.ExportKeepsOutside: holds only for page and record names that are plain segments. In the script a page whose `displayName` is `..` makes `path.join(pagesDir, "..")` the scripts' parent folder, so its node files and `...yaml` are written there (json_yaml.js lines 64-83). A record named `../../x` escapes the same way at line 139. The model keeps such names as single segments under their folder.
- Numbers. `JsonValues.Json` numbers are integers (`JNum(int)`). Fractions, exponents, NaN and the formatting of JavaScript's `String()` are not modelled. An environment whose `kind` is `1e21` is written to `1e+21.yaml` by the script, while `ToStr` gives the 22-digit integer, and `kind: 1.5` cannot be represented.
- UTF-16. Strings are sequences of Unicode scalar values. The regular expressions of `sanitizeFileName` (json_yaml.js lines 100-102, no `u` flag) work on UTF-16 code units, so a character outside the Basic Multilingual Plane becomes two `-` in the script and one in the model: `a😀b.png` gives `a--b` there and `a-b` here.
- The export tree `Disk.Fs` and the import tree `Tree.Item` are separate models. The round trip is proved for node files (`NodeNames`), not for a whole export followed by an import.
- NodeNames.NodeIdRecovered: node ids containing `_` or `.yaml` are not recovered. `UnderscoreCutsId` shows the cut.
- The export and the import disagree with the intended two-way design in several places:
  - a node file name keeps only the text after the last `_`;
  - a name in `filteredAppAsset` is changed by `sanitizeFileName`;
  - design routing changes the file name but not the folder;
  - `removeIds` is one level deep;
  - a record whose name is empty is written to `.yaml`, and the import skips that file, because `path.extname(".yaml")` is empty;
  - a missing `pages` folder aborts the import, although a missing table folder does not.

  The model follows the code in each.

## Findings

| source | as written | input that shows it | evidently intended | confidence | as-written member | corrected member |
|---|---|---|---|---|---|---|
| github/version/2/json_yaml.js:187 | the request headers read `token`, which json_yaml.js never declares (yaml_json.js declares it at line 12), so a ReferenceError is thrown after line 177 has deleted the seven folders and before any request is sent | any run: the catch at lines 223-226 exits with "token is not defined" | the token is taken from the environment as in yaml_json.js, and the fetched payload is written | high, not executed | TokenFinding.FetchAllDataAsWritten | Export.FetchAllData |

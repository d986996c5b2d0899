/**
 * collectAllData of yaml_json.js: the records of eleven folders, each under a fixed key, and
 * the rebuilt pages, together with the `projectId` read on the way; the body
 * updateAllDataToBackend sends.
 */
module Import {
  import opened Base
  import opened JsonValues
  import opened Text
  import opened Tree
  import opened Records
  import opened PageImport

  /** A row of the folder table (lines 108-120): where the records are and the key they go under. */
  datatype FolderConfig = FolderConfig(folderPath: Path, folderName: string)

  const FolderConfigs: seq<FolderConfig> := [
    FolderConfig(["project"], "project"),
    FolderConfig(["datasources", "rest"], "datasources"),
    FolderConfig(["datasources", "environment"], "environments"),
    FolderConfig(["components"], "components"),
    FolderConfig(["design", "font-tokens"], "typography"),
    FolderConfig(["design", "color-tokens"], "themeData"),
    FolderConfig(["design", "app-settings"], "appSettings"),
    FolderConfig(["design", "app-state"], "appState"),
    FolderConfig(["design", "app-assets"], "appAssets"),
    FolderConfig(["widgets"], "widgets"),
    FolderConfig(["functions"], "functions")
  ]

  /** The records of a folder as they travel in the request: JSON has no undefined, so an empty document is null. */
  function RecordList(docs: seq<Option<Json>>): (r: Json)
    ensures r.JArr? && |r.items| == |docs|
    ensures forall i :: 0 <= i < |docs| ==> Some(r.items[i]) == docs[i] || (docs[i].None? && r.items[i] == JNull)
  {
    JArr(seq(|docs|, i requires 0 <= i < |docs| => if docs[i].None? then JNull else docs[i].value))
  }

  /** What the loop of lines 124-126 has built: `allData` so far and `projectId`. */
  datatype Gathered = Gathered(allData: seq<Member>, projectId: Option<Json>)

  /** The folders of `configs` collected in turn; the first failure ends the import. */
  function Gather(root: Item, configs: seq<FolderConfig>, projectId: Option<Json>): Result<Gathered> {
    if configs == [] then Ok(Gathered([], projectId))
    else
      match Gather(root, configs[..|configs| - 1], projectId)
      case Err(e) => Err(e)
      case Ok(g) =>
        var config := configs[|configs| - 1];
        match Traverse(root, config.folderPath, config.folderName, g.projectId)
        case Err(e) => Err(e)
        case Ok(w) => Ok(Gathered(Put(g.allData, config.folderName, RecordList(w.collected)), w.projectId))
  }

  /** The body updateAllDataToBackend posts: `data` and `projectId`. */
  datatype Upload = Upload(data: Json, projectId: Option<Json>)

  /** collectAllData from a fresh start (`projectId` undefined), then the pages under `pages`. */
  function ImportSpec(root: Item): Result<Upload> {
    match Gather(root, FolderConfigs, None)
    case Err(e) => Err(e)
    case Ok(g) =>
      match PagesSpec(root)
      case Err(e) => Err(e)
      case Ok(pages) => Ok(Upload(JObj(Put(g.allData, "pages", JArr(pages))), g.projectId))
  }

  /** The outcome of a walk: its state, or the error that ended it. */
  function Outcome(w: Walk, err: Option<Error>): Result<Walk> {
    if err.Some? then Err(err.value) else Ok(w)
  }

  /** The module-level `projectId` of yaml_json.js, and the `dataCollection` traverseFolder pushes onto. */
  class Importer {
    var projectId: Option<Json>
    var dataCollection: seq<Option<Json>>

    constructor()
      ensures projectId == None && dataCollection == []
    {
      projectId := None;
      dataCollection := [];
    }

    function State(): Walk
      reads this
    {
      Walk(dataCollection, projectId)
    }

    /** The loop of traverseFolder (lines 74-99) over the entries of the folder at `dir`. */
    method TraverseFolder(dir: Path, entries: seq<Entry>, folderName: string) returns (err: Option<Error>)
      modifies this
      ensures Outcome(State(), err) == WalkEntries(dir, entries, folderName, old(State()))
      decreases entries
    {
      ghost var start := State();
      for i := 0 to |entries|
        invariant WalkEntries(dir, entries[..i], folderName, start) == Ok(State())
      {
        WalkEntriesStep(dir, entries, folderName, start, i, State());
        err := VisitEntry(dir, entries[i], folderName);
        if err.Some? {
          WalkEntriesStops(dir, entries, folderName, start, i + 1);
          return;
        }
      }
      assert entries[..|entries|] == entries;
      return None;
    }

    /** The body of that loop for one entry: a folder is walked in turn, a `.yaml` file visited. */
    method VisitEntry(dir: Path, file: Entry, folderName: string) returns (err: Option<Error>)
      modifies this
      ensures Outcome(State(), err) == WalkEntry(dir, file, folderName, old(State()))
      decreases file
    {
      if file.item.Folder? {
        err := TraverseFolder(dir + [file.name], file.item.entries, folderName);
      } else if Extname(file.name) == ".yaml" {
        err := VisitYamlFile(dir + [file.name], file.item.content, folderName);
      } else {
        err := None;
      }
    }

    /** Lines 83-93: parse, take `projectId` in the project folder, push. */
    method VisitYamlFile(path: Path, content: Content, folderName: string) returns (err: Option<Error>)
      modifies this
      ensures Outcome(State(), err) == VisitFile(path, content, folderName, old(State()))
    {
      if content.Malformed? {
        return Some(ParseFailure(path));
      }
      var jsonData := content.value;
      if folderName == "project" {
        var id := Read(jsonData, "projectId");
        if id.Err? {
          return Some(id.error);
        }
        projectId := id.value;
      }
      dataCollection := dataCollection + [jsonData];
      return None;
    }

    /** collectDataFromYamlFiles (lines 65-105): a fresh `dataCollection`, filled by the walk of `folderPath`. */
    method CollectDataFromYamlFiles(root: Item, folderPath: Path, folderName: string) returns (r: Result<seq<Option<Json>>>)
      modifies this
      ensures (match r case Err(e) => Err(e) case Ok(docs) => Ok(Walk(docs, projectId))) ==
        Traverse(root, folderPath, folderName, old(projectId))
    {
      dataCollection := [];
      var found := Lookup(root, folderPath);
      if found.None? {
        // "Folder not found": nothing is collected
        return Ok([]);
      }
      if found.value.File? {
        return Err(ReadFailed(folderPath));
      }
      var err := TraverseFolder(folderPath, found.value.entries, folderName);
      if err.Some? {
        return Err(err.value);
      }
      return Ok(dataCollection);
    }

    /** collectAllData (lines 107-135): one key per row of the folder table, then `pages`. */
    method CollectAllData(root: Item) returns (r: Result<Json>)
      modifies this
      ensures (match r case Err(e) => Err(e) case Ok(data) => Ok((data, projectId))) ==
        (match Gather(root, FolderConfigs, old(projectId))
         case Err(e) => Err(e)
         case Ok(g) =>
           match PagesSpec(root)
           case Err(e) => Err(e)
           case Ok(pages) => Ok((JObj(Put(g.allData, "pages", JArr(pages))), g.projectId)))
    {
      ghost var start := projectId;
      var allData: seq<Member> := [];
      for i := 0 to |FolderConfigs|
        invariant Gather(root, FolderConfigs[..i], start) == Ok(Gathered(allData, projectId))
      {
        var config := FolderConfigs[i];
        ghost var before := Gathered(allData, projectId);
        var docs := CollectDataFromYamlFiles(root, config.folderPath, config.folderName);
        GatherStep(root, FolderConfigs, start, i, before, docs, projectId);
        if docs.Err? {
          GatherStops(root, FolderConfigs, start, i + 1);
          return Err(docs.error);
        }
        allData := Put(allData, config.folderName, RecordList(docs.value));
      }
      assert FolderConfigs[..|FolderConfigs|] == FolderConfigs;
      var pages := CollectDataFromPages(root);
      if pages.Err? {
        return Err(pages.error);
      }
      allData := Put(allData, "pages", JArr(pages.value));
      return Ok(JObj(allData));
    }
  }

  /** updateAllDataToBackend without the request: what a fresh run of the import would post. */
  method UpdateAllData(root: Item) returns (r: Result<Upload>)
    ensures r == ImportSpec(root)
  {
    var importer := new Importer();
    var data := importer.CollectAllData(root);
    if data.Err? {
      return Err(data.error);
    }
    return Ok(Upload(data.value, importer.projectId));
  }

  /** One more row of the folder table collected after the first `i`. */
  lemma GatherStep(root: Item, configs: seq<FolderConfig>, start: Option<Json>, i: nat, before: Gathered,
                   docs: Result<seq<Option<Json>>>, projectId: Option<Json>)
    requires i < |configs| && Gather(root, configs[..i], start) == Ok(before)
    requires (match docs case Err(e) => Err(e) case Ok(d) => Ok(Walk(d, projectId))) ==
      Traverse(root, configs[i].folderPath, configs[i].folderName, before.projectId)
    ensures Gather(root, configs[..i + 1], start) ==
      match docs
      case Err(e) => Err(e)
      case Ok(d) => Ok(Gathered(Put(before.allData, configs[i].folderName, RecordList(d)), projectId))
  {
    assert configs[..i + 1][..i] == configs[..i];
  }

  /** A failure among the first `n` rows is the failure of the whole table. */
  lemma {:induction false} GatherStops(root: Item, configs: seq<FolderConfig>, start: Option<Json>, n: nat)
    requires n <= |configs| && Gather(root, configs[..n], start).Err?
    ensures Gather(root, configs, start) == Gather(root, configs[..n], start)
    decreases |configs| - n
  {
    if n < |configs| {
      var longer := configs[..n + 1];
      assert longer[..n] == configs[..n];
      assert Gather(root, longer, start) == Gather(root, configs[..n], start);
      GatherStops(root, configs, start, n + 1);
    } else {
      assert configs[..n] == configs;
    }
  }

  // ---- What the import sends ----

  function FolderNames(configs: seq<FolderConfig>): seq<string> {
    seq(|configs|, j requires 0 <= j < |configs| => configs[j].folderName)
  }

  function KeyList(ms: seq<Member>): seq<string> {
    seq(|ms|, j requires 0 <= j < |ms| => ms[j].key)
  }

  predicate DistinctNames(configs: seq<FolderConfig>) {
    forall i, j :: 0 <= i < j < |configs| ==> configs[i].folderName != configs[j].folderName
  }

  /** The records of folder `config`: the documents of the `.yaml` files below it. */
  function FolderRecords(root: Item, config: FolderConfig): Json {
    RecordList(Documents(FilesUnder(root, config.folderPath)))
  }

  /** One member per row of the table, in table order, holding that folder's records. */
  function Listed(root: Item, configs: seq<FolderConfig>): seq<Member> {
    seq(|configs|, j requires 0 <= j < |configs| => Member(configs[j].folderName, FolderRecords(root, configs[j])))
  }

  /** `projectId` after the rows of `configs`: each project folder sets it from its last document. */
  function ProjectIdAfter(root: Item, configs: seq<FolderConfig>, start: Option<Json>): Option<Json> {
    if configs == [] then start
    else
      var config := configs[|configs| - 1];
      var before := ProjectIdAfter(root, configs[..|configs| - 1], start);
      if config.folderName == "project" then LastProjectId(Documents(FilesUnder(root, config.folderPath)), before)
      else before
  }

  predicate AllFoldersRead(root: Item, configs: seq<FolderConfig>) {
    forall j :: 0 <= j < |configs| ==> FolderReads(root, configs[j].folderPath, configs[j].folderName)
  }

  /** The table's keys, distinct and without "pages". */
  lemma FolderTable()
    ensures FolderNames(FolderConfigs) == ["project", "datasources", "environments", "components", "typography",
      "themeData", "appSettings", "appState", "appAssets", "widgets", "functions"]
    ensures DistinctNames(FolderConfigs)
    ensures "pages" !in FolderNames(FolderConfigs)
    ensures FolderConfigs[0] == FolderConfig(["project"], "project")
    ensures forall j :: 0 < j < |FolderConfigs| ==> FolderConfigs[j].folderName != "project"
  {
  }

  /**
   * The loop of lines 124-126 over rows with distinct keys: it gets through exactly when every
   * folder reads, and then holds each folder's records under its key, in table order.
   */
  lemma {:induction false} GatherExplained(root: Item, configs: seq<FolderConfig>, start: Option<Json>)
    requires DistinctNames(configs)
    ensures Gather(root, configs, start).Ok? <==> AllFoldersRead(root, configs)
    ensures Gather(root, configs, start).Ok? ==>
      Gather(root, configs, start).value == Gathered(Listed(root, configs), ProjectIdAfter(root, configs, start))
  {
    if configs != [] {
      var init := configs[..|configs| - 1];
      var config := configs[|configs| - 1];
      assert DistinctNames(init);
      GatherExplained(root, init, start);
      AllFoldersReadSnoc(root, configs);
      assert forall j :: 0 <= j < |init| ==> init[j] == configs[j];
      GatherOneMore(root, init, config, start);
      assert configs == init + [config];
    }
  }

  lemma AllFoldersReadSnoc(root: Item, configs: seq<FolderConfig>)
    requires configs != []
    ensures var config := configs[|configs| - 1];
      AllFoldersRead(root, configs) <==> AllFoldersRead(root, configs[..|configs| - 1]) && FolderReads(root, config.folderPath, config.folderName)
  {
    var init := configs[..|configs| - 1];
    assert forall j :: 0 <= j < |init| ==> init[j] == configs[j];
  }

  /** The last row of the table, collected after the others. */
  lemma GatherOneMore(root: Item, init: seq<FolderConfig>, config: FolderConfig, start: Option<Json>)
    requires forall j :: 0 <= j < |init| ==> init[j].folderName != config.folderName
    requires Gather(root, init, start).Ok? ==>
      Gather(root, init, start).value == Gathered(Listed(root, init), ProjectIdAfter(root, init, start))
    ensures Gather(root, init + [config], start).Ok? <==>
      Gather(root, init, start).Ok? && FolderReads(root, config.folderPath, config.folderName)
    ensures Gather(root, init + [config], start).Ok? ==>
      Gather(root, init + [config], start).value == Gathered(Listed(root, init + [config]), ProjectIdAfter(root, init + [config], start))
  {
    var configs := init + [config];
    assert configs[..|init|] == init && configs[|init|] == config;
    var g := Gather(root, init, start);
    if g.Ok? {
      TraverseCollects(root, config.folderPath, config.folderName, g.value.projectId);
      if Traverse(root, config.folderPath, config.folderName, g.value.projectId).Ok? {
        OneMoreRow(root, init, config);
      }
    }
  }

  /** A row whose key the earlier rows do not use adds its member at the end. */
  lemma OneMoreRow(root: Item, init: seq<FolderConfig>, config: FolderConfig)
    requires forall j :: 0 <= j < |init| ==> init[j].folderName != config.folderName
    ensures Put(Listed(root, init), config.folderName, FolderRecords(root, config)) == Listed(root, init + [config])
  {
    var before := Listed(root, init);
    forall j | 0 <= j < |before| ensures before[j].key != config.folderName {
      assert before[j].key == init[j].folderName;
    }
    assert config.folderName !in Keys(before);
    assert forall j :: 0 <= j < |init| ==> (init + [config])[j] == init[j];
  }

  /** Only the first row is the project folder, so `projectId` is the one its last document holds. */
  lemma {:induction false} ProjectIdFromFirstRow(root: Item, configs: seq<FolderConfig>, start: Option<Json>)
    requires |configs| >= 1 && configs[0].folderName == "project"
    requires forall j :: 0 < j < |configs| ==> configs[j].folderName != "project"
    ensures ProjectIdAfter(root, configs, start) == LastProjectId(Documents(FilesUnder(root, configs[0].folderPath)), start)
  {
    if |configs| > 1 {
      var init := configs[..|configs| - 1];
      ProjectIdFromFirstRow(root, init, start);
    } else {
      assert configs[..0] == [];
    }
  }

  /**
   * Lines 107-135: the import gets through exactly when every folder of the table reads and
   * `pages` does; it then sends each folder's records under its key, the pages last, and the
   * `projectId` of the last document of the project folder.
   */
  lemma ImportExplained(root: Item)
    ensures ImportSpec(root).Ok? <==> AllFoldersRead(root, FolderConfigs) && PagesSpec(root).Ok?
    ensures ImportSpec(root).Ok? ==>
      ImportSpec(root).value == Upload(JObj(Listed(root, FolderConfigs) + [Member("pages", JArr(PagesSpec(root).value))]),
                                       LastProjectId(Documents(FilesUnder(root, ["project"])), None))
  {
    FolderTable();
    GatherExplained(root, FolderConfigs, None);
    ProjectIdFromFirstRow(root, FolderConfigs, None);
    var listed := Listed(root, FolderConfigs);
    forall j | 0 <= j < |listed| ensures listed[j].key != "pages" {
      assert listed[j].key == FolderNames(FolderConfigs)[j];
    }
    assert "pages" !in Keys(listed);
  }

  /** The keys of `data`, in order: the eleven of the folder table, then "pages". */
  lemma ImportKeys(root: Item)
    requires ImportSpec(root).Ok?
    ensures ImportSpec(root).value.data.JObj?
    ensures KeyList(ImportSpec(root).value.data.members) == ["project", "datasources", "environments", "components",
      "typography", "themeData", "appSettings", "appState", "appAssets", "widgets", "functions", "pages"]
  {
    ImportExplained(root);
    FolderTable();
    var ms := Listed(root, FolderConfigs) + [Member("pages", JArr(PagesSpec(root).value))];
    assert KeyList(ms) == FolderNames(FolderConfigs) + ["pages"];
  }

  /** Under each key are the records of its folder: an empty list when the folder is missing. */
  lemma ImportRecords(root: Item, j: nat)
    requires ImportSpec(root).Ok? && j < |FolderConfigs|
    ensures Get(ImportSpec(root).value.data.members, FolderConfigs[j].folderName) == Some(FolderRecords(root, FolderConfigs[j]))
    ensures Lookup(root, FolderConfigs[j].folderPath).None? ==> FolderRecords(root, FolderConfigs[j]) == JArr([])
  {
    ImportExplained(root);
    FolderTable();
    var ms := Listed(root, FolderConfigs) + [Member("pages", JArr(PagesSpec(root).value))];
    assert ms[j] == Member(FolderConfigs[j].folderName, FolderRecords(root, FolderConfigs[j]));
    ListedUnique(root, FolderConfigs, JArr(PagesSpec(root).value));
    GetAt(ms, j);
    if Lookup(root, FolderConfigs[j].folderPath).None? {
      assert Documents([]) == [];
    }
  }

  /** Rows with distinct keys, none of them "pages", make an object whose keys do not repeat. */
  lemma ListedUnique(root: Item, configs: seq<FolderConfig>, pages: Json)
    requires DistinctNames(configs) && "pages" !in FolderNames(configs)
    ensures Unique(Listed(root, configs) + [Member("pages", pages)])
  {
    var ms := Listed(root, configs) + [Member("pages", pages)];
    forall a, b | 0 <= a < b < |ms| ensures ms[a].key != ms[b].key {
      if b == |configs| {
        assert ms[a].key == FolderNames(configs)[a];
      }
    }
  }

  /** A `.yaml` file js-yaml cannot parse below any folder of the table aborts the whole import. */
  lemma ParseFailureAborts(root: Item, j: nat, i: nat)
    requires j < |FolderConfigs| && i < |FilesUnder(root, FolderConfigs[j].folderPath)|
    requires FilesUnder(root, FolderConfigs[j].folderPath)[i].content == Malformed
    ensures ImportSpec(root).Err?
  {
    ImportExplained(root);
    assert !Accepted(FilesUnder(root, FolderConfigs[j].folderPath)[i], FolderConfigs[j].folderName);
  }

  /** Without a `pages` folder the import fails: lines 31 and 128 list it unconditionally. */
  lemma MissingPagesAborts(root: Item)
    requires Lookup(root, PagesPath).None?
    ensures ImportSpec(root).Err?
  {
    ImportExplained(root);
  }
}

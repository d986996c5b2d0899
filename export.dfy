/**
 * The exporter of json_yaml.js: processAndSaveData, processPages, deleteFolders and the
 * dispatch of fetchAllData, once the backend's payload is at hand. Each step is first given as
 * a function from the tree before it to a `Run`, the tree after it and the error that stopped
 * the process if one did; the methods below do the same work on a `FileSystem` in place and
 * are proved to end in the state the functions describe.
 */
module Export {
  import opened Base
  import opened JsonValues
  import opened Sanitize
  import opened Disk
  import opened Naming

  /** The tree when the run ended, and the error that ended it early, if any. */
  datatype Run = Run(fs: Fs, err: Option<Error>)

  function MkdirStep(fs: Fs, p: Path): Run {
    match MkdirP(fs, p)
    case Ok(after) => Run(after, None)
    case Err(e) => Run(fs, Some(e))
  }

  function WriteStep(fs: Fs, p: Path, content: Option<Json>): Run {
    match WriteFile(fs, p, content)
    case Ok(after) => Run(after, None)
    case Err(e) => Run(fs, Some(e))
  }

  /** `removeIds` applied to a value that may be undefined (which it returns as it is). */
  function RemoveIdsOpt(data: Option<Json>, excludeProjectId: bool): Option<Json> {
    match data
    case None => None
    case Some(v) => Some(RemoveIds(v, excludeProjectId))
  }

  /** `removeNulls` applied to a value that may be undefined (which it returns as it is). */
  function WithoutNullsOpt(data: Option<Json>): Option<Json> {
    match data
    case None => None
    case Some(v) => Some(WithoutNulls(v))
  }

  // ---- processAndSaveData ----

  /** The directory processAndSaveData writes into: `<parent>/<folder>`, whatever the data. */
  function DataDir(parentFolderName: string, folderName: string): Path {
    Join(Join([], parentFolderName), folderName)
  }

  /**
   * processAndSaveData: the directory is made, the ids are stripped (keeping `projectId` for
   * the project folder only), and then a list is written one file per record while anything
   * else is written to a single file named by its markers.
   */
  function SaveData(fs: Fs, parentFolderName: string, folderName: string, data: Option<Json>, fileName: string): Run {
    var dirPath := DataDir(parentFolderName, folderName);
    var made := MkdirStep(fs, dirPath);
    if made.err.Some? then made
    else
      var cleaned := RemoveIdsOpt(data, parentFolderName == "project");
      if cleaned.Some? && cleaned.value.JArr? then SaveItems(made.fs, dirPath, folderName, cleaned.value.items, fileName)
      else
        match SingletonStem(parentFolderName, folderName, cleaned)
        case Err(e) => Run(made.fs, Some(e))
        case Ok(stem) => WriteStep(made.fs, dirPath + [stem + ".yaml"], cleaned)
  }

  /** The records of a list, written in order until one of them fails. */
  function SaveItems(fs: Fs, dirPath: Path, folderName: string, items: seq<Json>, fileName: string): Run {
    if items == [] then Run(fs, None)
    else
      var before := SaveItems(fs, dirPath, folderName, items[..|items| - 1], fileName);
      if before.err.Some? then before
      else SaveItem(before.fs, dirPath, folderName, items[|items| - 1], fileName)
  }

  /** The file of one record: `<dir>/<stem>.yaml` holding the record itself. */
  function SaveItem(fs: Fs, dirPath: Path, folderName: string, item: Json, fileName: string): Run {
    match ItemStem(item, folderName, fileName)
    case Err(e) => Run(fs, Some(e))
    case Ok(stem) => WriteStep(fs, dirPath + [stem + ".yaml"], Some(item))
  }

  // ---- processPages ----

  const PagesDir: Path := ["pages"]

  /** processPages: the pages folder is made, then every page is written; the input must be an array. */
  function PagesRun(fs: Fs, pages: Option<Json>): Run {
    var made := MkdirStep(fs, PagesDir);
    if made.err.Some? then made
    else
      match pages
      case None => Run(made.fs, Some(CannotRead("undefined", "forEach")))
      case Some(JNull) => Run(made.fs, Some(CannotRead("null", "forEach")))
      case Some(JArr(ps)) => PageList(made.fs, ps)
      case Some(_) => Run(made.fs, Some(TypeError("pages.forEach is not a function")))
  }

  function PageList(fs: Fs, pages: seq<Json>): Run {
    if pages == [] then Run(fs, None)
    else
      var before := PageList(fs, pages[..|pages| - 1]);
      if before.err.Some? then before
      else PageRun(before.fs, pages[|pages| - 1])
  }

  /** `page.displayName || page.slug || page.id`, which path.join requires to be a string. */
  function PageFolderName(page: Json): Result<string> {
    if page == JNull then Err(CannotRead("null", "displayName"))
    else
      var displayName := ReadOpt(Some(page), "displayName");
      var slug := ReadOpt(Some(page), "slug");
      var chosen := if Truthy(displayName) then displayName else if Truthy(slug) then slug else ReadOpt(Some(page), "id");
      match chosen
      case Some(JStr(s)) => Ok(s)
      case _ => Err(TypeError("The \"path\" argument must be of type string"))
  }

  /** `Object.entries(page.layout?.nodes || {})`. */
  function PageNodes(page: Json): seq<Member> {
    var nodes := ReadOpt(ReadOpt(Some(page), "layout"), "nodes");
    if Truthy(nodes) then Entries(nodes.value) else []
  }

  /** `delete pageCopy.layout.nodes` when the copy has an object as its layout. */
  function StripNodes(pageCopy: Json): Json {
    match pageCopy
    case JObj(ms) =>
      (match Get(ms, "layout")
       case Some(JObj(layout)) => JObj(Put(ms, "layout", JObj(Delete(layout, "nodes"))))
       case _ => pageCopy)
    case _ => pageCopy
  }

  /** The content of a page's main file: `removeIds` of the null-free shallow copy without its nodes. */
  function MainPage(page: Json): Json {
    RemoveIds(StripNodes(WithoutNulls(JObj(Entries(page)))), false)
  }

  /** The name of a node's file: `${nodeData.varName + "_" + nodeId}.yaml`. */
  function NodeFileName(varName: Option<Json>, nodeId: string): string {
    ToStr(varName) + "_" + nodeId + ".yaml"
  }

  /**
   * One page: `pages/<name>/nodes` is made, each node is written to its own file there, and
   * then the page itself to `pages/<name>/<name>.yaml`.
   */
  function PageRun(fs: Fs, page: Json): Run {
    match PageFolderName(page)
    case Err(e) => Run(fs, Some(e))
    case Ok(name) =>
      var pageDir := Join(PagesDir, name);
      var nodesDir := pageDir + ["nodes"];
      var made := MkdirStep(fs, nodesDir);
      if made.err.Some? then made
      else
        var written := NodeList(made.fs, nodesDir, PageNodes(page));
        if written.err.Some? then written
        else WriteStep(written.fs, pageDir + [name + ".yaml"], Some(MainPage(page)))
  }

  function NodeList(fs: Fs, nodesDir: Path, nodes: seq<Member>): Run {
    if nodes == [] then Run(fs, None)
    else
      var before := NodeList(fs, nodesDir, nodes[..|nodes| - 1]);
      if before.err.Some? then before
      else NodeRun(before.fs, nodesDir, nodes[|nodes| - 1])
  }

  /** One node: its null-free content, in a file named after its `varName` and its id. */
  function NodeRun(fs: Fs, nodesDir: Path, node: Member): Run {
    if node.value == JNull then Run(fs, Some(CannotRead("null", "varName")))
    else WriteStep(fs, nodesDir + [NodeFileName(ReadOpt(Some(node.value), "varName"), node.key)], Some(WithoutNulls(node.value)))
  }

  // ---- deleteFolders and fetchAllData ----

  /** The seven folders the export owns. */
  const TopFolders: seq<string> := ["datasources", "components", "design", "functions", "pages", "project", "widgets"]

  /** deleteFolders: every folder that exists is removed with all it holds. */
  function DeleteFolders(fs: Fs, folders: seq<string>): Fs {
    if folders == [] then fs
    else
      var before := DeleteFolders(fs, folders[..|folders| - 1]);
      var dirPath := Join([], folders[|folders| - 1]);
      if Exists(before, dirPath) then RemoveTree(before, dirPath) else before
  }

  /**
   * One call of lines 201-220: `Save(parent, folder, category, ...)` is
   * `processAndSaveData(parent, folder, payload[category])`, optionally after `removeNulls`
   * and optionally only when the category is truthy; `Pages` is `processPages(removeNulls(...))`.
   */
  datatype Step =
    | Save(parentFolderName: string, folderName: string, category: string, withoutNulls: bool, whenTruthy: bool)
    | Pages(category: string)

  /** Lines 201-220 in order. */
  const Dispatch: seq<Step> := [
    Save("datasources", "rest", "datasources", false, false),
    Save("datasources", "environment", "environments", false, false),
    Save("components", "", "components", true, false),
    Save("functions", "", "functions", false, false),
    Pages("pages"),
    Save("project", "", "project", false, false),
    Save("design", "font-tokens", "typography", false, false),
    Save("design", "color-tokens", "themeData", false, false),
    Save("design", "app-settings", "appSettings", false, false),
    Save("design", "app-state", "appState", false, true),
    Save("design", "app-assets", "filteredAppAsset", false, true),
    Save("widgets", "", "widgets", false, false)
  ]

  /** The entries of `Dispatch`, one by one. */
  lemma DispatchTable()
    ensures |Dispatch| == 12
    ensures Dispatch[0] == Save("datasources", "rest", "datasources", false, false)
    ensures Dispatch[1] == Save("datasources", "environment", "environments", false, false)
    ensures Dispatch[2] == Save("components", "", "components", true, false)
    ensures Dispatch[3] == Save("functions", "", "functions", false, false)
    ensures Dispatch[4] == Pages("pages")
    ensures Dispatch[5] == Save("project", "", "project", false, false)
    ensures Dispatch[6] == Save("design", "font-tokens", "typography", false, false)
    ensures Dispatch[7] == Save("design", "color-tokens", "themeData", false, false)
    ensures Dispatch[8] == Save("design", "app-settings", "appSettings", false, false)
    ensures Dispatch[9] == Save("design", "app-state", "appState", false, true)
    ensures Dispatch[10] == Save("design", "app-assets", "filteredAppAsset", false, true)
    ensures Dispatch[11] == Save("widgets", "", "widgets", false, false)
  {
  }

  function StepRun(fs: Fs, payload: Json, step: Step): Run {
    var value := ReadOpt(Some(payload), step.category);
    match step
    case Save(parentFolderName, folderName, _, withoutNulls, whenTruthy) =>
      if whenTruthy && !Truthy(value) then Run(fs, None)
      else SaveData(fs, parentFolderName, folderName, if withoutNulls then WithoutNullsOpt(value) else value, "default")
    case Pages(_) => PagesRun(fs, WithoutNullsOpt(value))
  }

  function Steps(fs: Fs, payload: Json, steps: seq<Step>): Run {
    if steps == [] then Run(fs, None)
    else
      var before := Steps(fs, payload, steps[..|steps| - 1]);
      if before.err.Some? then before
      else StepRun(before.fs, payload, steps[|steps| - 1])
  }

  /**
   * fetchAllData once `response.data.data.response` is known: the seven folders are cleared
   * first (line 177, before the request), a falsy payload stops the run, and otherwise the
   * categories are written in the order of `Dispatch`.
   */
  function ExportSpec(fs: Fs, payload: Option<Json>): Run {
    var cleared := DeleteFolders(fs, TopFolders);
    if !Truthy(payload) then Run(cleared, Some(UnexpectedResponse))
    else Steps(cleared, payload.value, Dispatch)
  }

  // ---- An error ends the run: later steps of a loop change nothing ----

  lemma {:induction false} SaveItemsStops(fs: Fs, dirPath: Path, folderName: string, items: seq<Json>, fileName: string, k: nat, n: nat)
    requires k <= n <= |items| && SaveItems(fs, dirPath, folderName, items[..k], fileName).err.Some?
    ensures SaveItems(fs, dirPath, folderName, items[..n], fileName) == SaveItems(fs, dirPath, folderName, items[..k], fileName)
    decreases n
  {
    if k < n {
      SaveItemsStops(fs, dirPath, folderName, items, fileName, k, n - 1);
      assert items[..n][..n - 1] == items[..n - 1];
    }
  }

  lemma {:induction false} PageListStops(fs: Fs, pages: seq<Json>, k: nat, n: nat)
    requires k <= n <= |pages| && PageList(fs, pages[..k]).err.Some?
    ensures PageList(fs, pages[..n]) == PageList(fs, pages[..k])
    decreases n
  {
    if k < n {
      PageListStops(fs, pages, k, n - 1);
      assert pages[..n][..n - 1] == pages[..n - 1];
    }
  }

  lemma {:induction false} NodeListStops(fs: Fs, nodesDir: Path, nodes: seq<Member>, k: nat, n: nat)
    requires k <= n <= |nodes| && NodeList(fs, nodesDir, nodes[..k]).err.Some?
    ensures NodeList(fs, nodesDir, nodes[..n]) == NodeList(fs, nodesDir, nodes[..k])
    decreases n
  {
    if k < n {
      NodeListStops(fs, nodesDir, nodes, k, n - 1);
      assert nodes[..n][..n - 1] == nodes[..n - 1];
    }
  }

  lemma {:induction false} StepsStop(fs: Fs, payload: Json, steps: seq<Step>, k: nat, n: nat)
    requires k <= n <= |steps| && Steps(fs, payload, steps[..k]).err.Some?
    ensures Steps(fs, payload, steps[..n]) == Steps(fs, payload, steps[..k])
    decreases n
  {
    if k < n {
      StepsStop(fs, payload, steps, k, n - 1);
      assert steps[..n][..n - 1] == steps[..n - 1];
    }
  }

  /** The run of the first `i + 1` steps, from that of the first `i`. */
  lemma StepsNext(fs: Fs, payload: Json, steps: seq<Step>, i: nat)
    requires i < |steps|
    ensures Steps(fs, payload, steps[..i + 1]) ==
      var before := Steps(fs, payload, steps[..i]);
      if before.err.Some? then before else StepRun(before.fs, payload, steps[i])
  {
    assert steps[..i + 1][..i] == steps[..i];
  }

  // ---- The exporter as it runs ----

  /** processAndSaveData (lines 106-174). */
  method ProcessAndSaveData(disk: FileSystem, parentFolderName: string, folderName: string, data: Option<Json>, fileName: string)
    returns (err: Option<Error>)
    modifies disk
    ensures Run(disk.State(), err) == SaveData(old(disk.State()), parentFolderName, folderName, data, fileName)
  {
    var dirPath := Join(Join([], parentFolderName), folderName);
    err := disk.Mkdir(dirPath);
    if err.Some? {
      return;
    }
    var cleaned;
    if parentFolderName != "project" {
      cleaned := RemoveIdsOpt(data, false);
    } else {
      cleaned := RemoveIdsOpt(data, true);
    }
    if cleaned.Some? && cleaned.value.JArr? {
      err := SaveItemsOnDisk(disk, dirPath, folderName, cleaned.value.items, fileName);
    } else {
      var stem := SingletonFileName(parentFolderName, folderName, cleaned);
      if stem.Err? {
        return Some(stem.error);
      }
      err := disk.Write(dirPath + [stem.value + ".yaml"], cleaned);
    }
  }

  /** The `data.forEach` loop of lines 120-145. */
  method SaveItemsOnDisk(disk: FileSystem, dirPath: Path, folderName: string, items: seq<Json>, fileName: string)
    returns (err: Option<Error>)
    modifies disk
    ensures Run(disk.State(), err) == SaveItems(old(disk.State()), dirPath, folderName, items, fileName)
  {
    ghost var start := disk.State();
    for i := 0 to |items|
      invariant Run(disk.State(), None) == SaveItems(start, dirPath, folderName, items[..i], fileName)
    {
      assert items[..i + 1][..i] == items[..i];
      var currentFileName := ItemFileName(items[i], folderName, fileName);
      if currentFileName.Err? {
        err := Some(currentFileName.error);
        SaveItemsStops(start, dirPath, folderName, items, fileName, i + 1, |items|);
        assert items[..|items|] == items;
        return;
      }
      err := disk.Write(dirPath + [currentFileName.value + ".yaml"], Some(items[i]));
      if err.Some? {
        SaveItemsStops(start, dirPath, folderName, items, fileName, i + 1, |items|);
        assert items[..|items|] == items;
        return;
      }
    }
    assert items[..|items|] == items;
    return None;
  }

  /** processPages (lines 59-87). */
  method ProcessPages(disk: FileSystem, pages: Option<Json>) returns (err: Option<Error>)
    modifies disk
    ensures Run(disk.State(), err) == PagesRun(old(disk.State()), pages)
  {
    err := disk.Mkdir(PagesDir);
    if err.Some? {
      return;
    }
    if pages.None? {
      return Some(CannotRead("undefined", "forEach"));
    }
    if !pages.value.JArr? {
      return Some(if pages.value == JNull then CannotRead("null", "forEach") else TypeError("pages.forEach is not a function"));
    }
    err := ProcessPageList(disk, pages.value.items);
  }

  /** `pages.forEach` (lines 63-86): the pages in order until one fails. */
  method ProcessPageList(disk: FileSystem, ps: seq<Json>) returns (err: Option<Error>)
    modifies disk
    ensures Run(disk.State(), err) == PageList(old(disk.State()), ps)
  {
    ghost var start := disk.State();
    for i := 0 to |ps|
      invariant Run(disk.State(), None) == PageList(start, ps[..i])
    {
      assert ps[..i + 1][..i] == ps[..i];
      err := ProcessPage(disk, ps[i]);
      if err.Some? {
        PageListStops(start, ps, i + 1, |ps|);
        assert ps[..|ps|] == ps;
        return;
      }
    }
    assert ps[..|ps|] == ps;
    return None;
  }

  /** The body of the `pages.forEach` callback (lines 64-83). */
  method ProcessPage(disk: FileSystem, page: Json) returns (err: Option<Error>)
    modifies disk
    ensures Run(disk.State(), err) == PageRun(old(disk.State()), page)
  {
    var pageFolderName := PageFolderName(page);
    if pageFolderName.Err? {
      return Some(pageFolderName.error);
    }
    var pageDir := Join(PagesDir, pageFolderName.value);
    var nodesDir := Join(pageDir, "nodes");
    err := disk.Mkdir(nodesDir);
    if err.Some? {
      return;
    }
    err := WriteNodes(disk, nodesDir, PageNodes(page));
    if err.Some? {
      return;
    }
    var pageCopy := WithoutNulls(JObj(Entries(page)));
    pageCopy := StripNodes(pageCopy);
    err := disk.Write(pageDir + [pageFolderName.value + ".yaml"], Some(RemoveIds(pageCopy, false)));
  }

  /** Lines 71-76: every node of the page written to its own file, until one fails. */
  method WriteNodes(disk: FileSystem, nodesDir: Path, nodes: seq<Member>) returns (err: Option<Error>)
    modifies disk
    ensures Run(disk.State(), err) == NodeList(old(disk.State()), nodesDir, nodes)
  {
    ghost var start := disk.State();
    for i := 0 to |nodes|
      invariant Run(disk.State(), None) == NodeList(start, nodesDir, nodes[..i])
    {
      assert nodes[..i + 1][..i] == nodes[..i];
      var nodeData := nodes[i].value;
      if nodeData == JNull {
        err := Some(CannotRead("null", "varName"));
        NodeListStops(start, nodesDir, nodes, i + 1, |nodes|);
        assert nodes[..|nodes|] == nodes;
        return;
      }
      var nodeYaml := Some(WithoutNulls(nodeData));
      var nodeFileName := ToStr(ReadOpt(Some(nodeData), "varName")) + "_" + nodes[i].key;
      err := disk.Write(nodesDir + [nodeFileName + ".yaml"], nodeYaml);
      if err.Some? {
        NodeListStops(start, nodesDir, nodes, i + 1, |nodes|);
        assert nodes[..|nodes|] == nodes;
        return;
      }
    }
    assert nodes[..|nodes|] == nodes;
    return None;
  }

  /** deleteFolders (lines 88-96). */
  method DeleteFoldersOnDisk(disk: FileSystem, folders: seq<string>)
    modifies disk
    ensures disk.State() == DeleteFolders(old(disk.State()), folders)
  {
    ghost var start := disk.State();
    for i := 0 to |folders|
      invariant disk.State() == DeleteFolders(start, folders[..i])
    {
      assert folders[..i + 1][..i] == folders[..i];
      var dirPath := Join([], folders[i]);
      var present := disk.Present(dirPath);
      if present {
        disk.Remove(dirPath);
      }
    }
    assert folders[..|folders|] == folders;
  }

  /**
   * The runs of every prefix of `Dispatch` from `cleared`. The trigger keeps the runs
   * themselves folded until a proof names one.
   */
  ghost predicate IsTrace(trace: seq<Run>, cleared: Fs, response: Json) {
    && |trace| == |Dispatch| + 1
    && forall k {:trigger Steps(cleared, response, Dispatch[..k])} :: 0 <= k <= |Dispatch| ==>
         trace[k] == Steps(cleared, response, Dispatch[..k])
  }

  lemma TraceExists(cleared: Fs, response: Json)
    ensures exists trace :: IsTrace(trace, cleared, response)
  {
    var trace := seq(|Dispatch| + 1, k requires 0 <= k <= |Dispatch| => Steps(cleared, response, Dispatch[..k]));
    assert IsTrace(trace, cleared, response);
  }

  /** fetchAllData (line 177, the test of line 193 and lines 199-220). */
  method FetchAllData(disk: FileSystem, payload: Option<Json>) returns (err: Option<Error>)
    modifies disk
    ensures Run(disk.State(), err) == ExportSpec(old(disk.State()), payload)
  {
    DeleteFoldersOnDisk(disk, ["datasources", "components", "design", "functions", "pages", "project", "widgets"]);
    if !Truthy(payload) {
      return Some(UnexpectedResponse);
    }
    var response := payload.value;
    ghost var cleared := disk.State();
    TraceExists(cleared, response);
    ghost var trace :| IsTrace(trace, cleared, response);
    TraceStart(trace, cleared, response);
    TraceEnd(trace, cleared, response);
    err := SaveResponse(disk, response, cleared, trace);
  }

  /** Lines 199-220: every category of the response handed to its writer, in source order. */
  method SaveResponse(disk: FileSystem, response: Json, ghost cleared: Fs, ghost trace: seq<Run>) returns (err: Option<Error>)
    requires IsTrace(trace, cleared, response) && trace[0] == Run(disk.State(), None)
    modifies disk
    ensures trace[|Dispatch|] == Run(disk.State(), err)
  {
    DispatchTable();
    err := DispatchStep(disk, response, Save("datasources", "rest", "datasources", false, false), 0, cleared, trace);
    if err.Some? {
      return;
    }
    err := DispatchStep(disk, response, Save("datasources", "environment", "environments", false, false), 1, cleared, trace);
    if err.Some? {
      return;
    }
    err := DispatchStep(disk, response, Save("components", "", "components", true, false), 2, cleared, trace);
    if err.Some? {
      return;
    }
    err := DispatchStep(disk, response, Save("functions", "", "functions", false, false), 3, cleared, trace);
    if err.Some? {
      return;
    }
    err := DispatchStep(disk, response, Pages("pages"), 4, cleared, trace);
    if err.Some? {
      return;
    }
    err := DispatchStep(disk, response, Save("project", "", "project", false, false), 5, cleared, trace);
    if err.Some? {
      return;
    }
    err := DispatchStep(disk, response, Save("design", "font-tokens", "typography", false, false), 6, cleared, trace);
    if err.Some? {
      return;
    }
    err := DispatchStep(disk, response, Save("design", "color-tokens", "themeData", false, false), 7, cleared, trace);
    if err.Some? {
      return;
    }
    err := DispatchStep(disk, response, Save("design", "app-settings", "appSettings", false, false), 8, cleared, trace);
    if err.Some? {
      return;
    }
    err := DispatchStep(disk, response, Save("design", "app-state", "appState", false, true), 9, cleared, trace);
    if err.Some? {
      return;
    }
    err := DispatchStep(disk, response, Save("design", "app-assets", "filteredAppAsset", false, true), 10, cleared, trace);
    if err.Some? {
      return;
    }
    err := DispatchStep(disk, response, Save("widgets", "", "widgets", false, false), 11, cleared, trace);
  }

  lemma TraceStart(trace: seq<Run>, cleared: Fs, response: Json)
    requires IsTrace(trace, cleared, response)
    ensures trace[0] == Run(cleared, None)
  {
    assert Steps(cleared, response, Dispatch[..0]) == Run(cleared, None);
  }

  lemma TraceEnd(trace: seq<Run>, cleared: Fs, response: Json)
    requires IsTrace(trace, cleared, response)
    ensures trace[|Dispatch|] == Steps(cleared, response, Dispatch)
  {
    assert Dispatch[..|Dispatch|] == Dispatch;
    assert trace[|Dispatch|] == Steps(cleared, response, Dispatch[..|Dispatch|]);
  }

  /** Step `i` of the dispatch, run on the tree the steps before it left; a failure ends the dispatch. */
  method DispatchStep(disk: FileSystem, response: Json, step: Step, ghost i: nat, ghost cleared: Fs, ghost trace: seq<Run>)
    returns (err: Option<Error>)
    requires IsTrace(trace, cleared, response)
    requires i < |Dispatch| && step == Dispatch[i] && trace[i] == Run(disk.State(), None)
    modifies disk
    ensures trace[i + 1] == Run(disk.State(), err)
    ensures err.Some? ==> trace[|Dispatch|] == Run(disk.State(), err)
  {
    ghost var before := disk.State();
    err := CallStep(disk, response, step);
    assert trace[i] == Steps(cleared, response, Dispatch[..i]);
    Advance(cleared, response, i, |Dispatch|, before, Run(disk.State(), err));
    assert trace[i + 1] == Steps(cleared, response, Dispatch[..i + 1]);
    assert trace[|Dispatch|] == Steps(cleared, response, Dispatch[..|Dispatch|]);
  }

  /**
   * One line of 201-220: `processAndSaveData(parent, folder, value)`, with `removeNulls` first
   * for components, and only for a truthy value for app-state and app-assets; or `processPages`.
   */
  method CallStep(disk: FileSystem, response: Json, step: Step) returns (err: Option<Error>)
    modifies disk
    ensures Run(disk.State(), err) == StepRun(old(disk.State()), response, step)
  {
    var value := ReadOpt(Some(response), step.category);
    match step
    case Save(parentFolderName, folderName, _, withoutNulls, whenTruthy) =>
      if whenTruthy && !Truthy(value) {
        return None;
      }
      err := ProcessAndSaveData(disk, parentFolderName, folderName, if withoutNulls then WithoutNullsOpt(value) else value, "default");
    case Pages(_) =>
      err := ProcessPages(disk, WithoutNullsOpt(value));
  }

  /** The run of steps `0..i` followed by step `i`; once a step fails, the steps up to `n` end there. */
  lemma Advance(cleared: Fs, response: Json, i: nat, n: nat, before: Fs, after: Run)
    requires i < n <= |Dispatch| && Steps(cleared, response, Dispatch[..i]) == Run(before, None)
    requires after == StepRun(before, response, Dispatch[i])
    ensures Steps(cleared, response, Dispatch[..i + 1]) == after
    ensures (after.err.Some? || i + 1 == n) ==> Steps(cleared, response, Dispatch[..n]) == after
  {
    StepsNext(cleared, response, Dispatch, i);
    if after.err.Some? {
      StepsStop(cleared, response, Dispatch, i + 1, n);
    }
  }
}

/**
 * collectDataFromPages of yaml_json.js: every folder under `pages` becomes one page, built
 * from the folder's main file and, when the folder has a `nodes` folder, from one file per
 * node whose id is recovered from the file's name.
 */
module PageImport {
  import opened Base
  import opened JsonValues
  import opened Text
  import opened Tree

  /** Line 53: `nodeFile.split("_").slice(-1)[0].replace('.yaml', '')`. */
  function NodeIdOf(nodeFile: string): string {
    RemoveFirst(AfterLast(nodeFile, '_'), ".yaml")
  }

  /** `readYamlFile` on an entry of the folder at `dir`. */
  function ReadEntry(dir: Path, entry: Entry): (r: Result<Option<Json>>)
    ensures r.Ok? <==> entry.item.File? && entry.item.content.Yaml?
  {
    match entry.item
    case File(Yaml(v)) => Ok(v)
    case File(Malformed) => Err(ParseFailure(dir + [entry.name]))
    case Folder(_) => Err(ReadFailed(dir + [entry.name]))
  }

  /** `Object.assign(page, ...)` of the members `ms`, one assignment after the other. */
  function Assign(page: seq<Member>, ms: seq<Member>): seq<Member> {
    if ms == [] then page
    else Put(Assign(page, ms[..|ms| - 1]), ms[|ms| - 1].key, ms[|ms| - 1].value)
  }

  /** The members `Object.assign` copies out of a document: none from undefined. */
  function Source(v: Option<Json>): seq<Member> {
    match v
    case None => []
    case Some(j) => Entries(j)
  }

  /**
   * `page.layout.nodes[nodeId] = nodeData` for each node file in listing order, starting from
   * `{}`. A file whose document is empty assigns undefined, which leaves no member.
   */
  function NodeMembers(nodesDir: Path, files: seq<Entry>): Result<seq<Member>> {
    if files == [] then Ok([])
    else
      match NodeMembers(nodesDir, files[..|files| - 1])
      case Err(e) => Err(e)
      case Ok(nodes) =>
        var file := files[|files| - 1];
        match ReadEntry(nodesDir, file)
        case Err(e) => Err(e)
        case Ok(nodeData) =>
          var nodeId := NodeIdOf(file.name);
          Ok(if nodeData.None? then Delete(nodes, nodeId) else Put(nodes, nodeId, nodeData.value))
  }

  /** The TypeError of assigning property `k` of undefined. */
  function CannotSet(k: string): Error {
    TypeError("Cannot set properties of undefined (setting '" + k + "')")
  }

  /**
   * The node files assigned into `page.layout.nodes`. On an object or an array (`settable`)
   * every file is read and assigned in turn; on any other value `page.layout.nodes` is
   * undefined, so the first file is read and assigning its node fails.
   */
  function NodeAssignments(nodesDir: Path, files: seq<Entry>, settable: bool): Result<seq<Member>> {
    if settable then NodeMembers(nodesDir, files)
    else if files == [] then Ok([])
    else
      match ReadEntry(nodesDir, files[0])
      case Err(e) => Err(e)
      case Ok(_) => Err(CannotSet(NodeIdOf(files[0].name)))
  }

  /** `page.layout || {}`. */
  function LayoutOf(page: seq<Member>): Json {
    var current := Get(page, "layout");
    if Truthy(current) then current.value else JObj([])
  }

  /**
   * Lines 48-56 on a page read from its main file: `layout` defaults to `{}` and an object
   * layout gets `nodes` from the node files; the assignments into an array layout are not
   * part of its JSON.
   */
  function WithNodes(nodesDir: Path, page: seq<Member>, files: seq<Entry>): Result<Json> {
    var layout := LayoutOf(page);
    var withLayout := Put(page, "layout", layout);
    match NodeAssignments(nodesDir, files, layout.JObj? || layout.JArr?)
    case Err(e) => Err(e)
    case Ok(nodes) =>
      if layout.JObj? then Ok(JObj(Put(withLayout, "layout", JObj(Put(layout.members, "nodes", JObj(nodes))))))
      else Ok(JObj(withLayout))
  }

  /** The main file `<folder>.yaml`, when there is one, assigned onto `{}` (lines 36-43). */
  function MainMembers(pageDir: Path, folder: string, entries: seq<Entry>): Result<seq<Member>> {
    match Find(entries, folder + ".yaml")
    case None => Ok([])
    case Some(item) =>
      match ReadEntry(pageDir, Entry(folder + ".yaml", item))
      case Err(e) => Err(e)
      case Ok(v) => Ok(Assign([], Source(v)))
  }

  /** One page folder (lines 33-59). */
  function PageOf(pageDir: Path, folder: string, entries: seq<Entry>): Result<Json> {
    match MainMembers(pageDir, folder, entries)
    case Err(e) => Err(e)
    case Ok(page) =>
      match Find(entries, "nodes")
      case Some(Folder(files)) => WithNodes(pageDir + ["nodes"], page, files)
      case _ => Ok(JObj(page))
  }

  /** The pages of the entries of `pages`, in listing order; entries that are files are skipped. */
  function PageList(pagesDir: Path, entries: seq<Entry>): Result<seq<Json>> {
    if entries == [] then Ok([])
    else
      match PageList(pagesDir, entries[..|entries| - 1])
      case Err(e) => Err(e)
      case Ok(pages) =>
        var entry := entries[|entries| - 1];
        match entry.item
        case File(_) => Ok(pages)
        case Folder(children) =>
          match PageOf(pagesDir + [entry.name], entry.name, children)
          case Err(e) => Err(e)
          case Ok(page) => Ok(pages + [page])
  }

  const PagesPath: Path := ["pages"]

  /** collectDataFromPages: `readdirSync` of a missing `pages` folder, or of a file, fails. */
  function PagesSpec(root: Item): Result<seq<Json>> {
    match Lookup(root, PagesPath)
    case Some(Folder(entries)) => PageList(PagesPath, entries)
    case _ => Err(ReadFailed(PagesPath))
  }

  // ---- The reading loops ----

  /** collectDataFromPages (lines 28-63): one page per folder under `pages`, in listing order. */
  method CollectDataFromPages(root: Item) returns (r: Result<seq<Json>>)
    ensures r == PagesSpec(root)
  {
    var listing := Lookup(root, PagesPath);
    if !(listing.Some? && listing.value.Folder?) {
      return Err(ReadFailed(PagesPath));
    }
    var pageFolders := listing.value.entries;
    var pages: seq<Json> := [];
    for i := 0 to |pageFolders|
      invariant PageList(PagesPath, pageFolders[..i]) == Ok(pages)
    {
      var folder := pageFolders[i];
      if folder.item.File? {
        PageListStep(PagesPath, pageFolders, i, pages, Ok(JNull));
        continue;
      }
      var page := ReadPage(PagesPath + [folder.name], folder.name, folder.item.entries);
      PageListStep(PagesPath, pageFolders, i, pages, page);
      if page.Err? {
        PageListStops(PagesPath, pageFolders, i + 1);
        return Err(page.error);
      }
      pages := pages + [page.value];
    }
    assert pageFolders[..|pageFolders|] == pageFolders;
    return Ok(pages);
  }

  /** Lines 36-57 for the page folder at `pageDir`, whose entries are `files`. */
  method ReadPage(pageDir: Path, folder: string, files: seq<Entry>) returns (r: Result<Json>)
    ensures r == PageOf(pageDir, folder, files)
  {
    var page: seq<Member> := [];
    var mainYamlFile := Find(files, folder + ".yaml");
    if mainYamlFile.Some? {
      var content :- ReadEntry(pageDir, Entry(folder + ".yaml", mainYamlFile.value));
      page := Assign(page, Source(content));
    }
    var nodesPath := Find(files, "nodes");
    if nodesPath.Some? && nodesPath.value.Folder? {
      r := ReadNodes(pageDir + ["nodes"], page, nodesPath.value.entries);
    } else {
      r := Ok(JObj(page));
    }
  }

  /** Lines 48-56: `layout` defaulted, its `nodes` reset, then one assignment per node file. */
  method ReadNodes(nodesDir: Path, page: seq<Member>, nodeFiles: seq<Entry>) returns (r: Result<Json>)
    ensures r == WithNodes(nodesDir, page, nodeFiles)
  {
    var layout := LayoutOf(page);
    var withLayout := Put(page, "layout", layout);
    var nodes :- AssignNodes(nodesDir, nodeFiles, layout.JObj? || layout.JArr?);
    if layout.JObj? {
      return Ok(JObj(Put(withLayout, "layout", JObj(Put(layout.members, "nodes", JObj(nodes))))));
    }
    return Ok(JObj(withLayout));
  }

  /** Lines 50-56: the loop over the node files, into `page.layout.nodes` when it can hold them. */
  method AssignNodes(nodesDir: Path, nodeFiles: seq<Entry>, settable: bool) returns (r: Result<seq<Member>>)
    ensures r == NodeAssignments(nodesDir, nodeFiles, settable)
  {
    var nodes: seq<Member> := [];
    for i := 0 to |nodeFiles|
      invariant NodeMembers(nodesDir, nodeFiles[..i]) == Ok(nodes)
      invariant !settable ==> i == 0
    {
      assert nodeFiles[..i + 1][..i] == nodeFiles[..i];
      var nodeId := NodeIdOf(nodeFiles[i].name);
      var nodeData := ReadEntry(nodesDir, nodeFiles[i]);
      if nodeData.Err? {
        if settable {
          NodeMembersStops(nodesDir, nodeFiles, i + 1);
        }
        return Err(nodeData.error);
      }
      if !settable {
        return Err(CannotSet(nodeId));
      }
      nodes := if nodeData.value.None? then Delete(nodes, nodeId) else Put(nodes, nodeId, nodeData.value.value);
    }
    assert nodeFiles[..|nodeFiles|] == nodeFiles;
    return Ok(nodes);
  }

  /** One more entry of `pages`: a file adds nothing, a folder adds its page or fails with it. */
  lemma PageListStep(pagesDir: Path, entries: seq<Entry>, i: nat, pages: seq<Json>, page: Result<Json>)
    requires i < |entries| && PageList(pagesDir, entries[..i]) == Ok(pages)
    requires entries[i].item.Folder? ==> page == PageOf(pagesDir + [entries[i].name], entries[i].name, entries[i].item.entries)
    ensures PageList(pagesDir, entries[..i + 1]) ==
      if entries[i].item.File? then Ok(pages)
      else if page.Err? then Err(page.error)
      else Ok(pages + [page.value])
  {
    assert entries[..i + 1][..i] == entries[..i];
  }

  /** A failure among the first `n` page folders is the failure of the whole listing. */
  lemma {:induction false} PageListStops(pagesDir: Path, entries: seq<Entry>, n: nat)
    requires n <= |entries| && PageList(pagesDir, entries[..n]).Err?
    ensures PageList(pagesDir, entries) == PageList(pagesDir, entries[..n])
    decreases |entries| - n
  {
    if n < |entries| {
      var longer := entries[..n + 1];
      assert longer[..n] == entries[..n];
      assert PageList(pagesDir, longer) == PageList(pagesDir, entries[..n]);
      PageListStops(pagesDir, entries, n + 1);
    } else {
      assert entries[..n] == entries;
    }
  }

  /** A failure among the first `n` node files is the failure of the whole folder. */
  lemma {:induction false} NodeMembersStops(nodesDir: Path, files: seq<Entry>, n: nat)
    requires n <= |files| && NodeMembers(nodesDir, files[..n]).Err?
    ensures NodeMembers(nodesDir, files) == NodeMembers(nodesDir, files[..n])
    decreases |files| - n
  {
    if n < |files| {
      var longer := files[..n + 1];
      assert longer[..n] == files[..n];
      assert NodeMembers(nodesDir, longer) == NodeMembers(nodesDir, files[..n]);
      NodeMembersStops(nodesDir, files, n + 1);
    } else {
      assert files[..n] == files;
    }
  }

  // ---- Properties of the rebuilt pages ----

  /** The folders among the entries of `pages`, in listing order. */
  function Subfolders(entries: seq<Entry>): (r: seq<Entry>)
    ensures forall e :: e in r <==> e in entries && e.item.Folder?
  {
    if entries == [] then []
    else
      var init := entries[..|entries| - 1];
      var last := entries[|entries| - 1];
      assert entries == init + [last];
      Subfolders(init) + if last.item.Folder? then [last] else []
  }

  /** The page a folder entry of `pages` becomes. */
  function FolderPage(pagesDir: Path, e: Entry): Result<Json>
    requires e.item.Folder?
  {
    PageOf(pagesDir + [e.name], e.name, e.item.entries)
  }

  /** Every page that can be read is an object. */
  lemma PageIsObject(pageDir: Path, folder: string, entries: seq<Entry>)
    ensures PageOf(pageDir, folder, entries).Ok? ==> PageOf(pageDir, folder, entries).value.JObj?
  {
  }

  /**
   * Lines 31-34 and 59: the pages are those of the folders of `pages`, one each and in
   * listing order, and the import gets past `pages` exactly when every folder reads.
   */
  lemma {:induction false} OnePagePerFolder(pagesDir: Path, entries: seq<Entry>)
    ensures var folders := Subfolders(entries);
      PageList(pagesDir, entries).Ok? <==> forall j :: 0 <= j < |folders| ==> FolderPage(pagesDir, folders[j]).Ok?
    ensures var folders := Subfolders(entries);
      PageList(pagesDir, entries).Ok? ==>
        && |PageList(pagesDir, entries).value| == |folders|
        && forall j :: 0 <= j < |folders| ==> PageList(pagesDir, entries).value[j] == FolderPage(pagesDir, folders[j]).value
  {
    if entries != [] {
      var init := entries[..|entries| - 1];
      var last := entries[|entries| - 1];
      OnePagePerFolder(pagesDir, init);
      var before := Subfolders(init);
      if last.item.Folder? {
        assert Subfolders(entries) == before + [last];
        assert PageList(pagesDir, entries) ==
          match PageList(pagesDir, init)
          case Err(e) => Err(e)
          case Ok(pages) => (match FolderPage(pagesDir, last) case Err(e) => Err(e) case Ok(page) => Ok(pages + [page]));
        OneMoreFolder(pagesDir, before, last, PageList(pagesDir, init), PageList(pagesDir, entries));
      } else {
        assert Subfolders(entries) == before;
        assert PageList(pagesDir, entries) == PageList(pagesDir, init);
      }
    }
  }

  /** One more folder of `pages` adds its page after the others, or fails with it. */
  lemma OneMoreFolder(pagesDir: Path, before: seq<Entry>, last: Entry, r0: Result<seq<Json>>, r: Result<seq<Json>>)
    requires last.item.Folder? && forall j :: 0 <= j < |before| ==> before[j].item.Folder?
    requires r0.Ok? <==> forall j :: 0 <= j < |before| ==> FolderPage(pagesDir, before[j]).Ok?
    requires r0.Ok? ==> |r0.value| == |before| && forall j :: 0 <= j < |before| ==> r0.value[j] == FolderPage(pagesDir, before[j]).value
    requires r == match r0
      case Err(e) => Err(e)
      case Ok(pages) => (match FolderPage(pagesDir, last) case Err(e) => Err(e) case Ok(page) => Ok(pages + [page]))
    ensures var folders := before + [last];
      && (r.Ok? <==> forall j :: 0 <= j < |folders| ==> FolderPage(pagesDir, folders[j]).Ok?)
      && (r.Ok? ==> |r.value| == |folders| && forall j :: 0 <= j < |folders| ==> r.value[j] == FolderPage(pagesDir, folders[j]).value)
  {
    var folders := before + [last];
    assert forall j :: 0 <= j < |before| ==> folders[j] == before[j];
    assert folders[|before|] == last;
  }

  /** `Object.assign({}, o)` copies an object whose keys do not repeat as it is. */
  lemma {:induction false} AssignCopies(ms: seq<Member>)
    requires Unique(ms)
    ensures Assign([], ms) == ms
  {
    if ms != [] {
      var init := ms[..|ms| - 1];
      var last := ms[|ms| - 1];
      assert Unique(init);
      AssignCopies(init);
      forall j | 0 <= j < |init| ensures init[j].key != last.key {
        assert init[j] == ms[j];
      }
      assert last.key !in Keys(init);
      assert init + [last] == ms;
    }
  }

  /**
   * Lines 36-47 without a `nodes` folder: the page is the main file's object, `{}` when the
   * file is absent or empty, and nothing is added to it.
   */
  lemma PageWithoutNodes(pageDir: Path, folder: string, entries: seq<Entry>)
    requires !(Find(entries, "nodes").Some? && Find(entries, "nodes").value.Folder?)
    ensures Find(entries, folder + ".yaml").None? ==> PageOf(pageDir, folder, entries) == Ok(JObj([]))
    ensures Find(entries, folder + ".yaml") == Some(File(Yaml(None))) ==> PageOf(pageDir, folder, entries) == Ok(JObj([]))
    ensures forall ms :: Find(entries, folder + ".yaml") == Some(File(Yaml(Some(JObj(ms))))) && Unique(ms) ==>
      PageOf(pageDir, folder, entries) == Ok(JObj(ms))
  {
    forall ms | Find(entries, folder + ".yaml") == Some(File(Yaml(Some(JObj(ms))))) && Unique(ms)
      ensures PageOf(pageDir, folder, entries) == Ok(JObj(ms))
    {
      AssignCopies(ms);
    }
  }

  /**
   * Lines 49-56 on an object layout `lms` (the main file's, or `{}`): `layout.nodes` is
   * replaced by the nodes read from the files, the other members of `layout` and of the page
   * are kept.
   */
  lemma NodesReplaceLayoutNodes(nodesDir: Path, page: seq<Member>, files: seq<Entry>, nodes: seq<Member>, lms: seq<Member>)
    requires NodeMembers(nodesDir, files) == Ok(nodes)
    requires LayoutOf(page) == JObj(lms)
    ensures WithNodes(nodesDir, page, files).Ok? && WithNodes(nodesDir, page, files).value.JObj?
    ensures var out := WithNodes(nodesDir, page, files).value.members;
      && (forall k :: k != "layout" ==> Get(out, k) == Get(page, k))
      && Get(out, "layout") == Some(JObj(Put(lms, "nodes", JObj(nodes))))
    ensures Get(Put(lms, "nodes", JObj(nodes)), "nodes") == Some(JObj(nodes))
    ensures forall k :: k != "nodes" ==> Get(Put(lms, "nodes", JObj(nodes)), k) == Get(lms, k)
  {
    var withLayout := Put(page, "layout", JObj(lms));
    var layout' := JObj(Put(lms, "nodes", JObj(nodes)));
    var out := Put(withLayout, "layout", layout');
    assert WithNodes(nodesDir, page, files) == Ok(JObj(out));
    GetPutSame(withLayout, "layout", layout');
    GetPutSame(lms, "nodes", JObj(nodes));
    forall k | k != "layout" ensures Get(out, k) == Get(page, k) {
      GetPutOther(withLayout, "layout", layout', k);
      GetPutOther(page, "layout", JObj(lms), k);
    }
    forall k | k != "nodes" ensures Get(Put(lms, "nodes", JObj(nodes)), k) == Get(lms, k) {
      GetPutOther(lms, "nodes", JObj(nodes), k);
    }
  }

  /** The node ids the files of a `nodes` folder stand for. */
  function NodeIds(files: seq<Entry>): set<string> {
    set f | f in files :: NodeIdOf(f.name)
  }

  /** Reading one more node file succeeds exactly when the folder so far and that file read. */
  lemma NodeSnocOk(nodesDir: Path, init: seq<Entry>, file: Entry)
    ensures NodeMembers(nodesDir, init + [file]).Ok? <==> NodeMembers(nodesDir, init).Ok? && ReadEntry(nodesDir, file).Ok?
  {
    assert (init + [file])[..|init|] == init;
  }

  /** One more node file read as `v` deletes or sets the node of its id. */
  lemma NodeSnocValue(nodesDir: Path, init: seq<Entry>, file: Entry, v: Option<Json>)
    requires NodeMembers(nodesDir, init).Ok? && ReadEntry(nodesDir, file) == Ok(v)
    ensures var before := NodeMembers(nodesDir, init).value;
      NodeMembers(nodesDir, init + [file]) ==
        Ok(if v.None? then Delete(before, NodeIdOf(file.name)) else Put(before, NodeIdOf(file.name), v.value))
  {
    assert (init + [file])[..|init|] == init;
  }

  /** The nodes folder reads exactly when every entry is one file js-yaml parses. */
  lemma {:induction false} NodeMembersOk(nodesDir: Path, files: seq<Entry>)
    ensures NodeMembers(nodesDir, files).Ok? <==>
      forall i :: 0 <= i < |files| ==> files[i].item.File? && files[i].item.content.Yaml?
  {
    if files != [] {
      var init := files[..|files| - 1];
      var file := files[|files| - 1];
      NodeMembersOk(nodesDir, init);
      assert files == init + [file];
      NodeSnocOk(nodesDir, init, file);
      assert forall i :: 0 <= i < |init| ==> init[i] == files[i];
    }
  }

  /** The keys of `layout.nodes` are recovered ids, each once. */
  lemma {:induction false} NodeKeys(nodesDir: Path, files: seq<Entry>)
    requires NodeMembers(nodesDir, files).Ok?
    ensures Keys(NodeMembers(nodesDir, files).value) <= NodeIds(files)
    ensures Unique(NodeMembers(nodesDir, files).value)
  {
    if files != [] {
      var init := files[..|files| - 1];
      var file := files[|files| - 1];
      assert files == init + [file];
      NodeSnocOk(nodesDir, init, file);
      NodeKeys(nodesDir, init);
      var before := NodeMembers(nodesDir, init).value;
      var id := NodeIdOf(file.name);
      var v := ReadEntry(nodesDir, file).value;
      NodeSnocValue(nodesDir, init, file, v);
      assert NodeIds(files) == NodeIds(init) + {id};
      if v.None? {
        DeleteMembers(before, id);
        forall k | k in Keys(Delete(before, id)) ensures k in Keys(before) {
          var m :| m in Delete(before, id) && m.key == k;
        }
      } else {
        GetPutSame(before, id, v.value);
        PutUnique(before, id, v.value);
      }
    }
  }

  /**
   * Line 55: the last file standing for an id decides that node, an empty document leaving
   * the id out.
   */
  lemma {:induction false} NodesLastWins(nodesDir: Path, files: seq<Entry>, i: nat, d: Option<Json>)
    requires NodeMembers(nodesDir, files).Ok?
    requires i < |files| && files[i].item == File(Yaml(d))
    requires forall j :: i < j < |files| ==> NodeIdOf(files[j].name) != NodeIdOf(files[i].name)
    ensures Get(NodeMembers(nodesDir, files).value, NodeIdOf(files[i].name)) == d
  {
    var init := files[..|files| - 1];
    var file := files[|files| - 1];
    assert files == init + [file];
    NodeSnocOk(nodesDir, init, file);
    var before := NodeMembers(nodesDir, init).value;
    var k := NodeIdOf(files[i].name);
    var id := NodeIdOf(file.name);
    var v := ReadEntry(nodesDir, file).value;
    NodeSnocValue(nodesDir, init, file, v);
    if v.None? {
      GetDelete(before, id, k);
    } else if id == k {
      GetPutSame(before, id, v.value);
    } else {
      GetPutOther(before, id, v.value, k);
    }
    if i < |files| - 1 {
      assert init[i] == files[i];
      NodesLastWins(nodesDir, init, i, d);
    }
  }

  /** An id no file stands for is no key of `layout.nodes`. */
  lemma NodesOnlyFromFiles(nodesDir: Path, files: seq<Entry>, k: string)
    requires NodeMembers(nodesDir, files).Ok?
    requires forall i :: 0 <= i < |files| ==> NodeIdOf(files[i].name) != k
    ensures Get(NodeMembers(nodesDir, files).value, k).None?
  {
    NodeKeys(nodesDir, files);
    forall f | f in files ensures NodeIdOf(f.name) != k {
      var i :| 0 <= i < |files| && files[i] == f;
    }
    assert k !in Keys(NodeMembers(nodesDir, files).value);
  }

  /** A node file js-yaml cannot parse aborts the page, whatever comes after it. */
  lemma NodeParseFailureAborts(nodesDir: Path, files: seq<Entry>, i: nat)
    requires i < |files| && files[i].item == File(Malformed)
    ensures NodeMembers(nodesDir, files).Err?
  {
    NodeMembersOk(nodesDir, files);
  }

  /** When every file standing for an id holds the same document, that document is the node. */
  lemma {:induction false} NodesAgree(nodesDir: Path, files: seq<Entry>, p: nat, d: Option<Json>)
    requires NodeMembers(nodesDir, files).Ok? && p < |files|
    requires forall q :: 0 <= q < |files| && NodeIdOf(files[q].name) == NodeIdOf(files[p].name) ==> files[q].item == File(Yaml(d))
    ensures Get(NodeMembers(nodesDir, files).value, NodeIdOf(files[p].name)) == d
  {
    var k := NodeIdOf(files[p].name);
    var n := |files| - 1;
    if NodeIdOf(files[n].name) == k {
      NodesLastWins(nodesDir, files, n, d);
    } else {
      var init := files[..n];
      var file := files[n];
      assert files == init + [file];
      NodeSnocOk(nodesDir, init, file);
      assert init[p] == files[p];
      assert forall q :: 0 <= q < |init| ==> init[q] == files[q];
      NodesAgree(nodesDir, init, p, d);
      var before := NodeMembers(nodesDir, init).value;
      var v := ReadEntry(nodesDir, file).value;
      var id := NodeIdOf(file.name);
      NodeSnocValue(nodesDir, init, file, v);
      if v.None? {
        GetDelete(before, id, k);
      } else {
        GetPutOther(before, id, v.value, k);
      }
    }
  }
}

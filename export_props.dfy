/**
 * What the exporter's runs do to the tree: the seven folders are emptied before anything is
 * written, nothing outside them changes, the records lose their id keys, and every record and
 * node ends up in its own file, a later file of the same name replacing an earlier one.
 */
module ExportProperties {
  import opened Base
  import opened JsonValues
  import opened Sanitize
  import opened Disk
  import opened Naming
  import opened Export
  import NodeNames

  // ---- Footprint: only the seven folders change ----

  /** `q` lies in none of the top-level folders `tops`. */
  ghost predicate Outside(q: Path, tops: seq<string>) {
    forall i :: 0 <= i < |tops| ==> !Under(q, [tops[i]])
  }

  /** `b` holds the same files as `a` outside the folders `tops`. */
  ghost predicate Kept(a: Fs, b: Fs, tops: seq<string>) {
    forall q :: Outside(q, tops) ==> (q in b.files <==> q in a.files) && (q in a.files ==> b.files[q] == a.files[q])
  }

  lemma KeptTrans(a: Fs, b: Fs, c: Fs, tops: seq<string>)
    requires Kept(a, b, tops) && Kept(b, c, tops)
    ensures Kept(a, c, tops)
  {
  }

  /** A write inside one of the folders keeps the rest. */
  lemma WriteKept(fs: Fs, p: Path, content: Option<Json>, tops: seq<string>)
    requires p != [] && p[0] in tops
    ensures Kept(fs, WriteStep(fs, p, content).fs, tops)
  {
    var i :| 0 <= i < |tops| && tops[i] == p[0];
    assert Under(p, [tops[i]]);
  }

  /** Making directories changes no file. */
  lemma MkdirKept(fs: Fs, p: Path, tops: seq<string>)
    ensures Kept(fs, MkdirStep(fs, p).fs, tops)
  {
  }

  lemma {:induction false} SaveItemsKept(fs: Fs, dirPath: Path, folderName: string, items: seq<Json>, fileName: string, tops: seq<string>)
    requires dirPath != [] && dirPath[0] in tops
    ensures Kept(fs, SaveItems(fs, dirPath, folderName, items, fileName).fs, tops)
  {
    if items != [] {
      var init := items[..|items| - 1];
      SaveItemsKept(fs, dirPath, folderName, init, fileName, tops);
      var before := SaveItems(fs, dirPath, folderName, init, fileName);
      if before.err.None? {
        var item := items[|items| - 1];
        match ItemStem(item, folderName, fileName) {
          case Err(_) =>
          case Ok(stem) =>
            WriteKept(before.fs, dirPath + [stem + ".yaml"], Some(item), tops);
            KeptTrans(fs, before.fs, SaveItem(before.fs, dirPath, folderName, item, fileName).fs, tops);
        }
      }
    }
  }

  /** processAndSaveData writes inside `<parent>` only. */
  lemma SaveDataKept(fs: Fs, parentFolderName: string, folderName: string, data: Option<Json>, fileName: string, tops: seq<string>)
    requires parentFolderName != "" && parentFolderName in tops
    ensures Kept(fs, SaveData(fs, parentFolderName, folderName, data, fileName).fs, tops)
  {
    var dirPath := DataDir(parentFolderName, folderName);
    assert dirPath != [] && dirPath[0] == parentFolderName;
    var made := MkdirStep(fs, dirPath);
    MkdirKept(fs, dirPath, tops);
    if made.err.None? {
      var cleaned := RemoveIdsOpt(data, parentFolderName == "project");
      if cleaned.Some? && cleaned.value.JArr? {
        SaveItemsKept(made.fs, dirPath, folderName, cleaned.value.items, fileName, tops);
      } else if SingletonStem(parentFolderName, folderName, cleaned).Ok? {
        var stem := SingletonStem(parentFolderName, folderName, cleaned).value;
        WriteKept(made.fs, dirPath + [stem + ".yaml"], cleaned, tops);
      }
      KeptTrans(fs, made.fs, SaveData(fs, parentFolderName, folderName, data, fileName).fs, tops);
    }
  }

  lemma {:induction false} NodeListKept(fs: Fs, nodesDir: Path, nodes: seq<Member>, tops: seq<string>)
    requires nodesDir != [] && nodesDir[0] in tops
    ensures Kept(fs, NodeList(fs, nodesDir, nodes).fs, tops)
  {
    if nodes != [] {
      var init := nodes[..|nodes| - 1];
      NodeListKept(fs, nodesDir, init, tops);
      var before := NodeList(fs, nodesDir, init);
      if before.err.None? {
        var node := nodes[|nodes| - 1];
        if node.value != JNull {
          WriteKept(before.fs, nodesDir + [NodeFileName(ReadOpt(Some(node.value), "varName"), node.key)], Some(WithoutNulls(node.value)), tops);
        }
        KeptTrans(fs, before.fs, NodeRun(before.fs, nodesDir, node).fs, tops);
      }
    }
  }

  /** A page is written inside `pages` only. */
  lemma PageRunKept(fs: Fs, page: Json, tops: seq<string>)
    requires "pages" in tops
    ensures Kept(fs, PageRun(fs, page).fs, tops)
  {
    match PageFolderName(page) {
      case Err(_) =>
      case Ok(name) =>
        var pageDir := Join(PagesDir, name);
        var nodesDir := pageDir + ["nodes"];
        assert nodesDir[0] == "pages" && (pageDir + [name + ".yaml"])[0] == "pages";
        var made := MkdirStep(fs, nodesDir);
        MkdirKept(fs, nodesDir, tops);
        if made.err.None? {
          NodeListKept(made.fs, nodesDir, PageNodes(page), tops);
          var written := NodeList(made.fs, nodesDir, PageNodes(page));
          KeptTrans(fs, made.fs, written.fs, tops);
          if written.err.None? {
            WriteKept(written.fs, pageDir + [name + ".yaml"], Some(MainPage(page)), tops);
            KeptTrans(fs, written.fs, PageRun(fs, page).fs, tops);
          }
        }
    }
  }

  lemma {:induction false} PageListKept(fs: Fs, pages: seq<Json>, tops: seq<string>)
    requires "pages" in tops
    ensures Kept(fs, PageList(fs, pages).fs, tops)
  {
    if pages != [] {
      var init := pages[..|pages| - 1];
      PageListKept(fs, init, tops);
      var before := PageList(fs, init);
      if before.err.None? {
        PageRunKept(before.fs, pages[|pages| - 1], tops);
        KeptTrans(fs, before.fs, PageList(fs, pages).fs, tops);
      }
    }
  }

  lemma PagesRunKept(fs: Fs, pages: Option<Json>, tops: seq<string>)
    requires "pages" in tops
    ensures Kept(fs, PagesRun(fs, pages).fs, tops)
  {
    var made := MkdirStep(fs, PagesDir);
    MkdirKept(fs, PagesDir, tops);
    if made.err.None? && pages.Some? && pages.value.JArr? {
      PageListKept(made.fs, pages.value.items, tops);
      KeptTrans(fs, made.fs, PagesRun(fs, pages).fs, tops);
    }
  }

  /** The top-level folder a step of the dispatch writes into. */
  function StepTop(step: Step): string {
    match step
    case Save(parentFolderName, _, _, _, _) => parentFolderName
    case Pages(_) => "pages"
  }

  lemma StepRunKept(fs: Fs, payload: Json, step: Step, tops: seq<string>)
    requires StepTop(step) != "" && StepTop(step) in tops
    ensures Kept(fs, StepRun(fs, payload, step).fs, tops)
  {
    var value := ReadOpt(Some(payload), step.category);
    match step {
      case Save(parentFolderName, folderName, _, withoutNulls, whenTruthy) =>
        if !(whenTruthy && !Truthy(value)) {
          SaveDataKept(fs, parentFolderName, folderName, if withoutNulls then WithoutNullsOpt(value) else value, "default", tops);
        }
      case Pages(_) =>
        PagesRunKept(fs, WithoutNullsOpt(value), tops);
    }
  }

  lemma {:induction false} StepsKept(fs: Fs, payload: Json, steps: seq<Step>, tops: seq<string>)
    requires forall i :: 0 <= i < |steps| ==> StepTop(steps[i]) != "" && StepTop(steps[i]) in tops
    ensures Kept(fs, Steps(fs, payload, steps).fs, tops)
  {
    if steps != [] {
      var init := steps[..|steps| - 1];
      StepsKept(fs, payload, init, tops);
      var before := Steps(fs, payload, init);
      if before.err.None? {
        StepRunKept(before.fs, payload, steps[|steps| - 1], tops);
        KeptTrans(fs, before.fs, Steps(fs, payload, steps).fs, tops);
      }
    }
  }

  /** Removing some of the folders keeps everything outside them. */
  lemma {:induction false} DeleteFoldersKept(fs: Fs, folders: seq<string>, tops: seq<string>)
    requires forall i :: 0 <= i < |folders| ==> folders[i] != "" && folders[i] in tops
    ensures Kept(fs, DeleteFolders(fs, folders), tops)
  {
    if folders != [] {
      var init := folders[..|folders| - 1];
      var f := folders[|folders| - 1];
      DeleteFoldersKept(fs, init, tops);
      var before := DeleteFolders(fs, init);
      var i :| 0 <= i < |tops| && tops[i] == f;
      assert Join([], f) == [tops[i]];
    }
  }

  /**
   * The whole export changes no path outside the seven folders it owns, paths being segment
   * lists. A name that `path.join` would resolve upwards (`..`, or one holding `/`) is kept as
   * one segment here, so this holds only for names that are plain segments.
   */
  lemma ExportKeepsOutside(fs: Fs, payload: Option<Json>)
    ensures Kept(fs, ExportSpec(fs, payload).fs, TopFolders)
  {
    DeleteFoldersKept(fs, TopFolders, TopFolders);
    var cleared := DeleteFolders(fs, TopFolders);
    if Truthy(payload) {
      DispatchTable();
      StepsKept(cleared, payload.value, Dispatch, TopFolders);
      KeptTrans(fs, cleared, ExportSpec(fs, payload).fs, TopFolders);
    }
  }

  // ---- deleteFolders empties the folders it is given ----

  /** Nothing, neither file nor directory, lies in the top-level folder `f`. */
  ghost predicate Cleared(fs: Fs, f: string) {
    && (forall q :: q in fs.files ==> !Under(q, [f]))
    && (forall q :: q in fs.dirs ==> !Under(q, [f]))
  }

  /** In a well-formed tree, a top-level folder that does not exist has nothing in it. */
  lemma MissingIsCleared(fs: Fs, f: string)
    requires Valid(fs) && f != "" && !Exists(fs, [f])
    ensures Cleared(fs, f)
  {
    forall q | q in fs.dirs ensures !Under(q, [f]) {
      if |q| >= 1 {
        assert q[..1] in fs.dirs;
      }
    }
    forall q | q in fs.files ensures !Under(q, [f]) {
      var parent := q[..|q| - 1];
      if |q| == 1 {
        assert Under(q, [f]) ==> q == [f];
      } else if |parent| >= 1 {
        assert parent[..1] in fs.dirs && parent[..1] == q[..1];
      }
    }
  }

  /**
   * After deleteFolders every listed folder is gone with all it held (whether it existed or
   * not), and the tree is still well formed.
   */
  lemma {:induction false} DeleteFoldersClears(fs: Fs, folders: seq<string>)
    requires Valid(fs)
    requires forall i :: 0 <= i < |folders| ==> folders[i] != ""
    ensures Valid(DeleteFolders(fs, folders))
    ensures forall i :: 0 <= i < |folders| ==> Cleared(DeleteFolders(fs, folders), folders[i])
  {
    if folders != [] {
      var init := folders[..|folders| - 1];
      var f := folders[|folders| - 1];
      DeleteFoldersClears(fs, init);
      var before := DeleteFolders(fs, init);
      var after := DeleteFolders(fs, folders);
      assert Join([], f) == [f];
      if Exists(before, [f]) {
        RemoveTreeValid(before, [f]);
      } else {
        MissingIsCleared(before, f);
      }
      forall i | 0 <= i < |folders| ensures Cleared(after, folders[i]) {
        if i < |folders| - 1 {
          assert folders[i] == init[i];
        }
      }
    }
  }

  /** The export starts from a tree in which none of its seven folders holds anything. */
  lemma ExportStartsClean(fs: Fs)
    requires Valid(fs)
    ensures Valid(DeleteFolders(fs, TopFolders))
    ensures forall i :: 0 <= i < |TopFolders| ==> Cleared(DeleteFolders(fs, TopFolders), TopFolders[i])
  {
    DeleteFoldersClears(fs, TopFolders);
  }

  // ---- What a loop of writes leaves behind ----

  /** One `writeFileSync` of a run. */
  datatype FileWrite = FileWrite(path: Path, content: Option<Json>)

  /** The files after the writes `ws`, done in order, all of which succeeded. */
  function ApplyWrites(fs: Fs, ws: seq<FileWrite>): (r: Fs)
    ensures r.dirs == fs.dirs
  {
    if ws == [] then fs
    else
      var before := ApplyWrites(fs, ws[..|ws| - 1]);
      before.(files := before.files[ws[|ws| - 1].path := ws[|ws| - 1].content])
  }

  /** A path holds what the last write to it wrote. */
  lemma {:induction false} LastWriteWins(fs: Fs, ws: seq<FileWrite>, i: nat)
    requires i < |ws| && forall j :: i < j < |ws| ==> ws[j].path != ws[i].path
    ensures ws[i].path in ApplyWrites(fs, ws).files
    ensures ApplyWrites(fs, ws).files[ws[i].path] == ws[i].content
  {
    if i < |ws| - 1 {
      LastWriteWins(fs, ws[..|ws| - 1], i);
    }
  }

  /** A path no write touches keeps its file, or its absence. */
  lemma {:induction false} UnwrittenKept(fs: Fs, ws: seq<FileWrite>, p: Path)
    requires forall j :: 0 <= j < |ws| ==> ws[j].path != p
    ensures p in ApplyWrites(fs, ws).files <==> p in fs.files
    ensures p in fs.files ==> ApplyWrites(fs, ws).files[p] == fs.files[p]
  {
    if ws != [] {
      UnwrittenKept(fs, ws[..|ws| - 1], p);
    }
  }

  /** Only written paths gain a file. */
  lemma {:induction false} OnlyWrittenAdded(fs: Fs, ws: seq<FileWrite>, p: Path)
    requires p in ApplyWrites(fs, ws).files && p !in fs.files
    ensures exists j :: 0 <= j < |ws| && ws[j].path == p
  {
    if ws != [] && ws[|ws| - 1].path != p {
      OnlyWrittenAdded(fs, ws[..|ws| - 1], p);
      var j :| 0 <= j < |ws| - 1 && ws[..|ws| - 1][j].path == p;
      assert ws[j].path == p;
    }
  }

  // ---- Nodes: one file each ----

  /** The file of one node: `<nodesDir>/<varName>_<id>.yaml`. */
  function NodePath(nodesDir: Path, node: Member): Path {
    nodesDir + [NodeFileName(ReadOpt(Some(node.value), "varName"), node.key)]
  }

  function NodeWrites(nodesDir: Path, nodes: seq<Member>): (ws: seq<FileWrite>)
    ensures |ws| == |nodes|
    ensures forall i :: 0 <= i < |nodes| ==> ws[i] == FileWrite(NodePath(nodesDir, nodes[i]), Some(WithoutNulls(nodes[i].value)))
  {
    seq(|nodes|, i requires 0 <= i < |nodes| => FileWrite(NodePath(nodesDir, nodes[i]), Some(WithoutNulls(nodes[i].value))))
  }

  /** One node written into an existing nodes directory. */
  lemma NodeRunWrite(fs: Fs, nodesDir: Path, node: Member)
    requires nodesDir in fs.dirs
    ensures NodeRun(fs, nodesDir, node).err.None? <==> node.value != JNull && NodePath(nodesDir, node) !in fs.dirs
    ensures NodeRun(fs, nodesDir, node).err.None? ==>
      NodeRun(fs, nodesDir, node).fs == fs.(files := fs.files[NodePath(nodesDir, node) := Some(WithoutNulls(node.value))])
  {
    var p := NodePath(nodesDir, node);
    assert p[..|p| - 1] == nodesDir;
  }

  /** No node is null and no node file would land on a directory. */
  predicate NodesWritable(fs: Fs, nodesDir: Path, nodes: seq<Member>) {
    forall i :: 0 <= i < |nodes| ==> nodes[i].value != JNull && NodePath(nodesDir, nodes[i]) !in fs.dirs
  }

  lemma NodesWritableSnoc(fs: Fs, nodesDir: Path, nodes: seq<Member>)
    requires nodes != []
    ensures NodesWritable(fs, nodesDir, nodes) <==>
      && NodesWritable(fs, nodesDir, nodes[..|nodes| - 1])
      && nodes[|nodes| - 1].value != JNull && NodePath(nodesDir, nodes[|nodes| - 1]) !in fs.dirs
  {
    var init := nodes[..|nodes| - 1];
    assert forall i :: 0 <= i < |init| ==> init[i] == nodes[i];
  }

  /**
   * With the nodes directory in place, the node loop succeeds exactly when no node is null
   * and no node file would land on a directory.
   */
  lemma {:induction false} NodeListOk(fs: Fs, nodesDir: Path, nodes: seq<Member>)
    requires nodesDir in fs.dirs
    ensures NodeList(fs, nodesDir, nodes).err.None? <==> NodesWritable(fs, nodesDir, nodes)
    ensures NodeList(fs, nodesDir, nodes).fs.dirs == fs.dirs
  {
    if nodes != [] {
      var init := nodes[..|nodes| - 1];
      var node := nodes[|nodes| - 1];
      NodeListOk(fs, nodesDir, init);
      NodesWritableSnoc(fs, nodesDir, nodes);
      var before := NodeList(fs, nodesDir, init);
      if before.err.None? {
        NodeRunWrite(before.fs, nodesDir, node);
      }
    }
  }

  /** When it succeeds, the node loop has written the null-free nodes in their order. */
  lemma {:induction false} NodeListWrites(fs: Fs, nodesDir: Path, nodes: seq<Member>)
    requires nodesDir in fs.dirs && NodeList(fs, nodesDir, nodes).err.None?
    ensures NodeList(fs, nodesDir, nodes).fs == ApplyWrites(fs, NodeWrites(nodesDir, nodes))
  {
    if nodes != [] {
      var init := nodes[..|nodes| - 1];
      var node := nodes[|nodes| - 1];
      var before := NodeList(fs, nodesDir, init);
      assert before.err.None?;
      NodeListWrites(fs, nodesDir, init);
      NodeListOk(fs, nodesDir, init);
      var ws := NodeWrites(nodesDir, nodes);
      assert ws[..|nodes| - 1] == NodeWrites(nodesDir, init);
      NodeRunWrite(before.fs, nodesDir, node);
    }
  }

  /**
   * Nodes with distinct, recoverable ids get distinct file names, so after the loop each
   * node's file holds that node without its nulls.
   */
  lemma EachNodeItsFile(fs: Fs, nodesDir: Path, nodes: seq<Member>, i: nat)
    requires NodeNames.Recoverable(nodes) && nodesDir in fs.dirs
    requires NodeList(fs, nodesDir, nodes).err.None? && i < |nodes|
    ensures NodePath(nodesDir, nodes[i]) in NodeList(fs, nodesDir, nodes).fs.files
    ensures NodeList(fs, nodesDir, nodes).fs.files[NodePath(nodesDir, nodes[i])] == Some(WithoutNulls(nodes[i].value))
  {
    NodeListWrites(fs, nodesDir, nodes);
    var ws := NodeWrites(nodesDir, nodes);
    forall j | i < j < |ws| ensures ws[j].path != ws[i].path {
      var a := nodes[i];
      var b := nodes[j];
      var nameA := NodeFileName(ReadOpt(Some(a.value), "varName"), a.key);
      var nameB := NodeFileName(ReadOpt(Some(b.value), "varName"), b.key);
      NodeNames.NodeIdRecovered(ReadOpt(Some(a.value), "varName"), a.key);
      NodeNames.NodeIdRecovered(ReadOpt(Some(b.value), "varName"), b.key);
      assert a.key != b.key;
      assert nameA != nameB;
      assert ws[i].path[|nodesDir|] == nameA && ws[j].path[|nodesDir|] == nameB;
    }
    LastWriteWins(fs, ws, i);
  }

  // ---- Records of a list: one file each, named from the record ----

  /** Every record of the list can be named. */
  predicate AllNamed(items: seq<Json>, folderName: string, fileName: string) {
    forall i :: 0 <= i < |items| ==> ItemStem(items[i], folderName, fileName).Ok?
  }

  /** The file one record is written to. */
  function ItemPath(dirPath: Path, item: Json, folderName: string, fileName: string): Path
    requires ItemStem(item, folderName, fileName).Ok?
  {
    dirPath + [ItemStem(item, folderName, fileName).value + ".yaml"]
  }

  function ItemWrites(dirPath: Path, items: seq<Json>, folderName: string, fileName: string): (ws: seq<FileWrite>)
    requires AllNamed(items, folderName, fileName)
    ensures |ws| == |items|
    ensures forall i :: 0 <= i < |items| ==> ws[i] == FileWrite(ItemPath(dirPath, items[i], folderName, fileName), Some(items[i]))
  {
    seq(|items|, i requires 0 <= i < |items| => FileWrite(ItemPath(dirPath, items[i], folderName, fileName), Some(items[i])))
  }

  /** Every record can be named and none of their files would land on a directory. */
  predicate ItemsWritable(fs: Fs, dirPath: Path, items: seq<Json>, folderName: string, fileName: string) {
    && AllNamed(items, folderName, fileName)
    && forall i :: 0 <= i < |items| ==> ItemPath(dirPath, items[i], folderName, fileName) !in fs.dirs
  }

  /** One record written into an existing directory. */
  lemma SaveItemWrite(fs: Fs, dirPath: Path, folderName: string, item: Json, fileName: string)
    requires dirPath in fs.dirs
    ensures SaveItem(fs, dirPath, folderName, item, fileName).err.None? <==>
      ItemStem(item, folderName, fileName).Ok? && ItemPath(dirPath, item, folderName, fileName) !in fs.dirs
    ensures SaveItem(fs, dirPath, folderName, item, fileName).err.None? ==>
      SaveItem(fs, dirPath, folderName, item, fileName).fs ==
      fs.(files := fs.files[ItemPath(dirPath, item, folderName, fileName) := Some(item)])
  {
    if ItemStem(item, folderName, fileName).Ok? {
      var q := ItemPath(dirPath, item, folderName, fileName);
      assert q[..|q| - 1] == dirPath;
    }
  }

  lemma ItemsWritableSnoc(fs: Fs, dirPath: Path, items: seq<Json>, folderName: string, fileName: string)
    requires items != []
    ensures ItemsWritable(fs, dirPath, items, folderName, fileName) <==>
      && ItemsWritable(fs, dirPath, items[..|items| - 1], folderName, fileName)
      && ItemStem(items[|items| - 1], folderName, fileName).Ok?
      && ItemPath(dirPath, items[|items| - 1], folderName, fileName) !in fs.dirs
  {
    var init := items[..|items| - 1];
    var last := items[|items| - 1];
    AllNamedSnoc(items, folderName, fileName);
    if AllNamed(items, folderName, fileName) {
      assert forall i :: 0 <= i < |init| ==>
        ItemPath(dirPath, init[i], folderName, fileName) == ItemPath(dirPath, items[i], folderName, fileName);
    }
  }

  lemma AllNamedSnoc(items: seq<Json>, folderName: string, fileName: string)
    requires items != []
    ensures AllNamed(items, folderName, fileName) <==>
      AllNamed(items[..|items| - 1], folderName, fileName) && ItemStem(items[|items| - 1], folderName, fileName).Ok?
  {
    var init := items[..|items| - 1];
    assert forall i :: 0 <= i < |init| ==> init[i] == items[i];
  }

  /** The record loop succeeds exactly when every record can be named and written. */
  lemma {:induction false} SaveItemsOk(fs: Fs, dirPath: Path, folderName: string, items: seq<Json>, fileName: string)
    requires dirPath in fs.dirs
    ensures SaveItems(fs, dirPath, folderName, items, fileName).err.None? <==> ItemsWritable(fs, dirPath, items, folderName, fileName)
    ensures SaveItems(fs, dirPath, folderName, items, fileName).fs.dirs == fs.dirs
  {
    if items != [] {
      var init := items[..|items| - 1];
      var item := items[|items| - 1];
      SaveItemsOk(fs, dirPath, folderName, init, fileName);
      ItemsWritableSnoc(fs, dirPath, items, folderName, fileName);
      var before := SaveItems(fs, dirPath, folderName, init, fileName);
      if before.err.None? {
        SaveItemWrite(before.fs, dirPath, folderName, item, fileName);
      }
    }
  }

  /** When it succeeds, the record loop has written every record to its own name, in order. */
  lemma {:induction false} SaveItemsWrites(fs: Fs, dirPath: Path, folderName: string, items: seq<Json>, fileName: string)
    requires dirPath in fs.dirs && SaveItems(fs, dirPath, folderName, items, fileName).err.None?
    ensures AllNamed(items, folderName, fileName)
    ensures SaveItems(fs, dirPath, folderName, items, fileName).fs == ApplyWrites(fs, ItemWrites(dirPath, items, folderName, fileName))
  {
    SaveItemsOk(fs, dirPath, folderName, items, fileName);
    if items != [] {
      var init := items[..|items| - 1];
      var item := items[|items| - 1];
      var before := SaveItems(fs, dirPath, folderName, init, fileName);
      assert before.err.None?;
      SaveItemsWrites(fs, dirPath, folderName, init, fileName);
      SaveItemsOk(fs, dirPath, folderName, init, fileName);
      var ws := ItemWrites(dirPath, items, folderName, fileName);
      assert ws[..|items| - 1] == ItemWrites(dirPath, init, folderName, fileName);
      SaveItemWrite(before.fs, dirPath, folderName, item, fileName);
    }
  }

  /** `mkdirSync(p, { recursive: true })` leaves `p` a directory. */
  lemma MkdirMakes(fs: Fs, p: Path)
    requires MkdirStep(fs, p).err.None?
    ensures p in MkdirStep(fs, p).fs.dirs
  {
    assert p[..|p|] == p;
  }

  /**
   * A list handed to processAndSaveData: each record keeps its place with its ids removed, and
   * the file named after a record holds that record unless a later record has the same name.
   */
  lemma SaveDataList(fs: Fs, parentFolderName: string, folderName: string, xs: seq<Json>, fileName: string, i: nat)
    requires SaveData(fs, parentFolderName, folderName, Some(JArr(xs)), fileName).err.None?
    requires i < |xs|
    requires ItemStem(FilterElement(xs[i], parentFolderName == "project"), folderName, fileName).Ok?
    requires forall j :: i < j < |xs| ==>
      (ItemStem(FilterElement(xs[j], parentFolderName == "project"), folderName, fileName) !=
       ItemStem(FilterElement(xs[i], parentFolderName == "project"), folderName, fileName))
    ensures
      var out := SaveData(fs, parentFolderName, folderName, Some(JArr(xs)), fileName).fs;
      var q := ItemPath(DataDir(parentFolderName, folderName), FilterElement(xs[i], parentFolderName == "project"), folderName, fileName);
      q in out.files && out.files[q] == Some(FilterElement(xs[i], parentFolderName == "project"))
  {
    var dirPath := DataDir(parentFolderName, folderName);
    var made := MkdirStep(fs, dirPath);
    var ys := RemoveIds(JArr(xs), parentFolderName == "project").items;
    MkdirMakes(fs, dirPath);
    SaveItemsWrites(made.fs, dirPath, folderName, ys, fileName);
    var ws := ItemWrites(dirPath, ys, folderName, fileName);
    forall j | i < j < |ws| ensures ws[j].path != ws[i].path {
      var sj := ItemStem(ys[j], folderName, fileName).value;
      var si := ItemStem(ys[i], folderName, fileName).value;
      assert sj != si;
      assert ws[j].path[|dirPath|] == sj + ".yaml" && ws[i].path[|dirPath|] == si + ".yaml";
      assert (sj + ".yaml")[..|sj|] == sj && (si + ".yaml")[..|si|] == si;
    }
    LastWriteWins(made.fs, ws, i);
  }

  /** A record written from a list carries none of the id keys. */
  lemma ListRecordClean(x: Json, excludeProjectId: bool, k: string)
    requires x.JObj? || x.JArr?
    requires Stripped(k, excludeProjectId)
    ensures Get(FilterElement(x, excludeProjectId).members, k) == None
  {
    FilterObjGet(Entries(x), excludeProjectId);
  }

  // ---- Single records ----

  /**
   * Anything but a list is written to one file in `<parent>/<folder>`, named by its markers,
   * holding the value with its ids removed; nothing else changes.
   */
  lemma SingletonWrite(fs: Fs, parentFolderName: string, folderName: string, data: Option<Json>, fileName: string)
    requires !(data.Some? && data.value.JArr?)
    requires SaveData(fs, parentFolderName, folderName, data, fileName).err.None?
    ensures
      var cleaned := RemoveIdsOpt(data, parentFolderName == "project");
      && SingletonStem(parentFolderName, folderName, cleaned).Ok?
      && SaveData(fs, parentFolderName, folderName, data, fileName).fs.files ==
         fs.files[DataDir(parentFolderName, folderName) + [SingletonStem(parentFolderName, folderName, cleaned).value + ".yaml"] := cleaned]
  {
  }

  /** The markers of a design record survive the id removal. */
  lemma MarkersKept(d: Json, k: string)
    requires d.JObj? && !Stripped(k, false)
    ensures ReadOpt(Some(RemoveIds(d, false)), k) == ReadOpt(Some(d), k)
  {
    FilterObjGet(d.members, false);
  }

  /**
   * Routing by markers changes the file name and not the folder: a theme record handed over
   * as the typography category lands in `design/font-tokens/color-tokens.yaml`.
   */
  lemma ThemeRecordInTypographyFolder(fs: Fs, d: Json, fileName: string)
    requires d.JObj? && Truthy(ReadOpt(Some(d), "THEME"))
    requires !Truthy(ReadOpt(Some(d), "APP_SETTINGS")) && !Truthy(ReadOpt(Some(d), "APP_STATE")) && !Truthy(ReadOpt(Some(d), "APP_ASSETS"))
    requires SaveData(fs, "design", "font-tokens", Some(d), fileName).err.None?
    ensures ["design", "font-tokens", "color-tokens.yaml"] in SaveData(fs, "design", "font-tokens", Some(d), fileName).fs.files
    ensures SaveData(fs, "design", "font-tokens", Some(d), fileName).fs.files[["design", "font-tokens", "color-tokens.yaml"]] ==
      Some(RemoveIds(d, false))
  {
    var cleaned := RemoveIds(d, false);
    MarkersKept(d, "THEME");
    MarkersKept(d, "APP_SETTINGS");
    MarkersKept(d, "APP_STATE");
    MarkersKept(d, "APP_ASSETS");
    ThemeRoutesToColorTokens("font-tokens", cleaned);
    SingletonWrite(fs, "design", "font-tokens", Some(d), fileName);
    ColorTokensPath();
  }

  lemma ColorTokensPath()
    ensures DataDir("design", "font-tokens") + ["color-tokens" + ".yaml"] == ["design", "font-tokens", "color-tokens.yaml"]
  {
    assert "color-tokens" + ".yaml" == "color-tokens.yaml";
    assert DataDir("design", "font-tokens") == ["design", "font-tokens"];
  }

  /** The project record keeps its `projectId` and loses the other id keys. */
  lemma ProjectKeepsProjectId(ms: seq<Member>)
    ensures Get(RemoveIds(JObj(ms), true).members, "projectId") == Get(ms, "projectId")
    ensures Get(RemoveIds(JObj(ms), true).members, "id") == None
  {
    FilterObjGet(ms, true);
  }

  /** Any other single record loses `projectId` too. */
  lemma OthersLoseProjectId(ms: seq<Member>)
    ensures Get(RemoveIds(JObj(ms), false).members, "projectId") == None
  {
    FilterObjGet(ms, false);
  }

  // ---- Optional categories ----

  /** `appState` and `filteredAppAsset` are skipped when falsy: the step changes nothing. */
  lemma OptionalDesignSkipped(fs: Fs, payload: Json)
    ensures !Truthy(ReadOpt(Some(payload), "appState")) ==> StepRun(fs, payload, Dispatch[9]) == Run(fs, None)
    ensures !Truthy(ReadOpt(Some(payload), "filteredAppAsset")) ==> StepRun(fs, payload, Dispatch[10]) == Run(fs, None)
  {
    DispatchTable();
  }

  /**
   * The other design categories are not guarded: a payload without `appSettings` makes the
   * step read a marker of undefined and ends the export.
   */
  lemma MissingAppSettingsAborts(fs: Fs, payload: Json)
    requires ReadOpt(Some(payload), "appSettings") == None
    requires MkdirStep(fs, DataDir("design", "app-settings")).err.None?
    ensures StepRun(fs, payload, Dispatch[8]).err == Some(CannotRead("undefined", "TYPOGRAPHY"))
  {
    DispatchTable();
  }

  // ---- Pages ----

  /**
   * The main file of a page is an object without nodes in its layout and without any id key;
   * every other key is the page's own value without its nulls.
   */
  lemma MainPageClean(page: Json)
    ensures MainPage(page).JObj?
    ensures forall k :: Stripped(k, false) ==> Get(MainPage(page).members, k) == None
    ensures match Get(MainPage(page).members, "layout")
      case Some(JObj(layout)) => Get(layout, "nodes") == None
      case _ => true
    ensures forall k :: !Stripped(k, false) && k != "layout" ==>
      Get(MainPage(page).members, k) == Get(WithoutNulls(JObj(Entries(page))).members, k)
  {
    var w := WithoutNulls(JObj(Entries(page)));
    WithoutNullsKeepsKind(JObj(Entries(page)));
    var sp := StripNodes(w);
    FilterObjGet(sp.members, false);
    match Get(w.members, "layout") {
      case Some(JObj(layout)) =>
        GetPutSame(w.members, "layout", JObj(Delete(layout, "nodes")));
        GetDelete(layout, "nodes", "nodes");
        forall k | k != "layout" ensures Get(sp.members, k) == Get(w.members, k) {
          GetPutOther(w.members, "layout", JObj(Delete(layout, "nodes")), k);
        }
      case None =>
      case Some(JNull) =>
      case Some(JBool(_)) =>
      case Some(JNum(_)) =>
      case Some(JStr(_)) =>
      case Some(JArr(_)) =>
    }
  }

  /**
   * A page that is written: `pages/<name>/nodes` is made, each node is written into it, and
   * last the page's main file.
   */
  lemma PageRunWrites(fs: Fs, page: Json, name: string)
    requires PageFolderName(page) == Ok(name) && PageRun(fs, page).err.None?
    ensures
      var pageDir := Join(PagesDir, name);
      var nodesDir := pageDir + ["nodes"];
      && MkdirP(fs, nodesDir).Ok?
      && PageRun(fs, page).fs == ApplyWrites(MkdirP(fs, nodesDir).value,
           NodeWrites(nodesDir, PageNodes(page)) + [FileWrite(pageDir + [name + ".yaml"], Some(MainPage(page)))])
  {
    var pageDir := Join(PagesDir, name);
    var nodesDir := pageDir + ["nodes"];
    MkdirMakes(fs, nodesDir);
    var made := MkdirStep(fs, nodesDir);
    NodeListWrites(made.fs, nodesDir, PageNodes(page));
    NodeListOk(made.fs, nodesDir, PageNodes(page));
    var ws := NodeWrites(nodesDir, PageNodes(page));
    var main := FileWrite(pageDir + [name + ".yaml"], Some(MainPage(page)));
    assert (ws + [main])[..|ws|] == ws;
  }

  /** After a page is written its main file holds the cleaned page, and each node its own file. */
  lemma PageFiles(fs: Fs, page: Json, name: string)
    requires PageFolderName(page) == Ok(name) && PageRun(fs, page).err.None?
    ensures Join(PagesDir, name) + [name + ".yaml"] in PageRun(fs, page).fs.files
    ensures PageRun(fs, page).fs.files[Join(PagesDir, name) + [name + ".yaml"]] == Some(MainPage(page))
    ensures NodeNames.Recoverable(PageNodes(page)) ==> forall i :: 0 <= i < |PageNodes(page)| ==>
      && NodePath(Join(PagesDir, name) + ["nodes"], PageNodes(page)[i]) in PageRun(fs, page).fs.files
      && PageRun(fs, page).fs.files[NodePath(Join(PagesDir, name) + ["nodes"], PageNodes(page)[i])] ==
         Some(WithoutNulls(PageNodes(page)[i].value))
  {
    var pageDir := Join(PagesDir, name);
    var nodesDir := pageDir + ["nodes"];
    var nodes := PageNodes(page);
    PageRunWrites(fs, page, name);
    var made := MkdirStep(fs, nodesDir);
    MkdirMakes(fs, nodesDir);
    var ws := NodeWrites(nodesDir, nodes);
    var main := FileWrite(pageDir + [name + ".yaml"], Some(MainPage(page)));
    LastWriteWins(made.fs, ws + [main], |ws|);
    if NodeNames.Recoverable(nodes) {
      NodeListWrites(made.fs, nodesDir, nodes);
      forall i | 0 <= i < |nodes|
        ensures NodePath(nodesDir, nodes[i]) in PageRun(fs, page).fs.files
        ensures PageRun(fs, page).fs.files[NodePath(nodesDir, nodes[i])] == Some(WithoutNulls(nodes[i].value))
      {
        EachNodeItsFile(made.fs, nodesDir, nodes, i);
        assert |NodePath(nodesDir, nodes[i])| != |main.path|;
      }
    }
  }
}

/**
 * `traverseFolder` of collectDataFromYamlFiles in yaml_json.js: a depth-first walk of a folder
 * that collects the document of every `.yaml` file, and that records the last `projectId` it
 * reads while walking the project folder.
 */
module Records {
  import opened Base
  import opened JsonValues
  import opened Text
  import opened Tree

  /** What the walk has gathered so far: the documents in visiting order and the module-level `projectId`. */
  datatype Walk = Walk(collected: seq<Option<Json>>, projectId: Option<Json>)

  /** Lines 82-93: a `.yaml` file is parsed and pushed; in the project folder its `projectId` is read first. */
  function VisitFile(path: Path, content: Content, folderName: string, w: Walk): Result<Walk> {
    match content
    case Malformed => Err(ParseFailure(path))
    case Yaml(v) =>
      if folderName == "project" then
        match Read(v, "projectId")
        case Err(e) => Err(e)
        case Ok(id) => Ok(Walk(w.collected + [v], id))
      else Ok(Walk(w.collected + [v], w.projectId))
  }

  /** The entries of the folder at `dir`, in listing order; the first failure ends the walk. */
  function WalkEntries(dir: Path, entries: seq<Entry>, folderName: string, w: Walk): Result<Walk>
    decreases entries
  {
    if entries == [] then Ok(w)
    else
      match WalkEntries(dir, entries[..|entries| - 1], folderName, w)
      case Err(e) => Err(e)
      case Ok(before) => WalkEntry(dir, entries[|entries| - 1], folderName, before)
  }

  /** One entry: a folder is walked in turn, a file counts only when its extension is `.yaml`. */
  function WalkEntry(dir: Path, entry: Entry, folderName: string, w: Walk): Result<Walk>
    decreases entry
  {
    match entry.item
    case Folder(children) => WalkEntries(dir + [entry.name], children, folderName, w)
    case File(content) =>
      if Extname(entry.name) == ".yaml" then VisitFile(dir + [entry.name], content, folderName, w)
      else Ok(w)
  }

  /**
   * `traverseFolder(folderPath)`: a missing folder yields nothing and keeps `projectId`; a file
   * where the folder should be cannot be listed.
   */
  function Traverse(root: Item, folderPath: Path, folderName: string, projectId: Option<Json>): Result<Walk> {
    match Lookup(root, folderPath)
    case None => Ok(Walk([], projectId))
    case Some(File(_)) => Err(ReadFailed(folderPath))
    case Some(Folder(entries)) => WalkEntries(folderPath, entries, folderName, Walk([], projectId))
  }

  // ---- An independent account of what the walk visits ----

  /** A file met by the walk, with its path. */
  datatype Visited = Visited(path: Path, content: Content)

  /** The `.yaml` files below `dir`, depth first, in listing order. */
  function YamlFiles(dir: Path, entries: seq<Entry>): seq<Visited>
    decreases entries
  {
    if entries == [] then []
    else YamlFiles(dir, entries[..|entries| - 1]) + YamlFilesOf(dir, entries[|entries| - 1])
  }

  function YamlFilesOf(dir: Path, entry: Entry): seq<Visited>
    decreases entry
  {
    match entry.item
    case Folder(children) => YamlFiles(dir + [entry.name], children)
    case File(content) => if Extname(entry.name) == ".yaml" then [Visited(dir + [entry.name], content)] else []
  }

  /** A file the walk gets past: it parses, and in the project folder its document has properties. */
  predicate Accepted(f: Visited, folderName: string) {
    f.content.Yaml? && (folderName == "project" ==> f.content.value.Some? && f.content.value.value != JNull)
  }

  predicate AllAccepted(fs: seq<Visited>, folderName: string) {
    forall i :: 0 <= i < |fs| ==> Accepted(fs[i], folderName)
  }

  /** The document of a file that parsed. */
  function DocumentOf(f: Visited): Option<Json> {
    if f.content.Yaml? then f.content.value else None
  }

  function Documents(fs: seq<Visited>): (r: seq<Option<Json>>)
    ensures |r| == |fs|
  {
    seq(|fs|, i requires 0 <= i < |fs| => DocumentOf(fs[i]))
  }

  /** `projectId` after reading the project documents `vs` in turn, starting from `start`. */
  function LastProjectId(vs: seq<Option<Json>>, start: Option<Json>): Option<Json> {
    if vs == [] then start else ReadOpt(vs[|vs| - 1], "projectId")
  }

  /**
   * `r` is what walking the files `fs` from `w` must give: success exactly when every file is
   * accepted, and then their documents appended in order and `projectId` from the last project
   * document (unchanged outside the project folder).
   */
  predicate Explains(r: Result<Walk>, fs: seq<Visited>, folderName: string, w: Walk) {
    && (r.Ok? <==> AllAccepted(fs, folderName))
    && (r.Ok? ==> r.value.collected == w.collected + Documents(fs))
    && (r.Ok? ==> r.value.projectId == if folderName == "project" then LastProjectId(Documents(fs), w.projectId) else w.projectId)
  }

  /** The walk of a folder is explained by the `.yaml` files below it, in depth-first listing order. */
  lemma {:induction false} WalkEntriesCollects(dir: Path, entries: seq<Entry>, folderName: string, w: Walk)
    ensures Explains(WalkEntries(dir, entries, folderName, w), YamlFiles(dir, entries), folderName, w)
    decreases entries
  {
    if entries != [] {
      var init := entries[..|entries| - 1];
      var last := entries[|entries| - 1];
      WalkEntriesCollects(dir, init, folderName, w);
      var r1 := WalkEntries(dir, init, folderName, w);
      if r1.Ok? {
        WalkEntryCollects(dir, last, folderName, r1.value);
      }
      ExplainsAppend(r1, WalkEntries(dir, entries, folderName, w), YamlFiles(dir, init), YamlFilesOf(dir, last), folderName, w);
    }
  }

  lemma {:induction false} WalkEntryCollects(dir: Path, entry: Entry, folderName: string, w: Walk)
    ensures Explains(WalkEntry(dir, entry, folderName, w), YamlFilesOf(dir, entry), folderName, w)
    decreases entry
  {
    if entry.item.Folder? {
      var children := entry.item.entries;
      assert WalkEntry(dir, entry, folderName, w) == WalkEntries(dir + [entry.name], children, folderName, w);
      assert YamlFilesOf(dir, entry) == YamlFiles(dir + [entry.name], children);
      WalkEntriesCollects(dir + [entry.name], children, folderName, w);
    } else {
      FileEntryExplained(dir, entry, folderName, w);
    }
  }

  /** A file entry: a `.yaml` file is visited, any other file is passed over. */
  lemma FileEntryExplained(dir: Path, entry: Entry, folderName: string, w: Walk)
    requires entry.item.File?
    ensures Explains(WalkEntry(dir, entry, folderName, w), YamlFilesOf(dir, entry), folderName, w)
  {
    var content := entry.item.content;
    var path := dir + [entry.name];
    if Extname(entry.name) == ".yaml" {
      assert WalkEntry(dir, entry, folderName, w) == VisitFile(path, content, folderName, w);
      assert YamlFilesOf(dir, entry) == [Visited(path, content)];
      VisitFileExplained(path, content, folderName, w);
    } else {
      assert WalkEntry(dir, entry, folderName, w) == Ok(w);
      assert YamlFilesOf(dir, entry) == [];
      NothingExplained(folderName, w);
    }
  }

  lemma NothingExplained(folderName: string, w: Walk)
    ensures Explains(Ok(w), [], folderName, w)
  {
    assert Documents([]) == [];
  }

  /** One `.yaml` file is explained by itself. */
  lemma VisitFileExplained(path: Path, content: Content, folderName: string, w: Walk)
    ensures Explains(VisitFile(path, content, folderName, w), [Visited(path, content)], folderName, w)
  {
    var f := Visited(path, content);
    assert Documents([f]) == [DocumentOf(f)];
    assert AllAccepted([f], folderName) <==> Accepted(f, folderName) by {
      assert [f][0] == f;
    }
    if content.Yaml? && folderName == "project" {
      var v := content.value;
      assert Read(v, "projectId").Ok? <==> v.Some? && v.value != JNull;
      if v.Some? && v.value != JNull {
        assert Read(v, "projectId") == Ok(ReadOpt(v, "projectId"));
      }
    }
  }

  /** Walking `a` and then `b` is explained by `a + b`. */
  lemma ExplainsAppend(r1: Result<Walk>, r: Result<Walk>, a: seq<Visited>, b: seq<Visited>, folderName: string, w: Walk)
    requires Explains(r1, a, folderName, w)
    requires r1.Err? ==> r == r1
    requires r1.Ok? ==> Explains(r, b, folderName, r1.value)
    ensures Explains(r, a + b, folderName, w)
  {
    assert Documents(a + b) == Documents(a) + Documents(b);
    if r1.Err? {
      var i :| 0 <= i < |a| && !Accepted(a[i], folderName);
      assert (a + b)[i] == a[i];
    } else {
      if !AllAccepted(b, folderName) {
        var i :| 0 <= i < |b| && !Accepted(b[i], folderName);
        assert (a + b)[|a| + i] == b[i];
      }
      if b != [] {
        assert (Documents(a) + Documents(b))[|a + b| - 1] == Documents(b)[|b| - 1];
      }
    }
  }

  /** A folder that is not there yields no documents and leaves `projectId` alone (lines 69-72). */
  lemma MissingFolderYieldsNothing(root: Item, folderPath: Path, folderName: string, projectId: Option<Json>)
    requires Lookup(root, folderPath).None?
    ensures Traverse(root, folderPath, folderName, projectId) == Ok(Walk([], projectId))
  {
  }

  /** A `.yaml` file js-yaml cannot parse anywhere below the folder aborts the walk (lines 95-97). */
  lemma MalformedAborts(dir: Path, entries: seq<Entry>, folderName: string, w: Walk, i: nat)
    requires i < |YamlFiles(dir, entries)| && YamlFiles(dir, entries)[i].content == Malformed
    ensures WalkEntries(dir, entries, folderName, w).Err?
  {
    WalkEntriesCollects(dir, entries, folderName, w);
    assert !Accepted(YamlFiles(dir, entries)[i], folderName);
  }

  /** A failure among the first `n` entries is the failure of the whole folder. */
  lemma {:induction false} WalkEntriesStops(dir: Path, entries: seq<Entry>, folderName: string, w: Walk, n: nat)
    requires n <= |entries| && WalkEntries(dir, entries[..n], folderName, w).Err?
    ensures WalkEntries(dir, entries, folderName, w) == WalkEntries(dir, entries[..n], folderName, w)
    decreases |entries| - n
  {
    if n < |entries| {
      var longer := entries[..n + 1];
      assert longer[..n] == entries[..n];
      assert WalkEntries(dir, longer, folderName, w) == WalkEntries(dir, entries[..n], folderName, w);
      WalkEntriesStops(dir, entries, folderName, w, n + 1);
    } else {
      assert entries[..n] == entries;
    }
  }

  /** One more entry walked after the first `i`. */
  lemma WalkEntriesStep(dir: Path, entries: seq<Entry>, folderName: string, w: Walk, i: nat, before: Walk)
    requires i < |entries| && WalkEntries(dir, entries[..i], folderName, w) == Ok(before)
    ensures WalkEntries(dir, entries[..i + 1], folderName, w) == WalkEntry(dir, entries[i], folderName, before)
  {
    assert entries[..i + 1][..i] == entries[..i];
  }

  /** The `.yaml` files below the folder at `folderPath`; none when it is missing. */
  function FilesUnder(root: Item, folderPath: Path): seq<Visited> {
    match Lookup(root, folderPath)
    case Some(Folder(entries)) => YamlFiles(folderPath, entries)
    case _ => []
  }

  /** The walk of `folderPath` gets through: it is no file, and every `.yaml` file below it is accepted. */
  predicate FolderReads(root: Item, folderPath: Path, folderName: string) {
    && !(Lookup(root, folderPath).Some? && Lookup(root, folderPath).value.File?)
    && AllAccepted(FilesUnder(root, folderPath), folderName)
  }

  /**
   * Lines 65-105: collectDataFromYamlFiles yields the documents of the `.yaml` files below the
   * folder in traversal order, and in the project folder leaves `projectId` at the last one's.
   */
  lemma TraverseCollects(root: Item, folderPath: Path, folderName: string, projectId: Option<Json>)
    ensures Traverse(root, folderPath, folderName, projectId).Ok? <==> FolderReads(root, folderPath, folderName)
    ensures Traverse(root, folderPath, folderName, projectId).Ok? ==>
      var w := Traverse(root, folderPath, folderName, projectId).value;
      var docs := Documents(FilesUnder(root, folderPath));
      && w.collected == docs
      && w.projectId == if folderName == "project" then LastProjectId(docs, projectId) else projectId
  {
    match Lookup(root, folderPath)
    case None =>
      assert Documents([]) == [];
    case Some(File(_)) =>
    case Some(Folder(entries)) =>
      WalkEntriesCollects(folderPath, entries, folderName, Walk([], projectId));
      assert [] + Documents(YamlFiles(folderPath, entries)) == Documents(YamlFiles(folderPath, entries));
  }
}

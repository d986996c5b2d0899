/**
 * The node ids that json_yaml.js encodes into file names and yaml_json.js decodes again:
 * `processPages` writes node `id` of a page to `<varName>_<id>.yaml`, and
 * `collectDataFromPages` keeps the text after the last `_` without `.yaml`.
 */
module NodeNames {
  import opened Base
  import opened JsonValues
  import opened Text
  import opened Tree
  import opened Sanitize
  import Export
  import opened PageImport

  /** The ids the round trip recovers: no `_`, and no `.yaml` inside. */
  predicate RecoverableId(id: string) {
    '_' !in id && !Contains(id, ".yaml")
  }

  /** Reading back the name of a node's file gives the node's id, whatever its `varName`. */
  lemma NodeIdRecovered(varName: Option<Json>, id: string)
    requires RecoverableId(id)
    ensures NodeIdOf(Export.NodeFileName(varName, id)) == id
  {
    var prefix := ToStr(varName);
    var s := Export.NodeFileName(varName, id);
    var t := id + ".yaml";
    assert s == prefix + "_" + t;
    var p := |prefix|;
    assert s[p] == '_';
    assert forall j :: p < j < |s| ==> s[j] == t[j - p - 1];
    assert '_' !in t;
    assert LastIndexOf(s, '_') == p;
    AfterLastIndex(s, '_');
    assert AfterLast(s, '_') == t;
    NoEarlierYaml(id);
    RemoveFirstAt(t, ".yaml", |id|);
    assert t[..|id|] == id;
  }

  /** `.yaml` first occurs in `id + ".yaml"` at its end when `id` does not contain it. */
  lemma NoEarlierYaml(id: string)
    requires !Contains(id, ".yaml")
    ensures OccursAt(id + ".yaml", ".yaml", |id|)
    ensures forall j :: 0 <= j < |id| ==> !OccursAt(id + ".yaml", ".yaml", j)
  {
    var t := id + ".yaml";
    assert t[|id|..] == ".yaml";
    forall j | 0 <= j < |id| ensures !OccursAt(t, ".yaml", j) {
      if j + 5 <= |id| {
        assert id[j..j + 5] == t[j..j + 5];
        assert !OccursAt(id, ".yaml", j);
      } else {
        // the `.` that starts the suffix would have to be a later letter of ".yaml"
        var d := |id| - j;
        assert t[j..j + 5][d] == t[|id|] == '.';
        assert ".yaml"[d] != '.';
      }
    }
  }

  /** An id with `_` is cut down to its last part. */
  lemma UnderscoreCutsId()
    ensures NodeIdOf(Export.NodeFileName(Some(JStr("btn")), "a_b")) == "b"
  {
    assert ToStr(Some(JStr("btn"))) == "btn";
    assert Export.NodeFileName(Some(JStr("btn")), "a_b") == "btn" + "_" + "a_b" + ".yaml";
    var s := "btn_a_b.yaml";
    assert "btn" + "_" + "a_b" + ".yaml" == s;
    assert s[5] == '_' && forall j :: 5 < j < |s| ==> s[j] != '_';
    assert LastIndexOf(s, '_') == 5;
    AfterLastIndex(s, '_');
    assert AfterLast(s, '_') == "b.yaml";
    assert "b.yaml"[1..6] == ".yaml";
    assert OccursAt("b.yaml", ".yaml", 0) == false;
    RemoveFirstAt("b.yaml", ".yaml", 1);
  }

  /** The file processPages writes for a node, as the import finds it (js-yaml loads what it dumped). */
  function ExportedNode(node: Member): Entry {
    Entry(Export.NodeFileName(ReadOpt(Some(node.value), "varName"), node.key), File(Yaml(Some(WithoutNulls(node.value)))))
  }

  function ExportedNodes(nodes: seq<Member>): (r: seq<Entry>)
    ensures |r| == |nodes|
  {
    seq(|nodes|, i requires 0 <= i < |nodes| => ExportedNode(nodes[i]))
  }

  /** The null-free nodes, in the order of `layout.nodes`. */
  function CleanNodes(nodes: seq<Member>): seq<Member> {
    seq(|nodes|, i requires 0 <= i < |nodes| => Member(nodes[i].key, WithoutNulls(nodes[i].value)))
  }

  /** Node ids that do not repeat and that the file names carry intact. */
  predicate Recoverable(nodes: seq<Member>) {
    Unique(nodes) && forall i :: 0 <= i < |nodes| ==> RecoverableId(nodes[i].key)
  }

  /**
   * A `nodes` folder holding the files processPages wrote, listed in the order it wrote them,
   * is read back as the page's nodes without their nulls.
   */
  lemma {:induction false} NodesRoundTrip(nodesDir: Path, nodes: seq<Member>)
    requires Recoverable(nodes)
    ensures NodeMembers(nodesDir, ExportedNodes(nodes)) == Ok(CleanNodes(nodes))
  {
    if nodes != [] {
      var init := nodes[..|nodes| - 1];
      var node := nodes[|nodes| - 1];
      RecoverableInit(nodes);
      NodesRoundTrip(nodesDir, init);
      NodesSnoc(nodes);
      NodeReadAppends(nodesDir, ExportedNodes(init), CleanNodes(init), node);
    } else {
      assert ExportedNodes(nodes) == [] && CleanNodes(nodes) == [];
    }
  }

  /** Dropping the last node keeps the others recoverable, and its id is none of theirs. */
  lemma RecoverableInit(nodes: seq<Member>)
    requires Recoverable(nodes) && nodes != []
    ensures Recoverable(nodes[..|nodes| - 1])
    ensures RecoverableId(nodes[|nodes| - 1].key)
    ensures nodes[|nodes| - 1].key !in Keys(CleanNodes(nodes[..|nodes| - 1]))
  {
    var init := nodes[..|nodes| - 1];
    assert forall i :: 0 <= i < |init| ==> init[i] == nodes[i];
    var before := CleanNodes(init);
    forall j | 0 <= j < |before| ensures before[j].key != nodes[|nodes| - 1].key {
      assert before[j].key == nodes[j].key;
    }
  }

  /** The files and the clean nodes of `nodes` are those of all but its last, then the last's. */
  lemma NodesSnoc(nodes: seq<Member>)
    requires nodes != []
    ensures var init := nodes[..|nodes| - 1]; var node := nodes[|nodes| - 1];
      && ExportedNodes(nodes) == ExportedNodes(init) + [ExportedNode(node)]
      && CleanNodes(nodes) == CleanNodes(init) + [Member(node.key, WithoutNulls(node.value))]
  {
    var init := nodes[..|nodes| - 1];
    assert forall i :: 0 <= i < |init| ==> init[i] == nodes[i];
  }

  /** The file of a node whose id is new adds that node, null-free, after the others. */
  lemma NodeReadAppends(nodesDir: Path, files: seq<Entry>, before: seq<Member>, node: Member)
    requires NodeMembers(nodesDir, files) == Ok(before)
    requires RecoverableId(node.key) && node.key !in Keys(before)
    ensures NodeMembers(nodesDir, files + [ExportedNode(node)]) == Ok(before + [Member(node.key, WithoutNulls(node.value))])
  {
    var file := ExportedNode(node);
    NodeSnocOk(nodesDir, files, file);
    NodeSnocValue(nodesDir, files, file, Some(WithoutNulls(node.value)));
    NodeIdRecovered(ReadOpt(Some(node.value), "varName"), node.key);
  }

  /** The files of `nodes` in any listing order, each at least once. */
  predicate ListsExported(files: seq<Entry>, nodes: seq<Member>) {
    && (forall f :: f in files ==> exists i :: 0 <= i < |nodes| && f == ExportedNode(nodes[i]))
    && (forall i :: 0 <= i < |nodes| ==> ExportedNode(nodes[i]) in files)
  }

  /** Whatever order the folder lists the node files in, every node is read back under its id, and nothing else. */
  lemma NodesAnyOrder(nodesDir: Path, nodes: seq<Member>, files: seq<Entry>)
    requires Recoverable(nodes) && ListsExported(files, nodes)
    ensures NodeMembers(nodesDir, files).Ok?
    ensures forall i :: 0 <= i < |nodes| ==> Get(NodeMembers(nodesDir, files).value, nodes[i].key) == Some(WithoutNulls(nodes[i].value))
    ensures forall k :: k !in Keys(nodes) ==> Get(NodeMembers(nodesDir, files).value, k).None?
  {
    forall q | 0 <= q < |files| ensures files[q].item.File? && files[q].item.content.Yaml? {
      ListedFile(nodes, files, q);
    }
    NodeMembersOk(nodesDir, files);
    forall i | 0 <= i < |nodes| ensures Get(NodeMembers(nodesDir, files).value, nodes[i].key) == Some(WithoutNulls(nodes[i].value)) {
      NodeReadBack(nodesDir, nodes, files, i);
    }
    forall k | k !in Keys(nodes) ensures Get(NodeMembers(nodesDir, files).value, k).None? {
      forall q | 0 <= q < |files| ensures NodeIdOf(files[q].name) != k {
        ListedFile(nodes, files, q);
      }
      NodesOnlyFromFiles(nodesDir, files, k);
    }
  }

  /** A listed file is the file of the node its name stands for. */
  lemma ListedFile(nodes: seq<Member>, files: seq<Entry>, q: nat)
    requires Recoverable(nodes) && ListsExported(files, nodes) && q < |files|
    ensures NodeIdOf(files[q].name) in Keys(nodes)
    ensures files[q] == ExportedNode(nodes[IdIndex(nodes, NodeIdOf(files[q].name))])
  {
    assert files[q] in files;
    var i :| 0 <= i < |nodes| && files[q] == ExportedNode(nodes[i]);
    NodeIdRecovered(ReadOpt(Some(nodes[i].value), "varName"), nodes[i].key);
    IdIndexAt(nodes, i);
  }

  /** Node `i` is read back from the listed files that stand for its id. */
  lemma NodeReadBack(nodesDir: Path, nodes: seq<Member>, files: seq<Entry>, i: nat)
    requires Recoverable(nodes) && ListsExported(files, nodes) && i < |nodes|
    requires NodeMembers(nodesDir, files).Ok?
    ensures Get(NodeMembers(nodesDir, files).value, nodes[i].key) == Some(WithoutNulls(nodes[i].value))
  {
    var k := nodes[i].key;
    IdIndexAt(nodes, i);
    var p :| 0 <= p < |files| && files[p] == ExportedNode(nodes[i]);
    NodeIdRecovered(ReadOpt(Some(nodes[i].value), "varName"), k);
    assert NodeIdOf(files[p].name) == k;
    forall q | 0 <= q < |files| && NodeIdOf(files[q].name) == k ensures files[q].item == File(Yaml(Some(WithoutNulls(nodes[i].value)))) {
      ListedFile(nodes, files, q);
    }
    NodesAgree(nodesDir, files, p, Some(WithoutNulls(nodes[i].value)));
  }

  /** The position of the node with id `k`. */
  function IdIndex(nodes: seq<Member>, k: string): nat
    requires k in Keys(nodes)
  {
    IndexOf(nodes, k).value
  }

  lemma IdIndexAt(nodes: seq<Member>, i: nat)
    requires Unique(nodes) && i < |nodes|
    ensures nodes[i].key in Keys(nodes) && IdIndex(nodes, nodes[i].key) == i
  {
    assert nodes[i] in nodes;
  }
}

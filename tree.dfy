/**
 * The checked-out repository as yaml_json.js reads it: a tree of folders and files. A folder
 * lists its entries in the order `readdirSync` returns them; a file holds the document
 * js-yaml parses out of it, or text it cannot parse.
 */
module Tree {
  import opened Base
  import opened JsonValues

  /** What `yaml.load` makes of a file: a value (`None` for an empty document) or a parse error. */
  datatype Content = Yaml(value: Option<Json>) | Malformed

  datatype Item = File(content: Content) | Folder(entries: seq<Entry>)

  datatype Entry = Entry(name: string, item: Item)

  /** The first entry called `name`: the one a path lookup reaches. */
  function Find(entries: seq<Entry>, name: string): (r: Option<Item>)
    ensures r.None? <==> forall i :: 0 <= i < |entries| ==> entries[i].name != name
    ensures r.Some? ==> exists i :: 0 <= i < |entries| && entries[i] == Entry(name, r.value)
  {
    if entries == [] then None
    else if entries[0].name == name then Some(entries[0].item)
    else
      var r := Find(entries[1..], name);
      assert r.Some? ==> exists i :: 0 <= i < |entries[1..]| && entries[1..][i] == Entry(name, r.value);
      assert r.Some? ==> exists i :: 1 <= i < |entries| && entries[i] == Entry(name, r.value);
      r
  }

  /** The item at `p`; `None` when something on the way is missing or is a file. */
  function Lookup(root: Item, p: Path): Option<Item>
    decreases p
  {
    if p == [] then Some(root)
    else
      match root
      case File(_) => None
      case Folder(entries) =>
        match Find(entries, p[0])
        case None => None
        case Some(child) => Lookup(child, p[1..])
  }

  /**
   * `readYamlFile`: the document of the file at `p`. A missing entry or a folder cannot be
   * read and text js-yaml rejects is a parse failure; either ends the process.
   */
  function ReadYamlFile(root: Item, p: Path): (r: Result<Option<Json>>)
    ensures r.Ok? <==> exists v :: Lookup(root, p) == Some(File(Yaml(v)))
    ensures Lookup(root, p) == Some(File(Malformed)) ==> r == Err(ParseFailure(p))
  {
    match Lookup(root, p)
    case Some(File(Yaml(v))) => Ok(v)
    case Some(File(Malformed)) => Err(ParseFailure(p))
    case _ => Err(ReadFailed(p))
  }
}

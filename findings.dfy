/**
 * fetchAllData as json_yaml.js is written. The request headers read `token` (line 187), an
 * identifier the file never declares, so building them throws a ReferenceError after the
 * seven folders have been cleared (line 177) and before any request is made; the catch of
 * lines 223-226 then ends the process. The rest of the model takes the token as given, as
 * yaml_json.js does (its line 12), through `Export.FetchAllData`.
 */
module TokenFinding {
  import opened Base
  import opened JsonValues
  import opened Disk
  import opened Export
  import opened ExportProperties

  /**
   * fetchAllData as written: the folders are deleted and the run ends with a ReferenceError
   * naming `token`.
   */
  method FetchAllDataAsWritten(disk: FileSystem) returns (err: Option<Error>)
    modifies disk
    ensures err == Some(ReferenceError("token"))
    ensures disk.State() == DeleteFolders(old(disk.State()), TopFolders)
  {
    DeleteFoldersOnDisk(disk, ["datasources", "components", "design", "functions", "pages", "project", "widgets"]);
    // `headers: { projectId: projectId, "x-digia-github-token": token }`
    return Some(ReferenceError("token"));
  }

  /**
   * As written, the export leaves its seven folders empty and everything else as it was; so
   * every file the intended export would write inside them is missing.
   */
  lemma TokenErasesExport(fs: Fs, payload: Option<Json>, q: Path)
    requires Valid(fs)
    requires q in ExportSpec(fs, payload).fs.files && !Outside(q, TopFolders)
    ensures q !in DeleteFolders(fs, TopFolders).files
  {
    ExportStartsClean(fs);
    var i :| 0 <= i < |TopFolders| && Under(q, [TopFolders[i]]);
    assert Cleared(DeleteFolders(fs, TopFolders), TopFolders[i]);
  }

  /** As written, the run never writes a file: what is left is a part of what was there. */
  lemma {:induction false} DeleteFoldersWritesNothing(fs: Fs, folders: seq<string>)
    ensures forall q :: q in DeleteFolders(fs, folders).files ==> q in fs.files && DeleteFolders(fs, folders).files[q] == fs.files[q]
  {
    if folders != [] {
      DeleteFoldersWritesNothing(fs, folders[..|folders| - 1]);
    }
  }
}

/**
 * How processAndSaveData in json_yaml.js names the files it writes: a record of a list is
 * named from its own fields, a single record from marker fields that select a design-token
 * kind or the project details.
 */
module Naming {
  import opened Base
  import opened JsonValues
  import opened Text
  import opened FileNames

  /** The value chosen among `name`, `displayName` and `functionName`: the last truthy one wins. */
  function NameField(item: Json, fileName: string): (r: Json)
    ensures Truthy(ReadOpt(Some(item), "functionName")) ==> Some(r) == ReadOpt(Some(item), "functionName")
    ensures (!Truthy(ReadOpt(Some(item), "functionName")) && Truthy(ReadOpt(Some(item), "displayName"))) ==>
      Some(r) == ReadOpt(Some(item), "displayName")
    ensures (!Truthy(ReadOpt(Some(item), "functionName")) && !Truthy(ReadOpt(Some(item), "displayName")) &&
      Truthy(ReadOpt(Some(item), "name"))) ==> Some(r) == ReadOpt(Some(item), "name")
    ensures (!Truthy(ReadOpt(Some(item), "functionName")) && !Truthy(ReadOpt(Some(item), "displayName")) &&
      !Truthy(ReadOpt(Some(item), "name"))) ==> r == JStr(fileName)
  {
    var functionName := ReadOpt(Some(item), "functionName");
    var displayName := ReadOpt(Some(item), "displayName");
    var name := ReadOpt(Some(item), "name");
    if Truthy(functionName) then functionName.value
    else if Truthy(displayName) then displayName.value
    else if Truthy(name) then name.value
    else JStr(fileName)
  }

  /** `sanitizeFileName(item.assetData.localPath)`, with the errors of each step. */
  function AssetStem(item: Json): Result<string>
    requires item != JNull
  {
    var assetData := ReadOpt(Some(item), "assetData");
    match Read(assetData, "localPath")
    case Err(e) => Err(e)
    case Ok(localPath) =>
      match localPath
      case Some(JStr(p)) => Ok(SanitizeFileName(p))
      case _ => Err(TypeError("The \"path\" argument must be of type string"))
  }

  /**
   * The stem of the file a record of a list is written to (without ".yaml"): the record's
   * `kind` in the environment folder, its sanitised asset path in the app-assets folder, and
   * otherwise its `functionName`, `displayName` or `name`, falling back to `fileName`. Reading
   * a field of a null record is a TypeError.
   */
  function ItemStem(item: Json, folderName: string, fileName: string): Result<string> {
    if item == JNull then Err(CannotRead("null", "name"))
    else if folderName == "environment" then Ok(ToStr(ReadOpt(Some(item), "kind")))
    else if folderName == "app-assets" then AssetStem(item)
    else Ok(Str(NameField(item, fileName)))
  }

  /** Lines 122-136 as written: the candidate is overwritten field by field. */
  method ItemFileName(item: Json, folderName: string, fileName: string) returns (r: Result<string>)
    ensures r == ItemStem(item, folderName, fileName)
  {
    if item == JNull {
      // `item.name` on null
      return Err(CannotRead("null", "name"));
    }
    var currentFileName := ChooseName(item, fileName);
    if folderName == "environment" {
      currentFileName := ReadOpt(Some(item), "kind");
    } else if folderName == "app-assets" {
      var safeName :- AssetFileName(item);
      currentFileName := Some(JStr(safeName));
    }
    var stem := ToStr(currentFileName);
    return Ok(stem);
  }

  /** Lines 122-126: `name`, then `displayName`, then `functionName` overwrite the default when truthy. */
  method ChooseName(item: Json, fileName: string) returns (currentFileName: Option<Json>)
    requires item != JNull
    ensures currentFileName == Some(NameField(item, fileName))
  {
    currentFileName := Some(JStr(fileName));
    var name := ReadOpt(Some(item), "name");
    if Truthy(name) {
      currentFileName := name;
    }
    var displayName := ReadOpt(Some(item), "displayName");
    if Truthy(displayName) {
      currentFileName := displayName;
    }
    var functionName := ReadOpt(Some(item), "functionName");
    if Truthy(functionName) {
      currentFileName := functionName;
    }
  }

  /** Line 135: `sanitizeFileName(item.assetData.localPath)`. */
  method AssetFileName(item: Json) returns (r: Result<string>)
    requires item != JNull
    ensures r == AssetStem(item)
  {
    var assetData := ReadOpt(Some(item), "assetData");
    var localPath :- Read(assetData, "localPath");
    if !(localPath.Some? && localPath.value.JStr?) {
      // path.extname rejects a path that is not a string
      return Err(TypeError("The \"path\" argument must be of type string"));
    }
    return Ok(SanitizeFileName(localPath.value.s));
  }

  /** An environment record is named by its `kind`, whatever its other fields say. */
  lemma EnvironmentNamedByKind(item: Json, fileName: string)
    requires item != JNull
    ensures ItemStem(item, "environment", fileName) == Ok(ToStr(ReadOpt(Some(item), "kind")))
  {
  }

  // ---- Single records ----

  /** A marker field and the file stem it selects. */
  datatype Marker = Marker(key: string, stem: string)

  /** The markers of a design record, in the order lines 149-165 test them. */
  const DesignMarkers: seq<Marker> := [
    Marker("TYPOGRAPHY", "font-tokens"),
    Marker("THEME", "color-tokens"),
    Marker("APP_SETTINGS", "app-settings"),
    Marker("APP_STATE", "app-state"),
    Marker("APP_ASSETS", "app-assets")
  ]

  /** The stem of the last marker that `data` carries a truthy value for, else `fallback`. */
  function LastMarker(data: Json, markers: seq<Marker>, fallback: string): string {
    if markers == [] then fallback
    else if Truthy(ReadOpt(Some(data), markers[|markers| - 1].key)) then markers[|markers| - 1].stem
    else LastMarker(data, markers[..|markers| - 1], fallback)
  }

  /**
   * The stem of the file a single record is written to. A design record is named after its
   * last marker; a project record with a truthy `appDetails.displayName` is "project-details";
   * anything else keeps the caller's folder name. Reading a marker of a null or undefined
   * design or project record is a TypeError.
   */
  function SingletonStem(parentFolderName: string, folderName: string, data: Option<Json>): Result<string> {
    if parentFolderName == "design" then
      if data.None? || data.value == JNull then
        Err(CannotRead(ToStr(data), "TYPOGRAPHY"))
      else Ok(LastMarker(data.value, DesignMarkers, folderName))
    else if parentFolderName == "project" then
      match Read(data, "appDetails")
      case Err(e) => Err(e)
      case Ok(appDetails) => Ok(if Truthy(ReadOpt(appDetails, "displayName")) then "project-details" else folderName)
    else Ok(folderName)
  }

  /** Lines 149-168 as written: six tests, each of which may overwrite `folderName`. */
  method SingletonFileName(parentFolderName: string, folderName: string, data: Option<Json>) returns (r: Result<string>)
    ensures r == SingletonStem(parentFolderName, folderName, data)
  {
    var stem := folderName;
    if parentFolderName == "design" {
      if data.None? || data.value == JNull {
        return Err(CannotRead(ToStr(data), "TYPOGRAPHY"));
      }
      stem := DesignFileName(data.value, folderName);
    }
    if parentFolderName == "project" {
      var appDetails :- Read(data, "appDetails");
      if Truthy(ReadOpt(appDetails, "displayName")) {
        stem := "project-details";
      }
    }
    return Ok(stem);
  }

  /** Lines 149-165 as written, for a design record that is neither null nor undefined. */
  method DesignFileName(data: Json, folderName: string) returns (stem: string)
    ensures stem == LastMarker(data, DesignMarkers, folderName)
  {
    DesignMarkersAre();
    stem := folderName;
    if Truthy(ReadOpt(Some(data), "TYPOGRAPHY")) {
      stem := "font-tokens";
    }
    LastMarkerStep(data, DesignMarkers, 0, folderName);
    assert stem == LastMarker(data, DesignMarkers[..1], folderName);
    if Truthy(ReadOpt(Some(data), "THEME")) {
      stem := "color-tokens";
    }
    LastMarkerStep(data, DesignMarkers, 1, folderName);
    assert stem == LastMarker(data, DesignMarkers[..2], folderName);
    if Truthy(ReadOpt(Some(data), "APP_SETTINGS")) {
      stem := "app-settings";
    }
    LastMarkerStep(data, DesignMarkers, 2, folderName);
    assert stem == LastMarker(data, DesignMarkers[..3], folderName);
    if Truthy(ReadOpt(Some(data), "APP_STATE")) {
      stem := "app-state";
    }
    LastMarkerStep(data, DesignMarkers, 3, folderName);
    assert stem == LastMarker(data, DesignMarkers[..4], folderName);
    if Truthy(ReadOpt(Some(data), "APP_ASSETS")) {
      stem := "app-assets";
    }
    LastMarkerStep(data, DesignMarkers, 4, folderName);
    assert DesignMarkers[..5] == DesignMarkers;
  }

  lemma DesignMarkersAre()
    ensures |DesignMarkers| == 5
    ensures DesignMarkers[0] == Marker("TYPOGRAPHY", "font-tokens")
    ensures DesignMarkers[1] == Marker("THEME", "color-tokens")
    ensures DesignMarkers[2] == Marker("APP_SETTINGS", "app-settings")
    ensures DesignMarkers[3] == Marker("APP_STATE", "app-state")
    ensures DesignMarkers[4] == Marker("APP_ASSETS", "app-assets")
  {
  }

  /** One more marker tested: it wins when truthy. */
  lemma LastMarkerStep(data: Json, markers: seq<Marker>, i: nat, fallback: string)
    requires i < |markers|
    ensures LastMarker(data, markers[..i + 1], fallback) ==
      if Truthy(ReadOpt(Some(data), markers[i].key)) then markers[i].stem else LastMarker(data, markers[..i], fallback)
  {
    assert markers[..i + 1][..i] == markers[..i];
  }

  /** The last truthy marker decides the stem. */
  lemma {:induction false} LastMarkerWins(data: Json, markers: seq<Marker>, fallback: string, i: nat)
    requires i < |markers| && Truthy(ReadOpt(Some(data), markers[i].key))
    requires forall j :: i < j < |markers| ==> !Truthy(ReadOpt(Some(data), markers[j].key))
    ensures LastMarker(data, markers, fallback) == markers[i].stem
  {
    if i < |markers| - 1 {
      LastMarkerWins(data, markers[..|markers| - 1], fallback, i);
    }
  }

  /** Without a truthy marker the fallback is kept. */
  lemma {:induction false} LastMarkerNone(data: Json, markers: seq<Marker>, fallback: string)
    requires forall j :: 0 <= j < |markers| ==> !Truthy(ReadOpt(Some(data), markers[j].key))
    ensures LastMarker(data, markers, fallback) == fallback
  {
    if markers != [] {
      LastMarkerNone(data, markers[..|markers| - 1], fallback);
    }
  }

  /** A design record with `THEME` and no later marker is named "color-tokens", whatever the caller passed. */
  lemma ThemeRoutesToColorTokens(folderName: string, d: Json)
    requires Truthy(ReadOpt(Some(d), "THEME"))
    requires !Truthy(ReadOpt(Some(d), "APP_SETTINGS")) && !Truthy(ReadOpt(Some(d), "APP_STATE")) && !Truthy(ReadOpt(Some(d), "APP_ASSETS"))
    ensures SingletonStem("design", folderName, Some(d)) == Ok("color-tokens")
  {
    LastMarkerWins(d, DesignMarkers, folderName, 1);
  }

  /** A design record without markers keeps the caller's folder name. */
  lemma NoMarkerKeepsFolder(folderName: string, d: Json)
    requires d != JNull
    requires forall j :: 0 <= j < |DesignMarkers| ==> !Truthy(ReadOpt(Some(d), DesignMarkers[j].key))
    ensures SingletonStem("design", folderName, Some(d)) == Ok(folderName)
  {
    LastMarkerNone(d, DesignMarkers, folderName);
  }
}

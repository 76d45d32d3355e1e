/** How a mod artifact is seen by the parser, and the first-match probe over
    the well-known metadata file names. */
module ArtifactLocator {
  import opened Wrappers

  type Bytes = seq<bv8>

  /** A zip or jar file: whether it opens as an archive, and its entries by
      name; `None` is an entry that is listed but cannot be opened. */
  datatype Archive = Archive(opens: bool, entries: map<string, Option<Bytes>>)

  /** A mod directory: the regular files at its root by name; `None` is a file
      that exists but cannot be opened. */
  datatype Folder = Folder(files: map<string, Option<Bytes>>)

  /** The one path a task is given, as an archive and as a directory; the
      mod type decides which view is used. */
  datatype ModFile = ModFile(archive: Archive, folder: Folder)

  const MCMOD_INFO: string := "mcmod.info"
  const FABRIC_MOD_JSON: string := "fabric.mod.json"
  const FORGE_VERSION_PROPERTIES: string := "forgeversion.properties"
  const LITEMOD_JSON: string := "litemod.json"

  /** Names probed in a zip, in priority order. */
  const ZIP_CANDIDATES: seq<string> := [MCMOD_INFO, FABRIC_MOD_JSON, FORGE_VERSION_PROPERTIES]
  /** Names probed in a directory. */
  const FOLDER_CANDIDATES: seq<string> := [MCMOD_INFO]
  /** Names probed in a litemod archive. */
  const LITEMOD_CANDIDATES: seq<string> := [LITEMOD_JSON]

  /** The outcome of probing: no candidate present, the first present one
      cannot be opened, or its contents. */
  datatype Probe = Missing | Unreadable(name: string) | Found(name: string, data: Bytes)

  /** The first candidate name present wins; if it cannot be opened the probe
      stops there and reports it, without trying later names. */
  function ProbeFirst(entries: map<string, Option<Bytes>>, names: seq<string>): (r: Probe)
    ensures r.Missing? <==> forall i :: 0 <= i < |names| ==> names[i] !in entries
    ensures !r.Missing? ==>
              exists k :: 0 <= k < |names| && names[k] == r.name && names[k] in entries
                          && (forall j :: 0 <= j < k ==> names[j] !in entries)
                          && (r.Found? <==> entries[names[k]].Some?)
                          && (r.Found? ==> r.data == entries[names[k]].value)
  {
    if names == [] then Missing
    else if names[0] in entries then
      match entries[names[0]]
      case Some(data) => Found(names[0], data)
      case None => Unreadable(names[0])
    else
      var r := ProbeFirst(entries, names[1..]);
      assert forall i :: 1 <= i < |names| ==> names[i] == names[1..][i - 1];
      if r.Missing? then r
      else
        var k :| 0 <= k < |names[1..]| && names[1..][k] == r.name && names[1..][k] in entries
                 && (forall j :: 0 <= j < k ==> names[1..][j] !in entries)
                 && (r.Found? <==> entries[names[1..][k]].Some?)
                 && (r.Found? ==> r.data == entries[names[1..][k]].value);
        assert names[k + 1] == names[1..][k];
        r
  }

  /** The probe's verdict is the one of the first present name: its contents
      when it opens, and otherwise a stop, whatever the later names hold. */
  lemma {:induction false} ProbeStopsAtFirstPresent(entries: map<string, Option<Bytes>>,
                                                    names: seq<string>, k: nat)
    requires k < |names| && names[k] in entries
    requires forall j :: 0 <= j < k ==> names[j] !in entries
    ensures ProbeFirst(entries, names)
            == match entries[names[k]]
               case Some(data) => Found(names[k], data)
               case None => Unreadable(names[k])
  {
    if k > 0 {
      assert names[0] !in entries;
      ProbeStopsAtFirstPresent(entries, names[1..], k - 1);
    }
  }
}

/** LocalModParseTask: locates the metadata file of one mod artifact, decodes
    it, stores the descriptor and reports completion with its token. */
module ParseTask {
  import opened Wrappers
  import opened QtJson
  import opened ModDetailsModel
  import opened ModInfoDecoders
  import opened ArtifactLocator

  /** Mod::ModType, the classification the caller supplies. */
  datatype ModType = ModUnknown | ModZipFile | ModSingleFile | ModFolder | ModLitemod

  /** The decoder selected by the name of the entry that matched. */
  function DecodeEntry(name: string, data: Bytes, parseJson: Bytes -> Document,
                       parseIni: Bytes -> Ini): (r: Option<ModDetails>)
    ensures name == MCMOD_INFO ==> r == ReadMCModInfo(parseJson(data))
    ensures name == FABRIC_MOD_JSON ==> r == ReadFabricModInfo(parseJson(data))
    ensures name == FORGE_VERSION_PROPERTIES ==> r == ReadForgeInfo(parseIni(data))
    ensures name == LITEMOD_JSON ==> r == ReadLiteModInfo(parseJson(data))
  {
    if name == MCMOD_INFO then ReadMCModInfo(parseJson(data))
    else if name == FABRIC_MOD_JSON then ReadFabricModInfo(parseJson(data))
    else if name == FORGE_VERSION_PROPERTIES then ReadForgeInfo(parseIni(data))
    else if name == LITEMOD_JSON then ReadLiteModInfo(parseJson(data))
    else None
  }

  /** The details after the zip path, given the details before it: set only
      when the archive opens and the first candidate present can be read. */
  function ZipOutcome(a: Archive, parseJson: Bytes -> Document, parseIni: Bytes -> Ini,
                      before: Option<ModDetails>): Option<ModDetails>
  {
    if !a.opens then before
    else match ProbeFirst(a.entries, ZIP_CANDIDATES)
      case Found(name, data) => DecodeEntry(name, data, parseJson, parseIni)
      case _ => before
  }

  /** The details after the directory path: only mcmod.info is read, and
      empty contents leave the details as they were. */
  function FolderOutcome(f: Folder, parseJson: Bytes -> Document,
                         before: Option<ModDetails>): Option<ModDetails>
  {
    match ProbeFirst(f.files, FOLDER_CANDIDATES)
    case Found(_, data) => if |data| == 0 then before else ReadMCModInfo(parseJson(data))
    case _ => before
  }

  /** The details after the litemod path: only litemod.json is read. */
  function LitemodOutcome(a: Archive, parseJson: Bytes -> Document, parseIni: Bytes -> Ini,
                          before: Option<ModDetails>): Option<ModDetails>
  {
    if !a.opens then before
    else match ProbeFirst(a.entries, LITEMOD_CANDIDATES)
      case Found(name, data) => DecodeEntry(name, data, parseJson, parseIni)
      case _ => before
  }

  /** The details after run(): the branch the mod type selects, or no change. */
  function RunOutcome(t: ModType, f: ModFile, parseJson: Bytes -> Document,
                      parseIni: Bytes -> Ini, before: Option<ModDetails>): Option<ModDetails>
  {
    match t
    case ModZipFile => ZipOutcome(f.archive, parseJson, parseIni, before)
    case ModFolder => FolderOutcome(f.folder, parseJson, before)
    case ModLitemod => LitemodOutcome(f.archive, parseJson, parseIni, before)
    case _ => before
  }

  class LocalModParseTask {
    const token: int
    const modType: ModType
    const modFile: ModFile
    /** QJsonDocument::fromJson and INIFile::loadFile, which are not modelled. */
    const parseJson: Bytes -> Document
    const parseIni: Bytes -> Ini

    /** m_result->details. */
    var details: Option<ModDetails>
    /** The tokens sent with the finished signal, in order. */
    var emitted: seq<int>
    /** Archives and entries currently open. */
    ghost var openHandles: nat

    constructor (token: int, modType: ModType, modFile: ModFile,
                 parseJson: Bytes -> Document, parseIni: Bytes -> Ini)
      ensures this.token == token && this.modType == modType && this.modFile == modFile
      ensures this.parseJson == parseJson && this.parseIni == parseIni
      ensures details == None && emitted == [] && openHandles == 0
    {
      this.token := token;
      this.modType := modType;
      this.modFile := modFile;
      this.parseJson := parseJson;
      this.parseIni := parseIni;
      details := None;
      emitted := [];
      openHandles := 0;
    }

    /** QuaZip::open / QFile::open of a container. */
    method OpenArchive(a: Archive) returns (ok: bool)
      modifies this`openHandles
      ensures ok == a.opens
      ensures openHandles == old(openHandles) + (if ok then 1 else 0)
    {
      ok := a.opens;
      if ok {
        openHandles := openHandles + 1;
      }
    }

    /** QuaZip::setCurrentFile / QFileInfo::isFile: is the name present. */
    static method HasEntry(entries: map<string, Option<Bytes>>, name: string)
      returns (present: bool)
      ensures present == (name in entries)
    {
      present := name in entries;
    }

    /** Opens a present entry for reading and reads all of it. */
    method OpenEntry(entries: map<string, Option<Bytes>>, name: string)
      returns (data: Option<Bytes>)
      requires name in entries
      modifies this`openHandles
      ensures data == entries[name]
      ensures openHandles == old(openHandles) + (if data.Some? then 1 else 0)
    {
      data := entries[name];
      if data.Some? {
        openHandles := openHandles + 1;
      }
    }

    /** Closes an open entry or archive. */
    method Close()
      requires openHandles >= 1
      modifies this`openHandles
      ensures openHandles == old(openHandles) - 1
    {
      openHandles := openHandles - 1;
    }

    /** Reads one candidate entry of an open archive and decodes it; on an
        entry that cannot be opened the details are left unchanged. Either
        way the archive is closed afterwards. */
    method ReadZipEntry(name: string)
      requires name in modFile.archive.entries && openHandles >= 1
      modifies this`details, this`openHandles
      ensures openHandles == old(openHandles) - 1
      ensures details == match modFile.archive.entries[name]
                         case Some(data) => DecodeEntry(name, data, parseJson, parseIni)
                         case None => old(details)
    {
      var data := OpenEntry(modFile.archive.entries, name);
      if data.None? {
        Close();
        return;
      }
      details := DecodeEntry(name, data.value, parseJson, parseIni);
      Close();
      Close();
    }

    /** processAsZip: probe mcmod.info, fabric.mod.json and
        forgeversion.properties in that order; the first present one decides. */
    method ProcessAsZip()
      modifies this`details, this`openHandles
      ensures openHandles == old(openHandles)
      ensures details == ZipOutcome(modFile.archive, parseJson, parseIni, old(details))
    {
      var entries := modFile.archive.entries;
      var isOpen := OpenArchive(modFile.archive);
      if !isOpen {
        return;
      }
      var present := HasEntry(entries, MCMOD_INFO);
      if present {
        ReadZipEntry(MCMOD_INFO);
        return;
      }
      assert ZIP_CANDIDATES[1..] == [FABRIC_MOD_JSON, FORGE_VERSION_PROPERTIES];
      assert ProbeFirst(entries, ZIP_CANDIDATES) == ProbeFirst(entries, ZIP_CANDIDATES[1..]);
      present := HasEntry(entries, FABRIC_MOD_JSON);
      if present {
        ReadZipEntry(FABRIC_MOD_JSON);
        return;
      }
      assert ZIP_CANDIDATES[1..][1..] == [FORGE_VERSION_PROPERTIES];
      assert ProbeFirst(entries, ZIP_CANDIDATES[1..]) == ProbeFirst(entries, ZIP_CANDIDATES[1..][1..]);
      present := HasEntry(entries, FORGE_VERSION_PROPERTIES);
      if present {
        ReadZipEntry(FORGE_VERSION_PROPERTIES);
        return;
      }
      assert ProbeFirst(entries, ZIP_CANDIDATES).Missing?;
      Close();
    }

    /** processAsFolder: only mcmod.info at the directory root, and only
        when it is non-empty. */
    method ProcessAsFolder()
      modifies this`details, this`openHandles
      ensures openHandles == old(openHandles)
      ensures details == FolderOutcome(modFile.folder, parseJson, old(details))
    {
      var files := modFile.folder.files;
      var present := HasEntry(files, MCMOD_INFO);
      if present {
        var data := OpenEntry(files, MCMOD_INFO);
        if data.None? {
          return;
        }
        if |data.value| == 0 {
          Close();  // the QFile is closed when it goes out of scope
          return;
        }
        details := ReadMCModInfo(parseJson(data.value));
        Close();
      }
    }

    /** processAsLitemod: only litemod.json. */
    method ProcessAsLitemod()
      modifies this`details, this`openHandles
      ensures openHandles == old(openHandles)
      ensures details == LitemodOutcome(modFile.archive, parseJson, parseIni, old(details))
    {
      var entries := modFile.archive.entries;
      var isOpen := OpenArchive(modFile.archive);
      if !isOpen {
        return;
      }
      var present := HasEntry(entries, LITEMOD_JSON);
      if present {
        var data := OpenEntry(entries, LITEMOD_JSON);
        if data.None? {
          Close();
          return;
        }
        details := DecodeEntry(LITEMOD_JSON, data.value, parseJson, parseIni);
        Close();
      }
      Close();
    }

    /** run: the branch the mod type selects, then exactly one finished
        signal carrying the token. */
    method Run()
      modifies this`details, this`openHandles, this`emitted
      ensures openHandles == old(openHandles)
      ensures details == RunOutcome(modType, modFile, parseJson, parseIni, old(details))
      ensures emitted == old(emitted) + [token]
    {
      match modType {
        case ModZipFile => ProcessAsZip();
        case ModFolder => ProcessAsFolder();
        case ModLitemod => ProcessAsLitemod();
        case _ =>
      }
      emitted := emitted + [token];
    }
  }
}

/** Properties of the locator and of a whole parse task. */
module TaskProperties {
  import opened Wrappers
  import opened QtJson
  import opened ModDetailsModel
  import opened ModInfoDecoders
  import opened ArtifactLocator
  import opened ParseTask

  /** A present mcmod.info decides a zip, whatever else the zip holds; if it
      cannot be opened the details are left as they were. */
  lemma ZipMcmodInfoWins(a: Archive, parseJson: Bytes -> Document, parseIni: Bytes -> Ini,
                         before: Option<ModDetails>)
    requires a.opens && MCMOD_INFO in a.entries
    ensures ZipOutcome(a, parseJson, parseIni, before)
            == match a.entries[MCMOD_INFO]
               case Some(data) => ReadMCModInfo(parseJson(data))
               case None => before
  {
  }

  /** Without mcmod.info, a present fabric.mod.json decides the zip. */
  lemma ZipFabricSecond(a: Archive, parseJson: Bytes -> Document, parseIni: Bytes -> Ini,
                        before: Option<ModDetails>)
    requires a.opens && MCMOD_INFO !in a.entries && FABRIC_MOD_JSON in a.entries
    ensures ZipOutcome(a, parseJson, parseIni, before)
            == match a.entries[FABRIC_MOD_JSON]
               case Some(data) => ReadFabricModInfo(parseJson(data))
               case None => before
  {
    assert ZIP_CANDIDATES[1..] == [FABRIC_MOD_JSON, FORGE_VERSION_PROPERTIES];
    assert ProbeFirst(a.entries, ZIP_CANDIDATES) == ProbeFirst(a.entries, ZIP_CANDIDATES[1..]);
  }

  /** forgeversion.properties is read only when neither earlier name is
      present. */
  lemma ZipForgeLast(a: Archive, parseJson: Bytes -> Document, parseIni: Bytes -> Ini,
                     before: Option<ModDetails>)
    requires a.opens && MCMOD_INFO !in a.entries && FABRIC_MOD_JSON !in a.entries
    requires FORGE_VERSION_PROPERTIES in a.entries
    ensures ZipOutcome(a, parseJson, parseIni, before)
            == match a.entries[FORGE_VERSION_PROPERTIES]
               case Some(data) => ReadForgeInfo(parseIni(data))
               case None => before
  {
    assert ZIP_CANDIDATES[1..] == [FABRIC_MOD_JSON, FORGE_VERSION_PROPERTIES];
    assert ZIP_CANDIDATES[1..][1..] == [FORGE_VERSION_PROPERTIES];
    assert ProbeFirst(a.entries, ZIP_CANDIDATES) == ProbeFirst(a.entries, ZIP_CANDIDATES[1..]);
    assert ProbeFirst(a.entries, ZIP_CANDIDATES[1..]) == ProbeFirst(a.entries, ZIP_CANDIDATES[1..][1..]);
  }

  /** No fallthrough: when the entry that matched cannot be opened, the
      details stay as they were even if a later candidate is readable. */
  lemma ZipNoFallthrough(a: Archive, parseJson: Bytes -> Document, parseIni: Bytes -> Ini,
                         before: Option<ModDetails>)
    requires a.opens && MCMOD_INFO !in a.entries
    requires FABRIC_MOD_JSON in a.entries && a.entries[FABRIC_MOD_JSON].None?
    ensures ZipOutcome(a, parseJson, parseIni, before) == before
  {
    ZipFabricSecond(a, parseJson, parseIni, before);
  }

  /** A zip that does not open, or that has none of the names, changes
      nothing. */
  lemma ZipNoMetadata(a: Archive, parseJson: Bytes -> Document, parseIni: Bytes -> Ini,
                      before: Option<ModDetails>)
    requires !a.opens || (MCMOD_INFO !in a.entries && FABRIC_MOD_JSON !in a.entries
                          && FORGE_VERSION_PROPERTIES !in a.entries)
    ensures ZipOutcome(a, parseJson, parseIni, before) == before
  {
    if a.opens {
      assert ProbeFirst(a.entries, ZIP_CANDIDATES).Missing?;
    }
  }

  /** A directory is judged by its mcmod.info alone. */
  lemma FolderReadsOnlyMcmodInfo(f: Folder, g: Folder, parseJson: Bytes -> Document,
                                 before: Option<ModDetails>)
    requires (MCMOD_INFO in f.files) == (MCMOD_INFO in g.files)
    requires MCMOD_INFO in f.files ==> f.files[MCMOD_INFO] == g.files[MCMOD_INFO]
    ensures FolderOutcome(f, parseJson, before) == FolderOutcome(g, parseJson, before)
  {
    assert ProbeFirst(f.files, FOLDER_CANDIDATES) == ProbeFirst(g.files, FOLDER_CANDIDATES);
  }

  /** A missing, unreadable or empty mcmod.info leaves a directory's details
      as they were; a non-empty one is decoded. */
  lemma FolderOutcomeCases(f: Folder, parseJson: Bytes -> Document, before: Option<ModDetails>)
    ensures MCMOD_INFO !in f.files ==> FolderOutcome(f, parseJson, before) == before
    ensures MCMOD_INFO in f.files && f.files[MCMOD_INFO] in {None, Some([])}
            ==> FolderOutcome(f, parseJson, before) == before
    ensures MCMOD_INFO in f.files && f.files[MCMOD_INFO].Some? && |f.files[MCMOD_INFO].value| > 0
            ==> FolderOutcome(f, parseJson, before) == ReadMCModInfo(parseJson(f.files[MCMOD_INFO].value))
  {
    assert FOLDER_CANDIDATES[1..] == [];
  }

  /** A litemod archive is judged by its litemod.json alone. */
  lemma LitemodOutcomeCases(a: Archive, parseJson: Bytes -> Document, parseIni: Bytes -> Ini,
                            before: Option<ModDetails>)
    ensures !a.opens || LITEMOD_JSON !in a.entries ==> LitemodOutcome(a, parseJson, parseIni, before) == before
    ensures a.opens && LITEMOD_JSON in a.entries
            ==> LitemodOutcome(a, parseJson, parseIni, before)
                == match a.entries[LITEMOD_JSON]
                   case Some(data) => ReadLiteModInfo(parseJson(data))
                   case None => before
  {
    assert LITEMOD_CANDIDATES[1..] == [];
  }

  /** run does nothing for a type it does not handle. */
  lemma RunOtherTypesChangeNothing(t: ModType, f: ModFile, parseJson: Bytes -> Document,
                                   parseIni: Bytes -> Ini, before: Option<ModDetails>)
    requires t == ModUnknown || t == ModSingleFile
    ensures RunOutcome(t, f, parseJson, parseIni, before) == before
  {
  }

  /** A caller that makes one task and runs it: the result is the outcome of
      the selected branch on empty details, and the finished signal has been
      sent exactly once, with the task's token. */
  method ParseMod(token: int, t: ModType, f: ModFile, parseJson: Bytes -> Document,
                  parseIni: Bytes -> Ini)
    returns (details: Option<ModDetails>, signals: seq<int>)
    ensures details == RunOutcome(t, f, parseJson, parseIni, None)
    ensures signals == [token]
  {
    var task := new LocalModParseTask(token, t, f, parseJson, parseIni);
    task.Run();
    details, signals := task.details, task.emitted;
  }
}

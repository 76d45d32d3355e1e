/** The four metadata decoders of LocalModParseTask.cpp. Each takes the already
    parsed contents of one metadata file and builds a descriptor; the text
    parsers themselves are outside the model. */
module ModInfoDecoders {
  import opened Wrappers
  import opened QtJson
  import opened QtString
  import opened ModDetailsModel

  /* ---------- mcmod.info ---------- */

  /** The placeholder name of Forge's example mod, which is never shown. */
  const EXAMPLE_MOD_NAME: string := "Example Mod"

  /** The URL schemes a homepage may already carry. */
  predicate HasScheme(url: string)
  {
    StartsWith(url, "http://") || StartsWith(url, "https://") || StartsWith(url, "ftp://")
  }

  /** The homepage fix-up: trim, and give a non-empty URL without a known
      scheme the prefix "http://". */
  function NormaliseHomeUrl(raw: string): (r: string)
    ensures r == [] <==> Trimmed(raw) == []
    ensures r != [] ==> HasScheme(r)
    ensures HasScheme(Trimmed(raw)) ==> r == Trimmed(raw)
    ensures Trimmed(raw) != [] && !HasScheme(Trimmed(raw)) ==> r == "http://" + Trimmed(raw)
  {
    var url := Trimmed(raw);
    if url != [] && !HasScheme(url) then
      assert StartsWith("http://" + url, "http://") by {
        assert ("http://" + url)[..7] == "http://";
      }
      "http://" + url
    else url
  }

  /** The author names of a mod-list entry: the "authorList" array, or the
      "authors" array when "authorList" is empty or missing, each element
      turned into a string. */
  function MCModAuthors(obj: map<string, Json>): (r: seq<string>)
    ensures var list := ToArray(Value(obj, "authorList"));
            |list| > 0 ==> |r| == |list| && forall i :: 0 <= i < |r| ==> r[i] == ToString(list[i])
    ensures var list := ToArray(Value(obj, "authorList"));
            var alt := ToArray(Value(obj, "authors"));
            |list| == 0 ==> |r| == |alt| && forall i :: 0 <= i < |r| ==> r[i] == ToString(alt[i])
  {
    var list := ToArray(Value(obj, "authorList"));
    var used := if |list| == 0 then ToArray(Value(obj, "authors")) else list;
    seq(|used|, i requires 0 <= i < |used| => ToString(used[i]))
  }

  /** The descriptor built from the first object of a mod list. */
  function MCModEntry(obj: map<string, Json>): (r: ModDetails)
    ensures r.name != EXAMPLE_MOD_NAME
    ensures ToString(Value(obj, "name")) == EXAMPLE_MOD_NAME ==> r.name == ""
    ensures ToString(Value(obj, "name")) != EXAMPLE_MOD_NAME ==> r.name == ToString(Value(obj, "name"))
    ensures r.mod_id == ToString(Value(obj, "modid")) && r.version == ToString(Value(obj, "version"))
    ensures r.updateurl == ToString(Value(obj, "updateUrl"))
    ensures r.description == ToString(Value(obj, "description"))
    ensures r.credits == ToString(Value(obj, "credits"))
    ensures r.homeurl == NormaliseHomeUrl(ToString(Value(obj, "url")))
    ensures r.homeurl == [] || HasScheme(r.homeurl)
    ensures r.authors == MCModAuthors(obj)
    ensures r.mcversion == []
  {
    var name := ToString(Value(obj, "name"));
    Blank.(
      mod_id := ToString(Value(obj, "modid")),
      name := if name != EXAMPLE_MOD_NAME then name else "",
      version := ToString(Value(obj, "version")),
      updateurl := ToString(Value(obj, "updateUrl")),
      homeurl := NormaliseHomeUrl(ToString(Value(obj, "url"))),
      description := ToString(Value(obj, "description")),
      authors := MCModAuthors(obj),
      credits := ToString(Value(obj, "credits")))
  }

  /** getInfoFromArray: only element 0 of the list is read, and it must be an
      object. */
  function GetInfoFromArray(arr: seq<Json>): (r: Option<ModDetails>)
    ensures r.None? <==> |arr| == 0 || !arr[0].JObject?
    ensures r.Some? ==> r.value == MCModEntry(arr[0].fields)
  {
    var first := At(arr, 0);
    if first.JObject? then Some(MCModEntry(first.fields)) else None
  }

  /** Looks `key` up, falling back to `fallback` when `key` is undefined. */
  function ValueOr(obj: map<string, Json>, key: string, fallback: string): Json
  {
    var v := Value(obj, key);
    if v.JUndefined? then Value(obj, fallback) else v
  }

  /** The mod-list format version of a versioned object file. */
  function ModInfoVersion(obj: map<string, Json>): int
  {
    ToDouble(ValueOr(obj, "modinfoversion", "modListVersion"))
  }

  /** The mod list of a versioned object file. */
  function ModListValue(obj: map<string, Json>): Json
  {
    ValueOr(obj, "modlist", "modList")
  }

  /** ReadMCModInfo: a bare array is the mod list itself; an object must have
      version 2 and carry its list as an array; anything else gives nothing. */
  function ReadMCModInfo(doc: Document): (r: Option<ModDetails>)
    ensures doc.None? || !(doc.value.JArray? || doc.value.JObject?) ==> r.None?
    ensures doc.Some? && doc.value.JArray? ==> r == GetInfoFromArray(doc.value.items)
    ensures doc.Some? && doc.value.JObject? && ModInfoVersion(doc.value.fields) != 2 ==> r.None?
    ensures doc.Some? && doc.value.JObject? && !ModListValue(doc.value.fields).JArray? ==> r.None?
    ensures doc.Some? && doc.value.JObject? && ModInfoVersion(doc.value.fields) == 2
            && ModListValue(doc.value.fields).JArray?
            ==> r == GetInfoFromArray(ModListValue(doc.value.fields).items)
    ensures r.Some? ==> r.value.name != EXAMPLE_MOD_NAME
    ensures r.Some? ==> r.value.homeurl == [] || HasScheme(r.value.homeurl)
  {
    match doc
    case Some(JArray(arr)) => GetInfoFromArray(arr)
    case Some(JObject(obj)) =>
      if ModInfoVersion(obj) != 2 then None
      else if ModListValue(obj).JArray? then GetInfoFromArray(ModListValue(obj).items)
      else None
    case _ => None
  }

  /* ---------- fabric.mod.json ---------- */

  /** The schema version, 0 when the key is absent or not a number. */
  function FabricSchemaVersion(obj: map<string, Json>): int
  {
    if "schemaVersion" in obj then ToInt(Value(obj, "schemaVersion"), 0) else 0
  }

  /** One Fabric author: an object gives its "name", anything else its string. */
  function FabricAuthorName(author: Json): string
  {
    if author.JObject? then ToString(Value(author.fields, "name")) else ToString(author)
  }

  function FabricAuthors(obj: map<string, Json>): (r: seq<string>)
    ensures |r| == |ToArray(Value(obj, "authors"))|
    ensures forall i :: 0 <= i < |r| ==> r[i] == FabricAuthorName(ToArray(Value(obj, "authors"))[i])
  {
    var list := ToArray(Value(obj, "authors"));
    seq(|list|, i requires 0 <= i < |list| => FabricAuthorName(list[i]))
  }

  /** The homepage: set only when "contact" is present and holds "homepage". */
  function FabricHomeUrl(obj: map<string, Json>): (r: string)
    ensures r != [] ==> "contact" in obj && "homepage" in ToObject(obj["contact"])
    ensures "contact" in obj && "homepage" in ToObject(obj["contact"])
            ==> r == ToString(ToObject(obj["contact"])["homepage"])
  {
    if "contact" in obj then
      var contact := ToObject(Value(obj, "contact"));
      if "homepage" in contact then ToString(Value(contact, "homepage")) else ""
    else ""
  }

  /** ReadFabricModInfo: a descriptor is always produced; authors and homepage
      are read only from schema version 1 on. */
  function ReadFabricModInfo(doc: Document): (r: Option<ModDetails>)
    ensures r.Some?
    ensures var obj := DocObject(doc);
            r.value.mod_id == ToString(Value(obj, "id"))
            && ("name" !in obj ==> r.value.name == r.value.mod_id)
            && ("name" in obj ==> r.value.name == ToString(obj["name"]))
    ensures r.value.version == ToString(Value(DocObject(doc), "version"))
    ensures r.value.description == ToString(Value(DocObject(doc), "description"))
    ensures FabricSchemaVersion(DocObject(doc)) >= 1 ==> r.value.homeurl == FabricHomeUrl(DocObject(doc))
    ensures FabricSchemaVersion(DocObject(doc)) < 1 ==> r.value.authors == [] && r.value.homeurl == []
    ensures "schemaVersion" !in DocObject(doc) ==> r.value.authors == [] && r.value.homeurl == []
    ensures FabricSchemaVersion(DocObject(doc)) >= 1 ==> r.value.authors == FabricAuthors(DocObject(doc))
    ensures r.value.homeurl != [] ==>
              FabricSchemaVersion(DocObject(doc)) >= 1 && "contact" in DocObject(doc)
              && "homepage" in ToObject(DocObject(doc)["contact"])
    ensures r.value.mcversion == [] && r.value.updateurl == [] && r.value.credits == []
  {
    var obj := DocObject(doc);
    var schema := FabricSchemaVersion(obj);
    var id := ToString(Value(obj, "id"));
    var d := Blank.(
      mod_id := id,
      version := ToString(Value(obj, "version")),
      name := if "name" in obj then ToString(Value(obj, "name")) else id,
      description := ToString(Value(obj, "description")));
    if schema >= 1 then
      Some(d.(authors := FabricAuthors(obj), homeurl := FabricHomeUrl(obj)))
    else Some(d)
  }

  /* ---------- forgeversion.properties ---------- */

  /** The result of loading an INI file: its key/value pairs, or `None` when
      loading failed. */
  type Ini = Option<map<string, string>>

  const FORGE_ID: string := "Forge"
  const FORGE_NAME: string := "Minecraft Forge"
  const FORGE_HOMEPAGE: string := "http://www.minecraftforge.net/forum/"

  /** INIFile::get(key, default). */
  function IniGet(m: map<string, string>, key: string, default: string): string
  {
    if key in m then m[key] else default
  }

  function ForgeVersion(m: map<string, string>): (r: string)
    ensures ("forge.major.number" !in m && "forge.minor.number" !in m
             && "forge.revision.number" !in m && "forge.build.number" !in m) ==> r == "0.0.0.0"
  {
    IniGet(m, "forge.major.number", "0") + "." + IniGet(m, "forge.minor.number", "0") + "."
      + IniGet(m, "forge.revision.number", "0") + "." + IniGet(m, "forge.build.number", "0")
  }

  /** ReadForgeInfo: fixed identity; the version only when the INI loaded. */
  function ReadForgeInfo(ini: Ini): (r: Option<ModDetails>)
    ensures r.Some?
    ensures r.value.mod_id == FORGE_ID && r.value.name == FORGE_NAME && r.value.homeurl == FORGE_HOMEPAGE
    ensures ini.None? ==> r.value.version == []
    ensures ini.Some? ==> r.value.version == ForgeVersion(ini.value)
    ensures r.value.authors == []
    ensures r.value.mcversion == [] && r.value.updateurl == [] && r.value.description == []
            && r.value.credits == []
  {
    var d := Blank.(name := FORGE_NAME, mod_id := FORGE_ID, homeurl := FORGE_HOMEPAGE);
    match ini
    case None => Some(d)
    case Some(m) => Some(d.(version := ForgeVersion(m)))
  }

  /* ---------- litemod.json ---------- */

  /** ReadLiteModInfo: id and name both from "name", version from "version"
      or else "revision", at most one author. */
  function ReadLiteModInfo(doc: Document): (r: Option<ModDetails>)
    ensures r.Some?
    ensures r.value.mod_id == r.value.name
    ensures var obj := DocObject(doc);
            r.value.name == (if "name" in obj then ToString(obj["name"]) else "")
    ensures var obj := DocObject(doc);
            r.value.version == ToString(if "version" in obj then obj["version"] else Value(obj, "revision"))
    ensures |r.value.authors| <= 1
    ensures |r.value.authors| == 1 <==> ToString(Value(DocObject(doc), "author")) != []
    ensures r.value.authors != [] ==> r.value.authors[0] == ToString(Value(DocObject(doc), "author"))
    ensures r.value.mcversion == ToString(Value(DocObject(doc), "mcversion"))
    ensures r.value.description == ToString(Value(DocObject(doc), "description"))
    ensures r.value.homeurl == ToString(Value(DocObject(doc), "url"))
    ensures r.value.updateurl == [] && r.value.credits == []
  {
    var obj := DocObject(doc);
    var name := if "name" in obj then ToString(Value(obj, "name")) else "";
    var author := ToString(Value(obj, "author"));
    Some(Blank.(
      mod_id := name,
      name := name,
      version := if "version" in obj then ToString(Value(obj, "version"))
                 else ToString(Value(obj, "revision")),
      mcversion := ToString(Value(obj, "mcversion")),
      authors := if author != [] then [author] else [],
      description := ToString(Value(obj, "description")),
      homeurl := ToString(Value(obj, "url"))))
  }
}

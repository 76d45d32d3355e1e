# Mod metadata parsing (LocalModParseTask)

A Dafny model of MultiMC's local mod parse task. Given one mod artifact (a
zip or jar, a directory, or a litemod archive) and the way the caller
classified it, the task finds the metadata file of the mod loader that made
it, decodes it into a `ModDetails` descriptor and sends its completion
signal with its correlation token.

- `wrappers.dfy`: `Option`. It stands for every pointer that may be null.
- `qt_json.dfy`: Qt's JSON values with their total accessors (`value`,
  `at`, `toString`, `toArray`, `toObject`, `toDouble`, `toInt`,
  `QJsonDocument::object`). A document is `Option<Json>`; `None` is a
  failed parse.
- `qt_string.dfy`: `QString::trimmed` and `startsWith`, with the shape and
  idempotence of trimming.
- `mod_details.dfy`: the descriptor.
- `decoders.dfy`: the four decoders `ReadMCModInfo` (with
  `getInfoFromArray`), `ReadFabricModInfo`, `ReadForgeInfo` and
  `ReadLiteModInfo`, as functions of the parsed input.
- `decoder_properties.dfy`: lemmas relating several decoder inputs or calls.
- `locator.dfy`: the artifact as an archive record and a directory record,
  and `ProbeFirst`, the first-match rule over the fixed candidate names.
- `parse_task.dfy`: the class `LocalModParseTask`. It has the mutable
  `details` slot, the log of emitted tokens, a ghost count of open handles and
  the imperative methods `ProcessAsZip`, `ProcessAsFolder`,
  `ProcessAsLitemod` and `Run`. Each method is proved equal to an outcome
  function.
- `task_properties.dfy`: the priority, no-fallthrough, directory, litemod and
  dispatch properties of those outcome functions, and a caller that runs one
  task.

The JSON and INI text parsers are the constant fields `parseJson` and
`parseIni` of the task. They are arbitrary functions, so every result holds
for whatever parser is plugged in.

When `forgeversion.properties` does not load as an INI file, the version is
left empty (lines 143-144), not "0.0.0.0". The version is "0.0.0.0" when the
file loads and each of the four keys is missing or "0".

## Model

| member | source | states |
|---|---|---|
| QtString.TrimmedShape | api/logic/minecraft/mod/LocalModParseTask.cpp:37 | trimmed() leaves no white space at either end and removes only white space, only at the ends |
| QtString.TrimmedIdempotent | api/logic/minecraft/mod/LocalModParseTask.cpp:37 | trimming twice equals trimming once |
| ModInfoDecoders.NormaliseHomeUrl | api/logic/minecraft/mod/LocalModParseTask.cpp:37-46 | the homepage is empty exactly when the trimmed url is empty; a non-empty one has an http, https or ftp scheme; a trimmed url that has a scheme is kept; any other gets "http://" in front |
| DecoderProperties.HomeUrlIdempotent | api/logic/minecraft/mod/LocalModParseTask.cpp:37-46 | normalising a homepage twice gives the same result as normalising it once |
| DecoderProperties.HomeUrlBareHost | api/logic/minecraft/mod/LocalModParseTask.cpp:41-44 | "example.com" becomes "http://example.com" |
| DecoderProperties.HomeUrlWithScheme | api/logic/minecraft/mod/LocalModParseTask.cpp:41 | "https://example.com" is unchanged |
| DecoderProperties.HomeUrlBlank | api/logic/minecraft/mod/LocalModParseTask.cpp:37-38 | an empty or blank url gives an empty homepage |
| ModInfoDecoders.MCModAuthors | api/logic/minecraft/mod/LocalModParseTask.cpp:48-57 | the authors are the authorList elements as strings, in order and as many; only when authorList has size 0 are they the authors elements instead |
| ModInfoDecoders.MCModEntry | api/logic/minecraft/mod/LocalModParseTask.cpp:27-59 | the name is "" when it is "Example Mod" and copied otherwise; mod_id, version, updateurl, description and credits are copied from modid, version, updateUrl, description and credits; the homepage is the normalised url; the authors are MCModAuthors of the entry |
| ModInfoDecoders.GetInfoFromArray | api/logic/minecraft/mod/LocalModParseTask.cpp:22-28 | no descriptor exactly when the list is empty or its element 0 is not an object; otherwise the descriptor of element 0 |
| DecoderProperties.GetInfoFromArrayReadsFirstOnly | api/logic/minecraft/mod/LocalModParseTask.cpp:24-28 | elements after element 0 of a mod list never change the result |
| ModInfoDecoders.ReadMCModInfo | api/logic/minecraft/mod/LocalModParseTask.cpp:61-90 | a failed parse or a document that is neither array nor object gives nothing; a bare array is the mod list; an object whose version is not 2 or whose list is not an array gives nothing; an object with version 2 and an array list gives the result of that list; any result has a non-placeholder name and a homepage that has a scheme or is empty |
| DecoderProperties.MCModVersionGate | api/logic/minecraft/mod/LocalModParseTask.cpp:70-80 | an accepted object has version number 2 under modinfoversion, or under modListVersion when modinfoversion is undefined |
| DecoderProperties.MCModListSource | api/logic/minecraft/mod/LocalModParseTask.cpp:81-88 | an accepted object has an array under modlist, or under modList when modlist is undefined; element 0 of it is an object and the result is built from that object |
| DecoderProperties.MCModCurrentKeysAccepted | api/logic/minecraft/mod/LocalModParseTask.cpp:70-88 | a file with modinfoversion 2 and a modlist whose first element is an object is decoded from that element |
| DecoderProperties.MCModLegacyKeysAccepted | api/logic/minecraft/mod/LocalModParseTask.cpp:70-88 | a file with only modListVersion 2 and a modList whose first element is an object is decoded from that element |
| ModInfoDecoders.FabricAuthors | api/logic/minecraft/mod/LocalModParseTask.cpp:111-120 | one author per array element, in order, each the name of an object or the string of anything else |
| ModInfoDecoders.FabricHomeUrl | api/logic/minecraft/mod/LocalModParseTask.cpp:122-130 | the homepage is contact.homepage as a string when contact is present and contains homepage, and empty otherwise |
| ModInfoDecoders.ReadFabricModInfo | api/logic/minecraft/mod/LocalModParseTask.cpp:94-133 | a descriptor is always produced; mod_id, version and description are copied from id, version and description; the name is copied from name when present and is the id otherwise; below schema 1, and when schemaVersion is absent, there are no authors and no homepage; from schema 1 on the authors are the authors array and the homepage is FabricHomeUrl |
| DecoderProperties.FabricAuthorFormsAgree | api/logic/minecraft/mod/LocalModParseTask.cpp:112-120 | authors given as strings X and as objects {"name": X} give the same descriptor, whose authors are the names |
| ModInfoDecoders.ForgeVersion | api/logic/minecraft/mod/LocalModParseTask.cpp:146-151 | a map with none of the four forge keys gives "0.0.0.0" |
| DecoderProperties.ForgeVersionFields | api/logic/minecraft/mod/LocalModParseTask.cpp:146-151 | when no component contains a dot, splitting the version on its dots gives back major, minor, revision and build in that order, each "0" when its key is missing |
| ModInfoDecoders.ReadForgeInfo | api/logic/minecraft/mod/LocalModParseTask.cpp:135-153 | the descriptor is always "Forge", "Minecraft Forge", the Forge forum URL; a failed INI load leaves the version empty; otherwise the version is the four components joined by dots; mcversion, updateurl, description, credits and authors stay empty |
| ModInfoDecoders.ReadLiteModInfo | api/logic/minecraft/mod/LocalModParseTask.cpp:155-181 | a descriptor is always produced; mod_id equals name, both from name when present, else empty; the version comes from version when present, else from revision; mcversion, description and homeurl are copied from mcversion, description and url; at most one author, exactly one when author is a non-empty string; updateurl and credits stay empty |
| ArtifactLocator.ProbeFirst | api/logic/minecraft/mod/LocalModParseTask.cpp:201-239 | nothing is found exactly when no candidate is present; otherwise the verdict is about the first present candidate, and it is its contents exactly when that entry opens |
| ArtifactLocator.ProbeStopsAtFirstPresent | api/logic/minecraft/mod/LocalModParseTask.cpp:201-239 | the first present candidate decides the probe, and an unopenable one stops the probe whatever later candidates hold |
| ParseTask.DecodeEntry | api/logic/minecraft/mod/LocalModParseTask.cpp:209-275 | the entry name selects the decoder: mcmod.info, fabric.mod.json and litemod.json the JSON ones, forgeversion.properties the INI one; the zip and litemod paths both decode through it |
| ParseTask.LocalModParseTask.constructor | api/logic/minecraft/mod/LocalModParseTask.cpp:185-191 | a new task has the given token, type and file, no details and no emitted signal |
| ParseTask.LocalModParseTask.ReadZipEntry | api/logic/minecraft/mod/LocalModParseTask.cpp:203-212 | an unopenable entry closes the archive and leaves the details; an opened one is decoded, then the entry and the archive are closed |
| ParseTask.LocalModParseTask.ProcessAsZip | api/logic/minecraft/mod/LocalModParseTask.cpp:193-242 | the new details are the zip outcome of the archive; every path leaves no open handle |
| ParseTask.LocalModParseTask.ProcessAsFolder | api/logic/minecraft/mod/LocalModParseTask.cpp:244-257 | the new details are the directory outcome; no handle stays open |
| ParseTask.LocalModParseTask.ProcessAsLitemod | api/logic/minecraft/mod/LocalModParseTask.cpp:259-279 | the new details are the litemod outcome; every path leaves no open handle |
| ParseTask.LocalModParseTask.Run | api/logic/minecraft/mod/LocalModParseTask.cpp:281-298 | the details are set by the branch the type selects; no handle stays open; exactly the task's token is appended to the emitted log |
| TaskProperties.ZipMcmodInfoWins | api/logic/minecraft/mod/LocalModParseTask.cpp:201-213 | a present mcmod.info decides the zip whatever else it holds; unopenable, it leaves the details unchanged |
| TaskProperties.ZipFabricSecond | api/logic/minecraft/mod/LocalModParseTask.cpp:214-226 | without mcmod.info, a present fabric.mod.json decides the zip |
| TaskProperties.ZipForgeLast | api/logic/minecraft/mod/LocalModParseTask.cpp:227-239 | forgeversion.properties is used only when neither earlier name is present |
| TaskProperties.ZipNoFallthrough | api/logic/minecraft/mod/LocalModParseTask.cpp:214-220 | an unopenable matched entry leaves the details unchanged even when a later candidate could be read |
| TaskProperties.ZipNoMetadata | api/logic/minecraft/mod/LocalModParseTask.cpp:195-197 | a zip that does not open or has none of the names changes nothing |
| TaskProperties.FolderReadsOnlyMcmodInfo | api/logic/minecraft/mod/LocalModParseTask.cpp:246-255 | two directories with the same mcmod.info give the same outcome |
| TaskProperties.FolderOutcomeCases | api/logic/minecraft/mod/LocalModParseTask.cpp:246-255 | a missing, unreadable or empty mcmod.info changes nothing; a non-empty one is decoded |
| TaskProperties.LitemodOutcomeCases | api/logic/minecraft/mod/LocalModParseTask.cpp:261-278 | a litemod archive that does not open or lacks litemod.json changes nothing; otherwise litemod.json decides |
| TaskProperties.RunOtherTypesChangeNothing | api/logic/minecraft/mod/LocalModParseTask.cpp:283-296 | run does nothing for a type other than zip file, folder and litemod |
| TaskProperties.ParseMod | api/logic/minecraft/mod/LocalModParseTask.cpp:185-298 | a new task that runs once ends with the outcome of its branch on empty details, and it has emitted exactly its own token once |

## Left out

- JSON and INI text parsing (`QJsonDocument::fromJson`, `INIFile::loadFile`) are library code. They are the task's arbitrary function fields `parseJson` and `parseIni`.
- JSON numbers are integers. The truncation of `toDouble()` to `int` at line 74 is floating-point behaviour and is not modelled; a fractional version such as 2.5, which the code accepts, cannot be written. Precision loss above 2^53 is not modelled either.
- QJsonObject never stores an Undefined value, but the model's maps could. Key lookups therefore use Qt's own "undefined" result, and the lemmas state key presence explicitly.
- QuaZip, QuaZipFile, QFile, `FS::PathCombine` and `QFileInfo::isFile` are replaced by the `Archive` and `Folder` records. Opening and closing count up and down a ghost counter. The directory case counts the close done by the QFile destructor when the file goes out of scope.
- `qCritical` logging at lines 77-78 is left out, and so is the `shared_ptr` and `Result` allocation: the details slot is an `Option` field.
- Thread scheduling of `run` and Qt signal delivery are left out. `emit finished(m_token)` is an append to the `emitted` log.
- QtString.IsSpace: the white-space set is QChar::isSpace's as written out in the model (tab to carriage return, space, U+0085, U+00A0 and the Unicode space, line and paragraph separators); it is not checked against the Unicode tables of a particular Qt version.
- ModDetails.h and Mod.h are not part of this model. The descriptor's field set is taken from the fields LocalModParseTask.cpp assigns. `Mod::ModType` is modelled with five values; only the three handled types matter.
- Decoding the same bytes twice gives identical descriptors by construction, since every decoder is a function. No separate lemma states this.
- application/pages/instance/ModFolderPage.cpp is not part of this model. It is user-interface code over a mod list that is not shown.

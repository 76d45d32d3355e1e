/** Properties of the decoders that relate several calls or several inputs. */
module DecoderProperties {
  import opened Wrappers
  import opened QtJson
  import opened QtString
  import opened ModDetailsModel
  import opened ModInfoDecoders

  /** The homepage fix-up is idempotent: a normalised URL is left as it is. */
  lemma HomeUrlIdempotent(raw: string)
    ensures NormaliseHomeUrl(NormaliseHomeUrl(raw)) == NormaliseHomeUrl(raw)
  {
    var t := Trimmed(raw);
    TrimmedShape(raw);
    if t == [] {
    } else if HasScheme(t) {
      TrimmedOfTrimmed(t);
    } else {
      PrependKeepsTrimmed("http://", t);
      TrimmedOfTrimmed("http://" + t);
    }
  }

  /** A bare host gets the prefix "http://". */
  lemma HomeUrlBareHost()
    ensures NormaliseHomeUrl("example.com") == "http://example.com"
  {
    TrimmedOfTrimmed("example.com");
    assert !StartsWith("example.com", "http://");
  }

  /** A URL that already has a scheme is kept as it is. */
  lemma HomeUrlWithScheme()
    ensures NormaliseHomeUrl("https://example.com") == "https://example.com"
  {
    TrimmedOfTrimmed("https://example.com");
    assert "https://example.com"[..8] == "https://";
  }

  /** An empty or blank homepage stays empty. */
  lemma HomeUrlBlank()
    ensures NormaliseHomeUrl("") == ""
    ensures NormaliseHomeUrl(" \t") == ""
  {
    assert TrimStart(" \t") == TrimStart(" \t"[1..]);
    assert " \t"[1..] == "\t";
    assert TrimStart("\t") == TrimStart("\t"[1..]);
    assert "\t"[1..] == "";
  }

  /** Only element 0 of a mod list is read: whatever follows it does not
      change the result. */
  lemma GetInfoFromArrayReadsFirstOnly(arr: seq<Json>, rest: seq<Json>)
    requires |arr| >= 1
    ensures GetInfoFromArray(arr + rest) == GetInfoFromArray(arr[..1])
  {
    assert (arr + rest)[0] == arr[..1][0];
  }

  /** A versioned object yields a descriptor only if its version is the
      number 2, read from "modinfoversion", or from "modListVersion" when the
      first key is undefined. */
  lemma MCModVersionGate(obj: map<string, Json>)
    requires ReadMCModInfo(Some(JObject(obj))).Some?
    ensures if "modinfoversion" in obj && !obj["modinfoversion"].JUndefined?
            then obj["modinfoversion"] == JNumber(2)
            else Value(obj, "modListVersion") == JNumber(2)
  {
  }

  /** ... and only if its mod list, read from "modlist", or from "modList"
      when the first key is undefined, is an array whose element 0 is an
      object; the descriptor is then built from that object. */
  lemma MCModListSource(obj: map<string, Json>)
    requires ReadMCModInfo(Some(JObject(obj))).Some?
    ensures var list := if "modlist" in obj && !obj["modlist"].JUndefined?
                        then obj["modlist"] else Value(obj, "modList");
            list.JArray? && |list.items| > 0 && list.items[0].JObject?
            && ReadMCModInfo(Some(JObject(obj))) == Some(MCModEntry(list.items[0].fields))
  {
  }

  /** A file in the current format, "modinfoversion" 2 and a "modlist"
      whose first entry is an object, is accepted. */
  lemma MCModCurrentKeysAccepted(obj: map<string, Json>, entry: map<string, Json>, rest: seq<Json>)
    requires Value(obj, "modinfoversion") == JNumber(2)
    requires Value(obj, "modlist") == JArray([JObject(entry)] + rest)
    ensures ReadMCModInfo(Some(JObject(obj))) == Some(MCModEntry(entry))
  {
  }

  /** A file written with the older key names, version 2 and a list whose
      first entry is an object, is accepted. */
  lemma MCModLegacyKeysAccepted(obj: map<string, Json>, entry: map<string, Json>, rest: seq<Json>)
    requires "modinfoversion" !in obj && "modlist" !in obj
    requires Value(obj, "modListVersion") == JNumber(2)
    requires Value(obj, "modList") == JArray([JObject(entry)] + rest)
    ensures ReadMCModInfo(Some(JObject(obj))) == Some(MCModEntry(entry))
  {
  }

  /** A Fabric author given as a bare string and one given as an object with
      that "name" give the same author list, equal to the names. */
  lemma FabricAuthorFormsAgree(obj: map<string, Json>, names: seq<string>)
    requires FabricSchemaVersion(obj) >= 1
    ensures var plain := obj["authors" := JArray(seq(|names|, i requires 0 <= i < |names| => JString(names[i])))];
            var named := obj["authors" := JArray(seq(|names|, i requires 0 <= i < |names| =>
                                                      JObject(map["name" := JString(names[i])])))];
            && ReadFabricModInfo(Some(JObject(plain))) == ReadFabricModInfo(Some(JObject(named)))
            && ReadFabricModInfo(Some(JObject(plain))).value.authors == names
  {
    var plain := obj["authors" := JArray(seq(|names|, i requires 0 <= i < |names| => JString(names[i])))];
    var named := obj["authors" := JArray(seq(|names|, i requires 0 <= i < |names| =>
                                              JObject(map["name" := JString(names[i])])))];
    assert FabricSchemaVersion(plain) == FabricSchemaVersion(obj) == FabricSchemaVersion(named);
    assert FabricAuthors(plain) == names;
    assert FabricAuthors(named) == names;
    assert FabricHomeUrl(plain) == FabricHomeUrl(obj) == FabricHomeUrl(named);
  }

  /** The fields of a string between its dots. */
  function SplitOnDot(s: string): (r: seq<string>)
    ensures |r| >= 1
  {
    if s == [] then [""]
    else if s[0] == '.' then [""] + SplitOnDot(s[1..])
    else
      var t := SplitOnDot(s[1..]);
      [[s[0]] + t[0]] + t[1..]
  }

  lemma {:induction false} SplitWithoutDot(a: string)
    requires '.' !in a
    ensures SplitOnDot(a) == [a]
  {
    if a != [] {
      SplitWithoutDot(a[1..]);
      assert [a[0]] + a[1..] == a;
    }
  }

  lemma {:induction false} SplitAfterField(a: string, rest: string)
    requires '.' !in a
    ensures SplitOnDot(a + "." + rest) == [a] + SplitOnDot(rest)
  {
    var s := a + "." + rest;
    if a == [] {
      assert s[1..] == rest;
    } else {
      assert s[1..] == a[1..] + "." + rest;
      SplitAfterField(a[1..], rest);
      assert [a[0]] + a[1..] == a;
    }
  }

  lemma JoinFourFields(a: string, b: string, c: string, d: string)
    requires '.' !in a && '.' !in b && '.' !in c && '.' !in d
    ensures SplitOnDot(a + "." + b + "." + c + "." + d) == [a, b, c, d]
  {
    assert a + "." + b + "." + c + "." + d == a + "." + (b + "." + (c + "." + d));
    SplitAfterField(a, b + "." + (c + "." + d));
    SplitAfterField(b, c + "." + d);
    SplitAfterField(c, d);
    SplitWithoutDot(d);
  }

  /** The Forge version is the four components in order: splitting it on its
      dots gives them back, when none of them contains a dot. */
  lemma ForgeVersionFields(m: map<string, string>)
    requires '.' !in IniGet(m, "forge.major.number", "0")
    requires '.' !in IniGet(m, "forge.minor.number", "0")
    requires '.' !in IniGet(m, "forge.revision.number", "0")
    requires '.' !in IniGet(m, "forge.build.number", "0")
    ensures SplitOnDot(ForgeVersion(m)) == [IniGet(m, "forge.major.number", "0"),
                                            IniGet(m, "forge.minor.number", "0"),
                                            IniGet(m, "forge.revision.number", "0"),
                                            IniGet(m, "forge.build.number", "0")]
  {
    JoinFourFields(IniGet(m, "forge.major.number", "0"), IniGet(m, "forge.minor.number", "0"),
                   IniGet(m, "forge.revision.number", "0"), IniGet(m, "forge.build.number", "0"));
  }
}

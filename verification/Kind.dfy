/** pkg/service/operator/Kind.go: the final configuration and the StatefulSet built from a Nacos resource. */
module Kind {
  import opened Strings
  import opened Api
  import P = Properties

  const TYPE_STAND_ALONE := "standalone"
  const TYPE_CLUSTER := "cluster"

  // ----- The merged configuration -----

  const INTERNAL_HEADER := "# ===== Internal Configuration ====="
  const USER_HEADER := "# ===== User Configuration ====="

  function MergedContent(internalContent: string, userContent: string): string {
    (if internalContent != "" then INTERNAL_HEADER + "\n" + internalContent + "\n\n" else "")
    + if userContent != "" then USER_HEADER + "\n" + userContent + "\n" else ""
  }

  method MergeContent(internalContent: string, userContent: string) returns (mergedContent: string)
    ensures mergedContent == MergedContent(internalContent, userContent)
  {
    mergedContent := "";
    if internalContent != "" {
      mergedContent := mergedContent + INTERNAL_HEADER + "\n";
      mergedContent := mergedContent + internalContent;
      mergedContent := mergedContent + "\n\n";
    }
    ghost var first := mergedContent;
    if userContent != "" {
      mergedContent := mergedContent + USER_HEADER + "\n";
      mergedContent := mergedContent + userContent;
      mergedContent := mergedContent + "\n";
      assert mergedContent == first + (USER_HEADER + "\n" + userContent + "\n");
    }
  }

  lemma InternalSection(internalContent: string, parse: string -> P.Entry)
    ensures P.ReadAll(P.Fresh, MergedContent(internalContent, ""), parse)
      == P.Reader(P.Load(internalContent, parse), P.AtStart)
  {
    if internalContent != "" {
      var body := internalContent + "\n\n";
      assert MergedContent(internalContent, "") == INTERNAL_HEADER + "\n" + body;
      P.CommentLineIgnored(map[], INTERNAL_HEADER, body, parse);
      P.TwoNewlinesClose(internalContent, parse);
    }
  }

  /**
   Override semantics of concatenation: what Nacos loads from the merged text is what it would load from
   the internal text, overlaid by what it would load from the user text, for all texts.
   */
  lemma MergedConfigOverrides(internalContent: string, userContent: string, parse: string -> P.Entry)
    ensures P.Load(MergedContent(internalContent, userContent), parse)
      == P.Load(internalContent, parse) + P.Load(userContent, parse)
  {
    InternalSection(internalContent, parse);
    var base := P.Load(internalContent, parse);
    if userContent == "" {
      assert base + map[] == base;
    } else {
      UserSection(base, userContent, parse);
      var first, second := MergedContent(internalContent, ""), MergedContent("", userContent);
      assert MergedContent(internalContent, userContent) == first + second;
      P.ReadAllAppend(P.Fresh, first, second, parse);
    }
  }

  lemma UserSection(base: map<string, string>, userContent: string, parse: string -> P.Entry)
    requires userContent != ""
    ensures P.Finish(P.ReadAll(P.Reader(base, P.AtStart), MergedContent("", userContent), parse), parse)
      == base + P.Load(userContent, parse)
  {
    var body := userContent + "\n";
    assert MergedContent("", userContent) == USER_HEADER + "\n" + body;
    P.CommentLineIgnored(base, USER_HEADER, body, parse);
    P.TrailingNewline(base, userContent, parse);
    P.LoadOnto(base, userContent, parse);
  }

  /**
   The blank line between the sections is needed: after a dangling backslash a single newline would make
   the next section's header part of the internal value.
   */
  lemma OneNewlineIsNotEnough(text: string, line: string, parse: string -> P.Entry)
    requires line != "" && P.ReadAll(P.Fresh, text, parse).control == P.InLine(line, true)
    ensures P.ReadAll(P.Fresh, text + "\n" + "#", parse).control == P.InLine(line[..|line| - 1] + "#", false)
  {
    P.ReadNewline(P.Fresh, text, parse);
    var t := text + "\n";
    assert (t + "#")[..|t|] == t;
  }

  type ConfigMaps = map<string, map<string, string>>

  /** The types MakeEnsure has a case for; an empty one is defaulted. */
  predicate IsKnownType(kind: string) {
    kind == "" || kind == TYPE_STAND_ALONE || kind == TYPE_CLUSTER
  }

  predicate Managed(spec: NacosSpec) {
    spec.userConfigRef.Some? || spec.internalConfigRef.Some?
  }

  /** The text a reference stands for; a nil or nameless reference stands for no text. */
  function ReadConfig(ref: Option<ConfigMapRef>, defaultKey: string, maps: ConfigMaps): Result<string> {
    if ref.None? || ref.value.name == "" then Ok("")
    else if ref.value.name !in maps then Panic(Coded(CODE_PARAMETER_ERROR, "Failed to get ConfigMap"))
    else
      var data := maps[ref.value.name];
      var key := if ref.value.key == "" then defaultKey else ref.value.key;
      if key in data then Ok(data[key]) else Panic(Coded(CODE_PARAMETER_ERROR, "config key not found"))
  }

  function ReadInternal(spec: NacosSpec, maps: ConfigMaps): Result<string> {
    ReadConfig(spec.internalConfigRef, "internal.properties", maps)
  }

  function ReadUser(spec: NacosSpec, maps: ConfigMaps): Result<string> {
    ReadConfig(spec.userConfigRef, "user.properties", maps)
  }

  /** The content final-config should have for these sources. */
  function FinalContent(spec: NacosSpec, maps: ConfigMaps): Result<string> {
    var internalContent :- ReadInternal(spec, maps);
    var userContent :- ReadUser(spec, maps);
    Ok(MergedContent(internalContent, userContent))
  }

  /** The text a reference names: under the key it gives, or the default one; none for a nil or nameless reference. */
  predicate Names(ref: Option<ConfigMapRef>, defaultKey: string, maps: ConfigMaps, text: string) {
    if ref == None || ref.value.name == "" then text == ""
    else
      && ref.value.name in maps
      && (ref.value.key != "" ==> ref.value.key in maps[ref.value.name] && maps[ref.value.name][ref.value.key] == text)
      && (ref.value.key == "" ==> defaultKey in maps[ref.value.name] && maps[ref.value.name][defaultKey] == text)
  }

  /** What is loaded from final-config: what the internal reference names, overlaid by what the user's names. */
  lemma FinalConfigLoads(spec: NacosSpec, maps: ConfigMaps, internalText: string, userText: string,
                         parse: string -> P.Entry)
    requires Names(spec.internalConfigRef, "internal.properties", maps, internalText)
    requires Names(spec.userConfigRef, "user.properties", maps, userText)
    ensures FinalContent(spec, maps).Ok?
    ensures P.Load(FinalContent(spec, maps).value, parse) == P.Load(internalText, parse) + P.Load(userText, parse)
  {
    MergedConfigOverrides(internalText, userText, parse);
  }

  /** Both references name a map that holds their key, given or default. */
  lemma BothConfigsLoad(spec: NacosSpec, maps: ConfigMaps, internal: ConfigMapRef, user: ConfigMapRef,
                        internalKey: string, userKey: string, parse: string -> P.Entry)
    requires spec.internalConfigRef == Some(internal) && internal.name != "" && internal.name in maps
    requires spec.userConfigRef == Some(user) && user.name != "" && user.name in maps
    requires internalKey == (if internal.key == "" then "internal.properties" else internal.key)
    requires userKey == (if user.key == "" then "user.properties" else user.key)
    requires internalKey in maps[internal.name] && userKey in maps[user.name]
    ensures FinalContent(spec, maps).Ok?
    ensures P.Load(FinalContent(spec, maps).value, parse)
      == P.Load(maps[internal.name][internalKey], parse) + P.Load(maps[user.name][userKey], parse)
  {
    FinalConfigLoads(spec, maps, maps[internal.name][internalKey], maps[user.name][userKey], parse);
  }

  /** The merge fails exactly where a reference names no text. */
  lemma FinalConfigFails(spec: NacosSpec, maps: ConfigMaps)
    ensures FinalContent(spec, maps).Panic? <==>
      || (forall text :: !Names(spec.internalConfigRef, "internal.properties", maps, text))
      || (forall text :: !Names(spec.userConfigRef, "user.properties", maps, text))
    ensures FinalContent(spec, maps).Panic? ==>
      FinalContent(spec, maps).failure.Coded? && FinalContent(spec, maps).failure.code == CODE_PARAMETER_ERROR
  {
    NamesIffRead(spec.internalConfigRef, "internal.properties", maps);
    NamesIffRead(spec.userConfigRef, "user.properties", maps);
  }

  lemma NamesIffRead(ref: Option<ConfigMapRef>, defaultKey: string, maps: ConfigMaps)
    ensures ReadConfig(ref, defaultKey, maps).Ok? <==> exists text :: Names(ref, defaultKey, maps, text)
    ensures ReadConfig(ref, defaultKey, maps).Panic? ==>
      ReadConfig(ref, defaultKey, maps).failure.Coded?
      && ReadConfig(ref, defaultKey, maps).failure.code == CODE_PARAMETER_ERROR
  {
    var read := ReadConfig(ref, defaultKey, maps);
    if read.Ok? {
      assert Names(ref, defaultKey, maps, read.value);
    }
  }

  function FinalName(meta: Meta, spec: NacosSpec): string {
    if spec.finalConfigName == "" then meta.name + "-final-config" else spec.finalConfigName
  }

  /** The name given, or one that no other resource's default is. */
  lemma FinalNameMeaning(meta: Meta, spec: NacosSpec, other: Meta)
    ensures spec.finalConfigName != "" ==> FinalName(meta, spec) == spec.finalConfigName
    ensures spec.finalConfigName == "" ==> FinalName(meta, spec) == meta.name + "-final-config"
    ensures spec.finalConfigName == "" && other.name != meta.name ==> FinalName(other, spec) != FinalName(meta, spec)
  {
    if spec.finalConfigName == "" && FinalName(other, spec) == FinalName(meta, spec) {
      assert (meta.name + "-final-config")[..|meta.name|] == meta.name;
      assert (other.name + "-final-config")[..|other.name|] == other.name;
    }
  }

  /** Whether a ConfigMap has to be read for the reference. */
  predicate IsRead(ref: Option<ConfigMapRef>) {
    ref.Some? && ref.value.name != ""
  }

  /** getFails: the request itself fails, whether or not the object exists. */
  method BuildMergedConfigMap(spec: NacosSpec, maps: ConfigMaps, internalGetFails: bool, userGetFails: bool)
    returns (r: Result<string>)
    ensures r.Ok? <==>
      && FinalContent(spec, maps).Ok?
      && !(internalGetFails && IsRead(spec.internalConfigRef)) && !(userGetFails && IsRead(spec.userConfigRef))
    ensures r.Ok? ==> r == FinalContent(spec, maps)
    ensures r.Panic? ==> r.failure.Coded? && r.failure.code == CODE_PARAMETER_ERROR
  {
    var internalContent := "";
    if IsRead(spec.internalConfigRef) {
      var ref := spec.internalConfigRef.value;
      if internalGetFails || ref.name !in maps {
        return Panic(Coded(CODE_PARAMETER_ERROR, "Failed to get ConfigMap"));
      }
      var key := if ref.key == "" then "internal.properties" else ref.key;
      if key !in maps[ref.name] {
        return Panic(Coded(CODE_PARAMETER_ERROR, "config key not found"));
      }
      internalContent := maps[ref.name][key];
    }
    var userContent := "";
    if IsRead(spec.userConfigRef) {
      var ref := spec.userConfigRef.value;
      if userGetFails || ref.name !in maps {
        return Panic(Coded(CODE_PARAMETER_ERROR, "Failed to get ConfigMap"));
      }
      var key := if ref.key == "" then "user.properties" else ref.key;
      if key !in maps[ref.name] {
        return Panic(Coded(CODE_PARAMETER_ERROR, "config key not found"));
      }
      userContent := maps[ref.name][key];
    }
    var mergedContent := MergeContent(internalContent, userContent);
    r := Ok(mergedContent);
  }
}

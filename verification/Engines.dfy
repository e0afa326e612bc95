/**
 * The memoising engine factory: work-dir resolution, merging of caller configuration with
 * environment defaults, and the cache. JSON parsing, the YAML file and the construction of an
 * engine from a configuration belong to the outside world and may fail.
 */
module Engines {
  import opened Wrappers

  datatype Json = Null | Bool(b: bool) | Num(n: int) | Str(s: string) | Arr(items: seq<Json>) | Obj(fields: map<string, Json>)

  type Fields = map<string, Json>

  datatype Settings = Settings(model: string, apiKey: string, llmUrl: string, workDir: string, configPath: string)

  /** An engine with its scheduler, as the configuration determines them. */
  datatype Pair = Pair(config: Fields, handle: nat)

  datatype World = World(
    parse: string -> Option<Json>,
    yaml: Option<Fields>,
    construct: Fields -> Option<nat>)

  // ---- strings ---------------------------------------------------------------

  predicate Blank(c: char) {
    c == ' ' || '\t' <= c <= '\r'
  }

  function StripLeft(s: string): string {
    if s != [] && Blank(s[0]) then StripLeft(s[1..]) else s
  }

  function StripRight(s: string): string {
    if s != [] && Blank(s[|s| - 1]) then StripRight(s[..|s| - 1]) else s
  }

  function Strip(s: string): string {
    StripRight(StripLeft(s))
  }

  predicate Falsy(j: Json) {
    match j
    case Null => true
    case Bool(b) => !b
    case Num(n) => n == 0
    case Str(s) => s == ""
    case Arr(items) => items == []
    case Obj(fields) => fields == map[]
  }

  /** `(value or "").strip()`; `None` is the AttributeError of a value that is no string. */
  function Text(fields: Fields, key: string): Option<string> {
    if key !in fields || Falsy(fields[key]) then Some("")
    else if fields[key].Str? then Some(Strip(fields[key].s))
    else None
  }

  // ---- the working directory -------------------------------------------------

  function OrEmpty(s: Option<string>): string {
    match s
    case Some(t) => t
    case None => ""
  }

  function ExtractWorkDir(w: World, config: string): string {
    match w.parse(config)
    case Some(Obj(fields)) => OrEmpty(Text(fields, "work_dir"))
    case _ => ""
  }

  function ResolveWorkDir(s: Settings, w: World, request: Option<string>, config: string): string {
    var fromRequest := Strip(OrEmpty(request));
    var fromConfig := if config == "" then "" else ExtractWorkDir(w, config);
    if fromRequest != "" then fromRequest
    else if fromConfig != "" then fromConfig
    else s.workDir
  }

  // ---- configuration ---------------------------------------------------------

  function EnvDefaults(s: Settings, workDir: string): Fields {
    map["model" := Str(s.model), "api_key" := Str(s.apiKey), "llm_url" := Str(s.llmUrl),
        "work_dir" := Str(workDir), "file_limit" := Num(20)]
  }

  /** Caller keys over environment defaults; `None` is the ValueError or AttributeError. */
  function Merge(s: Settings, parsed: Fields, workDir: string): Option<Fields> {
    var merged := (EnvDefaults(s, workDir) + parsed)["work_dir" := Str(workDir)];
    var model := Text(merged, "model");
    var apiKey := Text(merged, "api_key");
    if model.None? || apiKey.None? || model.value == "" || apiKey.value == "" then None
    else Some(merged["model" := Str(model.value)]["api_key" := Str(apiKey.value)])
  }

  function Configure(s: Settings, w: World, workDir: string, config: string): Option<Fields> {
    if config != "" then
      match w.parse(config)
      case Some(Obj(parsed)) => Merge(s, parsed, workDir)
      case _ => None
    else if s.configPath != "" then
      match w.yaml
      case Some(base) => Some(base["work_dir" := Str(workDir)])
      case None => None
    else
      Some(EnvDefaults(s, workDir))
  }

  function Build(s: Settings, w: World, workDir: string, config: string): Option<Pair> {
    match Configure(s, w, workDir, config)
    case None => None
    case Some(fields) =>
      match w.construct(fields)
      case None => None
      case Some(handle) => Some(Pair(fields, handle))
  }

  /** What a factory without a cache would return. */
  function Uncached(s: Settings, w: World, request: Option<string>, configJson: Option<string>): Option<Pair> {
    var config := Strip(OrEmpty(configJson));
    Build(s, w, ResolveWorkDir(s, w, request, config), config)
  }

  // ---- the cache -------------------------------------------------------------

  class EngineFactory {
    const settings: Settings
    const world: World
    /** Keyed by work dir and the hash of the configuration text, taken to be collision-free. */
    var cache: map<(string, string), Pair>

    constructor (settings: Settings, world: World)
      ensures this.settings == settings && this.world == world && cache == map[] && Valid()
    {
      this.settings, this.world, cache := settings, world, map[];
    }

    /** Every cached pair is the one its key builds. */
    ghost predicate Valid()
      reads this
    {
      forall key | key in cache :: Build(settings, world, key.0, key.1) == Some(cache[key])
    }

    /** The cache cannot be observed: the answer is the uncached one, and failures leave no trace. */
    method Get(request: Option<string>, configJson: Option<string>) returns (pair: Option<Pair>)
      requires Valid()
      modifies this
      ensures Valid() && old(cache.Keys) <= cache.Keys
      ensures pair == Uncached(settings, world, request, configJson)
      ensures Answered(settings, world, request, configJson, pair)
      ensures pair.None? ==> cache == old(cache)
      ensures forall key | key in old(cache) :: cache[key] == old(cache)[key]
    {
      var config := Strip(OrEmpty(configJson));
      var workDir := ResolveWorkDir(settings, world, request, config);
      var key := (workDir, config);
      if key !in cache {
        var built := Build(settings, world, workDir, config);
        if built.Some? {
          cache := cache[key := built.value];
        }
        pair := built;
      } else {
        pair := Some(cache[key]);
      }
      UncachedIsServed(settings, world, request, configJson);
    }

    method Clear()
      modifies this
      ensures Valid() && cache == map[]
    {
      cache := map[];
    }
  }

  // ---- what every request is answered with -----------------------------------

  predicate IsBlank(c: char) {
    c in {' ', '\t', '\n', '\U{0B}', '\U{0C}', '\r'}
  }

  /** `r` is `s` without the blanks at its ends. */
  ghost predicate IsStripped(s: string, r: string) {
    && (exists i, j :: Cut(s, r, i, j))
    && (r != "" ==> !IsBlank(r[0]) && !IsBlank(r[|r| - 1]))
  }

  /** `r` stands between `i` and `j` in `s`, with nothing but blanks around it. */
  predicate Cut(s: string, r: string, i: int, j: int) {
    && 0 <= i <= j <= |s| && r == s[i..j]
    && (forall k | 0 <= k < i :: IsBlank(s[k])) && (forall k | j <= k < |s| :: IsBlank(s[k]))
  }

  lemma {:induction false} LeftCut(s: string) returns (i: nat)
    ensures i <= |s| && StripLeft(s) == s[i..] && (forall k | 0 <= k < i :: IsBlank(s[k]))
    ensures i < |s| ==> !IsBlank(s[i])
  {
    i := 0;
    if s != "" && Blank(s[0]) {
      i := LeftCut(s[1..]);
      i := i + 1;
      assert s[1..][i - 1..] == s[i..];
      assert forall k | 0 < k < i :: s[k] == s[1..][k - 1];
    }
  }

  lemma {:induction false} RightCut(s: string) returns (j: nat)
    ensures j <= |s| && StripRight(s) == s[..j] && (forall k | j <= k < |s| :: IsBlank(s[k]))
    ensures j > 0 ==> !IsBlank(s[j - 1])
    decreases |s|
  {
    j := |s|;
    if s != "" && Blank(s[|s| - 1]) {
      j := RightCut(s[..|s| - 1]);
      assert s[..|s| - 1][..j] == s[..j];
    }
  }

  lemma StripIs(s: string)
    ensures IsStripped(s, Strip(s))
  {
    var i := LeftCut(s);
    var left := s[i..];
    var j := RightCut(left);
    assert left[..j] == s[i..i + j];
    assert forall k | i + j <= k < |s| :: s[k] == left[k - i];
    assert Cut(s, Strip(s), i, i + j);
  }

  /** The work dir of the request, else that of the configuration text, else the environment's. */
  function WorkDirFor(s: Settings, w: World, asked: string, config: string): string {
    if asked != "" then asked
    else match w.parse(config)
         case Some(Obj(fields)) =>
           if config != "" && "work_dir" in fields && fields["work_dir"].Str? && Strip(fields["work_dir"].s) != ""
           then Strip(fields["work_dir"].s)
           else s.workDir
         case _ => s.workDir
  }

  /** The trimmed text under a required key, or of its default if the key is missing; "" if it is no text. */
  function Usable(parsed: Fields, key: string, default: string): string {
    if key !in parsed then Strip(default) else if parsed[key].Str? then Strip(parsed[key].s) else ""
  }

  /** The answer is the engine that these fields construct, if any. */
  predicate Built(w: World, fields: Fields, pair: Option<Pair>) {
    match w.construct(fields)
    case Some(handle) => pair == Some(Pair(fields, handle))
    case None => pair == None
  }

  /**
   * The whole answer to a request. A configuration text gives the fields: caller keys over
   * defaults, the resolved work dir, and a model and a key that must not be blank. Without one
   * it is the configuration file with the work dir replaced, or else the five settings.
   */
  predicate Served(s: Settings, w: World, asked: string, config: string, pair: Option<Pair>) {
    var workDir := WorkDirFor(s, w, asked, config);
    if config != "" then
      match w.parse(config)
      case Some(Obj(parsed)) =>
        var model, apiKey := Usable(parsed, "model", s.model), Usable(parsed, "api_key", s.apiKey);
        if model == "" || apiKey == "" then pair == None
        else Built(w, Merged(s, parsed, workDir, model, apiKey), pair)
      case _ => pair == None
    else if s.configPath != "" then
      match w.yaml
      case Some(base) => Built(w, base + map["work_dir" := Str(workDir)], pair)
      case None => pair == None
    else
      Built(w, map["model" := Str(s.model), "api_key" := Str(s.apiKey), "llm_url" := Str(s.llmUrl),
                   "work_dir" := Str(workDir), "file_limit" := Num(20)], pair)
  }

  lemma ResolvesTo(s: Settings, w: World, request: Option<string>, config: string)
    ensures ResolveWorkDir(s, w, request, config) == WorkDirFor(s, w, Strip(OrEmpty(request)), config)
  {
    StripEmpty();
  }

  lemma TextIsUsable(s: Settings, parsed: Fields, workDir: string, key: string, default: string)
    requires (key == "model" && default == s.model) || (key == "api_key" && default == s.apiKey)
    ensures var merged := (EnvDefaults(s, workDir) + parsed)["work_dir" := Str(workDir)];
            OrEmpty(Text(merged, key)) == Usable(parsed, key, default)
  {
    StripEmpty();
  }

  lemma MergedMap(s: Settings, parsed: Fields, workDir: string, model: string, apiKey: string)
    ensures (EnvDefaults(s, workDir) + parsed)["work_dir" := Str(workDir)]["model" := Str(model)]["api_key" := Str(apiKey)]
            == Merged(s, parsed, workDir, model, apiKey)
  {
    var l := (EnvDefaults(s, workDir) + parsed)["work_dir" := Str(workDir)]["model" := Str(model)]["api_key" := Str(apiKey)];
    var r := Merged(s, parsed, workDir, model, apiKey);
    assert l.Keys == r.Keys;
    assert forall k | k in l :: l[k] == r[k];
  }

  function Merged(s: Settings, parsed: Fields, workDir: string, model: string, apiKey: string): Fields {
    map["llm_url" := Str(s.llmUrl), "file_limit" := Num(20)] + parsed
    + map["work_dir" := Str(workDir), "model" := Str(model), "api_key" := Str(apiKey)]
  }

  lemma MergeIs(s: Settings, parsed: Fields, workDir: string)
    ensures var model, apiKey := Usable(parsed, "model", s.model), Usable(parsed, "api_key", s.apiKey);
            Merge(s, parsed, workDir)
            == if model == "" || apiKey == "" then None else Some(Merged(s, parsed, workDir, model, apiKey))
  {
    TextIsUsable(s, parsed, workDir, "model", s.model);
    TextIsUsable(s, parsed, workDir, "api_key", s.apiKey);
    MergedMap(s, parsed, workDir, Usable(parsed, "model", s.model), Usable(parsed, "api_key", s.apiKey));
  }

  /** Absent texts count as empty, and texts are trimmed. */
  ghost predicate Answered(s: Settings, w: World, request: Option<string>, configJson: Option<string>, pair: Option<Pair>) {
    var asked := if request.Some? then request.value else "";
    var config := if configJson.Some? then configJson.value else "";
    && IsStripped(asked, Strip(asked)) && IsStripped(config, Strip(config))
    && Served(s, w, Strip(asked), Strip(config), pair)
  }

  lemma BuildIsServed(s: Settings, w: World, asked: string, config: string)
    ensures Served(s, w, asked, config, Build(s, w, WorkDirFor(s, w, asked, config), config))
  {
    var workDir := WorkDirFor(s, w, asked, config);
    if config != "" {
      match w.parse(config) {
        case Some(Obj(parsed)) => MergeIs(s, parsed, workDir);
        case _ =>
      }
    } else if s.configPath != "" && w.yaml.Some? {
      assert w.yaml.value["work_dir" := Str(workDir)] == w.yaml.value + map["work_dir" := Str(workDir)];
    } else if s.configPath == "" {
      assert EnvDefaults(s, workDir)
          == map["model" := Str(s.model), "api_key" := Str(s.apiKey), "llm_url" := Str(s.llmUrl),
                 "work_dir" := Str(workDir), "file_limit" := Num(20)];
    }
  }

  lemma UncachedIsServed(s: Settings, w: World, request: Option<string>, configJson: Option<string>)
    ensures Answered(s, w, request, configJson, Uncached(s, w, request, configJson))
  {
    StripIs(OrEmpty(request));
    StripIs(OrEmpty(configJson));
    ResolvesTo(s, w, request, Strip(OrEmpty(configJson)));
    BuildIsServed(s, w, Strip(OrEmpty(request)), Strip(OrEmpty(configJson)));
  }

  /** The usable text of a required field: the caller's if the key is present, else the default. */
  function Chosen(parsed: Fields, key: string, default: string): Option<string> {
    if key in parsed then Text(parsed, key) else Some(Strip(default))
  }

  lemma StripEmpty()
    ensures Strip("") == ""
  {}

  /**
   * Merging fails iff the chosen model or key is no string or blank. A key that is present but
   * empty is not replaced by its environment variable, though the error raised says that the
   * variable is not set.
   */
  lemma MergeFailsIff(s: Settings, parsed: Fields, workDir: string)
    ensures Merge(s, parsed, workDir).None?
            <==> || Chosen(parsed, "model", s.model) in {None, Some("")}
                 || Chosen(parsed, "api_key", s.apiKey) in {None, Some("")}
  {
    StripEmpty();
    var merged := (EnvDefaults(s, workDir) + parsed)["work_dir" := Str(workDir)];
    assert Text(merged, "model") == Chosen(parsed, "model", s.model);
    assert Text(merged, "api_key") == Chosen(parsed, "api_key", s.apiKey);
  }

  /** The empty model of a caller fails the task whatever the environment offers. */
  lemma EmptyModelIsNotDefaulted(s: Settings, workDir: string)
    ensures Merge(s, map["model" := Str("")], workDir).None?
  {
    MergeFailsIff(s, map["model" := Str("")], workDir);
  }
}

/**
 * The command layer's upload plumbing: the upload settings built from the
 * environment, a file, a JSON string and key=value pairs; the `--upload-files`
 * list; provider set-up; and the upload plan with its conflict check and dry
 * run. The older copies in package cmd (an own environment scan and no dry
 * run) are modelled next to the current ones and related to them.
 */
module UploadSetup {
  import opened Base
  import opened Strings
  import opened Values
  import opened Foreign
  import opened ContextParser
  import opened ConfigMap
  import opened UploadManager
  import Paths

  /** The upload flags: provider name, JSON string, key=value pairs, file, extra files. */
  datatype UploadConfig = UploadConfig(
    provider: string,
    config: string,
    configKV: seq<string>,
    configFile: string,
    uploadFiles: seq<string>)

  const UploadPrefix: string := "GHOST_UPLOAD_CONFIG"

  // ---------------------------------------------------------------- settings

  /** BuildUploadConfig: the context builder under GHOST_UPLOAD_CONFIG, shaped as a map. */
  function BuildUploadConfig(cfg: UploadConfig, env: seq<string>, fs: Parsers): (r: Result<map<string, Value>, ConfigMapError>)
    ensures r.Err? && r.error.BuildFailed? <==> BuildContextWithPrefix(env, UploadPrefix, cfg.config, cfg.configKV, cfg.configFile, fs).Err?
  {
    AsConfigMap(BuildContextWithPrefix(env, UploadPrefix, cfg.config, cfg.configKV, cfg.configFile, fs))
  }

  /**
   * A setting takes its value from the key=value pairs if one names it, else
   * from the JSON string, else from the file, else from the environment.
   */
  lemma {:induction false} UploadConfigPrecedence(cfg: UploadConfig, env: seq<string>, fs: Parsers, k: string)
    requires BuildUploadConfig(cfg, env, fs).Ok?
    requires cfg.configFile != "" ==> IsMapOrNil(fs.file(cfg.configFile).value)
    requires cfg.config != "" ==> IsMapOrNil(fs.json(cfg.config).value)
    ensures var m := BuildUploadConfig(cfg, env, fs).value;
            var kv := Given(|cfg.configKV| > 0, Obj(KvMap(cfg.configKV, fs.floatSyntax)));
            var js := Given(cfg.config != "", fs.json(cfg.config).GetOr(Null));
            var fl := Given(cfg.configFile != "", fs.file(cfg.configFile).GetOr(Null));
            var envCtx := ParseEnvWithPrefix(env, UploadPrefix, fs);
            var ev := Given(envCtx.Some?, Obj(envCtx.GetOr(map[])));
            (if k in m then Some(m[k]) else None)
              == if Lookup(kv, k).Some? then Lookup(kv, k)
                 else if Lookup(js, k).Some? then Lookup(js, k)
                 else if Lookup(fl, k).Some? then Lookup(fl, k)
                 else Lookup(ev, k)
  {
    var envCtx := ParseEnvWithPrefix(env, UploadPrefix, fs);
    BuildPrecedence(envCtx, cfg.config, cfg.configKV, cfg.configFile, fs, k);
  }

  /** toLowerSnakeCase: A–Z become a–z; '_' and every other rune are copied. */
  function ToLowerSnakeCase(s: string): (r: string)
    ensures |r| == |s|
    ensures forall i :: 0 <= i < |s| ==> if 'A' <= s[i] <= 'Z' then r[i] as int == s[i] as int + 32 else r[i] == s[i]
  {
    if |s| == 0 then ""
    else
      var c := s[0];
      var head := if c == '_' then "_"
                  else if 'A' <= c <= 'Z' then [(c as int - 'A' as int + 'a' as int) as char]
                  else [c];
      head + ToLowerSnakeCase(s[1..])
  }

  /**
   * It is AsciiLower, the model's lower-casing, so it is idempotent. Go's
   * strings.ToLower also folds non-ASCII capitals, which toLowerSnakeCase keeps.
   */
  lemma ToLowerSnakeCaseIsLower(s: string)
    ensures ToLowerSnakeCase(s) == AsciiLower(s)
    ensures ToLowerSnakeCase(ToLowerSnakeCase(s)) == ToLowerSnakeCase(s)
  {
    assert ToLowerSnakeCase(s) == AsciiLower(s);
    AsciiLowerIdempotent(s);
    assert ToLowerSnakeCase(AsciiLower(s)) == AsciiLower(AsciiLower(s));
  }

  /**
   * One entry as parseUploadEnv reads it: strictly longer than the
   * GHOST_UPLOAD_CONFIG_ prefix, with a non-empty value after its first '='.
   */
  function LegacyEnvEntry(e: string, floatSyntax: string -> bool): (r: Option<(string, Value)>)
    ensures r.Some? ==> HasPrefix(e, UploadPrefix + "_") && |e| > |UploadPrefix + "_"|
    ensures r.Some? ==> SplitFirst(e, '=').Some? && SplitFirst(e, '=').value.1 != ""
  {
    var p := UploadPrefix + "_";
    if |e| > |p| && e[..|p|] == p then
      match SplitFirst(e, '=')
      case Some((name, raw)) =>
        if |raw| > 0 then
          var key := ToLowerSnakeCase(TrimPrefix(name, p));
          var value := match ParseKV(key + "=" + raw, floatSyntax)
            case Ok(kv) => kv.1
            case Err(_) => Null;
          Some((key, value))
        else None
      case None => None
    else None
  }

  /** An entry the old scan accepts is read exactly as ParseEnvWithPrefix reads it. */
  lemma {:induction false} LegacyEnvEntryAgrees(e: string, floatSyntax: string -> bool)
    ensures var p := UploadPrefix + "_";
            LegacyEnvEntry(e, floatSyntax)
              == if HasPrefix(e, p) && SplitFirst(e, '=').Some? && SplitFirst(e, '=').value.1 != ""
                 then EnvEntry(e, p, floatSyntax) else None
  {
    var p := UploadPrefix + "_";
    assert '=' !in p;
    if HasPrefix(e, p) && SplitFirst(e, '=').Some? {
      var (name, raw) := SplitFirst(e, '=').value;
      ToLowerSnakeCaseIsLower(TrimPrefix(name, p));
      if |e| == |p| {
        assert e == p;
      }
    }
  }

  function LegacyEnvEntries(env: seq<string>, floatSyntax: string -> bool): (es: seq<Option<(string, Value)>>)
    ensures |es| == |env|
    ensures forall i :: 0 <= i < |env| ==> es[i] == LegacyEnvEntry(env[i], floatSyntax)
  {
    seq(|env|, i requires 0 <= i < |env| => LegacyEnvEntry(env[i], floatSyntax))
  }

  /** parseUploadEnv: the GHOST_UPLOAD_CONFIG JSON object, overridden by the accepted entries; nil when empty. */
  function ParseUploadEnv(env: seq<string>, fs: Parsers): (r: Option<map<string, Value>>)
    ensures r.Some? ==> |r.value| > 0
  {
    var ctx := Scan(EnvJson(env, UploadPrefix, fs), LegacyEnvEntries(env, fs.floatSyntax));
    if |ctx| == 0 then None else Some(ctx)
  }

  /** Every GHOST_UPLOAD_CONFIG_ entry that has an '=' has something after it. */
  predicate NoEmptyUploadValues(env: seq<string>) {
    forall i :: 0 <= i < |env| && HasPrefix(env[i], UploadPrefix + "_") && SplitFirst(env[i], '=').Some?
                ==> SplitFirst(env[i], '=').value.1 != ""
  }

  /** The old scan and ParseEnvWithPrefix differ only on entries with an empty value, which the old scan skips. */
  lemma {:induction false} ParseUploadEnvAgrees(env: seq<string>, fs: Parsers)
    requires NoEmptyUploadValues(env)
    ensures ParseUploadEnv(env, fs) == ParseEnvWithPrefix(env, UploadPrefix, fs)
  {
    var p := UploadPrefix + "_";
    forall i | 0 <= i < |env|
      ensures LegacyEnvEntry(env[i], fs.floatSyntax) == EnvEntry(env[i], p, fs.floatSyntax)
    {
      LegacyEnvEntryAgrees(env[i], fs.floatSyntax);
    }
    assert LegacyEnvEntries(env, fs.floatSyntax) == EnvEntries(env, p, fs.floatSyntax);
  }

  /** An entry with nothing after '=' is recorded (as "") by ParseEnvWithPrefix but skipped by the old scan. */
  lemma {:induction false} LegacySkipsEmptyValue(name: string, floatSyntax: string -> bool)
    requires '=' !in name
    ensures var e := UploadPrefix + "_" + name + "=";
            && LegacyEnvEntry(e, floatSyntax).None?
            && EnvEntry(e, UploadPrefix + "_", floatSyntax).Some?
  {
    var p := UploadPrefix + "_";
    var e := p + name + "=";
    assert '=' !in p + name;
    SplitFirstOfJoin(p + name, '=', "");
    assert e == p + name + "=" + "";
    assert e[..|p|] == p;
    LegacyEnvEntryAgrees(e, floatSyntax);
  }

  /** BuildUploadConfig / buildUploadConfig in package cmd: the same builder over the old environment scan. */
  function LegacyBuildUploadConfig(cfg: UploadConfig, env: seq<string>, fs: Parsers): (r: Result<map<string, Value>, ConfigMapError>)
    ensures r.Err? && r.error.BuildFailed?
        <==> BuildFromSources(ParseUploadEnv(env, fs), cfg.config, cfg.configKV, cfg.configFile, fs).Err?
  {
    AsConfigMap(BuildFromSources(ParseUploadEnv(env, fs), cfg.config, cfg.configKV, cfg.configFile, fs))
  }

  /** Unless an entry has an empty value, the old builder gives what the current one gives. */
  lemma {:induction false} LegacyBuildAgrees(cfg: UploadConfig, env: seq<string>, fs: Parsers)
    requires NoEmptyUploadValues(env)
    ensures LegacyBuildUploadConfig(cfg, env, fs) == BuildUploadConfig(cfg, env, fs)
  {
    ParseUploadEnvAgrees(env, fs);
  }

  // ---------------------------------------------------------------- --upload-files

  datatype FileSpecError = EmptyLocal(spec: string) | EmptyRemote(spec: string) | DuplicateLocal(local: string)

  /** One `local[:remote]` entry: split at the first colon and trim; without a colon the path serves as both. */
  function ParseUploadFile(spec: string): (r: Result<(string, string), FileSpecError>)
    ensures r.Ok? ==> r.value.0 != "" && r.value.1 != ""
    ensures ':' !in spec ==> r == if TrimSpace(spec) == "" then Err(EmptyLocal(spec))
                                  else Ok((TrimSpace(spec), TrimSpace(spec)))
    ensures ':' in spec ==> var (l, rm) := Paths.ParseOutputPath(spec);
                            r == if l == "" then Err(EmptyLocal(spec))
                                 else if rm == "" then Err(EmptyRemote(spec))
                                 else Ok((l, rm))
  {
    var (l, rm) := match SplitFirst(spec, ':')
      case Some((a, b)) => (TrimSpace(a), TrimSpace(b))
      case None => (TrimSpace(spec), TrimSpace(spec));
    if l == "" then Err(EmptyLocal(spec))
    else if rm == "" then Err(EmptyRemote(spec))
    else Ok((l, rm))
  }

  /** Entries in the order given; an empty entry is skipped (None). */
  function SpecEntries(files: seq<string>): (rs: seq<Option<Result<(string, string), FileSpecError>>>)
    ensures |rs| == |files|
    ensures forall i :: 0 <= i < |files| ==> rs[i] == if files[i] == "" then None else Some(ParseUploadFile(files[i]))
  {
    seq(|files|, i requires 0 <= i < |files| => if files[i] == "" then None else Some(ParseUploadFile(files[i])))
  }

  /** The entry loop: the first bad entry or repeated local path aborts; otherwise each adds local → remote. */
  function CollectFiles(rs: seq<Option<Result<(string, string), FileSpecError>>>): Result<map<string, string>, FileSpecError>
    decreases |rs|
  {
    if |rs| == 0 then Ok(map[])
    else
      match CollectFiles(rs[..|rs| - 1])
      case Err(e) => Err(e)
      case Ok(m) =>
        match rs[|rs| - 1]
        case None => Ok(m)
        case Some(Err(e)) => Err(e)
        case Some(Ok((l, r))) => if l in m then Err(DuplicateLocal(l)) else Ok(m[l := r])
  }

  /** The entry parsed and names local path `l`. */
  predicate Local(e: Option<Result<(string, string), FileSpecError>>, l: string) {
    e.Some? && e.value.Ok? && e.value.value.0 == l
  }

  predicate AllParsed(rs: seq<Option<Result<(string, string), FileSpecError>>>) {
    forall i :: 0 <= i < |rs| ==> rs[i].None? || rs[i].value.Ok?
  }

  predicate DistinctLocals(rs: seq<Option<Result<(string, string), FileSpecError>>>) {
    forall i, j :: (0 <= i < j < |rs| && rs[i].Some? && rs[i].value.Ok? && rs[j].Some? && rs[j].value.Ok?)
                   ==> rs[i].value.value.0 != rs[j].value.value.0
  }

  lemma {:induction false} CollectFilesKeys(rs: seq<Option<Result<(string, string), FileSpecError>>>)
    requires CollectFiles(rs).Ok?
    ensures forall l :: l in CollectFiles(rs).value <==> exists i :: 0 <= i < |rs| && Local(rs[i], l)
    decreases |rs|
  {
    if |rs| > 0 {
      var n := |rs| - 1;
      var init := rs[..n];
      CollectFilesKeys(init);
      assert forall i :: 0 <= i < n ==> init[i] == rs[i];
    }
  }

  lemma {:induction false} CollectFilesValues(rs: seq<Option<Result<(string, string), FileSpecError>>>)
    requires CollectFiles(rs).Ok?
    ensures forall i :: 0 <= i < |rs| && rs[i].Some? && rs[i].value.Ok? ==>
              rs[i].value.value.0 in CollectFiles(rs).value
              && CollectFiles(rs).value[rs[i].value.value.0] == rs[i].value.value.1
    decreases |rs|
  {
    if |rs| > 0 {
      var n := |rs| - 1;
      var init := rs[..n];
      CollectFilesValues(init);
      assert forall i :: 0 <= i < n ==> init[i] == rs[i];
    }
  }

  lemma {:induction false} CollectFilesIff(rs: seq<Option<Result<(string, string), FileSpecError>>>)
    ensures CollectFiles(rs).Ok? <==> AllParsed(rs) && DistinctLocals(rs)
    decreases |rs|
  {
    if |rs| > 0 {
      var n := |rs| - 1;
      var init := rs[..n];
      CollectFilesIff(init);
      assert forall i :: 0 <= i < n ==> init[i] == rs[i];
      match CollectFiles(init)
      case Err(_) =>
        assert !(AllParsed(init) && DistinctLocals(init));
      case Ok(m) =>
        CollectFilesKeys(init);
        match rs[n]
        case None =>
        case Some(Err(_)) =>
        case Some(Ok((l, r))) =>
          if l in m {
            var i :| 0 <= i < n && Local(init[i], l);
            assert rs[i].value.value.0 == rs[n].value.value.0;
          } else {
            assert forall i :: 0 <= i < n ==> !Local(rs[i], l);
          }
    }
  }

  /**
   * The loop succeeds exactly when every entry parsed and no two name the
   * same local path; the map then holds exactly the entries' local paths,
   * each sent to its remote path.
   */
  lemma {:induction false} CollectFilesOk(rs: seq<Option<Result<(string, string), FileSpecError>>>)
    ensures CollectFiles(rs).Ok? <==> AllParsed(rs) && DistinctLocals(rs)
    ensures CollectFiles(rs).Ok? ==> forall l :: l in CollectFiles(rs).value <==> exists i :: 0 <= i < |rs| && Local(rs[i], l)
    ensures CollectFiles(rs).Ok? ==>
              forall i :: 0 <= i < |rs| && rs[i].Some? && rs[i].value.Ok? ==>
                rs[i].value.value.0 in CollectFiles(rs).value
                && CollectFiles(rs).value[rs[i].value.value.0] == rs[i].value.value.1
  {
    CollectFilesIff(rs);
    if CollectFiles(rs).Ok? {
      CollectFilesKeys(rs);
      CollectFilesValues(rs);
    }
  }

  /** ParseUploadFiles: the `--upload-files` entries as a map from local to remote path. */
  function ParseUploadFiles(files: seq<string>): Result<map<string, string>, FileSpecError> {
    CollectFiles(SpecEntries(files))
  }

  /**
   * The list parses exactly when every non-empty entry does and no two name
   * the same local path; the map then sends each entry's local path to its
   * remote path and holds nothing else.
   */
  lemma {:induction false} ParseUploadFilesOk(files: seq<string>)
    ensures ParseUploadFiles(files).Ok? <==> EntriesParse(files) && EntriesDistinct(files)
    ensures ParseUploadFiles(files).Ok? ==>
              forall i :: 0 <= i < |files| && files[i] != "" ==>
                var (l, r) := ParseUploadFile(files[i]).value;
                l in ParseUploadFiles(files).value && ParseUploadFiles(files).value[l] == r
    ensures ParseUploadFiles(files).Ok? ==>
              forall l :: l in ParseUploadFiles(files).value ==>
                exists i :: 0 <= i < |files| && files[i] != "" && ParseUploadFile(files[i]).Ok?
                            && ParseUploadFile(files[i]).value.0 == l
  {
    ParseUploadFilesIff(files);
    if ParseUploadFiles(files).Ok? {
      ParseUploadFilesValues(files);
      ParseUploadFilesKeys(files);
    }
  }

  lemma ParseUploadFilesIff(files: seq<string>)
    ensures ParseUploadFiles(files).Ok? <==> EntriesParse(files) && EntriesDistinct(files)
  {
    var rs := SpecEntries(files);
    CollectFilesIff(rs);
    EntriesParseIff(files);
    EntriesDistinctIff(files);
  }

  /** Every non-empty entry parses. */
  predicate EntriesParse(files: seq<string>) {
    forall i :: 0 <= i < |files| && files[i] != "" ==> ParseUploadFile(files[i]).Ok?
  }

  /** No two non-empty entries that parse name the same local path. */
  predicate EntriesDistinct(files: seq<string>) {
    forall i, j :: (0 <= i < j < |files| && files[i] != "" && files[j] != ""
                    && ParseUploadFile(files[i]).Ok? && ParseUploadFile(files[j]).Ok?)
                   ==> ParseUploadFile(files[i]).value.0 != ParseUploadFile(files[j]).value.0
  }

  lemma EntriesParseIff(files: seq<string>)
    ensures AllParsed(SpecEntries(files)) <==> EntriesParse(files)
  {
    var rs := SpecEntries(files);
    forall i | 0 <= i < |files|
      ensures (rs[i].None? || rs[i].value.Ok?) <==> (files[i] != "" ==> ParseUploadFile(files[i]).Ok?)
    {
    }
  }

  lemma EntriesDistinctIff(files: seq<string>)
    ensures DistinctLocals(SpecEntries(files)) <==> EntriesDistinct(files)
  {
    if EntriesDistinct(files) {
      DistinctFromEntries(files);
    }
    if DistinctLocals(SpecEntries(files)) {
      EntriesFromDistinct(files);
    }
  }

  lemma DistinctFromEntries(files: seq<string>)
    requires EntriesDistinct(files)
    ensures DistinctLocals(SpecEntries(files))
  {
    var rs := SpecEntries(files);
    forall i, j | 0 <= i < j < |rs| && rs[i].Some? && rs[i].value.Ok? && rs[j].Some? && rs[j].value.Ok?
      ensures rs[i].value.value.0 != rs[j].value.value.0
    {
      assert files[i] != "" && files[j] != "";
    }
  }

  lemma EntriesFromDistinct(files: seq<string>)
    requires DistinctLocals(SpecEntries(files))
    ensures EntriesDistinct(files)
  {
    var rs := SpecEntries(files);
    forall i, j | && 0 <= i < j < |files| && files[i] != "" && files[j] != ""
                  && ParseUploadFile(files[i]).Ok? && ParseUploadFile(files[j]).Ok?
      ensures ParseUploadFile(files[i]).value.0 != ParseUploadFile(files[j]).value.0
    {
      assert rs[i] == Some(ParseUploadFile(files[i])) && rs[j] == Some(ParseUploadFile(files[j]));
    }
  }

  lemma {:induction false} ParseUploadFilesValues(files: seq<string>)
    requires ParseUploadFiles(files).Ok?
    ensures forall i :: 0 <= i < |files| && files[i] != "" ==>
              && ParseUploadFile(files[i]).Ok?
              && ParseUploadFile(files[i]).value.0 in ParseUploadFiles(files).value
              && ParseUploadFiles(files).value[ParseUploadFile(files[i]).value.0] == ParseUploadFile(files[i]).value.1
  {
    var rs := SpecEntries(files);
    CollectFilesIff(rs);
    CollectFilesValues(rs);
    forall i | 0 <= i < |files| && files[i] != ""
      ensures && ParseUploadFile(files[i]).Ok?
              && ParseUploadFile(files[i]).value.0 in ParseUploadFiles(files).value
              && ParseUploadFiles(files).value[ParseUploadFile(files[i]).value.0] == ParseUploadFile(files[i]).value.1
    {
      assert rs[i] == Some(ParseUploadFile(files[i]));
    }
  }

  lemma ParseUploadFilesKeys(files: seq<string>)
    requires ParseUploadFiles(files).Ok?
    ensures forall l :: l in ParseUploadFiles(files).value ==>
              exists i :: 0 <= i < |files| && files[i] != "" && ParseUploadFile(files[i]).Ok?
                          && ParseUploadFile(files[i]).value.0 == l
  {
    var rs := SpecEntries(files);
    CollectFilesKeys(rs);
    forall l | l in ParseUploadFiles(files).value
      ensures exists i :: 0 <= i < |files| && files[i] != "" && ParseUploadFile(files[i]).Ok?
                          && ParseUploadFile(files[i]).value.0 == l
    {
      var i :| 0 <= i < |rs| && Local(rs[i], l);
      assert files[i] != "";
    }
  }

  // ---------------------------------------------------------------- provider set-up

  /** What set-up yields: the provider and the settings it was (or, in a dry run, would be) configured with. */
  datatype Setup = Setup(provider: Provider, config: map<string, Value>)

  datatype SetupError =
    | ConfigFailed(cause: ConfigMapError)
    | CreateFailed(reason: ProviderError)
    | ConfigureFailed(provider: string)

  /**
   * The branch shared by both copies of SetupUploadProvider, given the
   * settings builder's outcome. `configure` is Provider.Configure: the
   * configured provider, or None for an error.
   */
  function SetupWith(name: string, conf: Result<map<string, Value>, ConfigMapError>, dryRun: bool,
                     reg: Registry, configure: (Provider, map<string, Value>) -> Option<Provider>)
    : (r: Result<Option<Setup>, SetupError>)
    ensures name == "" <==> r == Ok(None)
    ensures name != "" && conf.Err? ==> r == Err(ConfigFailed(conf.error))
    ensures name != "" && conf.Ok? && name !in reg ==> r == Err(CreateFailed(UnknownProvider(name)))
    ensures r.Ok? && r.value.Some? ==> conf.Ok? && r.value.value.config == conf.value && name in reg
    ensures r.Ok? && r.value.Some? && dryRun ==> r.value.value.provider == reg[name]()
    ensures r.Ok? && r.value.Some? && !dryRun ==> Some(r.value.value.provider) == configure(reg[name](), conf.value)
    ensures dryRun && name != "" && conf.Ok? && name in reg ==> r.Ok?
    ensures r.Err? && r.error.ConfigureFailed? ==> !dryRun && configure(reg[name](), conf.value).None?
  {
    if name == "" then Ok(None)
    else match conf
      case Err(e) => Err(ConfigFailed(e))
      case Ok(m) =>
        match NewProvider(reg, name)
        case Err(e) => Err(CreateFailed(e))
        case Ok(p) =>
          if dryRun then Ok(Some(Setup(p, m)))
          else match configure(p, m)
            case None => Err(ConfigureFailed(name))
            case Some(q) => Ok(Some(Setup(q, m)))
  }

  /** SetupUploadProvider (cmd/helpers): settings from BuildUploadConfig; a dry run skips Configure. */
  function SetupUploadProvider(cfg: UploadConfig, dryRun: bool, env: seq<string>, fs: Parsers, reg: Registry,
                               configure: (Provider, map<string, Value>) -> Option<Provider>)
    : (r: Result<Option<Setup>, SetupError>)
    ensures cfg.provider == "" ==> r == Ok(None)
  {
    SetupWith(cfg.provider, if cfg.provider == "" then Ok(map[]) else BuildUploadConfig(cfg, env, fs), dryRun, reg, configure)
  }

  /** SetupUploadProvider (package cmd): the old settings builder, always configuring. */
  function LegacySetupUploadProvider(cfg: UploadConfig, env: seq<string>, fs: Parsers, reg: Registry,
                                     configure: (Provider, map<string, Value>) -> Option<Provider>)
    : (r: Result<Option<Setup>, SetupError>)
    ensures cfg.provider == "" ==> r == Ok(None)
  {
    SetupWith(cfg.provider, if cfg.provider == "" then Ok(map[]) else LegacyBuildUploadConfig(cfg, env, fs), false, reg, configure)
  }

  /**
   * A settings error is reported before the provider name is looked up, and
   * an unknown provider before anything is configured; a dry run never
   * consults Configure.
   */
  lemma SetupOrder(cfg: UploadConfig, dryRun: bool, env: seq<string>, fs: Parsers, reg: Registry,
                   configure: (Provider, map<string, Value>) -> Option<Provider>,
                   other: (Provider, map<string, Value>) -> Option<Provider>)
    requires cfg.provider != ""
    ensures BuildUploadConfig(cfg, env, fs).Err?
            ==> SetupUploadProvider(cfg, dryRun, env, fs, reg, configure) == Err(ConfigFailed(BuildUploadConfig(cfg, env, fs).error))
    ensures BuildUploadConfig(cfg, env, fs).Ok? && cfg.provider !in reg
            ==> SetupUploadProvider(cfg, dryRun, env, fs, reg, configure) == Err(CreateFailed(UnknownProvider(cfg.provider)))
    ensures dryRun ==> SetupUploadProvider(cfg, dryRun, env, fs, reg, configure) == SetupUploadProvider(cfg, dryRun, env, fs, reg, other)
  {
  }

  /** Configure for the built-in providers: MinIO's validation, with the URL parser and SDK outcomes given. */
  function MinioConfigure(parseUrl: string -> Option<Url>, sdk: Minio.Sdk): (f: (Provider, map<string, Value>) -> Option<Provider>)
  {
    (p: Provider, conf: map<string, Value>) =>
      match p
      case MinioProvider(s) =>
        var (q, err) := Minio.Configure(s, conf, parseUrl, sdk);
        if err.None? then Some(MinioProvider(q)) else None
      case Custom(_) => None
  }

  /** With the start-up registry, a "minio" provider whose settings lack a required key is not set up. */
  lemma {:induction false} MinioSetupNeedsSettings(cfg: UploadConfig, env: seq<string>, fs: Parsers, parseUrl: string -> Option<Url>, sdk: Minio.Sdk)
    requires cfg.provider == "minio"
    requires BuildUploadConfig(cfg, env, fs).Ok?
    requires Minio.FirstMissing(BuildUploadConfig(cfg, env, fs).value, Minio.RequiredKeys).Some?
    ensures SetupUploadProvider(cfg, false, env, fs, InitialRegistry, MinioConfigure(parseUrl, sdk)) == Err(ConfigureFailed("minio"))
    ensures SetupUploadProvider(cfg, true, env, fs, InitialRegistry, MinioConfigure(parseUrl, sdk)).Ok?
  {
    InitialProviders("minio");
    MinioConfigureMissing(parseUrl, sdk, BuildUploadConfig(cfg, env, fs).value);
  }

  /** MinIO's Configure rejects settings that lack a required key. */
  lemma MinioConfigureMissing(parseUrl: string -> Option<Url>, sdk: Minio.Sdk, conf: map<string, Value>)
    requires Minio.FirstMissing(conf, Minio.RequiredKeys).Some?
    ensures MinioConfigure(parseUrl, sdk)(MinioProvider(Minio.NewMinioProvider), conf).None?
  {
    var (q, err) := Minio.Configure(Minio.NewMinioProvider, conf, parseUrl, sdk);
    assert err.Some?;
  }

  // ---------------------------------------------------------------- uploads

  datatype UploadFailure = Conflict(local: string) | UploadFailed(local: string, remote: string)

  /** The first additional file, in iteration order, whose local path is also a standard file. */
  function FirstConflict(order: seq<string>, files: map<string, string>, additional: map<string, string>): (r: Option<string>)
    ensures r.Some? ==> r.value in files && r.value in additional && r.value in order
    ensures r.None? <==> forall i :: 0 <= i < |order| && order[i] in additional ==> order[i] !in files
  {
    if |order| == 0 then None
    else if order[0] in additional && order[0] in files then Some(order[0])
    else FirstConflict(order[1..], files, additional)
  }

  /**
   * The upload loop over `all` in iteration order: `put` says whether opening
   * the local file and Provider.Upload succeed. The first failure stops the
   * loop; the result lists the uploads done.
   */
  function UploadAll(order: seq<string>, all: map<string, string>, put: (string, string) -> bool)
    : (r: (seq<(string, string)>, Option<UploadFailure>))
    ensures forall i :: 0 <= i < |r.0| ==> r.0[i].0 in all && r.0[i].1 == all[r.0[i].0] && put(r.0[i].0, r.0[i].1)
    ensures r.1.None? ==> forall i :: 0 <= i < |order| && order[i] in all ==> (order[i], all[order[i]]) in r.0
    ensures r.1.Some? ==> r.1.value.UploadFailed? && r.1.value.local in all
                          && r.1.value.remote == all[r.1.value.local] && !put(r.1.value.local, r.1.value.remote)
  {
    if |order| == 0 then ([], None)
    else if order[0] !in all then UploadAll(order[1..], all, put)
    else
      var k := order[0];
      if !put(k, all[k]) then ([], Some(UploadFailed(k, all[k])))
      else
        var (done, err) := UploadAll(order[1..], all, put);
        ([(k, all[k])] + done, err)
  }

  /**
   * HandleUploads: nothing without a provider; a conflict between an
   * additional and a standard file fails before any upload; a dry run uploads
   * nothing; otherwise every file of the merged map is uploaded in turn.
   * `order` is the iteration order of the additional files, `uploadOrder`
   * that of the merged map.
   */
  function HandleUploads(hasProvider: bool, files: map<string, string>, additional: map<string, string>, dryRun: bool,
                         order: seq<string>, uploadOrder: seq<string>, put: (string, string) -> bool)
    : (r: (seq<(string, string)>, Option<UploadFailure>))
    ensures !hasProvider ==> r == ([], None)
    ensures hasProvider && FirstConflict(order, files, additional).Some?
            ==> r == ([], Some(Conflict(FirstConflict(order, files, additional).value)))
    ensures dryRun ==> r.0 == []
    ensures forall i :: 0 <= i < |r.0| ==> var (l, rm) := r.0[i];
              (l in files && files[l] == rm) || (l in additional && additional[l] == rm)
  {
    if !hasProvider then ([], None)
    else match FirstConflict(order, files, additional)
      case Some(k) => ([], Some(Conflict(k)))
      case None =>
        if dryRun then ([], None)
        else UploadAll(uploadOrder, files + additional, put)
  }

  /**
   * When the iteration orders cover the maps' keys: a conflict is reported
   * exactly when the two maps share a local path, and a run without failures
   * uploads every standard and every additional file to its remote path.
   */
  lemma HandleUploadsCovers(files: map<string, string>, additional: map<string, string>,
                            order: seq<string>, uploadOrder: seq<string>, put: (string, string) -> bool)
    requires forall k :: k in additional ==> k in order
    requires forall k :: k in files || k in additional ==> k in uploadOrder
    ensures var r := HandleUploads(true, files, additional, false, order, uploadOrder, put);
            r.1.Some? && r.1.value.Conflict? <==> files.Keys * additional.Keys != {}
    ensures var r := HandleUploads(true, files, additional, false, order, uploadOrder, put);
            r.1.None? ==> forall k :: k in files ==> (k, files[k]) in r.0
    ensures var r := HandleUploads(true, files, additional, false, order, uploadOrder, put);
            r.1.None? ==> forall k :: k in additional ==> (k, additional[k]) in r.0
  {
    var c := FirstConflict(order, files, additional);
    if files.Keys * additional.Keys != {} {
      var k :| k in files.Keys * additional.Keys;
      var i :| 0 <= i < |order| && order[i] == k;
      assert c.Some?;
    }
    if c.Some? {
      assert c.value in files.Keys * additional.Keys;
    } else {
      var all := files + additional;
      var r := UploadAll(uploadOrder, all, put);
      assert HandleUploads(true, files, additional, false, order, uploadOrder, put) == r;
      assert r.1.Some? ==> r.1.value.UploadFailed?;
      if r.1.None? {
        forall k | k in files
          ensures (k, files[k]) in r.0
        {
          var i :| 0 <= i < |uploadOrder| && uploadOrder[i] == k;
          assert k !in additional;
          assert all[k] == files[k];
        }
        forall k | k in additional
          ensures (k, additional[k]) in r.0
        {
          var i :| 0 <= i < |uploadOrder| && uploadOrder[i] == k;
        }
      }
    }
  }

  /** HandleUploads (package cmd): the standard files only, never a dry run. */
  lemma LegacyHandleUploads(hasProvider: bool, files: map<string, string>, order: seq<string>,
                            uploadOrder: seq<string>, put: (string, string) -> bool)
    ensures HandleUploads(hasProvider, files, map[], false, order, uploadOrder, put)
         == if hasProvider then UploadAll(uploadOrder, files, put) else ([], None)
  {
    if hasProvider {
      assert FirstConflict(order, files, map[]).None?;
      assert files + map[] == files;
    }
  }
}

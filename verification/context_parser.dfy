/**
 * The context parser: `key=value` pairs with type inference, environment
 * variables under a prefix, left-to-right merging of context maps, and the
 * four-source builder (environment < file < JSON string < key=value pairs).
 */
module ContextParser {
  import opened Base
  import opened Strings
  import opened Values
  import opened Foreign

  datatype KvError = MissingEquals(pair: string) | EmptyKey

  datatype BuildError = FileError(path: string) | JsonError(text: string) | KvPairError(cause: KvError)

  /**
   * ParseKV's type inference on the trimmed value text: an integer if Atoi
   * accepts it, else a float if ParseFloat does, else a bool for exactly
   * "true"/"false", else the text itself.
   */
  function Infer(text: string, floatSyntax: string -> bool): (v: Value)
    ensures v.Int? || v.Float? || v.Bool? || v.Str?
  {
    match Atoi(text)
    case Some(n) => Int(n)
    case None =>
      if floatSyntax(text) then Float(text)
      else if text == "true" || text == "false" then Bool(ParseBool(text).value)
      else Str(text)
  }

  /**
   * The inference order: integer before float before bool before string, a
   * bool only for the exact words "true" and "false", and the text kept
   * verbatim for a float or a string.
   */
  lemma InferClassifies(text: string, floatSyntax: string -> bool)
    ensures var v := Infer(text, floatSyntax);
            && (v.Int? <==> Atoi(text).Some?)
            && (v.Int? ==> v.i == Atoi(text).value)
            && (v.Float? <==> Atoi(text).None? && floatSyntax(text))
            && (v.Float? ==> v.text == text)
            && (v.Bool? <==> Atoi(text).None? && !floatSyntax(text) && (text == "true" || text == "false"))
            && (v.Bool? ==> (v.b <==> text == "true"))
            && (v.Str? ==> v.s == text)
  {
  }

  /** A rendered integer is read back as that integer, never as a bool or a float. */
  lemma InferFormatInt(n: int, floatSyntax: string -> bool)
    requires MinInt <= n <= MaxInt
    ensures Infer(FormatInt(n), floatSyntax) == Int(n)
  {
    AtoiFormatInt(n);
  }

  /** "1" is an integer, "true" a bool, and "123abc" stays a string unless ParseFloat takes it. */
  lemma InferExamples(floatSyntax: string -> bool)
    ensures Infer("1", floatSyntax) == Int(1)
    ensures !floatSyntax("true") ==> Infer("true", floatSyntax) == Bool(true)
    ensures !floatSyntax("False") ==> Infer("False", floatSyntax) == Str("False")
    ensures !floatSyntax("123abc") ==> Infer("123abc", floatSyntax) == Str("123abc")
  {
    assert DigitsValue("1") == 1 by { assert "1"[..0] == ""; }
    assert !AllDigits("123abc") by { assert !IsDigit("123abc"[3]); }
    assert !AllDigits("true") by { assert !IsDigit("true"[0]); }
    assert !AllDigits("False") by { assert !IsDigit("False"[0]); }
  }

  /** ParseKV: split at the first '=', trim both halves, reject an empty key, infer the value. */
  function ParseKV(pair: string, floatSyntax: string -> bool): (r: Result<(string, Value), KvError>)
    ensures '=' !in pair ==> r == Err(MissingEquals(pair))
    ensures r.Ok? ==> r.value.0 != "" && '=' !in r.value.0
    ensures r.Ok? ==> r.value.0 == TrimSpace(r.value.0)
  {
    match SplitFirst(pair, '=')
    case None => Err(MissingEquals(pair))
    case Some(halves) =>
      var key := TrimSpace(halves.0);
      TrimSpaceKeeps(halves.0, '=');
      TrimSpaceTrimmed(halves.0);
      if key == "" then Err(EmptyKey) else Ok((key, Infer(TrimSpace(halves.1), floatSyntax)))
  }

  /**
   * For every key text free of '=' and every value text (which may itself hold
   * '='), ParseKV splits between them, trims both, and errs exactly when the
   * trimmed key is empty.
   */
  lemma {:induction false} ParseKVOfPair(k: string, v: string, floatSyntax: string -> bool)
    requires '=' !in k
    ensures ParseKV(k + "=" + v, floatSyntax)
         == if TrimSpace(k) == "" then Err(EmptyKey) else Ok((TrimSpace(k), Infer(TrimSpace(v), floatSyntax)))
  {
    SplitFirstOfJoin(k, '=', v);
  }

  /**
   * The pair loop over already-parsed pairs: the first error aborts, and each
   * parsed pair sets its key, so a later pair overrides an earlier one.
   */
  function Collect(rs: seq<Result<(string, Value), KvError>>): Result<map<string, Value>, KvError>
    decreases |rs|
  {
    if |rs| == 0 then Ok(map[])
    else
      match Collect(rs[..|rs| - 1])
      case Err(e) => Err(e)
      case Ok(m) =>
        match rs[|rs| - 1]
        case Err(e) => Err(e)
        case Ok(kv) => Ok(m[kv.0 := kv.1])
  }

  predicate Names(r: Result<(string, Value), KvError>, k: string) {
    r.Ok? && r.value.0 == k
  }

  lemma {:induction false} CollectError(rs: seq<Result<(string, Value), KvError>>)
    ensures Collect(rs).Err? <==> exists i :: 0 <= i < |rs| && rs[i].Err?
    ensures forall i :: 0 <= i < |rs| && rs[i].Err? && (forall j :: 0 <= j < i ==> rs[j].Ok?)
                        ==> Collect(rs) == Err(rs[i].error)
    decreases |rs|
  {
    if |rs| > 0 {
      var init := rs[..|rs| - 1];
      CollectError(init);
      assert forall i :: 0 <= i < |init| ==> init[i] == rs[i];
    }
  }

  lemma {:induction false} CollectKeys(rs: seq<Result<(string, Value), KvError>>, k: string)
    requires Collect(rs).Ok?
    ensures k in Collect(rs).value <==> exists i :: 0 <= i < |rs| && Names(rs[i], k)
    decreases |rs|
  {
    if |rs| > 0 {
      var init := rs[..|rs| - 1];
      CollectKeys(init, k);
      assert forall i :: 0 <= i < |init| ==> init[i] == rs[i];
    }
  }

  lemma {:induction false} CollectLastWins(rs: seq<Result<(string, Value), KvError>>, i: nat, k: string)
    requires Collect(rs).Ok?
    requires i < |rs| && Names(rs[i], k)
    requires forall j :: i < j < |rs| ==> !Names(rs[j], k)
    ensures k in Collect(rs).value && Collect(rs).value[k] == rs[i].value.1
    decreases |rs|
  {
    var init := rs[..|rs| - 1];
    if i < |rs| - 1 {
      assert init[i] == rs[i];
      CollectLastWins(init, i, k);
    }
  }

  function ParseEach(kvs: seq<string>, floatSyntax: string -> bool): (rs: seq<Result<(string, Value), KvError>>)
    ensures |rs| == |kvs|
    ensures forall i :: 0 <= i < |kvs| ==> rs[i] == ParseKV(kvs[i], floatSyntax)
  {
    seq(|kvs|, i requires 0 <= i < |kvs| => ParseKV(kvs[i], floatSyntax))
  }

  /** The `--context-kv` pairs parsed in order into one map. */
  function ParseKVs(kvs: seq<string>, floatSyntax: string -> bool): Result<map<string, Value>, KvError> {
    Collect(ParseEach(kvs, floatSyntax))
  }

  /** The batch fails exactly when some pair fails, and then with the first failing pair's error. */
  lemma {:induction false} ParseKVsError(kvs: seq<string>, floatSyntax: string -> bool, i: nat)
    requires i < |kvs| && ParseKV(kvs[i], floatSyntax).Err?
    requires forall j :: 0 <= j < i ==> ParseKV(kvs[j], floatSyntax).Ok?
    ensures ParseKVs(kvs, floatSyntax) == Err(ParseKV(kvs[i], floatSyntax).error)
  {
    CollectError(ParseEach(kvs, floatSyntax));
  }

  /** When every pair parses, so does the batch, holding exactly the keys the pairs name. */
  lemma {:induction false} ParseKVsKeys(kvs: seq<string>, floatSyntax: string -> bool, k: string)
    requires forall i :: 0 <= i < |kvs| ==> ParseKV(kvs[i], floatSyntax).Ok?
    ensures ParseKVs(kvs, floatSyntax).Ok?
    ensures k in ParseKVs(kvs, floatSyntax).value
        <==> exists i :: 0 <= i < |kvs| && Names(ParseKV(kvs[i], floatSyntax), k)
  {
    var rs := ParseEach(kvs, floatSyntax);
    CollectError(rs);
    CollectKeys(rs, k);
  }

  /** The value of the last pair naming a key is the one kept. */
  lemma {:induction false} ParseKVsLastWins(kvs: seq<string>, floatSyntax: string -> bool, i: nat, k: string)
    requires ParseKVs(kvs, floatSyntax).Ok?
    requires i < |kvs| && Names(ParseKV(kvs[i], floatSyntax), k)
    requires forall j :: i < j < |kvs| ==> !Names(ParseKV(kvs[j], floatSyntax), k)
    ensures k in ParseKVs(kvs, floatSyntax).value
    ensures ParseKVs(kvs, floatSyntax).value[k] == ParseKV(kvs[i], floatSyntax).value.1
  {
    CollectLastWins(ParseEach(kvs, floatSyntax), i, k);
  }

  // ---------------------------------------------------------------- environment

  /** os.Getenv over NAME=VALUE entries: the value of the first entry with that name, or "". */
  function Getenv(env: seq<string>, name: string): (v: string)
    ensures v != "" ==> exists i :: 0 <= i < |env| && env[i] == name + "=" + v
  {
    if |env| == 0 then ""
    else match SplitFirst(env[0], '=')
      case Some((n, val)) => if n == name then val else Getenv(env[1..], name)
      case None => Getenv(env[1..], name)
  }

  /** The entry sets `name`: it starts with `name=` and `name` has no '=' of its own. */
  predicate Assigns(e: string, name: string) {
    '=' !in name && HasPrefix(e, name + "=")
  }

  /** The first entry setting the name decides the value: whatever follows its `name=`. */
  lemma {:induction false} GetenvFirst(env: seq<string>, name: string, i: nat)
    requires i < |env| && Assigns(env[i], name)
    requires forall j :: 0 <= j < i ==> !Assigns(env[j], name)
    ensures Getenv(env, name) == env[i][|name| + 1..]
  {
    if i == 0 {
      var e := env[0];
      assert e == name + "=" + e[|name| + 1..] by {
        assert e[..|name| + 1] == name + "=";
      }
      SplitFirstOfJoin(name, '=', e[|name| + 1..]);
    } else {
      GetenvSkip(env, name);
      assert env[1..][i - 1] == env[i];
      GetenvFirst(env[1..], name, i - 1);
    }
  }

  /** Without an entry setting the name the value is "". */
  lemma {:induction false} GetenvAbsent(env: seq<string>, name: string)
    requires forall j :: 0 <= j < |env| ==> !Assigns(env[j], name)
    ensures Getenv(env, name) == ""
  {
    if |env| > 0 {
      GetenvSkip(env, name);
      GetenvAbsent(env[1..], name);
    }
  }

  /** An entry that does not set the name is passed over. */
  lemma GetenvSkip(env: seq<string>, name: string)
    requires |env| > 0 && !Assigns(env[0], name)
    ensures Getenv(env, name) == Getenv(env[1..], name)
  {
    match SplitFirst(env[0], '=')
    case Some((n, val)) => AssignsOfSplit(env[0], n, val);
    case None =>
  }

  /** The text before an entry's first '=' is the name it sets. */
  lemma AssignsOfSplit(e: string, n: string, val: string)
    requires SplitFirst(e, '=') == Some((n, val))
    ensures Assigns(e, n)
  {
    assert e[..|n| + 1] == n + "=";
  }

  /** The bare-prefix variable's contribution: its JSON object, if it decodes to one. */
  function EnvJson(env: seq<string>, prefix: string, fs: Parsers): map<string, Value> {
    var text := Getenv(env, prefix);
    if text == "" then map[]
    else match fs.json(text)
      case Some(Obj(m)) => m
      case _ => map[]
  }

  /**
   * One PREFIX_NAME=VALUE entry: the key is NAME lower-cased, the value is
   * inferred as ParseKV would on "key=VALUE" (nil when that fails).
   */
  function EnvEntry(e: string, envPrefix: string, floatSyntax: string -> bool): Option<(string, Value)> {
    if !HasPrefix(e, envPrefix) then None
    else match SplitFirst(e, '=')
      case None => None
      case Some((name, raw)) =>
        var key := AsciiLower(TrimPrefix(name, envPrefix));
        var value := match ParseKV(key + "=" + raw, floatSyntax)
          case Ok(kv) => kv.1
          case Err(_) => Null;
        Some((key, value))
  }

  /**
   * The value an entry records is the inferred, trimmed text after its first
   * '=', or nil when the lower-cased name is blank.
   */
  lemma {:induction false} EnvEntryValue(e: string, envPrefix: string, floatSyntax: string -> bool)
    requires HasPrefix(e, envPrefix) && '=' in e
    ensures var (name, raw) := SplitFirst(e, '=').value;
            var key := AsciiLower(TrimPrefix(name, envPrefix));
            EnvEntry(e, envPrefix, floatSyntax)
              == Some((key, if TrimSpace(key) == "" then Null else Infer(TrimSpace(raw), floatSyntax)))
  {
    var (name, raw) := SplitFirst(e, '=').value;
    var key := AsciiLower(TrimPrefix(name, envPrefix));
    assert '=' !in key by {
      assert forall i :: 0 <= i < |key| ==> key[i] == LowerAscii(TrimPrefix(name, envPrefix)[i]);
      if HasPrefix(name, envPrefix) {
        assert forall i :: 0 <= i < |key| ==> TrimPrefix(name, envPrefix)[i] == name[|envPrefix| + i];
      }
    }
    ParseKVOfPair(key, raw, floatSyntax);
  }

  /** The scan loop over already-interpreted entries: each present entry sets its key. */
  function Scan(acc: map<string, Value>, es: seq<Option<(string, Value)>>): map<string, Value>
    decreases |es|
  {
    if |es| == 0 then acc
    else
      var m := Scan(acc, es[..|es| - 1]);
      match es[|es| - 1]
      case None => m
      case Some(kv) => m[kv.0 := kv.1]
  }

  predicate HasKey(e: Option<(string, Value)>, k: string) {
    e.Some? && e.value.0 == k
  }

  lemma {:induction false} ScanLastWins(acc: map<string, Value>, es: seq<Option<(string, Value)>>, i: nat, k: string)
    requires i < |es| && HasKey(es[i], k)
    requires forall j :: i < j < |es| ==> !HasKey(es[j], k)
    ensures k in Scan(acc, es) && Scan(acc, es)[k] == es[i].value.1
    decreases |es|
  {
    var init := es[..|es| - 1];
    if i < |es| - 1 {
      assert init[i] == es[i];
      ScanLastWins(acc, init, i, k);
    }
  }

  lemma {:induction false} ScanKeys(acc: map<string, Value>, es: seq<Option<(string, Value)>>, k: string)
    ensures k in Scan(acc, es) <==> k in acc || exists i :: 0 <= i < |es| && HasKey(es[i], k)
    ensures (forall i :: 0 <= i < |es| ==> !HasKey(es[i], k)) && k in acc ==> Scan(acc, es)[k] == acc[k]
    decreases |es|
  {
    if |es| > 0 {
      var init := es[..|es| - 1];
      assert forall j :: 0 <= j < |init| ==> init[j] == es[j];
      ScanKeys(acc, init, k);
    }
  }

  function EnvEntries(env: seq<string>, envPrefix: string, floatSyntax: string -> bool): (es: seq<Option<(string, Value)>>)
    ensures |es| == |env|
    ensures forall i :: 0 <= i < |env| ==> es[i] == EnvEntry(env[i], envPrefix, floatSyntax)
  {
    seq(|env|, i requires 0 <= i < |env| => EnvEntry(env[i], envPrefix, floatSyntax))
  }

  /** The scan over the environment, in order: each matching entry sets its key. */
  function ScanEnv(acc: map<string, Value>, env: seq<string>, envPrefix: string, floatSyntax: string -> bool): map<string, Value> {
    Scan(acc, EnvEntries(env, envPrefix, floatSyntax))
  }

  /** The last entry naming a key decides its value. */
  lemma {:induction false} ScanEnvLastWins(acc: map<string, Value>, env: seq<string>, envPrefix: string, floatSyntax: string -> bool, i: nat, k: string)
    requires i < |env| && HasKey(EnvEntry(env[i], envPrefix, floatSyntax), k)
    requires forall j :: i < j < |env| ==> !HasKey(EnvEntry(env[j], envPrefix, floatSyntax), k)
    ensures k in ScanEnv(acc, env, envPrefix, floatSyntax)
    ensures ScanEnv(acc, env, envPrefix, floatSyntax)[k] == EnvEntry(env[i], envPrefix, floatSyntax).value.1
  {
    ScanLastWins(acc, EnvEntries(env, envPrefix, floatSyntax), i, k);
  }

  /** A key no entry names keeps its starting value (or stays absent); no other key appears. */
  lemma ScanEnvKeys(acc: map<string, Value>, env: seq<string>, envPrefix: string, floatSyntax: string -> bool, k: string)
    ensures k in ScanEnv(acc, env, envPrefix, floatSyntax)
        <==> k in acc || exists i :: 0 <= i < |env| && HasKey(EnvEntry(env[i], envPrefix, floatSyntax), k)
    ensures (forall i :: 0 <= i < |env| ==> !HasKey(EnvEntry(env[i], envPrefix, floatSyntax), k)) && k in acc
            ==> ScanEnv(acc, env, envPrefix, floatSyntax)[k] == acc[k]
  {
    var es := EnvEntries(env, envPrefix, floatSyntax);
    ScanKeys(acc, es, k);
    if exists i :: 0 <= i < |es| && HasKey(es[i], k) {
      var i :| 0 <= i < |es| && HasKey(es[i], k);
      assert HasKey(EnvEntry(env[i], envPrefix, floatSyntax), k);
    }
  }

  /**
   * ParseEnvWithPrefix: the bare PREFIX variable's JSON object, overridden by
   * every PREFIX_NAME entry; nil when that leaves nothing.
   */
  function ParseEnvWithPrefix(env: seq<string>, prefix: string, fs: Parsers): (r: Option<map<string, Value>>)
    ensures r.Some? ==> |r.value| > 0
  {
    var ctx := ScanEnv(EnvJson(env, prefix, fs), env, prefix + "_", fs.floatSyntax);
    if |ctx| == 0 then None else Some(ctx)
  }

  /** Nothing is found exactly when the JSON contributes no key and no entry carries the prefix. */
  lemma ParseEnvNothingFound(env: seq<string>, prefix: string, fs: Parsers)
    ensures ParseEnvWithPrefix(env, prefix, fs).None?
        <==> |EnvJson(env, prefix, fs)| == 0 && forall i :: 0 <= i < |env| ==> EnvEntry(env[i], prefix + "_", fs.floatSyntax).None?
  {
    var base := EnvJson(env, prefix, fs);
    var ctx := ScanEnv(base, env, prefix + "_", fs.floatSyntax);
    if |ctx| == 0 {
      if |base| > 0 {
        var k :| k in base;
        ScanEnvKeys(base, env, prefix + "_", fs.floatSyntax, k);
      }
      forall i | 0 <= i < |env|
        ensures EnvEntry(env[i], prefix + "_", fs.floatSyntax).None?
      {
        if EnvEntry(env[i], prefix + "_", fs.floatSyntax).Some? {
          var k := EnvEntry(env[i], prefix + "_", fs.floatSyntax).value.0;
          ScanEnvKeys(base, env, prefix + "_", fs.floatSyntax, k);
        }
      }
    } else {
      var k :| k in ctx;
      ScanEnvKeys(base, env, prefix + "_", fs.floatSyntax, k);
    }
  }

  // ---------------------------------------------------------------- merging

  function ObjFields(v: Value): map<string, Value> {
    if v.Obj? then v.fields else map[]
  }

  predicate IsMapOrNil(v: Value) {
    v.Null? || v.Obj?
  }

  /** A merged map as MergeContexts returns it: nil when empty. */
  function Wrap(m: map<string, Value>): Value {
    if |m| == 0 then Null else Obj(m)
  }

  /** MergeContexts' loop from an accumulated map onwards. */
  function MergeFrom(acc: map<string, Value>, cs: seq<Value>): Value
    decreases |cs|
  {
    if |cs| == 0 then Wrap(acc)
    else match cs[0]
      case Null => MergeFrom(acc, cs[1..])
      case Obj(m) => MergeFrom(acc + m, cs[1..])
      case _ => if |acc| == 0 then cs[0] else MergeFrom(acc, cs[1..])
  }

  /** MergeContexts: later maps override earlier ones; nils are skipped; an empty merge is nil. */
  function MergeContexts(cs: seq<Value>): Value {
    MergeFrom(map[], cs)
  }

  /** Reference for a merge of maps: the union of their fields, later ones winning. */
  function Overlay(cs: seq<Value>): map<string, Value> {
    if |cs| == 0 then map[] else Overlay(cs[..|cs| - 1]) + ObjFields(cs[|cs| - 1])
  }

  lemma {:induction false} OverlayCons(cs: seq<Value>)
    requires |cs| > 0
    ensures Overlay(cs) == ObjFields(cs[0]) + Overlay(cs[1..])
    decreases |cs|
  {
    if |cs| > 1 {
      var init := cs[..|cs| - 1];
      var last := ObjFields(cs[|cs| - 1]);
      OverlayCons(init);
      assert init[0] == cs[0];
      assert init[1..] == cs[1..][..|cs| - 2];
      assert Overlay(cs[1..]) == Overlay(init[1..]) + last;
      UnionAssoc(ObjFields(cs[0]), Overlay(init[1..]), last);
    } else {
      assert cs[1..] == [];
    }
  }

  lemma UnionAssoc(a: map<string, Value>, b: map<string, Value>, c: map<string, Value>)
    ensures (a + b) + c == a + (b + c)
  {
  }

  /**
   * One step of the merge loop: a map or nil source is folded into the
   * accumulator, and so is a non-map source once some key has accumulated,
   * since it contributes no field.
   */
  lemma {:induction false} MergeFromStep(acc: map<string, Value>, cs: seq<Value>)
    requires |cs| > 0 && (IsMapOrNil(cs[0]) || |acc| > 0)
    ensures MergeFrom(acc, cs) == MergeFrom(acc + ObjFields(cs[0]), cs[1..])
  {
    if !cs[0].Obj? {
      assert acc + ObjFields(cs[0]) == acc;
    }
  }

  lemma {:induction false} OverlayShift(acc: map<string, Value>, cs: seq<Value>)
    requires |cs| > 0
    ensures acc + Overlay(cs) == (acc + ObjFields(cs[0])) + Overlay(cs[1..])
  {
    OverlayCons(cs);
  }

  /** Dropping the first source moves its fields into the accumulator. */
  lemma PrefixShift(acc: map<string, Value>, cs: seq<Value>, i: nat)
    requires 0 < i <= |cs|
    ensures acc + Overlay(cs[..i]) == (acc + ObjFields(cs[0])) + Overlay(cs[1..][..i - 1])
  {
    OverlayShift(acc, cs[..i]);
    assert cs[..i][0] == cs[0];
    assert cs[..i][1..] == cs[1..][..i - 1];
  }

  lemma MapsShift(cs: seq<Value>, i: nat)
    requires 0 < i <= |cs|
    requires forall j :: 0 <= j < i ==> IsMapOrNil(cs[j])
    ensures forall j :: 0 <= j < i - 1 ==> IsMapOrNil(cs[1..][j])
  {
    forall j | 0 <= j < i - 1
      ensures IsMapOrNil(cs[1..][j])
    {
      assert cs[1..][j] == cs[j + 1];
    }
  }

  /** A leading run of map or nil sources folds into the accumulator as their overlay. */
  lemma {:induction false} MergeFromPrefix(acc: map<string, Value>, cs: seq<Value>, i: nat)
    requires i <= |cs|
    requires forall j :: 0 <= j < i ==> IsMapOrNil(cs[j])
    ensures MergeFrom(acc, cs) == MergeFrom(acc + Overlay(cs[..i]), cs[i..])
    decreases i
  {
    if i == 0 {
      assert acc + Overlay(cs[..0]) == acc;
      assert cs[0..] == cs;
    } else {
      MergeFromStep(acc, cs);
      MapsShift(cs, i);
      MergeFromPrefix(acc + ObjFields(cs[0]), cs[1..], i - 1);
      PrefixShift(acc, cs, i);
      assert cs[1..][i - 1..] == cs[i..];
    }
  }

  lemma {:induction false} MergeFromMaps(acc: map<string, Value>, cs: seq<Value>)
    requires forall i :: 0 <= i < |cs| ==> IsMapOrNil(cs[i])
    ensures MergeFrom(acc, cs) == Wrap(acc + Overlay(cs))
  {
    MergeFromPrefix(acc, cs, |cs|);
    assert cs[..|cs|] == cs;
  }

  /** When every source is a map or nil, the merge is their overlay, nil when it is empty. */
  lemma {:induction false} MergeAllMaps(cs: seq<Value>)
    requires forall i :: 0 <= i < |cs| ==> IsMapOrNil(cs[i])
    ensures MergeContexts(cs) == Wrap(Overlay(cs))
  {
    MergeFromMaps(map[], cs);
    UnionEmpty(Overlay(cs));
  }

  /** A key of the overlay takes its value from the last map that has it. */
  lemma {:induction false} OverlayLastWins(cs: seq<Value>, i: nat, k: string)
    requires i < |cs| && k in ObjFields(cs[i])
    requires forall j :: i < j < |cs| ==> k !in ObjFields(cs[j])
    ensures k in Overlay(cs) && Overlay(cs)[k] == cs[i].fields[k]
    decreases |cs|
  {
    if i < |cs| - 1 {
      var init := cs[..|cs| - 1];
      assert init[i] == cs[i];
      OverlayLastWins(init, i, k);
    }
  }

  /** The overlay has exactly the keys of its maps. */
  lemma {:induction false} OverlayKeys(cs: seq<Value>, k: string)
    ensures k in Overlay(cs) <==> exists i :: 0 <= i < |cs| && k in ObjFields(cs[i])
    decreases |cs|
  {
    if |cs| > 0 {
      var init := cs[..|cs| - 1];
      OverlayKeys(init, k);
      if k in Overlay(init) {
        var i :| 0 <= i < |init| && k in ObjFields(init[i]);
        assert init[i] == cs[i];
      }
      if exists i :: 0 <= i < |cs| && k in ObjFields(cs[i]) {
        var i :| 0 <= i < |cs| && k in ObjFields(cs[i]);
        if i < |init| {
          assert init[i] == cs[i];
        }
      }
    }
  }

  lemma {:induction false} MergeFromScalar(acc: map<string, Value>, cs: seq<Value>, i: nat)
    requires i < |cs| && !IsMapOrNil(cs[i])
    requires forall j :: 0 <= j < i ==> IsMapOrNil(cs[j])
    requires |acc + Overlay(cs[..i])| == 0
    ensures MergeFrom(acc, cs) == cs[i]
  {
    MergeFromPrefix(acc, cs, i);
    assert cs[i..][0] == cs[i];
  }

  /** A non-map source is returned as it is when every source before it contributed no key. */
  lemma MergeScalarFirst(cs: seq<Value>, i: nat)
    requires i < |cs| && !IsMapOrNil(cs[i])
    requires forall j :: 0 <= j < i ==> IsMapOrNil(cs[j])
    requires |Overlay(cs[..i])| == 0
    ensures MergeContexts(cs) == cs[i]
  {
    UnionEmpty(Overlay(cs[..i]));
    MergeFromScalar(map[], cs, i);
  }

  /** Removing source i leaves the sources before it, and those after it, in place. */
  lemma DropAt(cs: seq<Value>, i: nat)
    requires i < |cs|
    requires forall j :: 0 <= j < i ==> IsMapOrNil(cs[j])
    ensures var rest := cs[..i] + cs[i + 1..];
            && i <= |rest| && rest[..i] == cs[..i] && rest[i..] == cs[i + 1..]
            && forall j :: 0 <= j < i ==> IsMapOrNil(rest[j])
  {
    var rest := cs[..i] + cs[i + 1..];
    assert rest[..i] == cs[..i];
    assert rest[i..] == cs[i + 1..];
    forall j | 0 <= j < i
      ensures IsMapOrNil(rest[j])
    {
      assert rest[j] == cs[j];
    }
  }

  lemma {:induction false} MergeFromScalarIgnored(acc: map<string, Value>, cs: seq<Value>, i: nat)
    requires i < |cs| && !IsMapOrNil(cs[i])
    requires forall j :: 0 <= j < i ==> IsMapOrNil(cs[j])
    requires |acc + Overlay(cs[..i])| > 0
    ensures MergeFrom(acc, cs) == MergeFrom(acc, cs[..i] + cs[i + 1..])
  {
    MergeFromPrefix(acc, cs, i);
    ScalarSkipped(acc + Overlay(cs[..i]), cs, i);
    MergeFromDropped(acc, cs, i);
  }

  /** A non-map source met with keys accumulated is skipped. */
  lemma ScalarSkipped(a: map<string, Value>, cs: seq<Value>, i: nat)
    requires i < |cs| && !IsMapOrNil(cs[i]) && |a| > 0
    ensures MergeFrom(a, cs[i..]) == MergeFrom(a, cs[i + 1..])
  {
    MergeFromStep(a, cs[i..]);
    assert cs[i..][1..] == cs[i + 1..];
    assert a + ObjFields(cs[i]) == a;
  }

  /** With source i removed, the map sources before it fold in and the merge goes on after it. */
  lemma MergeFromDropped(acc: map<string, Value>, cs: seq<Value>, i: nat)
    requires i < |cs|
    requires forall j :: 0 <= j < i ==> IsMapOrNil(cs[j])
    ensures MergeFrom(acc, cs[..i] + cs[i + 1..]) == MergeFrom(acc + Overlay(cs[..i]), cs[i + 1..])
  {
    DropAt(cs, i);
    MergeFromPrefix(acc, cs[..i] + cs[i + 1..], i);
  }

  /** Once some key has accumulated, a later non-map source changes nothing. */
  lemma MergeScalarIgnored(cs: seq<Value>, i: nat)
    requires i < |cs| && !IsMapOrNil(cs[i])
    requires forall j :: 0 <= j < i ==> IsMapOrNil(cs[j])
    requires |Overlay(cs[..i])| > 0
    ensures MergeContexts(cs) == MergeContexts(cs[..i] + cs[i + 1..])
  {
    UnionEmpty(Overlay(cs[..i]));
    MergeFromScalarIgnored(map[], cs, i);
  }

  lemma UnionEmpty(m: map<string, Value>)
    ensures map[] + m == m
  {
  }

  // ---------------------------------------------------------------- building

  /** Field `k` of a context value, if it is a map holding `k`. */
  function Lookup(v: Value, k: string): Option<Value> {
    if v.Obj? && k in v.fields then Some(v.fields[k]) else None
  }

  /**
   * The merge of the sources found, lowest precedence first, once every
   * requested source parsed; the first failing source (file, then JSON, then
   * a key=value pair) aborts with no context.
   */
  function BuildFromSources(envCtx: Option<map<string, Value>>, jsonStr: string, kvPairs: seq<string>,
                            filePath: string, fs: Parsers): (r: Result<Value, BuildError>)
    ensures r.Err? <==> || (filePath != "" && fs.file(filePath).None?)
                        || (jsonStr != "" && fs.json(jsonStr).None?)
                        || (|kvPairs| > 0 && ParseKVs(kvPairs, fs.floatSyntax).Err?)
    ensures filePath != "" && fs.file(filePath).None? ==> r == Err(FileError(filePath))
    ensures (filePath == "" || fs.file(filePath).Some?) && jsonStr != "" && fs.json(jsonStr).None?
            ==> r == Err(JsonError(jsonStr))
  {
    if filePath != "" && fs.file(filePath).None? then Err(FileError(filePath))
    else if jsonStr != "" && fs.json(jsonStr).None? then Err(JsonError(jsonStr))
    else if |kvPairs| > 0 && ParseKVs(kvPairs, fs.floatSyntax).Err? then
      Err(KvPairError(ParseKVs(kvPairs, fs.floatSyntax).error))
    else
      Ok(MergeContexts(SourceList(envCtx, jsonStr, kvPairs, filePath, fs)))
  }

  /** A source's slot in the merge list: present or skipped. */
  function Part(present: bool, v: Value): seq<Value> {
    if present then [v] else []
  }

  /** The parsed key=value map, or the empty map once a pair failed. */
  function KvMap(kvPairs: seq<string>, floatSyntax: string -> bool): map<string, Value> {
    match ParseKVs(kvPairs, floatSyntax)
    case Ok(m) => m
    case Err(_) => map[]
  }

  /** The contexts handed to MergeContexts, in order: env, file, JSON, key=value map. */
  function SourceList(envCtx: Option<map<string, Value>>, jsonStr: string, kvPairs: seq<string>,
                      filePath: string, fs: Parsers): seq<Value>
  {
    Part(envCtx.Some?, Obj(envCtx.GetOr(map[])))
    + Part(filePath != "", fs.file(filePath).GetOr(Null))
    + Part(jsonStr != "", fs.json(jsonStr).GetOr(Null))
    + Part(|kvPairs| > 0, Obj(KvMap(kvPairs, fs.floatSyntax)))
  }

  /** BuildContextWithPrefix: the environment under `prefix`, then file, JSON and pairs. */
  function BuildContextWithPrefix(env: seq<string>, prefix: string, jsonStr: string, kvPairs: seq<string>,
                                  filePath: string, fs: Parsers): (r: Result<Value, BuildError>)
    ensures r.Err? <==> || (filePath != "" && fs.file(filePath).None?)
                        || (jsonStr != "" && fs.json(jsonStr).None?)
                        || (|kvPairs| > 0 && ParseKVs(kvPairs, fs.floatSyntax).Err?)
  {
    BuildFromSources(ParseEnvWithPrefix(env, prefix, fs), jsonStr, kvPairs, filePath, fs)
  }

  /** With only an environment context, it alone is merged, as nil when absent or empty. */
  lemma EnvOnlySources(envCtx: Option<map<string, Value>>, fs: Parsers)
    ensures BuildFromSources(envCtx, "", [], "", fs) == Ok(Wrap(envCtx.GetOr(map[])))
  {
    var cs := SourceList(envCtx, "", [], "", fs);
    assert cs == Part(envCtx.Some?, Obj(envCtx.GetOr(map[])));
    if envCtx.Some? {
      MergeOne(envCtx.value);
    }
  }

  lemma MergeOne(m: map<string, Value>)
    ensures MergeContexts([Obj(m)]) == Wrap(m)
  {
    MergeFromStep(map[], [Obj(m)]);
    assert [Obj(m)][1..] == [];
    UnionEmpty(m);
  }

  /** The value of `k` in the last of `cs` that holds it. */
  function LastLookup(cs: seq<Value>, k: string): Option<Value> {
    if |cs| == 0 then None
    else if Lookup(cs[|cs| - 1], k).Some? then Lookup(cs[|cs| - 1], k)
    else LastLookup(cs[..|cs| - 1], k)
  }

  lemma {:induction false} LastLookupOverlay(cs: seq<Value>, k: string)
    ensures Lookup(Wrap(Overlay(cs)), k) == LastLookup(cs, k)
    decreases |cs|
  {
    if |cs| > 0 {
      LastLookupOverlay(cs[..|cs| - 1], k);
    }
  }

  lemma {:induction false} LastLookupAppend(a: seq<Value>, b: seq<Value>, k: string)
    ensures LastLookup(a + b, k) == if LastLookup(b, k).Some? then LastLookup(b, k) else LastLookup(a, k)
    decreases |b|
  {
    if |b| > 0 {
      assert (a + b)[..|a + b| - 1] == a + b[..|b| - 1];
      LastLookupAppend(a, b[..|b| - 1], k);
    } else {
      assert a + b == a;
    }
  }

  /** An absent source (given as nil) contributes nothing. */
  function Given(present: bool, v: Value): Value {
    if present then v else Null
  }

  lemma LastLookupPart(present: bool, v: Value, k: string)
    ensures LastLookup(Part(present, v), k) == Lookup(Given(present, v), k)
  {
  }

  lemma MapsAppend(x: seq<Value>, y: seq<Value>)
    requires forall i :: 0 <= i < |x| ==> IsMapOrNil(x[i])
    requires forall i :: 0 <= i < |y| ==> IsMapOrNil(y[i])
    ensures forall i :: 0 <= i < |x + y| ==> IsMapOrNil((x + y)[i])
  {
    forall i | 0 <= i < |x + y|
      ensures IsMapOrNil((x + y)[i])
    {
      if i < |x| {
        assert (x + y)[i] == x[i];
      } else {
        assert (x + y)[i] == y[i - |x|];
      }
    }
  }

  lemma PartMaps(present: bool, v: Value)
    requires present ==> IsMapOrNil(v)
    ensures forall i :: 0 <= i < |Part(present, v)| ==> IsMapOrNil(Part(present, v)[i])
  {
  }

  /** Across four optional sources, a key is looked up in the last one that holds it. */
  lemma LastLookupFour(a: bool, e: Value, b: bool, f: Value, c: bool, j: Value, d: bool, p: Value, k: string)
    ensures LastLookup(Part(a, e) + Part(b, f) + Part(c, j) + Part(d, p), k)
         == if Lookup(Given(d, p), k).Some? then Lookup(Given(d, p), k)
            else if Lookup(Given(c, j), k).Some? then Lookup(Given(c, j), k)
            else if Lookup(Given(b, f), k).Some? then Lookup(Given(b, f), k)
            else Lookup(Given(a, e), k)
  {
    LastLookupAppend(Part(a, e) + Part(b, f) + Part(c, j), Part(d, p), k);
    LastLookupAppend(Part(a, e) + Part(b, f), Part(c, j), k);
    LastLookupAppend(Part(a, e), Part(b, f), k);
    LastLookupPart(a, e, k);
    LastLookupPart(b, f, k);
    LastLookupPart(c, j, k);
    LastLookupPart(d, p, k);
  }

  /** Four optional map sources merge into one in which a key comes from the last source holding it. */
  lemma MergeFourLookup(a: bool, e: Value, b: bool, f: Value, c: bool, j: Value, d: bool, p: Value, k: string)
    requires (a ==> IsMapOrNil(e)) && (b ==> IsMapOrNil(f)) && (c ==> IsMapOrNil(j)) && (d ==> IsMapOrNil(p))
    ensures var v := MergeContexts(Part(a, e) + Part(b, f) + Part(c, j) + Part(d, p));
            && IsMapOrNil(v)
            && Lookup(v, k) == if Lookup(Given(d, p), k).Some? then Lookup(Given(d, p), k)
                               else if Lookup(Given(c, j), k).Some? then Lookup(Given(c, j), k)
                               else if Lookup(Given(b, f), k).Some? then Lookup(Given(b, f), k)
                               else Lookup(Given(a, e), k)
  {
    var ab := Part(a, e) + Part(b, f);
    var abc := ab + Part(c, j);
    var cs := abc + Part(d, p);
    PartMaps(a, e);
    PartMaps(b, f);
    PartMaps(c, j);
    PartMaps(d, p);
    MapsAppend(Part(a, e), Part(b, f));
    MapsAppend(ab, Part(c, j));
    MapsAppend(abc, Part(d, p));
    MergeAllMaps(cs);
    LastLookupOverlay(cs, k);
    LastLookupFour(a, e, b, f, c, j, d, p, k);
  }

  /**
   * Precedence: when the file and JSON sources are maps (or nil), a key takes
   * its value from the pairs if they name it, else from the JSON string, else
   * from the file, else from the environment.
   */
  lemma BuildPrecedence(envCtx: Option<map<string, Value>>, jsonStr: string, kvPairs: seq<string>,
                        filePath: string, fs: Parsers, k: string)
    requires BuildFromSources(envCtx, jsonStr, kvPairs, filePath, fs).Ok?
    requires filePath != "" ==> IsMapOrNil(fs.file(filePath).value)
    requires jsonStr != "" ==> IsMapOrNil(fs.json(jsonStr).value)
    ensures var v := BuildFromSources(envCtx, jsonStr, kvPairs, filePath, fs).value;
            var kv := Given(|kvPairs| > 0, Obj(KvMap(kvPairs, fs.floatSyntax)));
            var js := Given(jsonStr != "", fs.json(jsonStr).GetOr(Null));
            var fl := Given(filePath != "", fs.file(filePath).GetOr(Null));
            var ev := Given(envCtx.Some?, Obj(envCtx.GetOr(map[])));
            && IsMapOrNil(v)
            && Lookup(v, k) == if Lookup(kv, k).Some? then Lookup(kv, k)
                               else if Lookup(js, k).Some? then Lookup(js, k)
                               else if Lookup(fl, k).Some? then Lookup(fl, k)
                               else Lookup(ev, k)
  {
    assert BuildFromSources(envCtx, jsonStr, kvPairs, filePath, fs).value
        == MergeContexts(SourceList(envCtx, jsonStr, kvPairs, filePath, fs));
    MergeFourLookup(envCtx.Some?, Obj(envCtx.GetOr(map[])),
                    filePath != "", fs.file(filePath).GetOr(Null),
                    jsonStr != "", fs.json(jsonStr).GetOr(Null),
                    |kvPairs| > 0, Obj(KvMap(kvPairs, fs.floatSyntax)), k);
  }
}

/**
 * Process settings read once from the environment, and the loader of the
 * partner-target list from its JSON text.
 */
module Config {
  import opened Wrappers
  import opened JsonValue
  import opened Partner

  /** The three ways loading the target list fails. */
  datatype ConfigError =
    | TargetsNotJson              // the text does not decode as JSON
    | TargetsNotList              // it decodes, but not to a list
    | InvalidTarget(item: Json)   // the first list element that is not a valid target

  datatype Settings = Settings(
    apiKey: string,
    redisUrl: string,
    fanoutEnabled: bool,
    fanoutTimeoutSeconds: real,
    fanoutMaxRetries: nat,
    fanoutRetryBackoffSeconds: real,
    fanoutTargets: seq<PartnerTarget>)

  /**
   * The elements of the decoded list validated in order.  Written from the
   * back so that a prefix of the list is validated by a prefix of the work,
   * which is how the loader's loop proceeds.
   */
  function ValidateItems(items: seq<Json>, urlOk: string -> bool): Result<seq<PartnerTarget>, ConfigError>
    decreases |items|
  {
    if items == [] then Ok([])
    else
      var n := |items| - 1;
      match ValidateItems(items[..n], urlOk)
      case Err(e) => Err(e)
      case Ok(ts) =>
        match ValidateTarget(items[n], urlOk)
        case Err(_) => Err(InvalidTarget(items[n]))
        case Ok(t) => Ok(ts + [t])
  }

  /** What loading the target text yields, as a function of the decoder's answer. */
  function TargetsFrom(raw: string, decode: string -> Decoded, urlOk: string -> bool): Result<seq<PartnerTarget>, ConfigError>
  {
    match decode(raw)
    case NotJson => Err(TargetsNotJson)
    case Decoded(JArray(items)) => ValidateItems(items, urlOk)
    case Decoded(_) => Err(TargetsNotList)
  }

  /** `Settings._load_targets`: decode, check for a list, validate and append item by item. */
  method LoadTargets(raw: string, decode: string -> Decoded, urlOk: string -> bool)
    returns (r: Result<seq<PartnerTarget>, ConfigError>)
    ensures r == TargetsFrom(raw, decode, urlOk)
  {
    var parsed := decode(raw);
    if parsed.NotJson? {
      return Err(TargetsNotJson);
    }
    if !parsed.value.JArray? {
      return Err(TargetsNotList);
    }
    var items := parsed.value.items;
    var targets: seq<PartnerTarget> := [];
    for i := 0 to |items|
      invariant ValidateItems(items[..i], urlOk) == Ok(targets)
    {
      assert items[..i + 1][..i] == items[..i];
      var t := ValidateTarget(items[i], urlOk);
      if t.Err? {
        ValidateItemsOk(items[..i], urlOk);
        assert forall j :: 0 <= j < i ==> items[..i][j] == items[j];
        ValidateItemsFirstBad(items, urlOk, i);
        return Err(InvalidTarget(items[i]));
      }
      targets := targets + [t.value];
    }
    assert items[..|items|] == items;
    return Ok(targets);
  }

  /**
   * Loading succeeds exactly when every element validates, and then the
   * result lists the validated targets in input order, one per element.
   */
  lemma {:induction false} ValidateItemsOk(items: seq<Json>, urlOk: string -> bool)
    ensures ValidateItems(items, urlOk).Ok? <==> forall i :: 0 <= i < |items| ==> ValidateTarget(items[i], urlOk).Ok?
    ensures ValidateItems(items, urlOk).Ok? ==>
      && |ValidateItems(items, urlOk).value| == |items|
      && forall i :: 0 <= i < |items| ==> ValidateTarget(items[i], urlOk) == Ok(ValidateItems(items, urlOk).value[i])
    decreases |items|
  {
    if items != [] {
      var n := |items| - 1;
      ValidateItemsOk(items[..n], urlOk);
      assert forall i :: 0 <= i < n ==> items[..n][i] == items[i];
    }
  }

  /** A failed load names the first element that does not validate, and nothing partial comes back. */
  lemma {:induction false} ValidateItemsFirstBad(items: seq<Json>, urlOk: string -> bool, k: nat)
    requires k < |items|
    requires ValidateTarget(items[k], urlOk).Err?
    requires forall j :: 0 <= j < k ==> ValidateTarget(items[j], urlOk).Ok?
    ensures ValidateItems(items, urlOk) == Err(InvalidTarget(items[k]))
    decreases |items|
  {
    var n := |items| - 1;
    if k == n {
      ValidateItemsOk(items[..n], urlOk);
      assert forall j :: 0 <= j < n ==> items[..n][j] == items[j];
    } else {
      ValidateItemsFirstBad(items[..n], urlOk, k);
    }
  }

  /** Every target a successful load returns satisfies the target rules. */
  lemma LoadedTargetsValid(raw: string, decode: string -> Decoded, urlOk: string -> bool)
    requires TargetsFrom(raw, decode, urlOk).Ok?
    ensures forall t :: t in TargetsFrom(raw, decode, urlOk).value ==> ValidTarget(t, urlOk)
  {
    var items := decode(raw).value.items;
    var ts := TargetsFrom(raw, decode, urlOk).value;
    ValidateItemsOk(items, urlOk);
    forall t | t in ts ensures ValidTarget(t, urlOk) {
      var i :| 0 <= i < |ts| && ts[i] == t;
      assert ValidateTarget(items[i], urlOk) == Ok(t);
    }
  }

  /** Malformed text and decoded non-lists are the two errors before any element is looked at. */
  lemma TargetsFromErrors(raw: string, decode: string -> Decoded, urlOk: string -> bool)
    ensures decode(raw) == NotJson ==> TargetsFrom(raw, decode, urlOk) == Err(TargetsNotJson)
    ensures decode(raw).Decoded? && !decode(raw).value.JArray? ==> TargetsFrom(raw, decode, urlOk) == Err(TargetsNotList)
  {
  }

  /** `os.getenv(key, default)`. */
  function Getenv(env: map<string, string>, key: string, default: string): string {
    if key in env then env[key] else default
  }

  /** `str.lower()` on the ASCII letters. */
  function LowerAscii(s: string): (r: string)
    ensures |r| == |s|
    ensures forall i :: 0 <= i < |s| ==> r[i] == (if 'A' <= s[i] <= 'Z' then (s[i] as int + 32) as char else s[i])
  {
    if s == [] then []
    else [if 'A' <= s[0] <= 'Z' then (s[0] as int + 32) as char else s[0]] + LowerAscii(s[1..])
  }

  /** "true" in any mix of upper and lower case. */
  predicate TrueIgnoringCase(v: string) {
    |v| == 4 && v[0] in "tT" && v[1] in "rR" && v[2] in "uU" && v[3] in "eE"
  }

  /** The FANOUT_ENABLED flag: off unless the variable is "true" in some case. */
  function FanoutEnabledFrom(env: map<string, string>): (r: bool)
    ensures r <==> "FANOUT_ENABLED" in env && TrueIgnoringCase(env["FANOUT_ENABLED"])
  {
    var v := Getenv(env, "FANOUT_ENABLED", "false");
    var lowered := LowerAscii(v);
    assert lowered == "true" <==> TrueIgnoringCase(v) by {
      if TrueIgnoringCase(v) {
        assert lowered[0] == 't' && lowered[1] == 'r' && lowered[2] == 'u' && lowered[3] == 'e';
      }
      if lowered == "true" {
        assert lowered[0] == 't' && lowered[1] == 'r' && lowered[2] == 'u' && lowered[3] == 'e';
      }
    }
    assert !TrueIgnoringCase("false");
    lowered == "true"
  }

  /**
   * `Settings()`: string settings from the environment with their defaults,
   * the flag, the already-parsed numbers, and the target list, whose failure
   * is the failure of the whole construction.
   */
  function LoadSettings(env: map<string, string>, decode: string -> Decoded, urlOk: string -> bool,
                        timeoutSeconds: real, maxRetries: nat, backoffSeconds: real): (r: Result<Settings, ConfigError>)
    ensures r.Ok? <==> TargetsFrom(Getenv(env, "FANOUT_TARGETS_JSON", "[]"), decode, urlOk).Ok?
    ensures r.Err? ==> r.error == TargetsFrom(Getenv(env, "FANOUT_TARGETS_JSON", "[]"), decode, urlOk).error
    ensures r.Ok? ==>
      && r.value.apiKey == (if "API_KEY" in env then env["API_KEY"] else "dev_secret")
      && r.value.redisUrl == (if "REDIS_URL" in env then env["REDIS_URL"] else "")
      && (r.value.fanoutEnabled <==> "FANOUT_ENABLED" in env && TrueIgnoringCase(env["FANOUT_ENABLED"]))
      && r.value.fanoutTimeoutSeconds == timeoutSeconds
      && r.value.fanoutMaxRetries == maxRetries
      && r.value.fanoutRetryBackoffSeconds == backoffSeconds
      && r.value.fanoutTargets == TargetsFrom(Getenv(env, "FANOUT_TARGETS_JSON", "[]"), decode, urlOk).value
  {
    match TargetsFrom(Getenv(env, "FANOUT_TARGETS_JSON", "[]"), decode, urlOk)
    case Err(e) => Err(e)
    case Ok(targets) =>
      Ok(Settings(
        Getenv(env, "API_KEY", "dev_secret"),
        Getenv(env, "REDIS_URL", ""),
        FanoutEnabledFrom(env),
        timeoutSeconds,
        maxRetries,
        backoffSeconds,
        targets))
  }

  /**
   * With nothing in the environment the process starts with fanout off, the
   * development API key, and no targets (the default text "[]").
   */
  lemma DefaultSettings(decode: string -> Decoded, urlOk: string -> bool, timeoutSeconds: real, maxRetries: nat, backoffSeconds: real)
    requires decode("[]") == Decoded(JArray([]))
    ensures LoadSettings(map[], decode, urlOk, timeoutSeconds, maxRetries, backoffSeconds)
         == Ok(Settings("dev_secret", "", false, timeoutSeconds, maxRetries, backoffSeconds, []))
  {
  }
}

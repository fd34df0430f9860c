/**
 * Configuration validation (server/config.go, `Config.Validate`): an ordered
 * sequence of checks, each with its own message, that stops at the first
 * failure. `url.Parse` is abstracted as `urlError`, which gives the parser's
 * error text for a URL it rejects and `None` for one it accepts.
 */
module ConfigValidation {
  import opened Wrappers
  import opened Types

  datatype ConfigError =
    | PortOutOfRange
    | NoProviders
    | EmptyName(providerNumber: nat)
    | EmptyUrl(provider: string)
    | InvalidUrl(provider: string, cause: string)
    | EmptySecret(provider: string)
    | NoModels(provider: string)
    | EmptyModel(provider: string, modelNumber: nat)
  {
    /** The text of the Go error value. Provider and model numbers count from 1. */
    function Message(): string {
      match this
      case PortOutOfRange => "port must be between 1 and 65535"
      case NoProviders => "at least one provider must be configured"
      case EmptyName(n) => "provider " + DecimalString(n) + ": name cannot be empty"
      case EmptyUrl(p) => "provider " + p + ": URL cannot be empty"
      case InvalidUrl(p, cause) => "provider " + p + ": invalid URL: " + cause
      case EmptySecret(p) => "provider " + p + ": secret cannot be empty"
      case NoModels(p) => "provider " + p + ": at least one model must be specified"
      case EmptyModel(p, n) => "provider " + p + ": model " + DecimalString(n) + " cannot be empty"
    }
  }

  /** The number a string of decimal digits denotes, most significant digit first. */
  ghost function DigitsValue(s: string): int
    decreases |s|
  {
    if |s| == 0 then 0 else DigitsValue(s[..|s| - 1]) * 10 + (s[|s| - 1] as int - '0' as int)
  }

  /** Decimal digits of `n`, as `%d` prints it: no leading zero, and they denote `n`. */
  function DecimalString(n: nat): (r: string)
    ensures |r| >= 1 && forall k :: 0 <= k < |r| ==> '0' <= r[k] <= '9'
    ensures DigitsValue(r) == n
    ensures r[0] == '0' <==> n == 0
    ensures |r| > 1 ==> r[0] != '0'
    decreases n
  {
    var digit := [('0' as int + n % 10) as char];
    if n < 10 then digit
    else
      var rest := DecimalString(n / 10);
      assert (rest + digit)[..|rest|] == rest;
      rest + digit
  }

  predicate PortInRange(port: int) {
    1 <= port <= 65535
  }

  /** Everything the loop over providers demands of one provider. */
  predicate ProviderOk(p: Provider, urlError: string -> Option<string>) {
    && p.name != ""
    && p.url != ""
    && urlError(p.url).None?
    && p.secret != ""
    && |p.models| > 0
    && forall j :: 0 <= j < |p.models| ==> p.models[j] != ""
  }

  /** A configuration `Validate` accepts, stated without the order of the checks. */
  predicate WellFormed(c: Config, urlError: string -> Option<string>) {
    && PortInRange(c.port)
    && |c.providers| > 0
    && forall i :: 0 <= i < |c.providers| ==> ProviderOk(c.providers[i], urlError)
  }

  /** The index of the first empty model name at or after `from`. */
  function FirstEmptyModel(models: seq<string>, from: nat): (r: Option<nat>)
    requires from <= |models|
    ensures r.Some? ==> from <= r.value < |models| && models[r.value] == ""
    ensures r.Some? ==> forall j :: from <= j < r.value ==> models[j] != ""
    ensures r.None? <==> forall j :: from <= j < |models| ==> models[j] != ""
    decreases |models| - from
  {
    if from == |models| then None
    else if models[from] == "" then Some(from)
    else FirstEmptyModel(models, from + 1)
  }

  /** The checks on the provider at list index `i`, in Go's order. */
  function CheckProvider(p: Provider, i: nat, urlError: string -> Option<string>): (r: Option<ConfigError>)
    ensures r.None? <==> ProviderOk(p, urlError)
  {
    if p.name == "" then Some(EmptyName(i + 1))
    else if p.url == "" then Some(EmptyUrl(p.name))
    else if urlError(p.url).Some? then Some(InvalidUrl(p.name, urlError(p.url).value))
    else if p.secret == "" then Some(EmptySecret(p.name))
    else if |p.models| == 0 then Some(NoModels(p.name))
    else
      match FirstEmptyModel(p.models, 0)
      case Some(j) => Some(EmptyModel(p.name, j + 1))
      case None => None
  }

  /** The index of the first provider at or after `from` that fails its checks. */
  function FirstFailing(ps: seq<Provider>, from: nat, urlError: string -> Option<string>): (r: Option<nat>)
    requires from <= |ps|
    ensures r.Some? ==> from <= r.value < |ps| && !ProviderOk(ps[r.value], urlError)
    ensures r.Some? ==> forall j :: from <= j < r.value ==> ProviderOk(ps[j], urlError)
    ensures r.None? <==> forall j :: from <= j < |ps| ==> ProviderOk(ps[j], urlError)
    decreases |ps| - from
  {
    if from == |ps| then None
    else if CheckProvider(ps[from], from, urlError).Some? then Some(from)
    else FirstFailing(ps, from + 1, urlError)
  }

  /**
   * `Validate`: `None` is the nil error. It fails exactly on the configurations
   * that are not well formed; the port message and the empty-list message each
   * come out exactly when that is the first thing wrong, and any other error
   * is the first defect of a provider that every provider before it passes.
   */
  function Validate(c: Config, urlError: string -> Option<string>): (r: Option<ConfigError>)
    ensures r.None? <==> WellFormed(c, urlError)
    ensures r == Some(PortOutOfRange) <==> (c.port <= 0 || c.port > 65535)
    ensures r == Some(NoProviders) <==> PortInRange(c.port) && |c.providers| == 0
    ensures r.Some? && r != Some(PortOutOfRange) && r != Some(NoProviders) ==>
              exists k :: 0 <= k < |c.providers| && !ProviderOk(c.providers[k], urlError) &&
                (forall j :: 0 <= j < k ==> ProviderOk(c.providers[j], urlError)) &&
                r == CheckProvider(c.providers[k], k, urlError)
  {
    if !PortInRange(c.port) then Some(PortOutOfRange)
    else if |c.providers| == 0 then Some(NoProviders)
    else
      match FirstFailing(c.providers, 0, urlError)
      case Some(k) =>
        assert CheckProvider(c.providers[k], k, urlError).Some?;
        CheckProvider(c.providers[k], k, urlError)
      case None => None
  }

  /** With a valid port, the empty provider list is reported as such. */
  lemma NoProvidersMessage(c: Config, urlError: string -> Option<string>)
    requires PortInRange(c.port) && |c.providers| == 0
    ensures Validate(c, urlError) == Some(NoProviders)
    ensures Validate(c, urlError).value.Message() == "at least one provider must be configured"
  {
  }

  /**
   * The error reported for a provider belongs to the first failing provider,
   * and within a provider the checks run name, URL empty, URL parse, secret,
   * empty model list, empty model name.
   */
  lemma {:induction false} FirstFailingProviderReported(c: Config, urlError: string -> Option<string>, k: nat)
    requires PortInRange(c.port) && k < |c.providers|
    requires !ProviderOk(c.providers[k], urlError)
    requires forall j :: 0 <= j < k ==> ProviderOk(c.providers[j], urlError)
    ensures var p := c.providers[k];
      Validate(c, urlError) ==
        if p.name == "" then Some(EmptyName(k + 1))
        else if p.url == "" then Some(EmptyUrl(p.name))
        else if urlError(p.url).Some? then Some(InvalidUrl(p.name, urlError(p.url).value))
        else if p.secret == "" then Some(EmptySecret(p.name))
        else if |p.models| == 0 then Some(NoModels(p.name))
        else Some(EmptyModel(p.name, FirstEmptyModel(p.models, 0).value + 1))
  {
    FirstFailingIs(c.providers, 0, urlError, k);
  }

  lemma {:induction false} FirstFailingIs(ps: seq<Provider>, from: nat, urlError: string -> Option<string>, k: nat)
    requires from <= k < |ps|
    requires !ProviderOk(ps[k], urlError)
    requires forall j :: from <= j < k ==> ProviderOk(ps[j], urlError)
    ensures FirstFailing(ps, from, urlError) == Some(k)
    decreases k - from
  {
    if from < k {
      assert ProviderOk(ps[from], urlError);
      FirstFailingIs(ps, from + 1, urlError, k);
    }
  }

  /** Each defect exercised by the configuration tests makes validation fail. */
  lemma EachDefectFails(c: Config, urlError: string -> Option<string>, i: nat)
    requires i < |c.providers|
    requires var p := c.providers[i];
      p.name == "" || p.url == "" || urlError(p.url).Some? || p.secret == "" || |p.models| == 0 ||
      (exists j :: 0 <= j < |p.models| && p.models[j] == "")
    ensures Validate(c, urlError).Some?
  {
    assert !ProviderOk(c.providers[i], urlError);
  }

  /** The test scenarios: a valid one-provider configuration, and the same with port 70000 or with no providers. */
  lemma TestScenarios(urlError: string -> Option<string>)
    requires urlError("https://example.com").None?
    ensures var p := Provider("test", "https://example.com", "secret123", ["model1", "model2"]);
      && Validate(Config(8080, "", [p]), urlError) == None
      && Validate(Config(70000, "", [p]), urlError) == Some(PortOutOfRange)
      && Validate(Config(8080, "", []), urlError) == Some(NoProviders)
      && Validate(Config(8080, "", [p.(models := ["", "model2"])]), urlError) == Some(EmptyModel("test", 1))
  {
    var p := Provider("test", "https://example.com", "secret123", ["model1", "model2"]);
    assert ProviderOk(p, urlError);
    var q := p.(models := ["", "model2"]);
    assert FirstEmptyModel(q.models, 0) == Some(0);
  }
}

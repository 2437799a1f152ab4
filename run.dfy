/**
 * One run of the scraper: for each account tier in turn, build the form
 * body, fetch it through the browser session, pass the answer through the
 * gate and JSON parsing, and append the tier's records; then assemble the
 * payload for the webhook.
 */
module Run {
  import opened Wrappers
  import opened Json
  import opened Form
  import opened Gate
  import opened Records
  import opened Tiers

  /** The calls into code the model cannot see, as parameters of a run. */
  datatype Env = Env(
    fetch: string -> Option<Response>,   // the in-page POST of a form body to API_URL; None where it rejects
    trim: string -> string,              // String.prototype.trim
    parse: string -> Option<ParsedJson>, // JSON.parse; None where it throws
    enc: string -> string)               // encodeURIComponent

  /** The webhook payload. */
  datatype Payload = Payload(token: string, fetchedAt: string, records: seq<Record>)

  /** The request bodies sent, in order, and how the run ended. */
  datatype Outcome = Outcome(sent: seq<string>, result: Result<Payload, RunError>)

  /** The form body posted for a tier. */
  function FormBody(acc: Account, enc: string -> string): string
  {
    ToForm(TierForm(acc.typeAccount), enc)
  }

  /** A tier posts BASE_FORM's four pairs and then its own type_account. */
  lemma FormBodyIsTierForm(acc: Account, enc: string -> string)
    ensures FormBody(acc, enc) == ToForm(BASE_FORM + [("type_account", acc.typeAccount)], enc)
  {
  }

  /** `fetchApiFromBrowser`: the response to `body`, gated, then parsed. */
  function FetchApi(env: Env, body: string): Result<ParsedJson, RunError>
  {
    match env.fetch(body)
    case None => Failure(FetchFailed)
    case Some(res) =>
      match Classify(res, env.trim)
      case Rejected(reason) => Failure(GateFailure(reason))
      case Accepted(text) =>
        match env.parse(text)
        case None => Failure(JsonSyntax)
        case Some(data) => Success(data)
  }

  /**
   * A rejected fetch is reported as such; a value comes back only from a 200
   * response the gate accepted and that parses; a gate rejection is
   * reported with the gate's reason.
   */
  lemma FetchApiGate(env: Env, body: string)
    ensures FetchApi(env, body) == Failure(FetchFailed) <==> env.fetch(body).None?
    ensures FetchApi(env, body).Failure? && FetchApi(env, body).error.GateFailure?
      <==> env.fetch(body).Some? && Classify(env.fetch(body).value, env.trim).Rejected?
    ensures FetchApi(env, body).Failure? && FetchApi(env, body).error.GateFailure?
      ==> FetchApi(env, body).error.reason == Classify(env.fetch(body).value, env.trim).reason
    ensures FetchApi(env, body).Success?
      <==> env.fetch(body).Some? && env.fetch(body).value.status == 200
           && !StartsWithLt(env.trim(env.fetch(body).value.text))
           && env.parse(env.fetch(body).value.text).Some?
    ensures FetchApi(env, body).Success? ==> FetchApi(env, body).value == env.parse(env.fetch(body).value.text).value
  {
  }

  /** The entries the tier loop walks for one tier, or the error that ends the run. */
  function TierEntries(env: Env, acc: Account): (r: TierResult)
  {
    match FetchApi(env, FormBody(acc, env.enc))
    case Failure(e) => Failure(e)
    case Success(data) =>
      match Entries(data)
      case None => Failure(NullData)
      case Some(es) => Success(es)
  }

  /** The tier loop's view of an environment. */
  function FetcherOf(env: Env): Fetcher
  {
    Fetcher(acc => FormBody(acc, env.enc), acc => TierEntries(env, acc))
  }

  /** A whole run over ACCOUNTS: the payload, or the error that aborted it. */
  function RunSpec(env: Env, fetchedAt: string, token: string): Outcome
  {
    var p := Collect(FetcherOf(env), ACCOUNTS, fetchedAt);
    match p.records
    case Success(rs) => Outcome(p.sent, Success(Payload(token, fetchedAt, rs)))
    case Failure(e) => Outcome(p.sent, Failure(e))
  }

  /**
   * `fetchApiFromBrowser` on one body, then `Object.entries` of what it
   * returns: the entries the inner loop walks, or the error thrown.
   */
  method FetchTier(env: Env, acc: Account, body: string) returns (r: TierResult)
    requires body == FormBody(acc, env.enc)
    ensures r == TierEntries(env, acc)
    ensures r.Success? <==> FetchApi(env, body).Success? && !FetchApi(env, body).value.JNull?
    ensures r.Success? ==> Entries(FetchApi(env, body).value) == Some(r.value)
    ensures r.Failure? ==> r.error == if FetchApi(env, body).Failure? then FetchApi(env, body).error else NullData
  {
    var data := FetchApi(env, body);
    if data.Failure? {
      return Failure(data.error);
    }
    var entries := Entries(data.value);
    if entries.None? {
      return Failure(NullData);
    }
    r := Success(entries.value);
  }

  /**
   * The inner loop of `main` over the entries of one tier: skip what is not
   * usable, append one record for each entry that is.
   */
  method AppendTier(acc: Account, es: seq<(string, JsonValue)>, fetchedAt: string, allRecords: seq<Record>)
    returns (out: seq<Record>)
    ensures out == allRecords + TierRecords(acc, es, fetchedAt)
  {
    out := allRecords;
    for j := 0 to |es|
      invariant out == allRecords + TierRecords(acc, es[..j], fetchedAt)
    {
      assert es[..j + 1][..j] == es[..j];
      var (symbol, v) := es[j];
      if !IsNonNullObject(v) {
        continue;
      }
      if Field(v, "spread").None? || Field(v, "swap_long").None? || Field(v, "swap_short").None? {
        continue;
      }
      out := out + [Record(
        acc.accountType + "||" + symbol,
        fetchedAt,
        acc.accountType,
        symbol,
        Field(v, "spread").value,
        Field(v, "swap_long").value,
        Field(v, "swap_short").value,
        API_URL + " (type_account=" + acc.typeAccount + ")")];
    }
    assert es[..|es|] == es;
  }

  /**
   * The tier loop of `main`: for each tier in order, post its form, stop at
   * the first error, and otherwise append the tier's records. The record
   * sequence only grows by appending.
   */
  method CollectTiers(env: Env, tiers: seq<Account>, fetchedAt: string) returns (p: Progress)
    ensures p == Collect(FetcherOf(env), tiers, fetchedAt)
  {
    var sent: seq<string> := [];
    var allRecords: seq<Record> := [];
    for i := 0 to |tiers|
      invariant Collect(FetcherOf(env), tiers[..i], fetchedAt) == Progress(sent, Success(allRecords))
    {
      CollectStep(FetcherOf(env), tiers, i, fetchedAt, sent, allRecords);
      var acc := tiers[i];
      var body := ToForm(WithEntry(BASE_FORM, "type_account", acc.typeAccount), env.enc);
      sent := sent + [body];
      var entries := FetchTier(env, acc, body);
      if entries.Failure? {
        FailureSticks(FetcherOf(env), tiers, i + 1, fetchedAt);
        assert tiers[..|tiers|] == tiers;
        return Progress(sent, Failure(entries.error));
      }
      allRecords := AppendTier(acc, entries.value, fetchedAt, allRecords);
    }
    assert tiers[..|tiers|] == tiers;
    p := Progress(sent, Success(allRecords));
  }

  /**
   * `main` after the browser is up: the tier loop over ACCOUNTS, then the
   * payload, which carries exactly the accumulated records.
   */
  method Run(env: Env, fetchedAt: string, token: string) returns (out: Outcome)
    ensures out == RunSpec(env, fetchedAt, token)
  {
    var p := CollectTiers(env, ACCOUNTS, fetchedAt);
    if p.records.Failure? {
      return Outcome(p.sent, Failure(p.records.error));
    }
    var payload := Payload(token, fetchedAt, p.records.value);
    out := Outcome(p.sent, Success(payload));
  }

  /**
   * The first tier whose fetch, gate, parse or Object.entries throws ends the
   * tier loop with that error: its body and those before it were sent, no
   * later one.
   */
  lemma TierErrorAborts(env: Env, tiers: seq<Account>, k: nat, fetchedAt: string)
    requires k < |tiers|
    requires forall j :: 0 <= j < k ==> TierEntries(env, tiers[j]).Success?
    requires TierEntries(env, tiers[k]).Failure?
    ensures Collect(FetcherOf(env), tiers, fetchedAt) == Progress(
      seq(k + 1, j requires 0 <= j < k + 1 => FormBody(tiers[j], env.enc)),
      Failure(TierEntries(env, tiers[k]).error))
  {
    var f := FetcherOf(env);
    var prefix := tiers[..k];
    assert AllSucceed(f, prefix) by {
      forall j | 0 <= j < k ensures f.entriesOf(prefix[j]).Success? {
        assert prefix[j] == tiers[j];
      }
    }
    CollectStopsAtFirstFailure(f, tiers, k, fetchedAt);
    assert Bodies(f, tiers[..k + 1]) == seq(k + 1, j requires 0 <= j < k + 1 => FormBody(tiers[j], env.enc));
  }

  /**
   * A tier that the gate rejects ends the tier loop with the gate's reason:
   * its body and those before it were sent, no later one.
   */
  lemma GateRejectionAborts(env: Env, tiers: seq<Account>, k: nat, fetchedAt: string)
    requires k < |tiers|
    requires forall j :: 0 <= j < k ==> TierEntries(env, tiers[j]).Success?
    requires env.fetch(FormBody(tiers[k], env.enc)).Some?
    requires Classify(env.fetch(FormBody(tiers[k], env.enc)).value, env.trim).Rejected?
    ensures Collect(FetcherOf(env), tiers, fetchedAt) == Progress(
      seq(k + 1, j requires 0 <= j < k + 1 => FormBody(tiers[j], env.enc)),
      Failure(GateFailure(Classify(env.fetch(FormBody(tiers[k], env.enc)).value, env.trim).reason)))
  {
    FetchApiGate(env, FormBody(tiers[k], env.enc));
    TierErrorAborts(env, tiers, k, fetchedAt);
  }

  /**
   * Any error thrown for tier k, after the earlier tiers succeeded, aborts
   * the whole run: exactly the first k+1 forms were posted and no payload is
   * built.
   */
  lemma RunAbortsOnFailedTier(env: Env, fetchedAt: string, token: string, k: nat)
    requires k < |ACCOUNTS|
    requires forall j :: 0 <= j < k ==> TierEntries(env, ACCOUNTS[j]).Success?
    requires TierEntries(env, ACCOUNTS[k]).Failure?
    ensures RunSpec(env, fetchedAt, token) == Outcome(
      seq(k + 1, j requires 0 <= j < k + 1 => FormBody(ACCOUNTS[j], env.enc)),
      Failure(TierEntries(env, ACCOUNTS[k]).error))
  {
    TierErrorAborts(env, ACCOUNTS, k, fetchedAt);
  }

  /**
   * A tier that the gate rejects aborts the whole run with the gate's
   * reason, rather than contributing no records; later tiers are never
   * requested and no payload is built.
   */
  lemma RunAbortsOnRejectedTier(env: Env, fetchedAt: string, token: string, k: nat)
    requires k < |ACCOUNTS|
    requires forall j :: 0 <= j < k ==> TierEntries(env, ACCOUNTS[j]).Success?
    requires env.fetch(FormBody(ACCOUNTS[k], env.enc)).Some?
    requires Classify(env.fetch(FormBody(ACCOUNTS[k], env.enc)).value, env.trim).Rejected?
    ensures RunSpec(env, fetchedAt, token) == Outcome(
      seq(k + 1, j requires 0 <= j < k + 1 => FormBody(ACCOUNTS[j], env.enc)),
      Failure(GateFailure(Classify(env.fetch(FormBody(ACCOUNTS[k], env.enc)).value, env.trim).reason)))
  {
    GateRejectionAborts(env, ACCOUNTS, k, fetchedAt);
  }

  /**
   * The tier loop succeeds exactly when every tier does; it then posted
   * every tier's form once, in order, and holds the tiers' records in tier
   * order.
   */
  lemma EveryTierRequested(env: Env, tiers: seq<Account>, fetchedAt: string)
    ensures Collect(FetcherOf(env), tiers, fetchedAt).records.Success?
      <==> forall j :: 0 <= j < |tiers| ==> TierEntries(env, tiers[j]).Success?
    ensures Collect(FetcherOf(env), tiers, fetchedAt).records.Success? ==>
      && Collect(FetcherOf(env), tiers, fetchedAt).sent
           == seq(|tiers|, j requires 0 <= j < |tiers| => ToForm(BASE_FORM + [("type_account", tiers[j].typeAccount)], env.enc))
      && Collect(FetcherOf(env), tiers, fetchedAt).records.value == ConcatTiers(FetcherOf(env), tiers, fetchedAt)
  {
    var f := FetcherOf(env);
    CollectSucceedsIff(f, tiers, fetchedAt);
    if AllSucceed(f, tiers) {
      CollectValue(f, tiers, fetchedAt);
      CollectSentAll(f, tiers, fetchedAt);
    }
  }

  /**
   * A run succeeds exactly when every tier does; it then requested every
   * tier once, in order, with BASE_FORM and the tier's code, and its payload
   * holds the token and the tiers' records in tier order.
   */
  lemma RunRequestsEveryTier(env: Env, fetchedAt: string, token: string)
    ensures RunSpec(env, fetchedAt, token).result.Success? <==> forall j :: 0 <= j < |ACCOUNTS| ==> TierEntries(env, ACCOUNTS[j]).Success?
    ensures RunSpec(env, fetchedAt, token).result.Success? ==>
      && RunSpec(env, fetchedAt, token).sent
           == seq(|ACCOUNTS|, j requires 0 <= j < |ACCOUNTS| => ToForm(BASE_FORM + [("type_account", ACCOUNTS[j].typeAccount)], env.enc))
      && RunSpec(env, fetchedAt, token).result.value.token == token
      && RunSpec(env, fetchedAt, token).result.value.records == ConcatTiers(FetcherOf(env), ACCOUNTS, fetchedAt)
  {
    EveryTierRequested(env, ACCOUNTS, fetchedAt);
  }

  /** Every record of a run, and the payload, carry the one timestamp taken at the start. */
  lemma RunSharedTimestamp(env: Env, fetchedAt: string, token: string)
    ensures RunSpec(env, fetchedAt, token).result.Success? ==>
      var payload := RunSpec(env, fetchedAt, token).result.value;
      payload.fetchedAt == fetchedAt && forall m :: 0 <= m < |payload.records| ==> payload.records[m].fetchedAt == fetchedAt
  {
    CollectTimestamps(FetcherOf(env), ACCOUNTS, fetchedAt);
  }

  /** The entries a tier's loop walks never repeat a name. */
  lemma TierEntriesDistinct(env: Env, acc: Account)
    ensures TierEntries(env, acc).Success? ==> DistinctNames(TierEntries(env, acc).value)
  {
    var d := FetchApi(env, FormBody(acc, env.enc));
    if d.Success? {
      EntriesDistinct(d.value);
    }
  }

  /** Within one run, no two records share a key. */
  lemma RunKeysUnique(env: Env, fetchedAt: string, token: string)
    ensures RunSpec(env, fetchedAt, token).result.Success? ==> UniqueKeys(RunSpec(env, fetchedAt, token).result.value.records)
  {
    var f := FetcherOf(env);
    forall acc | f.entriesOf(acc).Success? ensures DistinctNames(f.entriesOf(acc).value) {
      TierEntriesDistinct(env, acc);
    }
    AccountsSeparable();
    CollectKeysUnique(f, ACCOUNTS, fetchedAt);
  }
}

/**
 * The tier loop of `main` as a fold over the account tiers, for any
 * per-tier fetch: each tier's body is sent, and either its entries are
 * normalised and appended or its error ends the run.
 */
module Tiers {
  import opened Wrappers
  import opened Json
  import opened Gate
  import opened Records

  /** What aborts a run: each is thrown and reaches `main().catch`. */
  datatype RunError =
    | FetchFailed                     // the in-page fetch or its text() rejected
    | GateFailure(reason: GateError)  // thrown by the gate
    | JsonSyntax                      // JSON.parse threw
    | NullData                        // Object.entries(null) threw

  /** What fetching one tier yields: the entries to walk, or the error. */
  type TierResult = Result<seq<(string, JsonValue)>, RunError>

  /** The request body each tier sends, and what the tier's fetch yields. */
  datatype Fetcher = Fetcher(bodyOf: Account -> string, entriesOf: Account -> TierResult)

  /** The state after some tiers: bodies sent and records collected, or the error. */
  datatype Progress = Progress(sent: seq<string>, records: Result<seq<Record>, RunError>)

  /**
   * The fold: each tier sends its body; the first tier that fails ends the
   * collection, and no later tier is sent.
   */
  function Collect(f: Fetcher, tiers: seq<Account>, fetchedAt: string): (p: Progress)
    ensures |p.sent| <= |tiers|
    ensures forall k :: 0 <= k < |p.sent| ==> p.sent[k] == f.bodyOf(tiers[k])
    ensures p.records.Success? ==> |p.sent| == |tiers|
  {
    if |tiers| == 0 then Progress([], Success([]))
    else
      var p := Collect(f, tiers[..|tiers| - 1], fetchedAt);
      var acc := tiers[|tiers| - 1];
      if p.records.Failure? then p
      else
        match f.entriesOf(acc)
        case Failure(e) => Progress(p.sent + [f.bodyOf(acc)], Failure(e))
        case Success(es) =>
          Progress(p.sent + [f.bodyOf(acc)], Success(p.records.value + TierRecords(acc, es, fetchedAt)))
  }

  /** The bodies of the given tiers, in order. */
  function Bodies(f: Fetcher, tiers: seq<Account>): seq<string>
  {
    seq(|tiers|, k requires 0 <= k < |tiers| => f.bodyOf(tiers[k]))
  }

  /** Once a prefix of the tiers has failed, the rest of the tiers change nothing. */
  lemma {:induction false} FailureSticks(f: Fetcher, tiers: seq<Account>, n: nat, fetchedAt: string)
    requires n <= |tiers|
    requires Collect(f, tiers[..n], fetchedAt).records.Failure?
    ensures Collect(f, tiers, fetchedAt) == Collect(f, tiers[..n], fetchedAt)
  {
    if n < |tiers| {
      var init := tiers[..|tiers| - 1];
      assert init[..n] == tiers[..n];
      FailureSticks(f, init, n, fetchedAt);
    } else {
      assert tiers[..n] == tiers;
    }
  }

  /** One step of the fold: tier i after the first i tiers succeeded. */
  lemma CollectStep(f: Fetcher, tiers: seq<Account>, i: nat, fetchedAt: string, sent: seq<string>, rs: seq<Record>)
    requires i < |tiers|
    requires Collect(f, tiers[..i], fetchedAt) == Progress(sent, Success(rs))
    ensures f.entriesOf(tiers[i]).Failure? ==>
      Collect(f, tiers[..i + 1], fetchedAt) == Progress(sent + [f.bodyOf(tiers[i])], Failure(f.entriesOf(tiers[i]).error))
    ensures f.entriesOf(tiers[i]).Success? ==>
      Collect(f, tiers[..i + 1], fetchedAt)
        == Progress(sent + [f.bodyOf(tiers[i])], Success(rs + TierRecords(tiers[i], f.entriesOf(tiers[i]).value, fetchedAt)))
  {
    assert tiers[..i + 1][..i] == tiers[..i];
  }

  /** Every tier's fetch succeeds. */
  predicate AllSucceed(f: Fetcher, tiers: seq<Account>)
  {
    forall k :: 0 <= k < |tiers| ==> f.entriesOf(tiers[k]).Success?
  }

  /** The records one tier adds when its fetch succeeds. */
  function TierOutput(f: Fetcher, acc: Account, fetchedAt: string): seq<Record>
  {
    match f.entriesOf(acc)
    case Success(es) => TierRecords(acc, es, fetchedAt)
    case Failure(_) => []
  }

  /** Reference definition: the tiers' records, concatenated in tier order. */
  function ConcatTiers(f: Fetcher, tiers: seq<Account>, fetchedAt: string): seq<Record>
  {
    if |tiers| == 0 then [] else TierOutput(f, tiers[0], fetchedAt) + ConcatTiers(f, tiers[1..], fetchedAt)
  }

  lemma ConcatAssoc(a: seq<Record>, b: seq<Record>, c: seq<Record>)
    ensures a + (b + c) == (a + b) + c
  {
  }

  /** ConcatTiers grows at the back one tier at a time, as the fold does. */
  lemma {:induction false} ConcatTiersSnoc(f: Fetcher, tiers: seq<Account>, fetchedAt: string)
    requires |tiers| > 0
    ensures ConcatTiers(f, tiers, fetchedAt)
      == ConcatTiers(f, tiers[..|tiers| - 1], fetchedAt) + TierOutput(f, tiers[|tiers| - 1], fetchedAt)
  {
    var init := tiers[..|tiers| - 1];
    var tail := TierOutput(f, tiers[|tiers| - 1], fetchedAt);
    if |tiers| > 1 {
      var rest := tiers[1..];
      var head := TierOutput(f, tiers[0], fetchedAt);
      ConcatTiersSnoc(f, rest, fetchedAt);
      assert rest[..|rest| - 1] == init[1..];
      assert rest[|rest| - 1] == tiers[|tiers| - 1] && init[0] == tiers[0];
      assert ConcatTiers(f, tiers, fetchedAt) == head + ConcatTiers(f, rest, fetchedAt);
      assert ConcatTiers(f, init, fetchedAt) == head + ConcatTiers(f, init[1..], fetchedAt);
      ConcatAssoc(head, ConcatTiers(f, init[1..], fetchedAt), tail);
    } else {
      assert init == [];
      assert ConcatTiers(f, tiers[1..], fetchedAt) == [];
    }
  }

  /** A collection succeeds exactly when every tier does. */
  lemma {:induction false} CollectSucceedsIff(f: Fetcher, tiers: seq<Account>, fetchedAt: string)
    ensures Collect(f, tiers, fetchedAt).records.Success? <==> AllSucceed(f, tiers)
  {
    if |tiers| > 0 {
      var init := tiers[..|tiers| - 1];
      CollectSucceedsIff(f, init, fetchedAt);
      assert forall k :: 0 <= k < |init| ==> init[k] == tiers[k];
      assert AllSucceed(f, tiers) <==> AllSucceed(f, init) && f.entriesOf(tiers[|tiers| - 1]).Success?;
    }
  }

  /** In a successful collection every tier's body was sent, once and in order. */
  lemma CollectSentAll(f: Fetcher, tiers: seq<Account>, fetchedAt: string)
    ensures Collect(f, tiers, fetchedAt).records.Success? ==> Collect(f, tiers, fetchedAt).sent == Bodies(f, tiers)
  {
    var p := Collect(f, tiers, fetchedAt);
    if p.records.Success? {
      assert forall k :: 0 <= k < |tiers| ==> p.sent[k] == Bodies(f, tiers)[k];
    }
  }

  /** When every tier succeeds, the records are the tiers' records in tier order. */
  lemma {:induction false} CollectValue(f: Fetcher, tiers: seq<Account>, fetchedAt: string)
    requires AllSucceed(f, tiers)
    ensures Collect(f, tiers, fetchedAt).records == Success(ConcatTiers(f, tiers, fetchedAt))
  {
    if |tiers| > 0 {
      var init := tiers[..|tiers| - 1];
      assert forall k :: 0 <= k < |init| ==> init[k] == tiers[k];
      ConcatTiersSnoc(f, tiers, fetchedAt);
      CollectValue(f, init, fetchedAt);
    }
  }

  /**
   * The first failing tier ends the collection with its error: its body and
   * those before it were sent, no later one.
   */
  lemma CollectStopsAtFirstFailure(f: Fetcher, tiers: seq<Account>, k: nat, fetchedAt: string)
    requires k < |tiers|
    requires AllSucceed(f, tiers[..k])
    requires f.entriesOf(tiers[k]).Failure?
    ensures Collect(f, tiers, fetchedAt) == Progress(Bodies(f, tiers[..k + 1]), Failure(f.entriesOf(tiers[k]).error))
  {
    var prefix := tiers[..k];
    CollectValue(f, prefix, fetchedAt);
    CollectSentAll(f, prefix, fetchedAt);
    var p := Collect(f, prefix, fetchedAt);
    CollectStep(f, tiers, k, fetchedAt, p.sent, p.records.value);
    assert Bodies(f, tiers[..k + 1]) == Bodies(f, prefix) + [f.bodyOf(tiers[k])];
    FailureSticks(f, tiers, k + 1, fetchedAt);
  }

  /**
   * The accumulator is append-only: one more tier leaves the records so far
   * in place and adds at most as many records as the tier has entries.
   */
  lemma AppendOnly(f: Fetcher, tiers: seq<Account>, acc: Account, fetchedAt: string)
    requires Collect(f, tiers + [acc], fetchedAt).records.Success?
    ensures Collect(f, tiers, fetchedAt).records.Success?
    ensures f.entriesOf(acc).Success?
    ensures
      var before := Collect(f, tiers, fetchedAt).records.value;
      var after := Collect(f, tiers + [acc], fetchedAt).records.value;
      && before <= after
      && after[|before|..] == TierRecords(acc, f.entriesOf(acc).value, fetchedAt)
      && |after| - |before| <= |f.entriesOf(acc).value|
  {
    assert (tiers + [acc])[..|tiers|] == tiers;
  }

  /** Each record was built by one of the tiers. */
  ghost predicate FromTiers(tiers: seq<Account>, fetchedAt: string, rs: seq<Record>)
  {
    forall m :: 0 <= m < |rs| ==> exists i :: 0 <= i < |tiers| && TierRecord(tiers[i], fetchedAt, rs[m])
  }

  /** Each collected record was built by one of the tiers. */
  lemma {:induction false} CollectProvenance(f: Fetcher, tiers: seq<Account>, fetchedAt: string)
    ensures Collect(f, tiers, fetchedAt).records.Success? ==>
      FromTiers(tiers, fetchedAt, Collect(f, tiers, fetchedAt).records.value)
  {
    if |tiers| > 0 && Collect(f, tiers, fetchedAt).records.Success? {
      var init := tiers[..|tiers| - 1];
      var last := |tiers| - 1;
      CollectProvenance(f, init, fetchedAt);
      var rs0 := Collect(f, init, fetchedAt).records.value;
      assert FromTiers(init, fetchedAt, rs0);
      var trs := TierRecords(tiers[last], f.entriesOf(tiers[last]).value, fetchedAt);
      var rs := Collect(f, tiers, fetchedAt).records.value;
      assert rs == rs0 + trs;
      forall m | 0 <= m < |rs| ensures exists i :: 0 <= i < |tiers| && TierRecord(tiers[i], fetchedAt, rs[m]) {
        if m < |rs0| {
          assert exists i :: 0 <= i < |init| && TierRecord(init[i], fetchedAt, rs0[m]);
          var i :| 0 <= i < |init| && TierRecord(init[i], fetchedAt, rs0[m]);
          assert init[i] == tiers[i] && rs[m] == rs0[m];
        } else {
          assert rs[m] == trs[m - |rs0|];
          TierRecordsShape(tiers[last], f.entriesOf(tiers[last]).value, fetchedAt);
        }
      }
    }
  }

  /** Every collected record carries the run's one timestamp. */
  lemma {:induction false} CollectTimestamps(f: Fetcher, tiers: seq<Account>, fetchedAt: string)
    ensures Collect(f, tiers, fetchedAt).records.Success? ==>
      forall m :: 0 <= m < |Collect(f, tiers, fetchedAt).records.value| ==> Collect(f, tiers, fetchedAt).records.value[m].fetchedAt == fetchedAt
  {
    if |tiers| > 0 && Collect(f, tiers, fetchedAt).records.Success? {
      var init := tiers[..|tiers| - 1];
      var last := tiers[|tiers| - 1];
      CollectTimestamps(f, init, fetchedAt);
      var rs0 := Collect(f, init, fetchedAt).records.value;
      var trs := TierRecords(last, f.entriesOf(last).value, fetchedAt);
      var rs := rs0 + trs;
      assert Collect(f, tiers, fetchedAt).records.value == rs;
      assert forall m :: |rs0| <= m < |rs| ==> rs[m] == trs[m - |rs0|];
      TierRecordsShape(last, f.entriesOf(last).value, fetchedAt);
    }
  }

  /** The fetcher's entry lists never repeat a name. */
  ghost predicate DistinctEntries(f: Fetcher)
  {
    forall acc :: f.entriesOf(acc).Success? ==> DistinctNames(f.entriesOf(acc).value)
  }

  /** Records of two tiers with distinct `|`-free labels have distinct keys. */
  lemma KeysOfLabelsDiffer(a: Account, b: Account, fetchedAt: string, ra: Record, rb: Record)
    requires '|' !in a.accountType && '|' !in b.accountType && a.accountType != b.accountType
    requires TierRecord(a, fetchedAt, ra) && TierRecord(b, fetchedAt, rb)
    ensures ra.key != rb.key
  {
    KeyInjective(a.accountType, ra.symbol, b.accountType, rb.symbol);
  }

  /**
   * Appending the records of a tier whose label differs from every earlier
   * one keeps the keys distinct.
   */
  lemma AppendKeepsKeysUnique(init: seq<Account>, last: Account, fetchedAt: string, rs0: seq<Record>, trs: seq<Record>)
    requires LabelsSeparable(init + [last])
    requires FromTiers(init, fetchedAt, rs0) && UniqueKeys(rs0)
    requires forall n :: 0 <= n < |trs| ==> TierRecord(last, fetchedAt, trs[n])
    requires UniqueKeys(trs)
    ensures UniqueKeys(rs0 + trs)
  {
    var tiers := init + [last];
    var rs := rs0 + trs;
    forall m, n | 0 <= m < n < |rs| ensures rs[m].key != rs[n].key {
      if n < |rs0| {
        assert rs[m] == rs0[m] && rs[n] == rs0[n];
      } else if |rs0| <= m {
        assert rs[m] == trs[m - |rs0|] && rs[n] == trs[n - |rs0|];
      } else {
        var i :| 0 <= i < |init| && TierRecord(init[i], fetchedAt, rs0[m]);
        assert tiers[i] == init[i] && tiers[|init|] == last;
        assert rs[m] == rs0[m] && rs[n] == trs[n - |rs0|];
        KeysOfLabelsDiffer(init[i], last, fetchedAt, rs0[m], trs[n - |rs0|]);
      }
    }
  }

  /**
   * With `|`-free, pairwise distinct labels and entry lists without repeated
   * names, the collected records have pairwise distinct keys.
   */
  lemma {:induction false} CollectKeysUnique(f: Fetcher, tiers: seq<Account>, fetchedAt: string)
    requires LabelsSeparable(tiers)
    requires DistinctEntries(f)
    ensures Collect(f, tiers, fetchedAt).records.Success? ==> UniqueKeys(Collect(f, tiers, fetchedAt).records.value)
  {
    if |tiers| > 0 && Collect(f, tiers, fetchedAt).records.Success? {
      var init := tiers[..|tiers| - 1];
      var last := tiers[|tiers| - 1];
      assert tiers == init + [last];
      CollectKeysUnique(f, init, fetchedAt);
      CollectProvenance(f, init, fetchedAt);
      var rs0 := Collect(f, init, fetchedAt).records.value;
      var es := f.entriesOf(last).value;
      var trs := TierRecords(last, es, fetchedAt);
      TierKeysUnique(last, es, fetchedAt);
      TierRecordsShape(last, es, fetchedAt);
      AppendKeepsKeysUnique(init, last, fetchedAt, rs0, trs);
      assert Collect(f, tiers, fetchedAt).records.value == rs0 + trs;
    }
  }
}

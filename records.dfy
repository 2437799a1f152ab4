/**
 * The record normaliser: the account tiers, the flat record built for each
 * usable entry of a tier's response, and the filter that decides which
 * entries are usable.
 */
module Records {
  import opened Wrappers
  import opened Json

  /** One account tier: the code the API takes and the label records carry. */
  datatype Account = Account(typeAccount: string, accountType: string)

  const ACCOUNTS: seq<Account> :=
    [Account("1", "Classic"), Account("2", "Market Pro"), Account("3", "ECN")]

  const API_URL: string := "https://freshforex.com/api/specification-param/"

  /** One normalised record; the three figures are copied through untouched. */
  datatype Record = Record(
    key: string,
    fetchedAt: string,
    accountType: string,
    symbol: string,
    spread: JsonValue,
    swapLong: JsonValue,
    swapShort: JsonValue,
    source: string)

  /** The record key, `<account_type>||<symbol>`. */
  function RecordKey(accountType: string, symbol: string): string
  {
    accountType + "||" + symbol
  }

  /** The provenance string, `<API_URL> (type_account=<code>)`. */
  function SourceOf(acc: Account): string
  {
    API_URL + " (type_account=" + acc.typeAccount + ")"
  }

  /**
   * An entry value is used when it is a non-null object and none of the
   * three fields is undefined; null, 0, "" and false are values like any other.
   */
  predicate Usable(v: JsonValue)
    ensures Usable(v) <==> (
      && v.JObject?
      && Lookup(v.members, "spread").Some?
      && Lookup(v.members, "swap_long").Some?
      && Lookup(v.members, "swap_short").Some?)
  {
    IsNonNullObject(v)
    && Field(v, "spread").Some?
    && Field(v, "swap_long").Some?
    && Field(v, "swap_short").Some?
  }

  /**
   * The record pushed for a usable entry: the tier's key, label, source and
   * the run's timestamp, and the entry's three fields copied as they are.
   */
  function MakeRecord(acc: Account, symbol: string, v: JsonValue, fetchedAt: string): (r: Record)
    requires Usable(v)
    ensures TierRecord(acc, fetchedAt, r) && r.symbol == symbol
    ensures ("spread", r.spread) in v.members && ("swap_long", r.swapLong) in v.members
      && ("swap_short", r.swapShort) in v.members
  {
    Record(RecordKey(acc.accountType, symbol), fetchedAt, acc.accountType, symbol,
           Field(v, "spread").value, Field(v, "swap_long").value, Field(v, "swap_short").value,
           SourceOf(acc))
  }

  /** A record as one tier produces it: its key, label, timestamp and source. */
  predicate TierRecord(acc: Account, fetchedAt: string, r: Record)
  {
    && r.key == RecordKey(acc.accountType, r.symbol)
    && r.accountType == acc.accountType
    && r.fetchedAt == fetchedAt
    && r.source == SourceOf(acc)
  }

  /** The records one tier's entries give, built entry by entry in order. */
  function TierRecords(acc: Account, es: seq<(string, JsonValue)>, fetchedAt: string): (rs: seq<Record>)
    ensures |rs| <= |es|
  {
    if |es| == 0 then []
    else
      var prefix := TierRecords(acc, es[..|es| - 1], fetchedAt);
      var last := es[|es| - 1];
      if Usable(last.1) then prefix + [MakeRecord(acc, last.0, last.1, fetchedAt)] else prefix
  }

  /** Every record of a tier carries the tier's label, key, source and the run's timestamp. */
  lemma {:induction false} TierRecordsShape(acc: Account, es: seq<(string, JsonValue)>, fetchedAt: string)
    ensures forall k :: 0 <= k < |TierRecords(acc, es, fetchedAt)| ==> TierRecord(acc, fetchedAt, TierRecords(acc, es, fetchedAt)[k])
  {
    if |es| > 0 {
      TierRecordsShape(acc, es[..|es| - 1], fetchedAt);
    }
  }

  /** The positions of the usable entries, in increasing order. */
  function UsableIndices(es: seq<(string, JsonValue)>): seq<nat>
  {
    if |es| == 0 then []
    else
      var prefix := UsableIndices(es[..|es| - 1]);
      if Usable(es[|es| - 1].1) then prefix + [|es| - 1] else prefix
  }

  /**
   * UsableIndices lists exactly the usable positions, each once and in
   * increasing order.
   */
  lemma {:induction false} UsableIndicesExact(es: seq<(string, JsonValue)>)
    ensures forall m :: 0 <= m < |UsableIndices(es)| ==> UsableIndices(es)[m] < |es|
    ensures forall m, n :: 0 <= m < n < |UsableIndices(es)| ==> UsableIndices(es)[m] < UsableIndices(es)[n]
    ensures forall i :: 0 <= i < |es| ==> (i in UsableIndices(es) <==> Usable(es[i].1))
  {
    if |es| > 0 {
      var init := es[..|es| - 1];
      UsableIndicesExact(init);
      assert forall i :: 0 <= i < |init| ==> init[i] == es[i];
    }
  }

  /**
   * The normaliser is a filter-map: the k-th record is built from the k-th
   * usable entry, so records come out in entry order and one per usable entry.
   */
  lemma {:induction false} TierRecordsAreUsableEntries(acc: Account, es: seq<(string, JsonValue)>, fetchedAt: string)
    ensures |TierRecords(acc, es, fetchedAt)| == |UsableIndices(es)|
    ensures forall m :: 0 <= m < |UsableIndices(es)| ==>
      var i := UsableIndices(es)[m];
      i < |es| && Usable(es[i].1) && TierRecords(acc, es, fetchedAt)[m] == MakeRecord(acc, es[i].0, es[i].1, fetchedAt)
  {
    UsableIndicesExact(es);
    if |es| > 0 {
      var init := es[..|es| - 1];
      TierRecordsAreUsableEntries(acc, init, fetchedAt);
      UsableIndicesExact(init);
      assert forall i :: 0 <= i < |init| ==> init[i] == es[i];
    }
  }

  /**
   * In a response with distinct symbols, an entry yields a record if and
   * only if its value is usable, and that record is the one built from it.
   */
  lemma EntryKeptIff(acc: Account, es: seq<(string, JsonValue)>, fetchedAt: string, i: nat)
    requires DistinctNames(es)
    requires i < |es|
    ensures Usable(es[i].1) <==> exists r :: r in TierRecords(acc, es, fetchedAt) && r.symbol == es[i].0
    ensures Usable(es[i].1) ==> MakeRecord(acc, es[i].0, es[i].1, fetchedAt) in TierRecords(acc, es, fetchedAt)
  {
    var rs := TierRecords(acc, es, fetchedAt);
    var ix := UsableIndices(es);
    TierRecordsAreUsableEntries(acc, es, fetchedAt);
    UsableIndicesExact(es);
    if Usable(es[i].1) {
      assert i in ix;
      var m :| 0 <= m < |ix| && ix[m] == i;
      assert rs[m] == MakeRecord(acc, es[i].0, es[i].1, fetchedAt);
    } else {
      forall r | r in rs ensures r.symbol != es[i].0 {
        var m :| 0 <= m < |rs| && rs[m] == r;
        assert ix[m] != i;
      }
    }
  }

  /** With no `|` in the labels, a key determines its label and its symbol. */
  lemma KeyInjective(l1: string, s1: string, l2: string, s2: string)
    requires '|' !in l1 && '|' !in l2
    ensures RecordKey(l1, s1) == RecordKey(l2, s2) ==> l1 == l2 && s1 == s2
  {
    var k1, k2 := RecordKey(l1, s1), RecordKey(l2, s2);
    assert forall i :: 0 <= i < |l1| ==> k1[i] == l1[i];
    assert forall i :: 0 <= i < |l2| ==> k2[i] == l2[i];
    assert k1[|l1|] == '|' && k2[|l2|] == '|';
    if k1 == k2 {
      assert |l1| == |l2|;
      assert l1 == k1[..|l1|] == l2;
      assert s1 == k1[|l1| + 2..] == s2;
    }
  }

  /** Under one label, the key determines the symbol. */
  lemma KeySuffix(l: string, s1: string, s2: string)
    ensures RecordKey(l, s1) == RecordKey(l, s2) ==> s1 == s2
  {
    var p := l + "||";
    assert RecordKey(l, s1) == p + s1 && RecordKey(l, s2) == p + s2;
    assert (p + s1)[|p|..] == s1 && (p + s2)[|p|..] == s2;
  }

  /** Keys pairwise distinct. */
  predicate UniqueKeys(rs: seq<Record>)
  {
    forall m, n :: 0 <= m < n < |rs| ==> rs[m].key != rs[n].key
  }

  /** A tier whose response has distinct symbols emits no key twice. */
  lemma TierKeysUnique(acc: Account, es: seq<(string, JsonValue)>, fetchedAt: string)
    requires DistinctNames(es)
    ensures UniqueKeys(TierRecords(acc, es, fetchedAt))
  {
    var rs := TierRecords(acc, es, fetchedAt);
    var ix := UsableIndices(es);
    TierRecordsAreUsableEntries(acc, es, fetchedAt);
    UsableIndicesExact(es);
    forall m, n | 0 <= m < n < |rs| ensures rs[m].key != rs[n].key {
      assert ix[m] < ix[n];
      assert rs[m].symbol == es[ix[m]].0 && rs[n].symbol == es[ix[n]].0;
      KeySuffix(acc.accountType, rs[m].symbol, rs[n].symbol);
    }
  }

  /** The tier labels are pairwise distinct and none contains `|`. */
  predicate LabelsSeparable(tiers: seq<Account>)
  {
    && (forall i :: 0 <= i < |tiers| ==> '|' !in tiers[i].accountType)
    && (forall i, j :: 0 <= i < j < |tiers| ==> tiers[i].accountType != tiers[j].accountType)
  }

  lemma AccountsSeparable()
    ensures LabelsSeparable(ACCOUNTS)
  {
  }

  /**
   * Falsy field values count as present: only `undefined` fields drop an
   * object entry. Null, numbers, strings and booleans are dropped by the
   * type test; an array passes it and is dropped for lacking the fields.
   */
  lemma FalsyFieldsKept()
    ensures Usable(JObject([("spread", JNumber("0")), ("swap_long", JString("")), ("swap_short", JBool(false))]))
    ensures Usable(JObject([("spread", JNull), ("swap_long", JNull), ("swap_short", JNull)]))
    ensures !Usable(JObject([("spread", JNumber("3.0"))]))
    ensures !Usable(JArray([]))
    ensures !Usable(JNull) && !Usable(JNumber("1.2")) && !Usable(JString("x")) && !Usable(JBool(true))
  {
  }

  /** EURUSD's value in the Classic scenario below carries all three fields. */
  lemma EurusdUsable()
    ensures Usable(JObject([("spread", JNumber("1.2")), ("swap_long", JNumber("-0.5")), ("swap_short", JNumber("0.1"))]))
  {
    var m := [("spread", JNumber("1.2")), ("swap_long", JNumber("-0.5")), ("swap_short", JNumber("0.1"))];
    assert m[0].0 == "spread" && m[1].0 == "swap_long" && m[2].0 == "swap_short";
  }

  /**
   * The Classic tier answering EURUSD with all three fields and XAUUSD with
   * only a spread gives exactly one record, keyed `Classic||EURUSD`.
   */
  lemma ClassicScenario(fetchedAt: string)
    ensures
      var eurusd := JObject([("spread", JNumber("1.2")), ("swap_long", JNumber("-0.5")), ("swap_short", JNumber("0.1"))]);
      var xauusd := JObject([("spread", JNumber("3.0"))]);
      var rs := TierRecords(ACCOUNTS[0], [("EURUSD", eurusd), ("XAUUSD", xauusd)], fetchedAt);
      && |rs| == 1
      && rs[0].key == "Classic||EURUSD"
      && rs[0].symbol == "EURUSD"
      && rs[0].fetchedAt == fetchedAt
      && (rs[0].spread, rs[0].swapLong, rs[0].swapShort) == (JNumber("1.2"), JNumber("-0.5"), JNumber("0.1"))
  {
    var eurusd := JObject([("spread", JNumber("1.2")), ("swap_long", JNumber("-0.5")), ("swap_short", JNumber("0.1"))]);
    var xauusd := JObject([("spread", JNumber("3.0"))]);
    var es := [("EURUSD", eurusd), ("XAUUSD", xauusd)];
    EurusdUsable();
    assert !Usable(xauusd);
    assert es[..1] == [("EURUSD", eurusd)];
    assert es[..1][..0] == [];
    var r := MakeRecord(ACCOUNTS[0], "EURUSD", eurusd, fetchedAt);
    assert TierRecords(ACCOUNTS[0], es, fetchedAt) == [r];
    assert r.key == "Classic" + "||" + "EURUSD";
  }
}

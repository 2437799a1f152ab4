/**
 * The value JSON.parse hands back, as far as the record normaliser looks
 * into it: its kind, the own properties of an object, and what
 * Object.entries yields for it.
 */
module Json {
  import opened Wrappers

  /** A parsed JSON value. Numbers stay opaque: only their text is kept. */
  datatype JsonValue =
    | JNull
    | JBool(b: bool)
    | JNumber(text: string)
    | JString(s: string)
    | JArray(items: seq<JsonValue>)
    | JObject(members: seq<(string, JsonValue)>)

  /** No two entries share a name (a parsed object has distinct own keys). */
  predicate DistinctNames(es: seq<(string, JsonValue)>)
  {
    forall i, j :: 0 <= i < j < |es| ==> es[i].0 != es[j].0
  }

  /**
   * `v` survives `!v || typeof v !== "object"`: null is falsy, and only
   * arrays and objects have typeof "object" otherwise.
   */
  predicate IsNonNullObject(v: JsonValue)
  {
    v.JArray? || v.JObject?
  }

  /** The value of the first member called `name`, or None when there is none. */
  function Lookup(members: seq<(string, JsonValue)>, name: string): (r: Option<JsonValue>)
    ensures r.Some? ==> (name, r.value) in members
    ensures r.None? <==> forall i :: 0 <= i < |members| ==> members[i].0 != name
  {
    if |members| == 0 then None
    else if members[0].0 == name then Some(members[0].1)
    else
      var r := Lookup(members[1..], name);
      assert forall i :: 1 <= i < |members| ==> members[i] == members[1..][i - 1];
      r
  }

  /**
   * Property access `v.name` for the names the normaliser reads (`spread`,
   * `swap_long`, `swap_short`): None stands for `undefined`. Arrays,
   * strings, numbers and booleans have none of these properties, so only an
   * object can answer; other names, such as an array's `length`, are not
   * modelled.
   */
  function Field(v: JsonValue, name: string): (r: Option<JsonValue>)
    ensures r.Some? ==> v.JObject? && (name, r.value) in v.members
    ensures v.JObject? && (exists i :: 0 <= i < |v.members| && v.members[i].0 == name) ==> r.Some?
  {
    if v.JObject? then Lookup(v.members, name) else None
  }

  /** The character of a decimal digit. */
  function Digit(d: nat): (c: char)
    requires d < 10
    ensures '0' <= c <= '9' && c as int - '0' as int == d
  {
    (48 + d) as char
  }

  /** The canonical decimal string of an array index, as Object.entries names it. */
  function DecimalString(n: nat): (s: string)
    ensures 1 <= |s|
    ensures n < 10 <==> |s| == 1
  {
    if n < 10 then [Digit(n)] else DecimalString(n / 10) + [Digit(n % 10)]
  }

  /** Distinct indices have distinct names. */
  lemma {:induction false} DecimalStringInjective(a: nat, b: nat)
    ensures DecimalString(a) == DecimalString(b) ==> a == b
  {
    if DecimalString(a) == DecimalString(b) {
      if a >= 10 && b >= 10 {
        var sa, sb := DecimalString(a), DecimalString(b);
        assert sa[|sa| - 1] == Digit(a % 10) && sb[|sb| - 1] == Digit(b % 10);
        assert a % 10 == b % 10;
        assert sa[..|sa| - 1] == DecimalString(a / 10);
        assert sb[..|sb| - 1] == DecimalString(b / 10);
        DecimalStringInjective(a / 10, b / 10);
      } else {
        assert DecimalString(a)[0] == Digit(a);
        assert DecimalString(b)[0] == Digit(b);
      }
    }
  }

  /**
   * Object.entries: the own enumerable [key, value] pairs, in the order the
   * engine lists them. An object gives its members; an array its items,
   * named by index; a string its characters, each a one-character string;
   * a number or boolean nothing. Null makes Object.entries throw (None).
   */
  function Entries(v: JsonValue): (r: Option<seq<(string, JsonValue)>>)
    ensures r.None? <==> v.JNull?
    ensures v.JObject? ==> r == Some(v.members)
  {
    match v
    case JNull => None
    case JBool(_) => Some([])
    case JNumber(_) => Some([])
    case JString(s) => Some(seq(|s|, i requires 0 <= i < |s| => (DecimalString(i), JString([s[i]]))))
    case JArray(items) => Some(seq(|items|, i requires 0 <= i < |items| => (DecimalString(i), items[i])))
    case JObject(members) => Some(members)
  }

  /**
   * Every object, at every depth, has distinct keys: a JavaScript object
   * cannot hold one property twice, so JSON.parse never returns such a value.
   */
  predicate WellFormed(v: JsonValue)
  {
    match v
    case JArray(items) => forall i :: 0 <= i < |items| ==> WellFormed(items[i])
    case JObject(members) =>
      DistinctNames(members) && forall i :: 0 <= i < |members| ==> WellFormed(members[i].1)
    case _ => true
  }

  /** A value JSON.parse can return. */
  type ParsedJson = v: JsonValue | WellFormed(v) witness JNull

  /** Whatever kind the parsed value is, the entries it yields have distinct names. */
  lemma EntriesDistinct(v: JsonValue)
    requires WellFormed(v)
    ensures Entries(v).Some? ==> DistinctNames(Entries(v).value)
  {
    match v
    case JString(s) =>
      var es := Entries(v).value;
      forall i, j | 0 <= i < j < |es| ensures es[i].0 != es[j].0 {
        DecimalStringInjective(i, j);
      }
    case JArray(items) =>
      var es := Entries(v).value;
      forall i, j | 0 <= i < j < |es| ensures es[i].0 != es[j].0 {
        DecimalStringInjective(i, j);
      }
    case _ =>
  }
}

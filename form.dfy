/**
 * Form encoding of the request body: `toForm` and the object spread that
 * adds the tier code to the fixed trading parameters.
 */
module Form {

  /** An object with string values, as its entries in property order. */
  type FormObject = seq<(string, string)>

  /** The fixed trading parameters sent with every tier's request. */
  const BASE_FORM: FormObject :=
    [("symbol_group", "1"), ("currency", "USD"), ("leverage", "2000"), ("lot", "1")]

  /** No entry of `obj` is called `k`. */
  predicate NoKey(obj: FormObject, k: string)
  {
    forall i :: 0 <= i < |obj| ==> obj[i].0 != k
  }

  /**
   * `{ ...obj, [k]: v }`: an existing property keeps its place and takes the
   * new value; a new one goes last.
   */
  function WithEntry(obj: FormObject, k: string, v: string): (r: FormObject)
    ensures NoKey(obj, k) ==> r == obj + [(k, v)]
    ensures !NoKey(obj, k) ==> |r| == |obj| && (k, v) in r
    ensures forall i :: 0 <= i < |obj| && obj[i].0 != k ==> r[i] == obj[i]
  {
    if |obj| == 0 then [(k, v)]
    else if obj[0].0 == k then [(k, v)] + obj[1..]
    else
      var rest := WithEntry(obj[1..], k, v);
      assert NoKey(obj, k) ==> NoKey(obj[1..], k);
      assert !NoKey(obj, k) ==> !NoKey(obj[1..], k);
      [obj[0]] + rest
  }

  /** The body object of one tier's request: BASE_FORM plus its type_account. */
  function TierForm(code: string): (r: FormObject)
    ensures r == BASE_FORM + [("type_account", code)]
  {
    WithEntry(BASE_FORM, "type_account", code)
  }

  /** Array.prototype.join: the pieces with `sep` between neighbours. */
  function Join(pieces: seq<string>, sep: char): string
  {
    if |pieces| == 0 then ""
    else if |pieces| == 1 then pieces[0]
    else pieces[0] + [sep] + Join(pieces[1..], sep)
  }

  /** The `k=v` piece of each entry, keys and values percent-encoded by `enc`. */
  function Pieces(obj: FormObject, enc: string -> string): seq<string>
  {
    seq(|obj|, i requires 0 <= i < |obj| => enc(obj[i].0) + "=" + enc(obj[i].1))
  }

  /** `toForm`: the encoded pieces joined by `&`. */
  function ToForm(obj: FormObject, enc: string -> string): string
  {
    Join(Pieces(obj, enc), '&')
  }

  /** The assumed property of encodeURIComponent: it never emits `&` or `=`. */
  ghost predicate EscapesSeparators(enc: string -> string)
  {
    forall s :: '&' !in enc(s) && '=' !in enc(s)
  }

  /** How many times `c` occurs in `s`. */
  function Count(s: string, c: char): nat
  {
    if |s| == 0 then 0 else (if s[0] == c then 1 else 0) + Count(s[1..], c)
  }

  lemma {:induction false} CountConcat(a: string, b: string, c: char)
    ensures Count(a + b, c) == Count(a, c) + Count(b, c)
  {
    if |a| > 0 {
      assert (a + b)[1..] == a[1..] + b;
      CountConcat(a[1..], b, c);
    } else {
      assert a + b == b;
    }
  }

  lemma {:induction false} CountAbsent(s: string, c: char)
    requires c !in s
    ensures Count(s, c) == 0
  {
    if |s| > 0 {
      CountAbsent(s[1..], c);
    }
  }

  /** Joining pieces free of `sep` puts exactly one `sep` between each pair. */
  lemma {:induction false} CountInJoin(pieces: seq<string>, sep: char)
    requires |pieces| >= 1
    requires forall i :: 0 <= i < |pieces| ==> sep !in pieces[i]
    ensures Count(Join(pieces, sep), sep) == |pieces| - 1
  {
    CountAbsent(pieces[0], sep);
    if |pieces| > 1 {
      CountInJoin(pieces[1..], sep);
      CountConcat(pieces[0] + [sep], Join(pieces[1..], sep), sep);
      CountConcat(pieces[0], [sep], sep);
      assert Count([sep], sep) == 1 by {
        assert [sep][1..] == [];
      }
    }
  }

  /** A non-empty form holds one `&` fewer than it has entries. */
  lemma ToFormAmpersands(obj: FormObject, enc: string -> string)
    requires |obj| >= 1
    requires EscapesSeparators(enc)
    ensures Count(ToForm(obj, enc), '&') == |obj| - 1
  {
    var ps := Pieces(obj, enc);
    forall i | 0 <= i < |ps| ensures '&' !in ps[i] {
      assert '&' !in enc(obj[i].0) && '&' !in enc(obj[i].1);
    }
    CountInJoin(ps, '&');
  }

  /** Index of the first `c` in `s`, or |s| when there is none. */
  function IndexOf(s: string, c: char): (i: nat)
    ensures i <= |s|
    ensures i < |s| ==> s[i] == c
    ensures forall k :: 0 <= k < i ==> s[k] != c
  {
    if |s| == 0 then 0 else if s[0] == c then 0 else 1 + IndexOf(s[1..], c)
  }

  /** String.prototype.split with a one-character separator. */
  function SplitOn(s: string, c: char): (r: seq<string>)
    ensures |r| >= 1
    decreases |s|
  {
    var i := IndexOf(s, c);
    if i == |s| then [s] else [s[..i]] + SplitOn(s[i + 1..], c)
  }

  /** Splitting on `sep` undoes joining pieces that do not contain it. */
  lemma {:induction false} SplitJoin(pieces: seq<string>, sep: char)
    requires |pieces| >= 1
    requires forall i :: 0 <= i < |pieces| ==> sep !in pieces[i]
    ensures SplitOn(Join(pieces, sep), sep) == pieces
  {
    var p := pieces[0];
    if |pieces| == 1 {
      assert IndexOf(p, sep) == |p|;
    } else {
      var s := Join(pieces, sep);
      var rest := Join(pieces[1..], sep);
      assert s == p + [sep] + rest;
      assert IndexOf(s, sep) == |p| by {
        assert s[|p|] == sep;
        assert forall k :: 0 <= k < |p| ==> s[k] == p[k];
        IndexOfFirst(s, sep, |p|);
      }
      assert s[..|p|] == p;
      assert s[|p| + 1..] == rest;
      SplitJoin(pieces[1..], sep);
      assert pieces == [p] + pieces[1..];
    }
  }

  lemma IndexOfFirst(s: string, c: char, k: nat)
    requires k < |s| && s[k] == c
    requires forall j :: 0 <= j < k ==> s[j] != c
    ensures IndexOf(s, c) == k
  {
  }

  /** The `application/x-www-form-urlencoded` reading of a body: its pairs, still encoded. */
  function FormPairs(body: string): seq<seq<string>>
  {
    var pieces := SplitOn(body, '&');
    seq(|pieces|, i requires 0 <= i < |pieces| => SplitOn(pieces[i], '='))
  }

  /**
   * Round trip of `toForm`: reading the body back gives, in entry order,
   * exactly one encoded key and one encoded value per entry.
   */
  lemma ToFormRoundTrip(obj: FormObject, enc: string -> string)
    requires |obj| >= 1
    requires EscapesSeparators(enc)
    ensures FormPairs(ToForm(obj, enc)) == seq(|obj|, i requires 0 <= i < |obj| => [enc(obj[i].0), enc(obj[i].1)])
  {
    var ps := Pieces(obj, enc);
    forall i | 0 <= i < |ps| ensures '&' !in ps[i] {
      assert '&' !in enc(obj[i].0) && '&' !in enc(obj[i].1);
    }
    SplitJoin(ps, '&');
    forall i | 0 <= i < |obj| ensures SplitOn(ps[i], '=') == [enc(obj[i].0), enc(obj[i].1)] {
      var kv := [enc(obj[i].0), enc(obj[i].1)];
      assert ps[i] == Join(kv, '=');
      SplitJoin(kv, '=');
    }
  }
}

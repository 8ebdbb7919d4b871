/**
 * The query parameters of an embed URL.
 *
 * The builder keeps its parameters the way a JavaScript object keeps its
 * properties: each key once, in the order it was first added, a later
 * value for an existing key replacing the earlier one in place. The query
 * string lists them as `key=value` pairs in that order, joined by `&`,
 * with numbers rendered in decimal and nothing percent-encoded.
 */
module UrlParams {
  import opened Wrappers
  import opened Strings

  /** A parameter value: a number or a string. */
  datatype Value = Number(n: int) | Text(s: string)

  datatype Param = Param(key: string, value: Value)

  /** The string form a value takes in the query. */
  function Render(v: Value): string {
    match v
    case Number(n) => IntToString(n)
    case Text(s) => s
  }

  function Keys(ps: seq<Param>): seq<string> {
    seq(|ps|, i requires 0 <= i < |ps| => ps[i].key)
  }

  /** No key occurs twice. */
  predicate DistinctKeys(ps: seq<Param>) {
    forall i, j :: 0 <= i < j < |ps| ==> ps[i].key != ps[j].key
  }

  /** The value stored under `key`, if any. */
  function Lookup(ps: seq<Param>, key: string): Option<Value> {
    if ps == [] then None
    else if ps[0].key == key then Some(ps[0].value)
    else Lookup(ps[1..], key)
  }

  /**
   * Assigning one property: a new key goes at the end, an existing key
   * keeps its place and takes the new value, every other key is untouched.
   */
  function SetParam(ps: seq<Param>, key: string, value: Value): (r: seq<Param>)
    ensures key !in Keys(ps) ==> r == ps + [Param(key, value)]
    ensures key in Keys(ps) ==> Keys(r) == Keys(ps)
    ensures Lookup(r, key) == Some(value)
    ensures forall k :: k != key ==> Lookup(r, k) == Lookup(ps, k)
  {
    if ps == [] then [Param(key, value)]
    else if ps[0].key == key then
      assert Keys(ps)[0] == key;
      [Param(key, value)] + ps[1..]
    else
      assert Keys(ps) == [ps[0].key] + Keys(ps[1..]);
      var rest := SetParam(ps[1..], key, value);
      assert Keys([ps[0]] + rest) == [ps[0].key] + Keys(rest);
      [ps[0]] + rest
  }

  /** Assigning a property never duplicates a key. */
  lemma SetParamKeepsKeysDistinct(ps: seq<Param>, key: string, value: Value)
    ensures DistinctKeys(ps) ==> DistinctKeys(SetParam(ps, key, value))
  {
    var r := SetParam(ps, key, value);
    if !DistinctKeys(ps) {
    } else if key in Keys(ps) {
      forall i, j | 0 <= i < j < |r| ensures r[i].key != r[j].key {
        assert Keys(r)[i] == Keys(ps)[i] && Keys(r)[j] == Keys(ps)[j];
      }
    } else {
      forall i, j | 0 <= i < j < |r| ensures r[i].key != r[j].key {
        if j == |ps| {
          assert Keys(ps)[i] == ps[i].key;
        }
      }
    }
  }

  /**
   * Assigning every property of `more`, in order, on top of `ps`: what
   * `withParams` does to the builder's parameters.
   */
  function MergeParams(ps: seq<Param>, more: seq<Param>): (r: seq<Param>)
    ensures DistinctKeys(ps) ==> DistinctKeys(r)
    ensures forall k :: k !in Keys(more) ==> Lookup(r, k) == Lookup(ps, k)
    ensures 0 < |more| ==> Lookup(r, more[|more| - 1].key) == Some(more[|more| - 1].value)
    decreases |more|
  {
    if more == [] then ps
    else
      var last := more[|more| - 1];
      assert Keys(more) == Keys(more[..|more| - 1]) + [last.key];
      var merged := MergeParams(ps, more[..|more| - 1]);
      SetParamKeepsKeysDistinct(merged, last.key, last.value);
      SetParam(merged, last.key, last.value)
  }

  /** The value of the last entry of `more` with key `key`, if any. */
  function LastValue(more: seq<Param>, key: string): Option<Value>
    decreases |more|
  {
    if more == [] then None
    else if more[|more| - 1].key == key then Some(more[|more| - 1].value)
    else LastValue(more[..|more| - 1], key)
  }

  /**
   * After a merge, a key given in `more` holds the last value given for it;
   * every other key holds what it held before.
   */
  lemma {:induction false} MergeParamsLookup(ps: seq<Param>, more: seq<Param>, key: string)
    ensures Lookup(MergeParams(ps, more), key)
         == if LastValue(more, key).Some? then LastValue(more, key) else Lookup(ps, key)
    decreases |more|
  {
    if more != [] {
      MergeParamsLookup(ps, more[..|more| - 1], key);
    }
  }

  /** Parameters with fresh, distinct keys are appended in the order given. */
  lemma {:induction false} MergeFreshKeysAppends(ps: seq<Param>, more: seq<Param>)
    requires DistinctKeys(ps + more)
    ensures MergeParams(ps, more) == ps + more
    decreases |more|
  {
    if more != [] {
      var init, last := more[..|more| - 1], more[|more| - 1];
      assert ps + more == (ps + init) + [last];
      assert DistinctKeys(ps + init) by {
        forall i, j | 0 <= i < j < |ps + init|
          ensures (ps + init)[i].key != (ps + init)[j].key
        {
          assert (ps + init)[i] == (ps + more)[i] && (ps + init)[j] == (ps + more)[j];
        }
      }
      MergeFreshKeysAppends(ps, init);
      assert last.key !in Keys(ps + init) by {
        forall i | 0 <= i < |ps + init| ensures Keys(ps + init)[i] != last.key {
          assert (ps + more)[i] == (ps + init)[i] && (ps + more)[|ps + more| - 1] == last;
        }
      }
    }
  }

  // ---------------------------------------------------------------------
  // The query string

  /** One `key=value` pair. */
  function PairString(p: Param): string {
    p.key + "=" + Render(p.value)
  }

  function PairStrings(ps: seq<Param>): seq<string> {
    seq(|ps|, i requires 0 <= i < |ps| => PairString(ps[i]))
  }

  /**
   * The pairs of `ps` in order, joined by `&`: empty exactly when there are
   * no parameters, and starting with the first pair.
   */
  function QueryString(ps: seq<Param>): (q: string)
    ensures q == "" <==> ps == []
    ensures 0 < |ps| ==> PairString(ps[0]) <= q
  {
    assert 0 < |ps| ==> |PairStrings(ps)[0]| > 0;
    Join(PairStrings(ps), '&')
  }

  /** The last two parameters close the query string, `&`-separated. */
  lemma QueryStringEndsWith(ps: seq<Param>, p: Param, q: Param)
    ensures QueryString(ps + [p, q])
         == (if ps == [] then "" else QueryString(ps) + "&") + PairString(p) + "&" + PairString(q)
  {
    assert PairStrings(ps + [p, q]) == (PairStrings(ps) + [PairString(p)]) + [PairString(q)];
    JoinSnoc(PairStrings(ps) + [PairString(p)], PairString(q), '&');
    JoinSnoc(PairStrings(ps), PairString(p), '&');
    if ps == [] {
      assert PairStrings(ps) == [];
    } else {
      assert PairStrings(ps) != [];
    }
  }

  // ---------------------------------------------------------------------
  // Reading a query string back

  /** Splits one pair at its first `=`; a pair without `=` has an empty value. */
  function ParsePair(part: string): (string, string) {
    var kv := Split(part, '=');
    (kv[0], Join(kv[1..], '='))
  }

  /** The `(key, value)` pairs of a query string, in order. */
  function ParseQuery(q: string): seq<(string, string)> {
    if q == "" then []
    else
      var parts := Split(q, '&');
      seq(|parts|, i requires 0 <= i < |parts| => ParsePair(parts[i]))
  }

  /** The pairs the query string of `ps` should carry. */
  function Rendered(ps: seq<Param>): seq<(string, string)> {
    seq(|ps|, i requires 0 <= i < |ps| => (ps[i].key, Render(ps[i].value)))
  }

  /**
   * No key holds `&` or `=` and no rendered value holds `&`: the condition
   * under which an unencoded query string can be read back unambiguously.
   */
  predicate Unambiguous(ps: seq<Param>) {
    forall i :: 0 <= i < |ps| ==>
      '&' !in ps[i].key && '=' !in ps[i].key && '&' !in Render(ps[i].value)
  }

  lemma ParsePairString(p: Param)
    requires '=' !in p.key
    ensures ParsePair(PairString(p)) == (p.key, Render(p.value))
  {
    SplitAtFirstSep(p.key, Render(p.value), '=');
    assert PairString(p) == p.key + ['='] + Render(p.value);
    JoinSplit(Render(p.value), '=');
  }

  /** The query string loses nothing: reading it back gives each key and rendered value in order. */
  lemma QueryStringRoundTrip(ps: seq<Param>)
    requires Unambiguous(ps)
    ensures ParseQuery(QueryString(ps)) == Rendered(ps)
  {
    var parts := PairStrings(ps);
    if ps != [] {
      assert '&' !in parts[0] by {
        assert parts[0] == ps[0].key + "=" + Render(ps[0].value);
      }
      assert QueryString(ps) != "" by {
        assert parts[0] <= QueryString(ps);
        assert |parts[0]| > 0;
      }
      forall i | 0 <= i < |parts| ensures '&' !in parts[i] {
        assert parts[i] == ps[i].key + "=" + Render(ps[i].value);
      }
      SplitJoin(parts, '&');
      forall i | 0 <= i < |ps| ensures ParsePair(parts[i]) == Rendered(ps)[i] {
        ParsePairString(ps[i]);
      }
    }
  }
}

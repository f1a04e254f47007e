/** The query-string form of `URLSearchParams`: `append` adds a key/value
    pair at the end and `toString` writes `k=v` pairs joined by `&`.
    Percent-encoding is not modelled: every key and value the source
    appends is taken to consist of characters that encode as themselves. */
module Query {
  import opened Text

  type Param = (string, string)

  /** Characters that would need escaping inside a query component. */
  predicate Safe(s: string) {
    '&' !in s && '=' !in s
  }

  /** A number written in decimal never needs escaping. */
  lemma NumberSafe(i: int)
    ensures Safe(IntToString(i))
  {
    var d := NatToString(if i < 0 then -i else i);
    assert forall k :: 0 <= k < |d| ==> IsDigit(d[k]);
    assert '&' !in d && '=' !in d;
  }

  predicate AllSafe(params: seq<Param>) {
    forall i :: 0 <= i < |params| ==> Safe(params[i].0) && Safe(params[i].1)
  }

  function Pair(p: Param): string {
    p.0 + "=" + p.1
  }

  /** `params.toString()`: empty for no parameters. */
  function Encode(params: seq<Param>): (q: string)
    ensures q == "" <==> params == []
  {
    if params == [] then ""
    else
      var pairs := seq(|params|, i requires 0 <= i < |params| => Pair(params[i]));
      Join(pairs, '&')
  }

  /** A single parameter is written `k=v`. */
  lemma EncodeOne(p: Param)
    ensures Encode([p]) == p.0 + "=" + p.1
  {
    var pairs := seq(1, i requires 0 <= i < 1 => Pair([p][i]));
    assert pairs == [Pair(p)];
  }

  function DecodePair(part: string): Param {
    var kv := Split(part, '=');
    (kv[0], if |kv| > 1 then kv[1] else "")
  }

  /** Reads a query string back into its key/value pairs. */
  function Decode(q: string): seq<Param> {
    if q == "" then []
    else
      var parts := Split(q, '&');
      seq(|parts|, i requires 0 <= i < |parts| => DecodePair(parts[i]))
  }

  lemma DecodePairOfPair(p: Param)
    requires Safe(p.0) && Safe(p.1)
    ensures DecodePair(Pair(p)) == p
  {
    assert Pair(p) == Join([p.0, p.1], '=');
    SplitJoin([p.0, p.1], '=');
  }

  /** The query string records exactly the appended pairs, in order. */
  lemma DecodeEncode(params: seq<Param>)
    requires AllSafe(params)
    ensures Decode(Encode(params)) == params
  {
    if params != [] {
      var pairs := seq(|params|, i requires 0 <= i < |params| => Pair(params[i]));
      forall i | 0 <= i < |pairs| ensures '&' !in pairs[i] {
        assert pairs[i] == params[i].0 + "=" + params[i].1;
      }
      SplitJoin(pairs, '&');
      forall i | 0 <= i < |params| ensures DecodePair(pairs[i]) == params[i] {
        DecodePairOfPair(params[i]);
      }
    }
  }
}

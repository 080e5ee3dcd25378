/** The query string `HttpClient.get` appends to a path: entries whose value
    is `undefined` or `null` are dropped, the rest are serialised in order as
    `URLSearchParams` does. */
module Query {
  import opened Wrappers

  /** A parameter value: `undefined`, `null`, or anything else, given by its
      `String(value)` text. */
  datatype QueryValue = Undefined | NullValue | Given(text: string)

  /** `Object.entries(params)`, in the order JavaScript enumerates them. */
  type Params = seq<(string, QueryValue)>

  /** What one entry contributes to the `URLSearchParams`. */
  function Keep(entry: (string, QueryValue)): seq<(string, string)> {
    if entry.1.Given? then [(entry.0, entry.1.text)] else []
  }

  /** The pairs appended, in input order. */
  function Kept(params: Params): (kept: seq<(string, string)>)
    ensures |kept| <= |params|
    ensures (forall i :: 0 <= i < |params| ==> params[i].1.Given?) ==> |kept| == |params|
  {
    if params == [] then [] else Kept(params[..|params| - 1]) + Keep(params[|params| - 1])
  }

  /** Filtering distributes over concatenation: what is kept of a list is
      what is kept of each part, in order. */
  lemma {:induction false} KeptAppend(a: Params, b: Params)
    ensures Kept(a + b) == Kept(a) + Kept(b)
    decreases |b|
  {
    if b == [] {
      assert a + b == a;
    } else {
      var b' := b[..|b| - 1];
      assert (a + b)[..|a + b| - 1] == a + b';
      KeptAppend(a, b');
    }
  }

  /** Every kept pair comes from an entry with that key and a given value,
      and every such entry is kept: nothing is invented or lost. */
  lemma {:induction false} KeptExactly(params: Params)
    ensures forall i :: 0 <= i < |Kept(params)| ==> (Kept(params)[i].0, Given(Kept(params)[i].1)) in params
    ensures |Kept(params)| <= |params|
    ensures forall k, v :: (k, Given(v)) in params ==> (k, v) in Kept(params)
  {
    if params != [] {
      var init := params[..|params| - 1];
      var last := params[|params| - 1];
      KeptExactly(init);
      assert params == init + [last];
      forall k, v | (k, Given(v)) in params ensures (k, v) in Kept(params) {
        if (k, Given(v)) in init {
          assert (k, v) in Kept(init);
        } else {
          assert last == (k, Given(v));
        }
      }
    }
  }

  /** `searchParams.toString()`: `name=value` pairs joined by `&`, each part
      passed through the form encoder. */
  function Serialize(pairs: seq<(string, string)>, encode: string -> string): (s: string)
    ensures s == "" <==> pairs == []
  {
    if pairs == [] then ""
    else
      var first := encode(pairs[0].0) + "=" + encode(pairs[0].1);
      assert first[|encode(pairs[0].0)|] == '=';
      if |pairs| == 1 then first else first + "&" + Serialize(pairs[1..], encode)
  }

  /** The path `get` requests: unchanged without params or when nothing is
      kept, otherwise followed by `?` and the serialised pairs. */
  function QueryUrl(path: string, params: Option<Params>, encode: string -> string): (url: string)
    ensures |url| >= |path| && url[..|path|] == path
    ensures url == path <==> params.None? || Kept(params.value) == []
    ensures url != path ==> url[|path|] == '?'
  {
    if params.None? || Kept(params.value) == [] then path
    else path + "?" + Serialize(Kept(params.value), encode)
  }

  /** `{a: 1, b: undefined, c: null}` becomes the single pair `a=1`. */
  lemma OnlyGivenValuesSerialised(path: string, encode: string -> string)
    ensures QueryUrl(path, Some([("a", Given("1")), ("b", Undefined), ("c", NullValue)]), encode)
         == path + "?" + encode("a") + "=" + encode("1")
  {
    var params: Params := [("a", Given("1")), ("b", Undefined), ("c", NullValue)];
    assert params[..2][..1] == [("a", Given("1"))];
    assert params[..2] == [("a", Given("1")), ("b", Undefined)];
    assert [("a", Given("1"))][..0] == [];
    assert Kept(params) == [("a", "1")];
  }
}

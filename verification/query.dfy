/**
 * A URL made of an endpoint and `key=value` query parameters, as the
 * f-strings of `get_surf_forecast` build them, and the parser that reads
 * such a URL back.
 */
module Query {

  /** The first position of `c` in `s`, or `|s|` when there is none. */
  function IndexOf(s: string, c: char): (i: nat)
    ensures i <= |s|
    ensures i < |s| ==> s[i] == c
    ensures forall j :: 0 <= j < i ==> s[j] != c
  {
    if |s| == 0 || s[0] == c then 0 else 1 + IndexOf(s[1..], c)
  }

  datatype Param = Param(key: string, value: string)

  function RenderParam(p: Param): string
  {
    p.key + "=" + p.value
  }

  /** The parameters as `k1=v1&k2=v2&...`. */
  function RenderParams(ps: seq<Param>): string
  {
    if |ps| == 0 then ""
    else if |ps| == 1 then RenderParam(ps[0])
    else RenderParam(ps[0]) + "&" + RenderParams(ps[1..])
  }

  function BuildUrl(endpoint: string, ps: seq<Param>): string
  {
    endpoint + "?" + RenderParams(ps)
  }

  /** Splits one `key=value` at its first `=`. */
  function ParseParam(s: string): Param
  {
    var i := IndexOf(s, '=');
    if i < |s| then Param(s[..i], s[i + 1..]) else Param(s, "")
  }

  /** Splits a query at every `&`. */
  function ParseParams(q: string): seq<Param>
    decreases |q|
  {
    var i := IndexOf(q, '&');
    [ParseParam(q[..i])] + (if i < |q| then ParseParams(q[i + 1..]) else [])
  }

  /** The endpoint before the first `?` and the parameters after it. */
  function ParseUrl(url: string): (string, seq<Param>)
  {
    var i := IndexOf(url, '?');
    (url[..i], if i < |url| then ParseParams(url[i + 1..]) else [])
  }

  /** Parameters that can be read back: no `&` anywhere, no `=` in a key. */
  predicate Plain(ps: seq<Param>)
  {
    forall p :: p in ps ==> '&' !in p.key && '=' !in p.key && '&' !in p.value
  }

  lemma IndexOfSeparator(a: string, c: char, b: string)
    requires c !in a
    ensures IndexOf(a + [c] + b, c) == |a|
    ensures IndexOf(a, c) == |a|
  {
    var s := a + [c] + b;
    var i := IndexOf(s, c);
    assert s[|a|] == c;
  }

  lemma ParseRenderParam(p: Param)
    requires '=' !in p.key
    ensures ParseParam(RenderParam(p)) == p
  {
    IndexOfSeparator(p.key, '=', p.value);
    assert RenderParam(p) == p.key + ['='] + p.value;
  }

  lemma {:induction false} ParseRenderParams(ps: seq<Param>)
    requires |ps| > 0 && Plain(ps)
    ensures ParseParams(RenderParams(ps)) == ps
  {
    var first := RenderParam(ps[0]);
    ParseRenderParam(ps[0]);
    assert '&' !in first by {
      assert first == ps[0].key + "=" + ps[0].value;
    }
    if |ps| == 1 {
      IndexOfSeparator(first, '&', "");
      assert first[..|first|] == first;
    } else {
      var rest := RenderParams(ps[1..]);
      assert RenderParams(ps) == first + ['&'] + rest;
      IndexOfSeparator(first, '&', rest);
      assert (first + ['&'] + rest)[..|first|] == first;
      assert (first + ['&'] + rest)[|first| + 1..] == rest;
      ParseRenderParams(ps[1..]);
      assert ps == [ps[0]] + ps[1..];
    }
  }

  /** Reading back a built URL gives its endpoint and its parameters, in order. */
  lemma ParseBuildUrl(endpoint: string, ps: seq<Param>)
    requires '?' !in endpoint
    requires |ps| > 0 && Plain(ps)
    ensures ParseUrl(BuildUrl(endpoint, ps)) == (endpoint, ps)
  {
    var q := RenderParams(ps);
    assert BuildUrl(endpoint, ps) == endpoint + ['?'] + q;
    IndexOfSeparator(endpoint, '?', q);
    assert (endpoint + ['?'] + q)[..|endpoint|] == endpoint;
    assert (endpoint + ['?'] + q)[|endpoint| + 1..] == q;
    ParseRenderParams(ps);
  }
}

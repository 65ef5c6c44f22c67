/** Reading the query parameters back out of a URL: the text after the first
    '?', split on '&' into parameters, each split on its first '='. This is
    the reader a navigation app applies to a deep link, and it is what the
    deep-link properties are stated against. */
module QueryString {
  import opened Spots

  /** Text that can stand as a parameter name or value without being
      mistaken for a delimiter. */
  predicate Plain(s: string) {
    '&' !in s && '=' !in s && '?' !in s
  }

  /** First position of `c` in `s`, or -1. */
  function IndexOf(s: string, c: char): (i: int)
    ensures -1 <= i < |s|
    ensures i == -1 <==> c !in s
    ensures 0 <= i ==> s[i] == c && c !in s[..i]
  {
    if s == [] then -1
    else if s[0] == c then 0
    else
      var k := IndexOf(s[1..], c);
      assert k >= 0 ==> s[..k + 1] == [s[0]] + s[1..][..k];
      if k == -1 then -1 else k + 1
  }

  lemma IndexOfAfterPrefix(a: string, c: char, b: string)
    requires c !in a
    ensures IndexOf(a + [c] + b, c) == |a|
  {
    var s := a + [c] + b;
    assert s[|a|] == c;
    assert forall j :: 0 <= j < |a| ==> s[j] == a[j];
  }

  /** `s` split at every `sep`. */
  function Split(s: string, sep: char): (parts: seq<string>)
    ensures |parts| >= 1
    decreases |s|
  {
    var i := IndexOf(s, sep);
    if i == -1 then [s] else [s[..i]] + Split(s[i + 1..], sep)
  }

  lemma SplitAtFirst(a: string, sep: char, b: string)
    requires sep !in a
    ensures Split(a + [sep] + b, sep) == [a] + Split(b, sep)
  {
    var s := a + [sep] + b;
    IndexOfAfterPrefix(a, sep, b);
    assert s[..|a|] == a;
    assert s[|a| + 1..] == b;
  }

  /** The text after the first '?', or nothing when there is none. */
  function QueryOf(url: string): string {
    var i := IndexOf(url, '?');
    if i == -1 then "" else url[i + 1..]
  }

  /** One `name=value` parameter; a parameter without '=' has an empty value. */
  function Param(part: string): (string, string) {
    var j := IndexOf(part, '=');
    if j == -1 then (part, "") else (part[..j], part[j + 1..])
  }

  function Params(parts: seq<string>): (ps: seq<(string, string)>)
    ensures |ps| == |parts|
  {
    if parts == [] then [] else [Param(parts[0])] + Params(parts[1..])
  }

  /** The value of the first parameter called `key`. */
  function Lookup(ps: seq<(string, string)>, key: string): Option<string> {
    if ps == [] then None
    else if ps[0].0 == key then Some(ps[0].1)
    else Lookup(ps[1..], key)
  }

  /** The value a reader of `url` finds for the parameter `key`. */
  function QueryParam(url: string, key: string): Option<string> {
    Lookup(Params(Split(QueryOf(url), '&')), key)
  }

  /** `name=value&name=value...`, the shape of a query string. */
  function Render(ps: seq<(string, string)>): string
    requires |ps| >= 1
  {
    if |ps| == 1 then ps[0].0 + "=" + ps[0].1
    else ps[0].0 + "=" + ps[0].1 + "&" + Render(ps[1..])
  }

  predicate AllPlain(ps: seq<(string, string)>) {
    forall i :: 0 <= i < |ps| ==> Plain(ps[i].0) && Plain(ps[i].1)
  }

  lemma ParamOfPlain(k: string, v: string)
    requires Plain(k)
    ensures Param(k + "=" + v) == (k, v)
  {
    IndexOfAfterPrefix(k, '=', v);
    assert (k + "=" + v)[..|k|] == k;
    assert (k + "=" + v)[|k| + 1..] == v;
  }

  lemma ParamsCons(part: string, parts: seq<string>)
    ensures Params([part] + parts) == [Param(part)] + Params(parts)
  {
    assert ([part] + parts)[1..] == parts;
  }

  lemma PlainParamHasNoAmpersand(k: string, v: string)
    requires Plain(k) && Plain(v)
    ensures '&' !in k + "=" + v
  {
  }

  /** Reading a rendered query gives back the parameters it was made of. */
  lemma {:induction false} ParamsOfRender(ps: seq<(string, string)>)
    requires |ps| >= 1 && AllPlain(ps)
    ensures Params(Split(Render(ps), '&')) == ps
    decreases |ps|
  {
    var head := ps[0].0 + "=" + ps[0].1;
    PlainParamHasNoAmpersand(ps[0].0, ps[0].1);
    ParamOfPlain(ps[0].0, ps[0].1);
    if |ps| == 1 {
      assert Split(head, '&') == [head];
      assert Params([head]) == [Param(head)];
    } else {
      var tail := Render(ps[1..]);
      assert AllPlain(ps[1..]) by {
        forall i | 0 <= i < |ps[1..]| ensures Plain(ps[1..][i].0) && Plain(ps[1..][i].1) {
          assert ps[1..][i] == ps[i + 1];
        }
      }
      ParamsOfRender(ps[1..]);
      SplitAtFirst(head, '&', tail);
      ParamsCons(head, Split(tail, '&'));
      calc {
        Params(Split(Render(ps), '&'));
        { assert Render(ps) == head + "&" + tail; }
        Params(Split(head + "&" + tail, '&'));
        Params([head] + Split(tail, '&'));
        [Param(head)] + Params(Split(tail, '&'));
        [ps[0]] + ps[1..];
      }
      assert [ps[0]] + ps[1..] == ps;
    }
  }

  lemma QueryOfAfterBase(base: string, query: string)
    requires '?' !in base
    ensures QueryOf(base + "?" + query) == query
  {
    IndexOfAfterPrefix(base, '?', query);
    assert (base + "?" + query)[|base| + 1..] == query;
  }

  lemma {:induction false} LookupFinds(ps: seq<(string, string)>, i: int)
    requires 0 <= i < |ps|
    requires forall j :: 0 <= j < i ==> ps[j].0 != ps[i].0
    ensures Lookup(ps, ps[i].0) == Some(ps[i].1)
  {
    if i > 0 {
      LookupFinds(ps[1..], i - 1);
    }
  }

  lemma {:induction false} LookupMisses(ps: seq<(string, string)>, key: string)
    requires forall j :: 0 <= j < |ps| ==> ps[j].0 != key
    ensures Lookup(ps, key) == None
  {
    if ps != [] {
      LookupMisses(ps[1..], key);
    }
  }

  /** In `base?query` with the query rendered from `ps`, a reader finds the
      value of the first parameter with a given name ... */
  lemma QueryParamFound(base: string, ps: seq<(string, string)>, i: int)
    requires '?' !in base && |ps| >= 1 && AllPlain(ps)
    requires 0 <= i < |ps| && forall j :: 0 <= j < i ==> ps[j].0 != ps[i].0
    ensures QueryParam(base + "?" + Render(ps), ps[i].0) == Some(ps[i].1)
  {
    QueryOfAfterBase(base, Render(ps));
    ParamsOfRender(ps);
    LookupFinds(ps, i);
  }

  /** ... and nothing for a name that is not there. */
  lemma QueryParamAbsent(base: string, ps: seq<(string, string)>, key: string)
    requires '?' !in base && |ps| >= 1 && AllPlain(ps)
    requires forall j :: 0 <= j < |ps| ==> ps[j].0 != key
    ensures QueryParam(base + "?" + Render(ps), key) == None
  {
    QueryOfAfterBase(base, Render(ps));
    ParamsOfRender(ps);
    LookupMisses(ps, key);
  }

  /** No two parameters share a name. */
  predicate DistinctNames(ps: seq<(string, string)>) {
    forall i, j :: 0 <= i < j < |ps| ==> ps[i].0 != ps[j].0
  }

  /** When names are distinct, a reader of `base?query` finds every
      parameter of the list the query was rendered from. */
  lemma ReadRenderedQuery(base: string, ps: seq<(string, string)>)
    requires '?' !in base && |ps| >= 1 && AllPlain(ps) && DistinctNames(ps)
    ensures forall i :: 0 <= i < |ps| ==> QueryParam(base + "?" + Render(ps), ps[i].0) == Some(ps[i].1)
  {
    forall i | 0 <= i < |ps| ensures QueryParam(base + "?" + Render(ps), ps[i].0) == Some(ps[i].1) {
      QueryParamFound(base, ps, i);
    }
  }

  lemma RenderTwo(k0: string, v0: string, k1: string, v1: string)
    ensures Render([(k0, v0), (k1, v1)]) == k0 + "=" + v0 + "&" + (k1 + "=" + v1)
  {
    var ps := [(k0, v0), (k1, v1)];
    assert ps[1..] == [(k1, v1)];
  }

  lemma RenderThree(k0: string, v0: string, k1: string, v1: string, k2: string, v2: string)
    ensures Render([(k0, v0), (k1, v1), (k2, v2)])
         == k0 + "=" + v0 + "&" + (k1 + "=" + v1 + "&" + (k2 + "=" + v2))
  {
    var ps := [(k0, v0), (k1, v1), (k2, v2)];
    assert ps[1..] == [(k1, v1), (k2, v2)];
    assert ps[2..] == [(k2, v2)];
    assert Render(ps[2..]) == k2 + "=" + v2;
  }

  lemma PlainFour(k0: string, v0: string, k1: string, v1: string,
                  k2: string, v2: string, k3: string, v3: string)
    requires Plain(k0) && Plain(v0) && Plain(k1) && Plain(v1)
    requires Plain(k2) && Plain(v2) && Plain(k3) && Plain(v3)
    requires k0 != k1 && k0 != k2 && k0 != k3 && k1 != k2 && k1 != k3 && k2 != k3
    ensures AllPlain([(k0, v0), (k1, v1), (k2, v2), (k3, v3)])
    ensures DistinctNames([(k0, v0), (k1, v1), (k2, v2), (k3, v3)])
  {
  }

  lemma RenderFour(k0: string, v0: string, k1: string, v1: string,
                   k2: string, v2: string, k3: string, v3: string)
    ensures Render([(k0, v0), (k1, v1), (k2, v2), (k3, v3)])
         == k0 + "=" + v0 + "&" + (k1 + "=" + v1 + "&" + (k2 + "=" + v2 + "&" + (k3 + "=" + v3)))
  {
    var ps := [(k0, v0), (k1, v1), (k2, v2), (k3, v3)];
    assert ps[1..] == [(k1, v1), (k2, v2), (k3, v3)];
    assert ps[2..] == [(k2, v2), (k3, v3)];
    assert ps[3..] == [(k3, v3)];
    assert Render(ps[3..]) == k3 + "=" + v3;
    assert Render(ps[2..]) == k2 + "=" + v2 + "&" + (k3 + "=" + v3);
  }

  /** A two-parameter query read back, parameter by parameter; any other
      name is absent. */
  lemma ReadTwoParams(base: string, k0: string, v0: string, k1: string, v1: string, other: string)
    requires '?' !in base
    requires Plain(k0) && Plain(v0) && Plain(k1) && Plain(v1)
    requires k0 != k1
    ensures var url := base + "?" + Render([(k0, v0), (k1, v1)]);
      && QueryParam(url, k0) == Some(v0) && QueryParam(url, k1) == Some(v1)
      && (other != k0 && other != k1 ==> QueryParam(url, other) == None)
  {
    var ps := [(k0, v0), (k1, v1)];
    assert AllPlain(ps) && DistinctNames(ps);
    ReadRenderedQuery(base, ps);
    assert ps[0].0 == k0 && ps[1].0 == k1;
    if other != k0 && other != k1 {
      QueryParamAbsent(base, ps, other);
    }
  }

  lemma ReadThreeParams(base: string, k0: string, v0: string, k1: string, v1: string,
                        k2: string, v2: string)
    requires '?' !in base
    requires Plain(k0) && Plain(v0) && Plain(k1) && Plain(v1) && Plain(k2) && Plain(v2)
    requires k0 != k1 && k0 != k2 && k1 != k2
    ensures var url := base + "?" + Render([(k0, v0), (k1, v1), (k2, v2)]);
      && QueryParam(url, k0) == Some(v0) && QueryParam(url, k1) == Some(v1)
      && QueryParam(url, k2) == Some(v2)
  {
    var ps := [(k0, v0), (k1, v1), (k2, v2)];
    assert AllPlain(ps) && DistinctNames(ps);
    ReadRenderedQuery(base, ps);
    assert ps[0].0 == k0 && ps[1].0 == k1 && ps[2].0 == k2;
  }

  lemma ReadFourParams(base: string, k0: string, v0: string, k1: string, v1: string,
                       k2: string, v2: string, k3: string, v3: string)
    requires '?' !in base
    requires Plain(k0) && Plain(v0) && Plain(k1) && Plain(v1)
    requires Plain(k2) && Plain(v2) && Plain(k3) && Plain(v3)
    requires k0 != k1 && k0 != k2 && k0 != k3 && k1 != k2 && k1 != k3 && k2 != k3
    ensures var url := base + "?" + Render([(k0, v0), (k1, v1), (k2, v2), (k3, v3)]);
      && QueryParam(url, k0) == Some(v0) && QueryParam(url, k1) == Some(v1)
      && QueryParam(url, k2) == Some(v2) && QueryParam(url, k3) == Some(v3)
  {
    var ps := [(k0, v0), (k1, v1), (k2, v2), (k3, v3)];
    PlainFour(k0, v0, k1, v1, k2, v2, k3, v3);
    ReadRenderedQuery(base, ps);
    assert ps[0].0 == k0 && ps[1].0 == k1 && ps[2].0 == k2 && ps[3].0 == k3;
  }
}

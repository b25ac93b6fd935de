/**
 * The endpoint records the backend developer extracts from generated
 * server code, and the filter that picks the endpoints worth probing.
 */
module Routes {

  /** A `serde_json::Value`. Numbers are kept as integers (see README). */
  datatype Json =
    | JNull
    | JBool(b: bool)
    | JNumber(n: int)
    | JString(s: string)
    | JArray(items: seq<Json>)
    | JObject(members: seq<(string, Json)>)

  /** `Route`: one endpoint of the generated web server. The flag and the method are strings, as the schema writes them. */
  datatype Route = Route(isRouteDynamic: string, httpMethod: string, requestBody: Json, response: Json, route: string)

  /**
   * The endpoints the sweep can call without inventing a path parameter
   * or a body: GET routes that are not dynamic. Both comparisons are
   * exact and case-sensitive.
   */
  predicate IsStaticGet(r: Route)
  {
    r.httpMethod == "get" && r.isRouteDynamic == "false"
  }

  /** The filter before the sweep: the static GET routes, in their original order. */
  function StaticGets(routes: seq<Route>): (checks: seq<Route>)
    ensures |checks| <= |routes|
    ensures forall r :: r in checks <==> r in routes && IsStaticGet(r)
    decreases |routes|
  {
    if |routes| == 0 then []
    else if IsStaticGet(routes[0]) then [routes[0]] + StaticGets(routes[1..])
    else StaticGets(routes[1..])
  }

  /** The filter is exact, counting duplicates: a static GET route is kept as often as it occurs, any other route never. */
  lemma {:induction false} StaticGetsCount(routes: seq<Route>, r: Route)
    ensures multiset(StaticGets(routes))[r] == if IsStaticGet(r) then multiset(routes)[r] else 0
    decreases |routes|
  {
    if |routes| > 0 {
      StaticGetsCount(routes[1..], r);
      assert routes == [routes[0]] + routes[1..];
      assert multiset(routes) == multiset([routes[0]]) + multiset(routes[1..]);
    }
  }

  /** Filtering a concatenation filters each part in place: the relative order of the kept routes is the original one. */
  lemma {:induction false} StaticGetsAppend(xs: seq<Route>, ys: seq<Route>)
    ensures StaticGets(xs + ys) == StaticGets(xs) + StaticGets(ys)
    decreases |xs|
  {
    if |xs| == 0 {
      assert xs + ys == ys;
    } else {
      var zs := xs + ys;
      assert zs[0] == xs[0] && zs[1..] == xs[1..] + ys;
      StaticGetsAppend(xs[1..], ys);
      if IsStaticGet(xs[0]) {
        calc {
          StaticGets(zs);
          [xs[0]] + StaticGets(xs[1..] + ys);
          [xs[0]] + (StaticGets(xs[1..]) + StaticGets(ys));
          ([xs[0]] + StaticGets(xs[1..])) + StaticGets(ys);
        }
      }
    }
  }

  /** Routes that all pass the filter come through unchanged; in particular filtering twice is filtering once. */
  lemma {:induction false} StaticGetsKeepsAll(routes: seq<Route>)
    requires forall i :: 0 <= i < |routes| ==> IsStaticGet(routes[i])
    ensures StaticGets(routes) == routes
    decreases |routes|
  {
    if |routes| > 0 {
      StaticGetsKeepsAll(routes[1..]);
    }
  }

  /** Filtering is idempotent. */
  lemma StaticGetsIdempotent(routes: seq<Route>)
    ensures StaticGets(StaticGets(routes)) == StaticGets(routes)
  {
    var checks := StaticGets(routes);
    forall i | 0 <= i < |checks|
      ensures IsStaticGet(checks[i])
    {
      assert checks[i] in checks;
    }
    StaticGetsKeepsAll(checks);
  }
}

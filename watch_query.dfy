/** `useWatchQuery` (composables/useWatchQuery.js): the route query filtered by
    `ignore` and `watchOnly`, and the change check that guards `onChange`.
    Queries are maps; the debounce timing and Vue's reactivity are not
    modelled: the watcher sees the successive route queries. */
module WatchQuery {

  /** The filtered query `getQuery` computes. */
  function Filtered<V>(query: map<string, V>, watchOnly: seq<string>, ignore: seq<string>): (r: map<string, V>)
    ensures forall k :: k in r ==> k in query && r[k] == query[k]
    ensures forall k :: k in ignore ==> k !in r
    ensures |watchOnly| > 0 ==> forall k :: k in r ==> k in watchOnly
    ensures forall k :: k in query && k !in ignore && (|watchOnly| == 0 || k in watchOnly) ==> k in r
  {
    var kept := query - (set k | k in ignore);
    if |watchOnly| > 0 then map k | k in kept && k in watchOnly :: kept[k] else kept
  }

  /** With no configuration the filter is the identity. */
  lemma FilterUnconfigured<V>(query: map<string, V>)
    ensures Filtered(query, [], []) == query
  {
  }

  /** `getQuery`: copy the route query, delete each ignored key in turn,
      then keep only the `watchOnly` keys when that list is non-empty. */
  method GetQuery<V>(routeQuery: map<string, V>, watchOnly: seq<string>, ignore: seq<string>)
    returns (query: map<string, V>)
    ensures query == Filtered(routeQuery, watchOnly, ignore)
  {
    query := routeQuery;
    if |ignore| > 0 {
      for i := 0 to |ignore|
        invariant query == routeQuery - (set j | 0 <= j < i :: ignore[j])
      {
        query := query - {ignore[i]};
      }
      assert (set j | 0 <= j < |ignore| :: ignore[j]) == (set k | k in ignore);
    }
    if |watchOnly| > 0 {
      query := map k | k in query && k in watchOnly :: query[k];
    }
  }

  /** The callback invocations for a sequence of route queries: `onChange`
      fires with (new, old) for a consecutive pair only when the filtered
      values differ. */
  function Notifications<V(==)>(route: seq<map<string, V>>, watchOnly: seq<string>, ignore: seq<string>)
    : (calls: seq<(map<string, V>, map<string, V>)>)
    ensures forall i :: 0 <= i < |calls| ==> calls[i].0 != calls[i].1
    ensures |calls| <= if |route| == 0 then 0 else |route| - 1
    decreases |route|
  {
    if |route| < 2 then []
    else
      var older := Filtered(route[0], watchOnly, ignore);
      var newer := Filtered(route[1], watchOnly, ignore);
      (if newer != older then [(newer, older)] else []) + Notifications(route[1..], watchOnly, ignore)
  }

  /** The (new, old) pair of filtered queries for the route change from
      `route[i]` to `route[i + 1]`. */
  function Step<V>(route: seq<map<string, V>>, i: int, watchOnly: seq<string>, ignore: seq<string>)
    : (map<string, V>, map<string, V>)
    requires 0 <= i < |route| - 1
  {
    (Filtered(route[i + 1], watchOnly, ignore), Filtered(route[i], watchOnly, ignore))
  }

  /** A single route change reaches `onChange` exactly when the filtered
      query changes, and then with the new and the old filtered query. */
  lemma ChangeReachesOnChange<V>(a: map<string, V>, b: map<string, V>, watchOnly: seq<string>, ignore: seq<string>)
    ensures Filtered(a, watchOnly, ignore) != Filtered(b, watchOnly, ignore) ==>
      Notifications([a, b], watchOnly, ignore) == [(Filtered(b, watchOnly, ignore), Filtered(a, watchOnly, ignore))]
    ensures Filtered(a, watchOnly, ignore) == Filtered(b, watchOnly, ignore) ==>
      Notifications([a, b], watchOnly, ignore) == []
  {
    assert [a, b][1..] == [b];
  }

  /** Over a whole sequence of route queries, `onChange` receives exactly the
      route changes whose filtered query differs: every call is such a change,
      and every such change is a call. */
  lemma {:induction false} NotificationsAreTheChanges<V>(route: seq<map<string, V>>, watchOnly: seq<string>, ignore: seq<string>)
    ensures forall c :: c in Notifications(route, watchOnly, ignore) ==>
      exists i :: 0 <= i < |route| - 1 && c == Step(route, i, watchOnly, ignore) && c.0 != c.1
    ensures forall i :: 0 <= i < |route| - 1 && Step(route, i, watchOnly, ignore).0 != Step(route, i, watchOnly, ignore).1 ==>
      Step(route, i, watchOnly, ignore) in Notifications(route, watchOnly, ignore)
    decreases |route|
  {
    if |route| >= 2 {
      var rest := route[1..];
      NotificationsAreTheChanges(rest, watchOnly, ignore);
      var first := Step(route, 0, watchOnly, ignore);
      var head := if first.0 != first.1 then [first] else [];
      assert Notifications(route, watchOnly, ignore) == head + Notifications(rest, watchOnly, ignore);
      forall j | 0 <= j < |rest| - 1
        ensures Step(rest, j, watchOnly, ignore) == Step(route, j + 1, watchOnly, ignore)
      {
        assert rest[j] == route[j + 1] && rest[j + 1] == route[j + 2];
      }
      forall c | c in Notifications(route, watchOnly, ignore)
        ensures exists i :: 0 <= i < |route| - 1 && c == Step(route, i, watchOnly, ignore) && c.0 != c.1
      {
        if c in head {
          assert c == Step(route, 0, watchOnly, ignore);
        } else {
          var j :| 0 <= j < |rest| - 1 && c == Step(rest, j, watchOnly, ignore) && c.0 != c.1;
          assert c == Step(route, j + 1, watchOnly, ignore);
        }
      }
      forall i | 0 <= i < |route| - 1 && Step(route, i, watchOnly, ignore).0 != Step(route, i, watchOnly, ignore).1
        ensures Step(route, i, watchOnly, ignore) in Notifications(route, watchOnly, ignore)
      {
        if i > 0 {
          assert Step(rest, i - 1, watchOnly, ignore) == Step(route, i, watchOnly, ignore);
        }
      }
    }
  }

  /** Two route queries that agree on every key the filter keeps. */
  ghost predicate AgreeOnWatched<V>(a: map<string, V>, b: map<string, V>, watchOnly: seq<string>, ignore: seq<string>) {
    forall k :: k !in ignore && (|watchOnly| == 0 || k in watchOnly) ==>
      (k in a <==> k in b) && (k in a ==> a[k] == b[k])
  }

  /** Route changes confined to ignored keys, or to keys outside `watchOnly`,
      never reach `onChange`. */
  lemma {:induction false} UnwatchedChangesAreSilent<V>(route: seq<map<string, V>>, watchOnly: seq<string>, ignore: seq<string>)
    requires forall i :: 0 <= i < |route| - 1 ==> AgreeOnWatched(route[i], route[i + 1], watchOnly, ignore)
    ensures Notifications(route, watchOnly, ignore) == []
    decreases |route|
  {
    if |route| >= 2 {
      var older := Filtered(route[0], watchOnly, ignore);
      var newer := Filtered(route[1], watchOnly, ignore);
      assert AgreeOnWatched(route[0], route[1], watchOnly, ignore);
      assert newer == older;
      forall i | 0 <= i < |route[1..]| - 1
        ensures AgreeOnWatched(route[1..][i], route[1..][i + 1], watchOnly, ignore)
      {
        assert route[1..][i] == route[i + 1] && route[1..][i + 1] == route[i + 2];
      }
      UnwatchedChangesAreSilent(route[1..], watchOnly, ignore);
    }
  }
}

/**
 * The invalidate-by-flag cache shared by the word-meet counts and the page
 * collections: a map and a validity flag. A read serves the map while the
 * flag is set; otherwise it fetches the whole map, keeps it and sets the flag
 * on success, and empties the map and leaves the flag clear on failure.
 * Invalidation clears the flag only.
 */
module CacheSpec {
  import opened Wrappers

  /**
   * What the list endpoint yielded: the fetch or the JSON parse threw, or the
   * body parsed and its `data` field is an object (Some) or absent or falsy (None).
   */
  datatype Fetched = Failed | Received(data: Option<map<string, int>>)

  datatype Cache = Cache(valid: bool, entries: map<string, int>)

  /** The state at start-up: invalid and empty. */
  const Initial: Cache := Cache(false, map[])

  /** The cache after one read that was answered with `resp` if it went to the network. */
  function Read(c: Cache, resp: Fetched): (r: Cache)
    ensures c.valid ==> r == c
    ensures r.valid <==> c.valid || resp.Received?
    ensures !r.valid ==> r.entries == map[]
    ensures !c.valid && resp.Received? ==> r.entries == resp.data.GetOr(map[])
  {
    if c.valid then c
    else match resp
      case Failed => Cache(false, map[])
      case Received(data) => Cache(true, data.GetOr(map[]))
  }

  /** The cache after an invalidation: same map, flag cleared. */
  function Invalidated(c: Cache): (r: Cache)
    ensures !r.valid && r.entries == c.entries
  {
    c.(valid := false)
  }

  /** A second read with no invalidation in between serves what the first left, whatever the network would say. */
  lemma SecondReadIsServedFromCache(c: Cache, first: Fetched, second: Fetched)
    requires Read(c, first).valid
    ensures Read(Read(c, first), second) == Read(c, first)
  {
  }

  /** After an invalidation the next read depends on the network answer alone, not on what was cached. */
  lemma InvalidationForcesRefetch(c: Cache, other: Cache, resp: Fetched)
    ensures Read(Invalidated(c), resp) == Read(Invalidated(other), resp)
  {
  }

  /** One event touching a cache: a read answered by `resp` when it fetches, or an invalidation. */
  datatype Event = Get(resp: Fetched) | Invalidate

  function Step(c: Cache, e: Event): Cache {
    match e
    case Get(resp) => Read(c, resp)
    case Invalidate => Invalidated(c)
  }

  /** The cache after a run of events. */
  function Run(c: Cache, events: seq<Event>): Cache
    decreases |events|
  {
    if events == [] then c else Run(Step(c, events[0]), events[1..])
  }

  /** The network answers a run actually consumed, in order: one per read of an invalid cache. */
  function Fetches(c: Cache, events: seq<Event>): (fs: seq<Fetched>)
    ensures |fs| <= |events|
    decreases |events|
  {
    if events == [] then []
    else
      (if events[0].Get? && !c.valid then [events[0].resp] else [])
      + Fetches(Step(c, events[0]), events[1..])
  }

  /**
   * A valid cache holds exactly the data of the last fetch of the run, which
   * succeeded; if the run fetched nothing, the cache was valid before it and
   * its map is unchanged.
   */
  lemma {:induction false} ValidMeansLastFetch(c: Cache, events: seq<Event>)
    requires Run(c, events).valid
    ensures var fs := Fetches(c, events);
      if fs == [] then c.valid && Run(c, events).entries == c.entries
      else fs[|fs| - 1].Received? && Run(c, events).entries == fs[|fs| - 1].data.GetOr(map[])
    decreases |events|
  {
    if events != [] {
      var c' := Step(c, events[0]);
      ValidMeansLastFetch(c', events[1..]);
      var rest := Fetches(c', events[1..]);
      var head := if events[0].Get? && !c.valid then [events[0].resp] else [];
      assert Fetches(c, events) == head + rest;
      if rest == [] && head != [] {
        assert Fetches(c, events) == [events[0].resp];
      }
    }
  }

  /** From start-up, a valid cache always holds the data of a successful fetch. */
  lemma ValidFromStartHoldsFetchedData(events: seq<Event>)
    requires Run(Initial, events).valid
    ensures var fs := Fetches(Initial, events);
      fs != [] && fs[|fs| - 1].Received? && Run(Initial, events).entries == fs[|fs| - 1].data.GetOr(map[])
  {
    ValidMeansLastFetch(Initial, events);
  }

  predicate ReadsOnly(events: seq<Event>) {
    forall i :: 0 <= i < |events| ==> events[i].Get?
  }

  /** Every answer but the last one is a failure. */
  predicate FailedBeforeLast(fs: seq<Fetched>) {
    forall i :: 0 <= i < |fs| - 1 ==> fs[i].Failed?
  }

  /**
   * Without invalidations, reads fetch only until one fetch succeeds: every
   * fetch but the last failed, and a cache that starts valid fetches nothing.
   */
  lemma {:induction false} ReadsFetchUntilSuccess(c: Cache, events: seq<Event>)
    requires ReadsOnly(events)
    ensures c.valid ==> Fetches(c, events) == []
    ensures FailedBeforeLast(Fetches(c, events))
    decreases |events|
  {
    if events != [] {
      var c' := Step(c, events[0]);
      assert ReadsOnly(events[1..]) by {
        forall i | 0 <= i < |events[1..]| ensures events[1..][i].Get? {
          assert events[1..][i] == events[i + 1];
        }
      }
      ReadsFetchUntilSuccess(c', events[1..]);
      if c.valid {
        assert c' == c;
      } else if events[0].resp.Received? {
        assert Fetches(c', events[1..]) == [];
        assert Fetches(c, events) == [events[0].resp];
      } else {
        var rest := Fetches(c', events[1..]);
        var fs := Fetches(c, events);
        assert fs == [Failed] + rest;
        forall i | 0 <= i < |fs| - 1 ensures fs[i].Failed? {
          if i == 0 {
            assert fs[0] == Failed;
          } else {
            assert fs[i] == rest[i - 1];
            assert FailedBeforeLast(rest);
          }
        }
      }
    }
  }

  /** A failed fetch never leaves the cache marked valid: it is invalid and empty. */
  lemma FailedFetchLeavesCacheEmpty(c: Cache)
    requires !c.valid
    ensures Read(c, Failed) == Initial
  {
  }
}

/**
  A map of at most `bound` entries whose oldest keys leave first: the tool-turn cache of
  backend/api/anthropic-provider.cpp and the thought-signature cache of
  backend/api/gemini-provider.cpp.
 */
module BoundedCache {

  datatype Cache<V> = Cache(entries: map<string, V>, order: seq<string>)

  datatype Stored<V> = Stored(key: string, value: V)

  function Evict<V>(bound: nat, c: Cache<V>): Cache<V>
    decreases |c.order|
  {
    if |c.order| > bound then Evict(bound, Cache(c.entries - {c.order[0]}, c.order[1..])) else c
  }

  /** An entry goes in under its key. A key already there keeps its place. */
  function Put<V>(bound: nat, c: Cache<V>, s: Stored<V>): Cache<V> {
    Evict(bound, Cache(c.entries[s.key := s.value], if s.key in c.entries then c.order else c.order + [s.key]))
  }

  predicate Distinct(s: seq<string>) {
    forall i, j | 0 <= i < j < |s| :: s[i] != s[j]
  }

  /** The order list holds each key of the map once and is never longer than the bound. */
  ghost predicate Ok<V>(bound: nat, c: Cache<V>) {
    && |c.order| <= bound
    && Distinct(c.order)
    && (forall k :: k in c.order <==> k in c.entries)
  }

  /** What is left of a list once the oldest entries are dropped down to the bound. */
  function Latest(bound: nat, s: seq<string>): seq<string> {
    if |s| > bound then s[|s| - bound..] else s
  }

  /** The key an entry adds to the order list, if any. */
  function Added<V>(c: Cache<V>, s: Stored<V>): seq<string> {
    if s.key in c.entries then [] else [s.key]
  }

  lemma EvictOldest<V>(bound: nat, c: Cache<V>)
    requires |c.order| == bound + 1 && Distinct(c.order)
    requires forall k :: k in c.order <==> k in c.entries
    ensures Evict(bound, c) == Cache(c.entries - {c.order[0]}, c.order[1..])
    ensures Distinct(c.order[1..])
    ensures forall k :: k in c.order[1..] <==> k in c.entries - {c.order[0]}
  {
    var d := Cache(c.entries - {c.order[0]}, c.order[1..]);
    assert Evict(bound, d) == d;
    assert c.order == [c.order[0]] + c.order[1..];
    assert forall i | 0 < i < |c.order| :: c.order[i] != c.order[0];
    assert c.order[0] !in c.order[1..];
  }

  lemma PutFresh<V>(bound: nat, c: Cache<V>, s: Stored<V>)
    requires Ok(bound, c) && s.key !in c.entries
    ensures var d := Put(bound, c, s);
            && Ok(bound, d)
            && d.order == Latest(bound, c.order + [s.key])
            && (forall k | k in d.entries ::
                  k in c.entries[s.key := s.value] && d.entries[k] == c.entries[s.key := s.value][k])
  {
    var grown := Cache(c.entries[s.key := s.value], c.order + [s.key]);
    assert s.key !in c.order;
    assert Distinct(grown.order);
    hide Distinct;
    assert forall k :: k in grown.order <==> k in grown.entries;
    if |grown.order| > bound {
      EvictOldest(bound, grown);
    }
  }

  /** What one entry does: it serves its key, the other entries are the old ones, and the
      order list grows at the end and is cut at the front. */
  lemma PutStep<V>(bound: nat, c: Cache<V>, s: Stored<V>)
    requires Ok(bound, c)
    ensures var d := Put(bound, c, s);
            && Ok(bound, d)
            && d.order == Latest(bound, c.order + Added(c, s))
            && (forall k | k in d.entries ::
                  if k == s.key then d.entries[k] == s.value else k in c.entries && d.entries[k] == c.entries[k])
  {
    if s.key in c.entries {
      hide Distinct;
      assert c.order + [] == c.order;
    } else {
      hide Put, Distinct;
      PutFresh(bound, c, s);
    }
  }

  function PutAll<V>(bound: nat, c: Cache<V>, run: seq<Stored<V>>): Cache<V> {
    if run == [] then c else Put(bound, PutAll(bound, c, run[..|run| - 1]), run[|run| - 1])
  }

  lemma {:induction false} PutAllAppend<V>(bound: nat, c: Cache<V>, a: seq<Stored<V>>, b: seq<Stored<V>>)
    ensures PutAll(bound, PutAll(bound, c, a), b) == PutAll(bound, c, a + b)
  {
    hide Put;
    if b == [] {
      assert a + b == a;
    } else {
      PutAllAppend(bound, c, a, b[..|b| - 1]);
      assert (a + b)[..|a + b| - 1] == a + b[..|b| - 1];
    }
  }

  /** The keys that a run of entries adds to the order list, oldest first. */
  function Fresh<V>(bound: nat, c: Cache<V>, run: seq<Stored<V>>): seq<string> {
    if run == [] then [] else
    var init := run[..|run| - 1];
    Fresh(bound, c, init) + Added(PutAll(bound, c, init), run[|run| - 1])
  }

  /** The last entry of a run under a key, or the one from before the run. */
  ghost function LastUnder<V>(c: Cache<V>, run: seq<Stored<V>>, k: string): V
    requires k in c.entries || exists i | 0 <= i < |run| :: run[i].key == k
  {
    if run == [] then c.entries[k]
    else if run[|run| - 1].key == k then run[|run| - 1].value
    else
      var init := run[..|run| - 1];
      assert k in c.entries || exists i | 0 <= i < |init| :: init[i].key == k by {
        if k !in c.entries {
          var i :| 0 <= i < |run| && run[i].key == k;
          assert init[i] == run[i];
        }
      }
      LastUnder(c, init, k)
  }

  lemma LatestOfLatest(bound: nat, a: seq<string>, b: seq<string>)
    ensures Latest(bound, Latest(bound, a) + b) == Latest(bound, a + b)
  {}

  lemma OkBounded<V>(bound: nat, c: Cache<V>)
    requires Ok(bound, c)
    ensures Latest(bound, c.order + []) == c.order
  {
    assert c.order + [] == c.order;
  }

  lemma OkSame<V>(bound: nat, c: Cache<V>)
    requires Ok(bound, c)
    ensures forall k :: k in c.order <==> k in c.entries
  {}

  /** Eviction is first in, first out over any run: the order list is the latest of the old
      list followed by the keys the run added, and a cached key serves the last entry stored
      under it. */
  lemma {:induction false} FirstInFirstOut<V>(bound: nat, c: Cache<V>, run: seq<Stored<V>>)
    requires Ok(bound, c)
    ensures var d := PutAll(bound, c, run);
            && Ok(bound, d)
            && d.order == Latest(bound, c.order + Fresh(bound, c, run))
            && (forall k | k in d.entries ::
                  && (k in c.entries || exists i | 0 <= i < |run| :: run[i].key == k)
                  && d.entries[k] == LastUnder(c, run, k))
  {
    hide Put, Ok, Added, Latest;
    if run == [] {
      OkBounded(bound, c);
    } else {
      var init, last := run[..|run| - 1], run[|run| - 1];
      FirstInFirstOut(bound, c, init);
      var before := PutAll(bound, c, init);
      PutStep(bound, before, last);
      LatestOfLatest(bound, c.order + Fresh(bound, c, init), Added(before, last));
      assert (c.order + Fresh(bound, c, init)) + Added(before, last) == c.order + Fresh(bound, c, run);
      forall k | k in PutAll(bound, c, run).entries
        ensures k in c.entries || exists i | 0 <= i < |run| :: run[i].key == k
        ensures PutAll(bound, c, run).entries[k] == LastUnder(c, run, k)
      {
        if k == last.key {
          assert run[|run| - 1].key == k;
        } else if k !in c.entries {
          var i :| 0 <= i < |init| && init[i].key == k;
          assert run[i] == init[i];
        }
      }
    }
  }

  /** An entry stays while the keys added behind it do not push it out: at place `p` of the
      list it survives a run that adds at most as many keys as are free plus `p`. */
  lemma StaysCached<V>(bound: nat, c: Cache<V>, run: seq<Stored<V>>, p: nat)
    requires Ok(bound, c) && p < |c.order|
    ensures |c.order| + |Fresh(bound, c, run)| <= bound + p ==> c.order[p] in PutAll(bound, c, run).entries
  {
    hide PutAll, Fresh, Ok;
    FirstInFirstOut(bound, c, run);
    var d := PutAll(bound, c, run);
    var all := c.order + Fresh(bound, c, run);
    OkBounded(bound, c);
    OkSame(bound, d);
    if |all| <= bound + p {
      var q := if |all| > bound then p - (|all| - bound) else p;
      assert d.order[q] == all[p] == c.order[p];
      assert d.order[q] in d.order;
    }
  }

  lemma {:induction false} FreshAreKeys<V>(bound: nat, c: Cache<V>, run: seq<Stored<V>>, k: string)
    requires forall i | 0 <= i < |run| :: run[i].key != k
    ensures k !in Fresh(bound, c, run)
  {
    if run != [] {
      hide PutAll;
      FreshAreKeys(bound, c, run[..|run| - 1], k);
    }
  }

  lemma PushedOut(bound: nat, order: seq<string>, more: seq<string>, p: nat)
    requires p < |order| && Distinct(order) && order[p] !in more && |order| + |more| > bound + p
    ensures order[p] !in Latest(bound, order + more)
  {
    var all := order + more;
    var cut := |all| - bound;
    forall q | cut <= q < |all| ensures all[q] != order[p] {
      if q >= |order| {
        assert all[q] == more[q - |order|];
      }
    }
  }

  lemma OkDistinct<V>(bound: nat, c: Cache<V>)
    requires Ok(bound, c)
    ensures Distinct(c.order)
  {}

  /** And if the run does not store under its key again, it survives only then. */
  lemma StaysCachedIff<V>(bound: nat, c: Cache<V>, run: seq<Stored<V>>, p: nat)
    requires Ok(bound, c) && p < |c.order|
    requires forall i | 0 <= i < |run| :: run[i].key != c.order[p]
    ensures c.order[p] in PutAll(bound, c, run).entries <==> |c.order| + |Fresh(bound, c, run)| <= bound + p
  {
    hide *;
    OkDistinct(bound, c);
    StaysCached(bound, c, run, p);
    FirstInFirstOut(bound, c, run);
    FreshAreKeys(bound, c, run, c.order[p]);
    OkSame(bound, PutAll(bound, c, run));
    if |c.order| + |Fresh(bound, c, run)| > bound + p {
      PushedOut(bound, c.order, Fresh(bound, c, run), p);
    }
  }

  /** While an entry is cached and no later one took its key, it is served as it was stored. */
  lemma {:induction false} ServedUnchanged<V>(bound: nat, c: Cache<V>, s: Stored<V>, later: seq<Stored<V>>)
    requires Ok(bound, c)
    requires forall i | 0 <= i < |later| :: later[i].key != s.key
    ensures var d := PutAll(bound, Put(bound, c, s), later);
            s.key in d.entries ==> d.entries[s.key] == s.value
  {
    hide Put, PutAll, Ok;
    PutStep(bound, c, s);
    var before := Put(bound, c, s);
    FirstInFirstOut(bound, before, later);
    if s.key in PutAll(bound, before, later).entries {
      LastUnderUntouched(before, later, s.key);
    }
  }

  lemma {:induction false} LastUnderUntouched<V>(c: Cache<V>, run: seq<Stored<V>>, k: string)
    requires k in c.entries || exists i | 0 <= i < |run| :: run[i].key == k
    requires forall i | 0 <= i < |run| :: run[i].key != k
    ensures k in c.entries && LastUnder(c, run, k) == c.entries[k]
  {
    if run != [] {
      LastUnderUntouched(c, run[..|run| - 1], k);
    }
  }

  /** One insertion, outright: the entry is there; a key that was there keeps its place, and a
      new one goes to the end, for which the oldest entry leaves when there is no room. */
  lemma PutIs<V>(bound: nat, c: Cache<V>, s: Stored<V>)
    requires Ok(bound, c) && bound > 0
    ensures var d := Put(bound, c, s);
            if s.key in c.entries then d == Cache(c.entries[s.key := s.value], c.order)
            else if |c.order| < bound then d == Cache(c.entries[s.key := s.value], c.order + [s.key])
            else d == Cache((c.entries - {c.order[0]})[s.key := s.value], c.order[1..] + [s.key])
  {
    if s.key !in c.entries && |c.order| == bound {
      var more := Cache(c.entries[s.key := s.value], c.order + [s.key]);
      assert more.order[0] == c.order[0] && more.order[1..] == c.order[1..] + [s.key];
      assert Evict(bound, Cache(more.entries - {more.order[0]}, more.order[1..])).order == more.order[1..];
      assert c.order[0] in c.order && s.key !in c.order;
      assert more.entries - {c.order[0]} == (c.entries - {c.order[0]})[s.key := s.value];
    }
  }
}

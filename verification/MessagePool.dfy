// A pool of messages under way: anything new may be put in, and messages are taken out
// one at a time. Teleporter is such a pool, and the networks of bridges run on one.
module MessagePool {
  import opened Words

  // What is under way, and which keys no message has had yet.
  datatype Pool<!K, +V> = Pool(underWay: imap<K, V>, unused: iset<K>)

  ghost predicate Valid<K(!new), V>(p: Pool<K, V>) {
    forall k :: k in p.underWay ==> k !in p.unused
  }

  // One step: `took` leaves the pool, all else stays as it is, and what is new has an
  // unused key, which is then used.
  ghost predicate Steps<K(!new), V(!new)>(p: Pool<K, V>, q: Pool<K, V>, took: Option<K>) {
    && q.unused <= p.unused
    && (took.Some? ==> took.value in p.underWay && took.value !in q.underWay)
    && (forall k :: k in p.underWay && took != Some(k) ==> k in q.underWay && q.underWay[k] == p.underWay[k])
    && (forall k :: k in q.underWay && k !in p.underWay ==> k in p.unused && k !in q.unused)
  }

  // The pools of a run, and what each step took.
  ghost predicate IsRun<K(!new), V(!new)>(pools: seq<Pool<K, V>>, taken: seq<Option<K>>) {
    && |pools| == |taken| + 1 && Valid(pools[0])
    && forall i :: 0 <= i < |taken| ==> Steps(pools[i], pools[i + 1], taken[i])
  }

  lemma {:induction false} UsedStaysGone<K(!new), V(!new)>(pools: seq<Pool<K, V>>, taken: seq<Option<K>>,
                                                           i: nat, j: nat, k: K)
    requires IsRun(pools, taken) && i <= j < |pools|
    requires k !in pools[i].underWay && k !in pools[i].unused
    ensures k !in pools[j].underWay && k !in pools[j].unused
    decreases j - i
  {
    if i < j {
      assert Steps(pools[i], pools[i + 1], taken[i]);
      UsedStaysGone(pools, taken, i + 1, j, k);
    }
  }

  lemma {:induction false} RunIsValid<K(!new), V(!new)>(pools: seq<Pool<K, V>>, taken: seq<Option<K>>, i: nat)
    requires IsRun(pools, taken) && i < |pools|
    ensures Valid(pools[i])
  {
    if i > 0 {
      RunIsValid(pools, taken, i - 1);
      assert Steps(pools[i - 1], pools[i], taken[i - 1]);
    }
  }

  // No message is ever taken twice.
  lemma TakenOnce<K(!new), V(!new)>(pools: seq<Pool<K, V>>, taken: seq<Option<K>>, i: nat, j: nat)
    requires IsRun(pools, taken) && i < j < |taken| && taken[i].Some?
    ensures taken[j] != taken[i]
  {
    var k := taken[i].value;
    RunIsValid(pools, taken, i);
    assert Steps(pools[i], pools[i + 1], taken[i]) && Steps(pools[j], pools[j + 1], taken[j]);
    UsedStaysGone(pools, taken, i + 1, j, k);
  }
}

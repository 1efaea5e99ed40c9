/** The statistics of all dprops together. */
module Sums {
  import opened Types
  import opened Pools

  function Plus(a: Stats, b: Stats): Stats {
    Stats(a.served + b.served, a.peak + b.peak, a.total + b.total)
  }

  lemma PlusSwap(a: Stats, b: Stats, c: Stats)
    ensures Plus(a, Plus(b, c)) == Plus(b, Plus(a, c))
  {
  }

  /** The sum of the reports of all pools. */
  ghost function SumOf(pools: map<Dprop, Pool>): Stats
    decreases |pools|
  {
    if exists d :: d in pools then
      var d :| d in pools;
      assert |pools - {d}| < |pools| by { Fewer(pools, d); }
      Plus(Report(pools[d]), SumOf(pools - {d}))
    else Stats(0, 0, 0)
  }

  lemma Fewer(pools: map<Dprop, Pool>, d: Dprop)
    requires d in pools
    ensures |pools - {d}| < |pools|
  {
    assert (pools - {d}).Keys == pools.Keys - {d};
    assert |(pools - {d}).Keys| == |pools - {d}| && |pools.Keys| == |pools|;
  }

  lemma {:induction false} SumSplit(pools: map<Dprop, Pool>, d: Dprop)
    requires d in pools
    ensures SumOf(pools) == Plus(Report(pools[d]), SumOf(pools - {d}))
    decreases |pools|
  {
    hide Report;
    var c :| c in pools && SumOf(pools) == Plus(Report(pools[c]), SumOf(pools - {c}));
    if c != d {
      Fewer(pools, c);
      Fewer(pools, d);
      SumSplit(pools - {c}, d);
      SumSplit(pools - {d}, c);
      var rest := pools - {c} - {d};
      assert rest == pools - {d} - {c};
      assert SumOf(pools - {c}) == Plus(Report(pools[d]), SumOf(rest));
      assert SumOf(pools - {d}) == Plus(Report(pools[c]), SumOf(rest));
      PlusSwap(Report(pools[c]), Report(pools[d]), SumOf(rest));
    }
  }

  lemma SumNone()
    ensures SumOf(map[]) == Stats(0, 0, 0)
  {
  }

  lemma SumAdd(pools: map<Dprop, Pool>, d: Dprop, p: Pool)
    requires d !in pools
    ensures SumOf(pools[d := p]) == Plus(SumOf(pools), Report(p))
  {
    SumSplit(pools[d := p], d);
    assert pools[d := p] - {d} == pools;
  }

  /** The pools when those of `todo` are still to be asked for their statistics. */
  function Restarted(m: map<Dprop, Pool>, todo: set<Dprop>): map<Dprop, Pool> {
    map d | d in m :: if d in todo then m[d] else Restart(m[d])
  }

  /** The pools that have been asked, as they were then. */
  function Reported(m: map<Dprop, Pool>, todo: set<Dprop>): map<Dprop, Pool> {
    map d | d in m && d !in todo :: m[d]
  }

  lemma NoneRestarted(m: map<Dprop, Pool>)
    ensures Restarted(m, m.Keys) == m && Reported(m, m.Keys) == map[]
  {
    hide Restart;
  }

  lemma AllRestarted(m: map<Dprop, Pool>)
    ensures Restarted(m, {}) == (map d | d in m :: Restart(m[d])) && Reported(m, {}) == m
  {
    hide Restart;
  }

  lemma OneRestarted(m: map<Dprop, Pool>, todo: set<Dprop>, d: Dprop)
    requires d in todo && d in m
    ensures Restarted(m, todo).Keys == m.Keys && Restarted(m, todo)[d] == m[d]
    ensures Restarted(m, todo)[d := Restart(m[d])] == Restarted(m, todo - {d})
    ensures SumOf(Reported(m, todo - {d})) == Plus(SumOf(Reported(m, todo)), Report(m[d]))
  {
    hide Restart, Report, SumOf;
    assert Reported(m, todo - {d}) == Reported(m, todo)[d := m[d]];
    SumAdd(Reported(m, todo), d, m[d]);
  }
}

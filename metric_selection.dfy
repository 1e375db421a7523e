/** The metric picker shared by the live and the historical chart
    (`handleMetricToggle` in src/LiveChart.js and src/HistoricalChart.js) and
    the colour each drawn series gets. */
module MetricSelection {
  import opened Common

  /** At most this many metrics are drawn at once. */
  const MaxSelected: nat := 5

  predicate Distinct(ids: seq<string>)
  {
    forall i, j :: 0 <= i < j < |ids| ==> ids[i] != ids[j]
  }

  /** `prev.filter(m => m !== id)`. */
  function Without(prev: seq<string>, id: string): (r: seq<string>)
    ensures id !in r
    ensures forall m :: m in r <==> m in prev && m != id
    ensures |r| <= |prev|
    ensures id !in prev ==> r == prev
  {
    if |prev| == 0 then []
    else
      var rest := Without(prev[..|prev| - 1], id);
      assert forall m :: m in prev <==> m in prev[..|prev| - 1] || m == prev[|prev| - 1];
      if prev[|prev| - 1] == id then rest else rest + [prev[|prev| - 1]]
  }

  /** A click on a metric's checkbox: a selected metric is removed, any other
      is appended unless five are already selected. */
  function Toggle(prev: seq<string>, id: string): (r: seq<string>)
    ensures id in r <==> id !in prev && |prev| < MaxSelected
    ensures forall m :: m != id ==> (m in r <==> m in prev)
    ensures |prev| <= MaxSelected ==> |r| <= MaxSelected
    ensures id !in prev && |prev| >= MaxSelected ==> r == prev
    ensures id !in prev && |prev| < MaxSelected ==> r == prev + [id]
    ensures id in prev ==> r == Without(prev, id)
  {
    if id in prev then Without(prev, id)
    else if |prev| >= MaxSelected then prev
    else prev + [id]
  }

  /** A single id is dropped exactly when it is the one filtered out. */
  lemma WithoutOne(m: string, id: string)
    ensures Without([m], id) == if m == id then [] else [m]
  {
    assert [m][..0] == [];
  }

  /** Filtering a list extended by one id filters the id alone. */
  lemma WithoutSnoc(prev: seq<string>, m: string, id: string)
    ensures Without(prev + [m], id) == Without(prev, id) + Without([m], id)
  {
    var s := prev + [m];
    assert s[..|s| - 1] == prev;
    assert s[|s| - 1] == m;
    WithoutOne(m, id);
  }

  /** `filter` keeps the order of the other ids: it works piecewise. */
  lemma {:induction false} WithoutKeepsOrder(a: seq<string>, b: seq<string>, id: string)
    ensures Without(a + b, id) == Without(a, id) + Without(b, id)
  {
    if |b| == 0 {
      assert a + b == a;
    } else {
      var init, last := b[..|b| - 1], b[|b| - 1];
      calc {
        Without(a + b, id);
        { SplitLast(a, b); }
        Without((a + init) + [last], id);
        { WithoutSnoc(a + init, last, id); }
        Without(a + init, id) + Without([last], id);
        { WithoutKeepsOrder(a, init, id); }
        Without(a, id) + Without(init, id) + Without([last], id);
        { WithoutSnoc(init, last, id); SplitLast(a, b); }
        Without(a, id) + Without(b, id);
      }
    }
  }

  lemma {:induction false} WithoutKeepsDistinct(prev: seq<string>, id: string)
    requires Distinct(prev)
    ensures Distinct(Without(prev, id))
  {
    if |prev| > 0 {
      var init := prev[..|prev| - 1];
      WithoutKeepsDistinct(init, id);
      var rest := Without(init, id);
      var last := prev[|prev| - 1];
      assert last !in init;
      if last != id {
        assert last !in rest;
        forall i, j | 0 <= i < j < |rest + [last]| ensures (rest + [last])[i] != (rest + [last])[j] {
          if j == |rest| {
            assert (rest + [last])[i] == rest[i];
          } else {
            assert (rest + [last])[i] == rest[i] && (rest + [last])[j] == rest[j];
          }
        }
      }
    }
  }

  /** The selection never holds the same metric twice. */
  lemma ToggleKeepsDistinct(prev: seq<string>, id: string)
    requires Distinct(prev)
    ensures Distinct(Toggle(prev, id))
  {
    if id in prev {
      WithoutKeepsDistinct(prev, id);
    }
  }

  /** Selecting a metric and then unselecting it restores the selection. */
  lemma {:induction false} ToggleTwiceRestores(prev: seq<string>, id: string)
    requires id !in prev && |prev| < MaxSelected
    ensures Toggle(Toggle(prev, id), id) == prev
  {
    var added := prev + [id];
    assert added[..|added| - 1] == prev;
    assert Without(added, id) == Without(prev, id);
  }

  // ---------------------------------------------------------------------------
  // Series colours
  // ---------------------------------------------------------------------------

  const Palette: seq<string> := ["#8884d8", "#82ca9d", "#ffc658", "#ff7300", "#0088fe", "#00C49F", "#FFBB28", "#FF8042"]

  /** `colors[index % colors.length]`: the stroke of the index-th selected series. */
  function SeriesColor(index: nat): (c: string)
    ensures c in Palette
  {
    Palette[index % |Palette|]
  }

  /** Two series fewer than eight places apart get different colours, so
      every series of a selection of at most five is drawn in its own colour. */
  lemma SeriesColorsDistinct(i: nat, j: nat)
    requires i < j < i + |Palette|
    ensures SeriesColor(i) != SeriesColor(j)
  {
    assert i % 8 != j % 8 by {
      assert i == 8 * (i / 8) + i % 8 && j == 8 * (j / 8) + j % 8;
    }
  }
}

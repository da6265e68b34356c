/** The customer dashboard (src/components/pages/Home.js): the cluster counts behind the
    pie chart, the slice filter applied to the table, and the state the chart and the
    table handlers update. */
module Dashboard {
  import opened Js

  /** One customer of the fetched list, as far as the dashboard reads it. */
  datatype Row = Row(customer: string, clusterName: string, totalRevenue: real)

  /** A half-open revenue range `[min, max)`; `max == None` is `Infinity`. */
  datatype Range = Range(min: real, max: Option<real>)

  /** `activeSlice`: the clicked cluster name (`undefined` when the entry had none) and its range. */
  datatype Slice = Slice(name: Option<string>, range: Range)

  /** One pie entry `{ name, value }`. */
  datatype ChartEntry = ChartEntry(name: string, value: nat)

  datatype Pagination = Pagination(current: int, pageSize: int)

  /** The `pagination` prop handed to the table. */
  datatype TableProps = TableProps(current: int, pageSize: int, total: nat, showSizeChanger: bool)

  const High := "high_revenue"
  const Mixed := "mixed_revenue"
  const Low := "low_revenue"

  /** The keys of `clusterMap` and `sliceToRange`, in insertion order. */
  const ClusterNames: seq<string> := [High, Mixed, Low]

  /** The lower-cased cluster label of a row. */
  function ClusterKey(row: Row): string {
    ToLower(row.clusterName)
  }

  // ---------------------------------------------------------------------------------------
  // Slice ranges and the filtered table rows

  /** `sliceToRange[name] ?? [0, Infinity]`: each of the three clusters maps to `[0, Infinity)`,
      and so does every other name through the fallback. */
  function RangeFor(name: Option<string>): (r: Range)
    ensures forall v :: InRange(v, r) <==> v >= 0.0
  {
    Range(0.0, None)
  }

  predicate InRange(v: real, range: Range) {
    range.min <= v && (range.max.None? || v < range.max.value)
  }

  /** The filter predicate: `c.cluster_name.toLowerCase() === activeSlice.name && c.total_revenue >= min
      && c.total_revenue < max`. A string never equals `undefined`. */
  predicate Matches(row: Row, slice: Slice)
    ensures Matches(row, slice) ==> slice.name.Some? && row.totalRevenue >= slice.range.min
    ensures Matches(row, slice) ==> forall i :: 0 <= i < |slice.name.value| ==> !IsUpper(slice.name.value[i])
  {
    slice.name == Some(ClusterKey(row)) && InRange(row.totalRevenue, slice.range)
  }

  /** `a` is `b` with some elements deleted, order kept. */
  predicate Subseq<T(==)>(a: seq<T>, b: seq<T>)
    decreases |b|
  {
    if a == [] then true
    else if b == [] then false
    else (a[|a| - 1] == b[|b| - 1] && Subseq(a[..|a| - 1], b[..|b| - 1])) || Subseq(a, b[..|b| - 1])
  }

  /** Appending one element to the longer sequence keeps `a` a subsequence, with or
      without the same element appended to `a`. */
  lemma SubseqExtend<T>(a: seq<T>, b: seq<T>, x: T, keep: bool)
    requires Subseq(a, b)
    ensures Subseq(a + (if keep then [x] else []), b + [x])
  {
    if keep {
      assert (a + [x])[..|a|] == a;
      assert (b + [x])[..|b|] == b;
    } else {
      assert a + [] == a;
      assert (b + [x])[..|b|] == b;
    }
  }

  /** `data.filter((c) => Matches(c, slice))` */
  function Filter(data: seq<Row>, slice: Slice): (r: seq<Row>)
    ensures Subseq(r, data)
    ensures forall i :: 0 <= i < |r| ==> Matches(r[i], slice)
    ensures forall x :: multiset(r)[x] == if Matches(x, slice) then multiset(data)[x] else 0
    decreases |data|
  {
    if data == [] then []
    else
      var front := data[..|data| - 1];
      var last := data[|data| - 1];
      assert data == front + [last];
      var r := Filter(front, slice) + (if Matches(last, slice) then [last] else []);
      SubseqExtend(Filter(front, slice), front, last, Matches(last, slice));
      assert multiset(data) == multiset(front) + multiset{last};
      r
  }

  /** `filteredRows`: all rows without an active slice, the matching ones with one. */
  function FilteredRows(data: seq<Row>, activeSlice: Option<Slice>): (r: seq<Row>)
    ensures activeSlice.None? ==> r == data
    ensures activeSlice.Some? ==> r == Filter(data, activeSlice.value)
  {
    match activeSlice
    case None => data
    case Some(slice) => Filter(data, slice)
  }

  /** A slice set by a pie click keeps exactly the rows of that cluster with non-negative
      revenue, since every slice range is `[0, Infinity)`. */
  lemma ClickedSliceRows(data: seq<Row>, name: string)
    ensures var r := FilteredRows(data, Some(Slice(Some(name), RangeFor(Some(name)))));
      Subseq(r, data) &&
      forall x :: multiset(r)[x] == if ClusterKey(x) == name && x.totalRevenue >= 0.0 then multiset(data)[x] else 0
  {
  }

  /** A slice whose name is `undefined` (a pie entry without a name) matches no row. */
  lemma UnnamedSliceEmpty(data: seq<Row>, range: Range)
    ensures FilteredRows(data, Some(Slice(None, range))) == []
  {
  }

  // ---------------------------------------------------------------------------------------
  // Pie chart data

  /** The number of rows whose lower-cased cluster is `name`. */
  function Count(data: seq<Row>, name: string): (n: nat)
    ensures n <= |data|
    decreases |data|
  {
    if data == [] then 0
    else Count(data[..|data| - 1], name) + (if ClusterKey(data[|data| - 1]) == name then 1 else 0)
  }

  /** The number of rows whose lower-cased cluster is none of the three. */
  function Others(data: seq<Row>): nat
    decreases |data|
  {
    if data == [] then 0
    else Others(data[..|data| - 1]) + (if ClusterKey(data[|data| - 1]) in ClusterNames then 0 else 1)
  }

  /** `chartData`: nothing for no rows, else the three clusters in order with their counts. */
  function Chart(data: seq<Row>): (e: seq<ChartEntry>)
    ensures |e| == if data == [] then 0 else 3
    ensures forall k :: 0 <= k < |e| ==> e[k].name == ClusterNames[k] && e[k].value == Count(data, ClusterNames[k])
    ensures forall k :: 0 <= k < |e| ==> e[k].value <= |data|
  {
    if data == [] then []
    else [ChartEntry(High, Count(data, High)), ChartEntry(Mixed, Count(data, Mixed)), ChartEntry(Low, Count(data, Low))]
  }

  /** `chartData.reduce((s, d) => s + d.value, 0)` */
  function TopTotal(entries: seq<ChartEntry>): (t: nat)
    ensures forall k :: 0 <= k < |entries| ==> entries[k].value <= t
    ensures (forall k :: 0 <= k < |entries| ==> entries[k].value == 0) ==> t == 0
    decreases |entries|
  {
    if entries == [] then 0 else entries[0].value + TopTotal(entries[1..])
  }

  /** Every row lands in exactly one of the three counts or among the others. */
  lemma {:induction false} ClusterPartition(data: seq<Row>)
    ensures Count(data, High) + Count(data, Mixed) + Count(data, Low) + Others(data) == |data|
    decreases |data|
  {
    if data != [] {
      ClusterPartition(data[..|data| - 1]);
    }
  }

  /** The pie total counts each row of a known cluster once and ignores the rest. */
  lemma ChartTotal(data: seq<Row>)
    ensures TopTotal(Chart(data)) + Others(data) == |data|
    ensures TopTotal(Chart(data)) <= |data|
  {
    ClusterPartition(data);
    if data != [] {
      var c := Chart(data);
      assert TopTotal(c) == c[0].value + TopTotal(c[1..]);
      assert TopTotal(c[1..]) == c[1].value + TopTotal(c[2..]);
      assert TopTotal(c[2..]) == c[2].value + TopTotal(c[3..]);
    }
  }

  /** With no negative revenues, clicking a cluster's slice leaves as many table rows as
      that slice counts. */
  lemma {:induction false} SliceCountIsRowCount(data: seq<Row>, name: string)
    requires forall i :: 0 <= i < |data| ==> data[i].totalRevenue >= 0.0
    ensures |FilteredRows(data, Some(Slice(Some(name), RangeFor(Some(name)))))| == Count(data, name)
    decreases |data|
  {
    if data != [] {
      SliceCountIsRowCount(data[..|data| - 1], name);
    }
  }

  lemma {:induction false} CountStep(data: seq<Row>, i: nat, name: string)
    requires i < |data|
    ensures Count(data[..i + 1], name) == Count(data[..i], name) + (if ClusterKey(data[i]) == name then 1 else 0)
  {
    assert data[..i + 1][..i] == data[..i];
  }

  /** The `chartData` memo: a `clusterMap` with the three keys counts the rows in one pass,
      ignoring labels that are not keys; the entries come out in the keys' order. */
  method ChartData(data: seq<Row>) returns (entries: seq<ChartEntry>)
    ensures entries == Chart(data)
    ensures |entries| == if data == [] then 0 else 3
    ensures forall k :: 0 <= k < |entries| ==> entries[k].name == ClusterNames[k] && entries[k].value == Count(data, ClusterNames[k])
  {
    if |data| == 0 {
      return [];
    }
    var clusterMap: map<string, nat> := map[High := 0, Mixed := 0, Low := 0];
    assert High[0] == 'h' && Mixed[0] == 'm' && Low[0] == 'l';
    for i := 0 to |data|
      invariant clusterMap.Keys == {High, Mixed, Low}
      invariant clusterMap[High] == Count(data[..i], High)
      invariant clusterMap[Mixed] == Count(data[..i], Mixed)
      invariant clusterMap[Low] == Count(data[..i], Low)
    {
      var cluster := ClusterKey(data[i]);
      CountStep(data, i, High);
      CountStep(data, i, Mixed);
      CountStep(data, i, Low);
      if cluster in clusterMap {
        clusterMap := clusterMap[cluster := clusterMap[cluster] + 1];
      }
    }
    assert data[..|data|] == data;
    entries := [ChartEntry(High, clusterMap[High]), ChartEntry(Mixed, clusterMap[Mixed]), ChartEntry(Low, clusterMap[Low])];
  }

  /** `chartData.filter((d) => !hiddenNames.has(d.name))` */
  function Visible(entries: seq<ChartEntry>, hidden: set<Option<string>>): (r: seq<ChartEntry>)
    ensures Subseq(r, entries)
    ensures forall i :: 0 <= i < |r| ==> Some(r[i].name) !in hidden
    ensures forall e :: e in entries && Some(e.name) !in hidden ==> e in r
    decreases |entries|
  {
    if entries == [] then []
    else
      var front := entries[..|entries| - 1];
      var last := entries[|entries| - 1];
      assert entries == front + [last];
      SubseqExtend(Visible(front, hidden), front, last, Some(last.name) !in hidden);
      Visible(front, hidden) + (if Some(last.name) in hidden then [] else [last])
  }

  // ---------------------------------------------------------------------------------------
  // Handler logic

  /** The `setActiveSlice` updater of a pie click: clicking the active slice's name clears it,
      any other click selects that name with its range. */
  function NextSlice(prev: Option<Slice>, name: Option<string>): (r: Option<Slice>)
    ensures r.None? <==> prev.Some? && prev.value.name == name
    ensures r.Some? ==> r.value.name == name && r.value.range == Range(0.0, None)
  {
    if prev.Some? && prev.value.name == name then None else Some(Slice(name, RangeFor(name)))
  }

  /** Clicking the same slice twice from an empty selection selects and then clears it. */
  lemma PieClickTwice(prev: Option<Slice>, name: Option<string>)
    ensures prev.None? ==> NextSlice(NextSlice(prev, name), name) == None
    ensures prev == Some(Slice(name, RangeFor(name))) ==> NextSlice(NextSlice(prev, name), name) == prev
  {
  }

  /** `setActiveCluster(name ?? "None")` */
  function ClusterLabel(name: Option<string>): (r: string)
    ensures name.Some? ==> r == name.value
    ensures name.None? ==> r == "None"
  {
    match name
    case None => "None"
    case Some(n) => n
  }

  /** The `setHiddenNames` updater of a legend click: flip the membership of `name`. */
  function Toggle(hidden: set<Option<string>>, name: Option<string>): (r: set<Option<string>>)
    ensures name in r <==> name !in hidden
    ensures forall x :: x != name ==> (x in r <==> x in hidden)
  {
    if name in hidden then hidden - {name} else hidden + {name}
  }

  /** Two legend clicks on the same name restore the hidden set. */
  lemma ToggleTwice(hidden: set<Option<string>>, name: Option<string>)
    ensures Toggle(Toggle(hidden, name), name) == hidden
  {
  }

  /** `activeIndex={hoverIndex >= 0 ? hoverIndex : selectedIndex}` */
  function ActiveIndex(hoverIndex: int, selectedIndex: int): (r: int)
    ensures r == hoverIndex || r == selectedIndex
    ensures r >= 0 <==> hoverIndex >= 0 || selectedIndex >= 0
    ensures hoverIndex >= 0 ==> r == hoverIndex
    ensures hoverIndex < 0 ==> r == selectedIndex
  {
    if hoverIndex >= 0 then hoverIndex else selectedIndex
  }

  /** The dashboard component's state; each method is one of its event handlers. */
  class Home {
    var data: seq<Row>
    var activeCluster: string
    var hoverIndex: int
    var selectedIndex: int
    var hiddenNames: set<Option<string>>
    var activeSlice: Option<Slice>
    var pagination: Pagination

    /** The initial state of the component. */
    constructor()
      ensures data == [] && activeCluster == "None" && hoverIndex == -1 && selectedIndex == -1
      ensures hiddenNames == {} && activeSlice == None && pagination == Pagination(1, 20)
    {
      data := [];
      activeCluster := "None";
      hoverIndex := -1;
      selectedIndex := -1;
      hiddenNames := {};
      activeSlice := None;
      pagination := Pagination(1, 20);
    }

    /** The rows the table shows. */
    function Rows(): seq<Row>
      reads this
    {
      FilteredRows(data, activeSlice)
    }

    /** The pie entries drawn. */
    function Slices(): seq<ChartEntry>
      reads this
    {
      Visible(Chart(data), hiddenNames)
    }

    /** The emphasised pie slice. */
    function Emphasised(): int
      reads this
    {
      ActiveIndex(hoverIndex, selectedIndex)
    }

    /** The table's `pagination` prop: the stored page with the row count as total. */
    function Table(): (t: TableProps)
      reads this
      ensures t.total == |Rows()|
      ensures t.current == pagination.current && t.pageSize == pagination.pageSize
    {
      TableProps(pagination.current, pagination.pageSize, |Rows()|, true)
    }

    /** `setData(json)` once the list has arrived. */
    method DataLoaded(rows: seq<Row>)
      modifies this
      ensures data == rows
      ensures activeCluster == old(activeCluster) && hoverIndex == old(hoverIndex) && selectedIndex == old(selectedIndex)
      ensures hiddenNames == old(hiddenNames) && activeSlice == old(activeSlice) && pagination == old(pagination)
    {
      data := rows;
    }

    /** `handlePieClickTop(entry, index)` with `name = entry?.name`. */
    method PieClick(name: Option<string>, index: int)
      modifies this
      ensures activeCluster == ClusterLabel(name)
      ensures selectedIndex == index
      ensures pagination == Pagination(1, old(pagination.pageSize))
      ensures activeSlice == NextSlice(old(activeSlice), name)
      ensures activeSlice.None? <==> old(activeSlice).Some? && old(activeSlice).value.name == name
      ensures data == old(data) && hoverIndex == old(hoverIndex) && hiddenNames == old(hiddenNames)
    {
      activeCluster := ClusterLabel(name);
      selectedIndex := index;
      pagination := pagination.(current := 1);
      activeSlice := NextSlice(activeSlice, name);
    }

    /** `handleLegendClickTop(e)` with `name = e?.value`: only the hidden set changes. */
    method LegendClick(name: Option<string>)
      modifies this
      ensures hiddenNames == Toggle(old(hiddenNames), name)
      ensures name in hiddenNames <==> name !in old(hiddenNames)
      ensures activeSlice == old(activeSlice) && selectedIndex == old(selectedIndex) && pagination == old(pagination)
      ensures data == old(data) && activeCluster == old(activeCluster) && hoverIndex == old(hoverIndex)
      ensures Rows() == old(Rows())
    {
      hiddenNames := Toggle(hiddenNames, name);
    }

    /** The Clear chip, shown while a cluster is active. */
    method ClearChip()
      modifies this
      ensures activeCluster == "None" && selectedIndex == -1 && activeSlice == None
      ensures Rows() == data
      ensures pagination == old(pagination) && data == old(data) && hoverIndex == old(hoverIndex)
      ensures hiddenNames == old(hiddenNames)
    {
      activeCluster := "None";
      selectedIndex := -1;
      activeSlice := None;
    }

    /** `handleTableChange(p)`: the page and page size change, the filter does not. */
    method TableChange(p: Pagination)
      modifies this
      ensures pagination == Pagination(p.current, p.pageSize)
      ensures activeSlice == old(activeSlice) && data == old(data) && Rows() == old(Rows())
      ensures activeCluster == old(activeCluster) && selectedIndex == old(selectedIndex)
      ensures hoverIndex == old(hoverIndex) && hiddenNames == old(hiddenNames)
      ensures Table().total == |Rows()|
    {
      pagination := Pagination(p.current, p.pageSize);
    }

    /** `onMouseEnter={(_, idx) => setHoverIndex(idx)}` */
    method MouseEnter(idx: int)
      modifies this
      ensures hoverIndex == idx
      ensures idx >= 0 ==> Emphasised() == idx
      ensures data == old(data) && activeCluster == old(activeCluster) && selectedIndex == old(selectedIndex)
      ensures hiddenNames == old(hiddenNames) && activeSlice == old(activeSlice) && pagination == old(pagination)
    {
      hoverIndex := idx;
    }

    /** `onMouseLeave={() => setHoverIndex(-1)}`: the emphasis falls back to the selection. */
    method MouseLeave()
      modifies this
      ensures hoverIndex == -1
      ensures Emphasised() == selectedIndex
      ensures data == old(data) && activeCluster == old(activeCluster) && selectedIndex == old(selectedIndex)
      ensures hiddenNames == old(hiddenNames) && activeSlice == old(activeSlice) && pagination == old(pagination)
    {
      hoverIndex := -1;
    }
  }
}

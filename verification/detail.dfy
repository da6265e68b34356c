/** The customer detail page (src/components/pages/customer.js): the revenue lists built
    from the fetched record, the KPI totals and badge, the churn tag colour, and the
    normalised observation and recommendation lists with their row defaults. */
module Detail {
  import opened Js

  /** A value of the fetched JSON record. Objects are key/value maps. */
  datatype Json = JNull | JBool(b: bool) | JNum(n: Num) | JStr(s: string) | JArr(items: seq<Json>) | JObj(fields: map<string, Json>)

  /** One `{ key, value }` point of a revenue chart, `value` already passed through `Number`. */
  datatype Entry = Entry(key: string, value: Num)

  // ---------------------------------------------------------------------------------------
  // Revenue lists

  /** The `revenueByQuarter` memo: no field gives nothing, otherwise the entries in the
      object's own order. */
  function RevenueByQuarter(field: Option<seq<Entry>>): (r: seq<Entry>)
    ensures field.None? ==> r == []
    ensures field.Some? ==> r == field.value
  {
    match field
    case None => []
    case Some(es) => es
  }

  /** `a.localeCompare(b) <= 0`, taken as the lexicographic order of Unicode code points. */
  predicate KeyLe(a: string, b: string)
    ensures a <= b ==> KeyLe(a, b)
    decreases |a|
  {
    a == [] || (b != [] && (a[0] < b[0] || (a[0] == b[0] && KeyLe(a[1..], b[1..]))))
  }

  lemma {:induction false} KeyLeTotal(a: string, b: string)
    ensures KeyLe(a, b) || KeyLe(b, a)
    decreases |a|
  {
    if a != [] && b != [] && a[0] == b[0] {
      KeyLeTotal(a[1..], b[1..]);
    }
  }

  lemma {:induction false} KeyLeTrans(a: string, b: string, c: string)
    requires KeyLe(a, b) && KeyLe(b, c)
    ensures KeyLe(a, c)
    decreases |a|
  {
    if a != [] && a[0] == b[0] && b[0] == c[0] {
      KeyLeTrans(a[1..], b[1..], c[1..]);
    }
  }

  /** Two keys that compare equal both ways are the same key. */
  lemma {:induction false} KeyLeAntisymmetric(a: string, b: string)
    requires KeyLe(a, b) && KeyLe(b, a)
    ensures a == b
    decreases |a|
  {
    if a != [] {
      KeyLeAntisymmetric(a[1..], b[1..]);
      assert a == [a[0]] + a[1..] && b == [b[0]] + b[1..];
    }
  }

  /** Each key is no greater than the next one. */
  predicate Sorted(es: seq<Entry>) {
    forall i :: 0 < i < |es| ==> KeyLe(es[i - 1].key, es[i].key)
  }

  /** Put `x` before the first entry whose key is not smaller than its own. */
  function Insert(x: Entry, es: seq<Entry>): (r: seq<Entry>)
    requires Sorted(es)
    ensures Sorted(r)
    ensures multiset(r) == multiset(es) + multiset{x}
    ensures |r| == |es| + 1
    ensures r[0] == x || (es != [] && r[0] == es[0])
    decreases |es|
  {
    if es == [] || KeyLe(x.key, es[0].key) then [x] + es
    else
      KeyLeTotal(x.key, es[0].key);
      var rest := Insert(x, es[1..]);
      assert es == [es[0]] + es[1..];
      [es[0]] + rest
  }

  /** The `.sort((a, b) => a.key.localeCompare(b.key))` step, as a stable insertion sort. */
  function SortByKey(es: seq<Entry>): (r: seq<Entry>)
    ensures Sorted(r)
    ensures multiset(r) == multiset(es)
    ensures |r| == |es|
    decreases |es|
  {
    if es == [] then []
    else
      assert es == [es[0]] + es[1..];
      Insert(es[0], SortByKey(es[1..]))
  }

  /** The `revenueByYear` memo: no field gives nothing, otherwise the entries sorted by key. */
  function RevenueByYear(field: Option<seq<Entry>>): (r: seq<Entry>)
    ensures field.None? ==> r == []
    ensures field.Some? ==> Sorted(r) && multiset(r) == multiset(field.value)
  {
    match field
    case None => []
    case Some(es) => SortByKey(es)
  }

  /** In a sorted list every key is no greater than every later key. */
  lemma {:induction false} SortedPairs(es: seq<Entry>, i: nat, j: nat)
    requires Sorted(es)
    requires i <= j < |es|
    ensures KeyLe(es[i].key, es[j].key)
    decreases j - i
  {
    if i == j {
      KeyLeTotal(es[i].key, es[i].key);
    } else {
      SortedPairs(es, i, j - 1);
      KeyLeTrans(es[i].key, es[j - 1].key, es[j].key);
    }
  }

  /** The last entry of the yearly list has the greatest key of the record's year map. */
  lemma LatestHasGreatestKey(es: seq<Entry>)
    requires es != []
    ensures var r := RevenueByYear(Some(es));
      forall e :: e in es ==> KeyLe(e.key, r[|r| - 1].key)
  {
    var r := RevenueByYear(Some(es));
    forall e | e in es
      ensures KeyLe(e.key, r[|r| - 1].key)
    {
      assert e in multiset(r);
      var i :| 0 <= i < |r| && r[i] == e;
      SortedPairs(r, i, |r| - 1);
    }
  }

  // ---------------------------------------------------------------------------------------
  // KPI totals

  /** `revenueByYear.map((d) => d.value)` */
  function Values(es: seq<Entry>): (vs: seq<Num>)
    ensures |vs| == |es|
    ensures forall i :: 0 <= i < |es| ==> vs[i] == es[i].value
    decreases |es|
  {
    if es == [] then [] else [es[0].value] + Values(es[1..])
  }

  /** `sum`: `arr.reduce((a, b) => a + Number(b || 0), 0)`; NaN and missing values add 0.
      Real addition is exact, so the order of the fold does not matter. */
  function Sum(vs: seq<Num>): real
    decreases |vs|
  {
    if vs == [] then 0.0 else vs[0].OrZero() + Sum(vs[1..])
  }

  /** Values that are 0, NaN or missing contribute nothing to the sum. */
  lemma {:induction false} SumOfFalsy(vs: seq<Num>)
    requires forall i :: 0 <= i < |vs| ==> !vs[i].Truthy()
    ensures Sum(vs) == 0.0
    decreases |vs|
  {
    if vs != [] {
      SumOfFalsy(vs[1..]);
    }
  }

  lemma {:induction false} SumInsert(x: Entry, es: seq<Entry>)
    requires Sorted(es)
    ensures Sum(Values(Insert(x, es))) == x.value.OrZero() + Sum(Values(es))
    decreases |es|
  {
    if es != [] && !KeyLe(x.key, es[0].key) {
      KeyLeTotal(x.key, es[0].key);
      SumInsert(x, es[1..]);
    }
  }

  /** Sorting the yearly entries does not change their sum. */
  lemma {:induction false} SumSorted(es: seq<Entry>)
    ensures Sum(Values(SortByKey(es))) == Sum(Values(es))
    decreases |es|
  {
    if es != [] {
      SumSorted(es[1..]);
      SumInsert(es[0], SortByKey(es[1..]));
    }
  }

  /** `prev ? (deltaAbs / prev) * 100 : 0` */
  function DeltaPct(deltaAbs: real, prev: real): (p: real)
    ensures prev != 0.0 ==> p * prev == deltaAbs * 100.0
    ensures prev == 0.0 ==> p == 0.0
  {
    if prev != 0.0 then deltaAbs / prev * 100.0 else 0.0
  }

  datatype Totals = Totals(total: real, latest: real, prev: real, deltaAbs: real, deltaPct: real)

  /** The `totals` memo over the yearly list. `yearlyValues[i] || 0` reads a missing
      index (`undefined`), 0 or NaN as 0. */
  function TotalsOf(years: seq<Entry>): (t: Totals)
    ensures t.total == Sum(Values(years))
    ensures t.latest == if |years| >= 1 then years[|years| - 1].value.OrZero() else 0.0
    ensures t.prev == if |years| >= 2 then years[|years| - 2].value.OrZero() else 0.0
    ensures t.deltaAbs + t.prev == t.latest
    ensures t.prev != 0.0 ==> t.deltaPct * t.prev == t.deltaAbs * 100.0
    ensures t.prev == 0.0 ==> t.deltaPct == 0.0
  {
    var vs := Values(years);
    var n := |vs|;
    var latest := if n >= 1 then vs[n - 1].OrZero() else 0.0;
    var prev := if n >= 2 then vs[n - 2].OrZero() else 0.0;
    assert n >= 1 ==> latest == years[n - 1].value.OrZero();
    assert n >= 2 ==> prev == years[n - 2].value.OrZero();
    var deltaAbs := latest - prev;
    Totals(Sum(vs), latest, prev, deltaAbs, DeltaPct(deltaAbs, prev))
  }

  /** The total revenue KPI is the sum of the record's year map, whatever its key order. */
  lemma TotalOfRecord(es: seq<Entry>)
    ensures TotalsOf(RevenueByYear(Some(es))).total == Sum(Values(es))
  {
    SumSorted(es);
  }

  /** The badge's percentage: `((latest - prev) / (prev || 1)) * 100`. */
  function BadgePct(latest: real, prev: real): (p: real)
    ensures prev != 0.0 ==> p * prev == (latest - prev) * 100.0
    ensures prev == 0.0 ==> p == latest * 100.0
  {
    (latest - prev) / (if prev != 0.0 then prev else 1.0) * 100.0
  }

  /** The `Delta` tag: arrow and colour from the sign, the magnitude shown without sign. */
  datatype Badge = Badge(up: bool, color: string, magnitude: real)

  function DeltaBadge(pct: real): (b: Badge)
    ensures b.up <==> pct >= 0.0
    ensures b.color == (if b.up then "green" else "red")
    ensures b.magnitude >= 0.0 && (b.magnitude == pct || b.magnitude == -pct)
  {
    var up := pct >= 0.0;
    Badge(up, if up then "green" else "red", if pct >= 0.0 then pct else -pct)
  }

  /** The badge agrees with `deltaPct` when there is a previous year; without one it
      shows `latest * 100` while `deltaPct` is 0. */
  lemma BadgeVersusDeltaPct(years: seq<Entry>)
    ensures var t := TotalsOf(years);
      (t.prev != 0.0 ==> BadgePct(t.latest, t.prev) == t.deltaPct) &&
      (t.prev == 0.0 ==> BadgePct(t.latest, t.prev) == t.latest * 100.0 && t.deltaPct == 0.0)
  {
  }

  /** With a positive previous year the arrow points up exactly when revenue did not fall;
      with none it points up unless the latest year is negative. */
  lemma BadgeDirection(latest: real, prev: real)
    ensures prev > 0.0 ==> (DeltaBadge(BadgePct(latest, prev)).up <==> latest >= prev)
    ensures prev < 0.0 ==> (DeltaBadge(BadgePct(latest, prev)).up <==> latest <= prev)
    ensures prev == 0.0 ==> (DeltaBadge(BadgePct(latest, prev)).up <==> latest >= 0.0)
  {
  }

  // ---------------------------------------------------------------------------------------
  // Text of JSON values, churn colour

  /** `items.join(",")` */
  function Join(texts: seq<string>): string
    decreases |texts|
  {
    if texts == [] then []
    else if |texts| == 1 then texts[0]
    else texts[0] + "," + Join(texts[1..])
  }

  /** `String(x)` of a JSON value; `numText` stands for the text of a number. An array
      joins its elements with commas, writing null as nothing. */
  function Text(j: Json, numText: Num -> string): (r: string)
    ensures j.JArr? && j.items == [] ==> r == ""
    ensures j.JArr? && |j.items| == 1 && !j.items[0].JNull? ==> r == Text(j.items[0], numText)
    decreases j
  {
    match j
    case JNull => "null"
    case JBool(b) => if b then "true" else "false"
    case JNum(n) => numText(n)
    case JStr(s) => s
    case JArr(items) => Join(seq(|items|, i requires 0 <= i < |items| => if items[i].JNull? then "" else Text(items[i], numText)))
    case JObj(_) => "[object Object]"
  }

  /** `String(x)` of a field that may be absent (`undefined`). */
  function FieldText(field: Option<Json>, numText: Num -> string): (r: string)
    ensures field.None? ==> r == "undefined"
    ensures field == Some(JNull) ==> r == "null"
    ensures field.Some? && field.value.JStr? ==> r == field.value.s
  {
    match field
    case None => "undefined"
    case Some(j) => Text(j, numText)
  }

  /** `churnColor`: red when the lower-cased churn text mentions "high", gold otherwise. */
  function ChurnColor(churn: Option<Json>, numText: Num -> string): (c: string)
    ensures c == "red" <==> Contains(ToLower(FieldText(churn, numText)), "high")
    ensures c == "red" || c == "gold"
  {
    if Contains(ToLower(FieldText(churn, numText)), "high") then "red" else "gold"
  }

  /** "high" is matched without regard to case. */
  lemma {:induction false} ChurnIgnoresCase(pre: string, word: string, post: string, numText: Num -> string)
    requires ToLower(word) == "high"
    ensures ChurnColor(Some(JStr(pre + word + post)), numText) == "red"
  {
    var s := pre + word + post;
    var low := ToLower(s);
    assert low == ToLower(pre) + "high" + ToLower(post) by {
      assert |low| == |ToLower(pre) + "high" + ToLower(post)|;
      forall i | 0 <= i < |low|
        ensures low[i] == (ToLower(pre) + "high" + ToLower(post))[i]
      {
        if i < |pre| {
          assert s[i] == pre[i];
        } else if i < |pre| + 4 {
          assert s[i] == word[i - |pre|];
        } else {
          assert s[i] == post[i - |pre| - 4];
        }
      }
    }
    ContainsMiddle(ToLower(pre), "high", ToLower(post));
  }

  lemma {:induction false} ContainsMiddle(a: string, t: string, b: string)
    ensures Contains(a + t + b, t)
    decreases |a|
  {
    if a == [] {
      assert a + t + b == t + b;
    } else {
      assert (a + t + b)[1..] == a[1..] + t + b;
      ContainsMiddle(a[1..], t, b);
    }
  }

  // ---------------------------------------------------------------------------------------
  // Observation and recommendation lists

  /** JavaScript truthiness of a field that may be absent. */
  predicate Truthy(field: Option<Json>)
    ensures Truthy(field) ==> field.Some? && !field.value.JNull?
    ensures field.Some? && (field.value.JArr? || field.value.JObj?) ==> Truthy(field)
  {
    match field
    case None => false
    case Some(JNull) => false
    case Some(JBool(b)) => b
    case Some(JNum(n)) => n.Truthy()
    case Some(JStr(s)) => s != []
    case Some(JArr(_)) => true
    case Some(JObj(_)) => true
  }

  /** `obsList` / `recList`: an array is used as it is, another truthy value becomes one
      `{ key: caption, value: String(x) }` row, and a falsy one an empty list. */
  function Normalise(field: Option<Json>, caption: string, numText: Num -> string): (r: seq<Json>)
    ensures field.Some? && field.value.JArr? ==> r == field.value.items
    ensures !Truthy(field) ==> r == []
    ensures Truthy(field) && !field.value.JArr? ==>
      r == [JObj(map["key" := JStr(caption), "value" := JStr(Text(field.value, numText))])]
  {
    if field.Some? && field.value.JArr? then field.value.items
    else if Truthy(field) then [JObj(map["key" := JStr(caption), "value" := JStr(Text(field.value, numText))])]
    else []
  }

  /** One rendered list row. */
  datatype KeyValue = KeyValue(key: Json, value: Json)

  /** What `AnimatedKeyValueList` shows. */
  datatype ListView = EmptyState | Rows(rows: seq<KeyValue>)

  /** `row?.[name]`, with `null` and a missing property both read as absent. */
  function Prop(row: Json, name: string): (r: Option<Json>)
    ensures r.Some? <==> row.JObj? && name in row.fields && !row.fields[name].JNull?
    ensures r.Some? ==> r.value == row.fields[name]
  {
    if row.JObj? && name in row.fields && !row.fields[name].JNull? then Some(row.fields[name]) else None
  }

  /** `row?.key ?? \`Item ${idx + 1}\`` and `row?.value ?? ""`. */
  function ViewRow(row: Json, idx: nat): (kv: KeyValue)
    ensures Prop(row, "key").Some? ==> kv.key == Prop(row, "key").value
    ensures Prop(row, "key").None? ==> kv.key == JStr("Item " + NatText(idx + 1))
    ensures Prop(row, "value").Some? ==> kv.value == Prop(row, "value").value
    ensures Prop(row, "value").None? ==> kv.value == JStr("")
  {
    KeyValue(
      match Prop(row, "key") case Some(k) => k case None => JStr("Item " + NatText(idx + 1)),
      match Prop(row, "value") case Some(v) => v case None => JStr(""))
  }

  /** `AnimatedKeyValueList`: the empty state for an empty list, else one row per element. */
  function KeyValueView(data: seq<Json>): (v: ListView)
    ensures v.EmptyState? <==> data == []
    ensures v.Rows? ==> |v.rows| == |data| && forall i :: 0 <= i < |data| ==> v.rows[i] == ViewRow(data[i], i)
  {
    if data == [] then EmptyState
    else Rows(seq(|data|, i requires 0 <= i < |data| => ViewRow(data[i], i)))
  }

  /** A single truthy non-array value shows as one row under the section's label. */
  lemma ScalarShowsOneRow(x: Json, caption: string, numText: Num -> string)
    requires Truthy(Some(x)) && !x.JArr?
    ensures KeyValueView(Normalise(Some(x), caption, numText)) == Rows([KeyValue(JStr(caption), JStr(Text(x, numText)))])
  {
  }

  /** An absent or falsy field, and an empty array, both show the empty state. */
  lemma EmptyShowsEmptyState(field: Option<Json>, caption: string, numText: Num -> string)
    requires !Truthy(field) || field == Some(JArr([]))
    ensures KeyValueView(Normalise(field, caption, numText)) == EmptyState
  {
  }

  /** A row without a usable key is labelled by its one-based position. */
  lemma UnkeyedRowLabel(data: seq<Json>, i: nat)
    requires i < |data| && Prop(data[i], "key").None?
    ensures KeyValueView(data).Rows?
    ensures var k := KeyValueView(data).rows[i].key;
      k.JStr? && k.s[..5] == "Item " && k.s[5..] == NatText(i + 1) && DigitsValue(k.s[5..]) == i + 1
  {
  }
}

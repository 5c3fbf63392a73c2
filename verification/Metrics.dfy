/**
 Commercial metrics: the overview totals, the timeline grouped by local date, and the loss
 breakdown by product, each as the query it is computed by.
 */
module Metrics {
  import opened Wrappers
  import opened Trimming
  import opened OpportunityLedger
  import Calendar
  import CustomerIdentity

  // ---- Grouped rows ----

  /** One row of a query before grouping. */
  datatype Item<K> = Item(key: K, kg: Quantity)

  function Kg<K>(items: seq<Item<K>>): Quantity {
    if items == [] then 0 else Kg(items[..|items| - 1]) + items[|items| - 1].kg
  }

  function KgAt<K(==)>(items: seq<Item<K>>, key: K): Quantity {
    if items == [] then 0
    else KgAt(items[..|items| - 1], key) + (if items[|items| - 1].key == key then items[|items| - 1].kg else 0)
  }

  function CountAt<K(==)>(items: seq<Item<K>>, key: K): nat {
    if items == [] then 0
    else CountAt(items[..|items| - 1], key) + (if items[|items| - 1].key == key then 1 else 0)
  }

  function SumKg<K(==)>(items: seq<Item<K>>, keys: seq<K>): Quantity {
    if keys == [] then 0 else SumKg(items, keys[..|keys| - 1]) + KgAt(items, keys[|keys| - 1])
  }

  function SumCounts<K(==)>(items: seq<Item<K>>, keys: seq<K>): nat {
    if keys == [] then 0 else SumCounts(items, keys[..|keys| - 1]) + CountAt(items, keys[|keys| - 1])
  }

  predicate Distinct<K(==)>(keys: seq<K>) {
    forall i, j | 0 <= i < j < |keys| :: keys[i] != keys[j]
  }

  lemma {:induction false} OneMoreItem<K>(items: seq<Item<K>>, keys: seq<K>)
    requires items != [] && Distinct(keys)
    ensures var before := items[..|items| - 1];
            var last := items[|items| - 1];
            && SumKg(items, keys) == SumKg(before, keys) + (if last.key in keys then last.kg else 0)
            && SumCounts(items, keys) == SumCounts(before, keys) + (if last.key in keys then 1 else 0)
  {
    if keys != [] {
      OneMoreItem(items, keys[..|keys| - 1]);
      var last := items[|items| - 1];
      assert last.key in keys <==> last.key in keys[..|keys| - 1] || last.key == keys[|keys| - 1];
    }
  }

  /** Grouping loses nothing: over distinct keys that cover all rows, the groups add up to the rows. */
  lemma {:induction false} GroupsAddUp<K>(items: seq<Item<K>>, keys: seq<K>)
    requires Distinct(keys) && forall i | 0 <= i < |items| :: items[i].key in keys
    ensures SumKg(items, keys) == Kg(items) && SumCounts(items, keys) == |items|
  {
    if items == [] {
      NothingToSum<K>(keys);
    } else {
      OneMoreItem(items, keys);
      var before := items[..|items| - 1];
      assert forall i | 0 <= i < |before| :: before[i].key == items[i].key;
      GroupsAddUp(before, keys);
      assert items[|items| - 1].key in keys;
    }
  }

  lemma {:induction false} NothingToSum<K>(keys: seq<K>)
    ensures SumKg<K>([], keys) == 0 && SumCounts<K>([], keys) == 0
  {
    if keys != [] {
      NothingToSum(keys[..|keys| - 1]);
    }
  }

  // ---- Dimensions ----

  datatype Dimensions = Dimensions(source: Option<Source>, product: Option<ProductId>, province: Option<string>)

  /** A line of the quote table. */
  datatype Line = Line(opportunity: OpportunityId, product: ProductId, quantity: Quantity)

  predicate InProvince(value: Option<string>, wanted: string) {
    value.Some?
    && CustomerIdentity.Lower(CustomerIdentity.SpacesOff(value.value)) == CustomerIdentity.Lower(Strip(wanted))
  }

  predicate SourceAndProvince(l: Ledger, o: Opportunity, d: Dimensions) {
    && o.deletedAt.None?
    && (d.source.Some? ==> o.source == d.source.value)
    && (d.province.Some?
        ==> o.customer in l.customers && InProvince(l.customers[o.customer].province, d.province.value))
  }

  predicate HasLine(lines: seq<Line>, id: OpportunityId, product: ProductId) {
    exists n | 0 <= n < |lines| :: lines[n].opportunity == id && lines[n].product == product
  }

  predicate OpportunityPasses(l: Ledger, lines: seq<Line>, id: OpportunityId, d: Dimensions) {
    id < |l.opportunities| && SourceAndProvince(l, l.opportunities[id], d)
    && (d.product.Some? ==> HasLine(lines, id, d.product.value))
  }

  predicate ProductPasses(product: ProductId, d: Dimensions) {
    d.product.Some? ==> product == d.product.value
  }

  predicate LossPasses(l: Ledger, e: Loss, d: Dimensions) {
    && e.opportunity < |l.opportunities| && l.opportunities[e.opportunity].deletedAt.None?
    && (d.source.Some? ==> e.source == d.source.value)
    && (d.province.Some? ==> InProvince(e.province, d.province.value))
  }

  // ---- The ungrouped queries ----

  predicate CreatedIn(o: Opportunity, p: Calendar.Period) {
    Calendar.Within(o.createdAt, p)
  }

  predicate WonIn(o: Opportunity, p: Calendar.Period) {
    o.status.Ganada? && Calendar.Within(o.enteredAt, p)
  }

  /** Ids below `upTo` of the opportunities created in the period. */
  function CreatedIds(l: Ledger, lines: seq<Line>, d: Dimensions, p: Calendar.Period, upTo: nat)
    : (ids: seq<OpportunityId>)
    requires upTo <= |l.opportunities|
    ensures forall n | 0 <= n < |ids| ::
              ids[n] < upTo && OpportunityPasses(l, lines, ids[n], d) && CreatedIn(l.opportunities[ids[n]], p)
  {
    if upTo == 0 then []
    else
      var before := CreatedIds(l, lines, d, p, upTo - 1);
      if OpportunityPasses(l, lines, upTo - 1, d) && CreatedIn(l.opportunities[upTo - 1], p) then before + [upTo - 1]
      else before
  }

  function WonIds(l: Ledger, lines: seq<Line>, d: Dimensions, p: Calendar.Period, upTo: nat): (ids: seq<OpportunityId>)
    requires upTo <= |l.opportunities|
    ensures forall n | 0 <= n < |ids| ::
              ids[n] < upTo && OpportunityPasses(l, lines, ids[n], d) && WonIn(l.opportunities[ids[n]], p)
    ensures Distinct(ids)
    ensures forall id | 0 <= id < upTo && OpportunityPasses(l, lines, id, d) && WonIn(l.opportunities[id], p) ::
              id in ids
  {
    if upTo == 0 then []
    else
      var before := WonIds(l, lines, d, p, upTo - 1);
      if OpportunityPasses(l, lines, upTo - 1, d) && WonIn(l.opportunities[upTo - 1], p) then before + [upTo - 1]
      else before
  }

  /** The lines of one opportunity, limited to the product of interest, summed by the database. */
  function LineTotal(lines: seq<Line>, d: Dimensions, id: OpportunityId): Quantity {
    if lines == [] then 0
    else
      var last := lines[|lines| - 1];
      LineTotal(lines[..|lines| - 1], d, id)
      + (if last.opportunity == id && ProductPasses(last.product, d) then last.quantity else 0)
  }

  /** The overview's own query: every won line in the period, without looking at whole opportunities. */
  function WonLines(l: Ledger, lines: seq<Line>, d: Dimensions, p: Calendar.Period): (items: seq<Item<OpportunityId>>)
  {
    if lines == [] then []
    else
      var last := lines[|lines| - 1];
      var before := WonLines(l, lines[..|lines| - 1], d, p);
      if last.opportunity < |l.opportunities| && SourceAndProvince(l, l.opportunities[last.opportunity], d)
         && ProductPasses(last.product, d) && WonIn(l.opportunities[last.opportunity], p)
      then before + [Item(last.opportunity, last.quantity)] else before
  }

  /** Losses in the period; with a product, one row per snapshot of it. */
  function LossItems(l: Ledger, d: Dimensions, p: Calendar.Period, upTo: nat): (items: seq<Item<Time>>)
    requires upTo <= |l.losses|
    ensures forall n | 0 <= n < |items| :: Calendar.Within(items[n].key, p)
  {
    if upTo == 0 then []
    else
      var e := l.losses[upTo - 1];
      var before := LossItems(l, d, p, upTo - 1);
      if !LossPasses(l, e, d) || !Calendar.Within(e.at, p) then before
      else if d.product.None? then before + [Item(e.at, e.total)]
      else before + SnapshotItems(e.products, d.product.value, e.at)
  }

  function SnapshotItems(products: seq<Snapshot>, product: ProductId, at: Time): (items: seq<Item<Time>>)
    ensures forall n | 0 <= n < |items| :: items[n].key == at
  {
    if products == [] then []
    else
      var last := products[|products| - 1];
      var before := SnapshotItems(products[..|products| - 1], product, at);
      if last.product == product then before + [Item(at, last.quantity)] else before
  }

  // ---- Overview ----

  datatype Overview = Overview(created: nat, won: nat, lost: nat, kgWon: Quantity, kgLost: Quantity)

  function OverviewOf(l: Ledger, lines: seq<Line>, d: Dimensions, p: Calendar.Period): Overview {
    var all := |l.opportunities|;
    var losses := LossItems(l, d, p, |l.losses|);
    Overview(|CreatedIds(l, lines, d, p, all)|, |WonIds(l, lines, d, p, all)|, |losses|,
             Kg(WonLines(l, lines, d, p)), Kg(losses))
  }

  // ---- Timeline ----

  datatype TimelineBucket = TimelineBucket(bucket: Calendar.Date, created: nat, won: nat, lost: nat,
                                           kgWon: Quantity, kgLost: Quantity)

  function Bucket(t: Time, g: Calendar.Granularity): Calendar.Date {
    Calendar.BucketOf(Calendar.LocalDate(t), g)
  }

  function CreatedItems(l: Ledger, ids: seq<OpportunityId>, g: Calendar.Granularity): (items: seq<Item<Calendar.Date>>)
    requires forall n | 0 <= n < |ids| :: ids[n] < |l.opportunities|
    ensures |items| == |ids|
  {
    seq(|ids|, n requires 0 <= n < |ids| => Item(Bucket(l.opportunities[ids[n]].createdAt, g), 0))
  }

  function WonItems(l: Ledger, lines: seq<Line>, d: Dimensions, ids: seq<OpportunityId>, g: Calendar.Granularity)
    : (items: seq<Item<Calendar.Date>>)
    requires forall n | 0 <= n < |ids| :: ids[n] < |l.opportunities|
    ensures |items| == |ids|
  {
    seq(|ids|, n requires 0 <= n < |ids| =>
      Item(Bucket(l.opportunities[ids[n]].enteredAt, g), LineTotal(lines, d, ids[n])))
  }

  function Dated(items: seq<Item<Time>>, g: Calendar.Granularity): (dated: seq<Item<Calendar.Date>>)
    ensures |dated| == |items|
  {
    seq(|items|, n requires 0 <= n < |items| => Item(Bucket(items[n].key, g), items[n].kg))
  }

  datatype Error = PeriodTooLarge(requested: int, maximum: int)

  /** The rows of the timeline's three queries, ready to be grouped by bucket. */
  datatype Columns = Columns(created: seq<Item<Calendar.Date>>, won: seq<Item<Calendar.Date>>,
                             lost: seq<Item<Calendar.Date>>)

  function ColumnsOf(l: Ledger, lines: seq<Line>, d: Dimensions, p: Calendar.Period, g: Calendar.Granularity): Columns {
    Columns(CreatedItems(l, CreatedIds(l, lines, d, p, |l.opportunities|), g),
            WonItems(l, lines, d, WonIds(l, lines, d, p, |l.opportunities|), g),
            Dated(LossItems(l, d, p, |l.losses|), g))
  }

  function BucketRow(c: Columns, b: Calendar.Date): TimelineBucket {
    TimelineBucket(b, CountAt(c.created, b), CountAt(c.won, b), CountAt(c.lost, b), KgAt(c.won, b), KgAt(c.lost, b))
  }

  /** As many rows as requested, in date order; each holds what falls in its bucket, and the columns add up. */
  predicate IsTimeline(l: Ledger, lines: seq<Line>, d: Dimensions, p: Calendar.Period, g: Calendar.Granularity,
                       rows: seq<TimelineBucket>)
  {
    && |rows| == Calendar.Requested(p, g) && Calendar.StrictlyIncreasing(Dates(rows))
    && Sums(rows) == OverviewOf(l, lines, d, p)
    && RowsOf(ColumnsOf(l, lines, d, p, g), rows)
  }

  /** Its columns add up to the overview, and each row holds exactly what falls in its bucket. */
  method Timeline(l: Ledger, lines: seq<Line>, d: Dimensions, p: Calendar.Period, g: Calendar.Granularity)
    returns (r: Result<seq<TimelineBucket>, Error>)
    ensures r.Failure? <==> !Calendar.Accepted(p, g)
    ensures r.Failure? ==> r.error == PeriodTooLarge(Calendar.Requested(p, g), Calendar.Maximum(g))
    ensures r.Success? ==> IsTimeline(l, lines, d, p, g, r.value)
  {
    if Calendar.Requested(p, g) > Calendar.Maximum(g) {
      return Failure(PeriodTooLarge(Calendar.Requested(p, g), Calendar.Maximum(g)));
    }
    var rows := TimelineRows(l, lines, d, p, g);
    r := Success(rows);
    assert r.value == rows;
  }

  method TimelineRows(l: Ledger, lines: seq<Line>, d: Dimensions, p: Calendar.Period, g: Calendar.Granularity)
    returns (rows: seq<TimelineBucket>)
    ensures IsTimeline(l, lines, d, p, g, rows)
  {
    var columns := ColumnsOf(l, lines, d, p, g);
    var buckets := Calendar.PeriodBuckets(p, g);
    rows := FillBuckets(columns, buckets);
    TimelineConserves(l, lines, d, p, g, rows);
  }

  predicate RowsOf(c: Columns, rows: seq<TimelineBucket>) {
    forall n | 0 <= n < |rows| :: rows[n] == BucketRow(c, rows[n].bucket)
  }

  method FillBuckets(c: Columns, buckets: seq<Calendar.Date>) returns (rows: seq<TimelineBucket>)
    ensures RowsOf(c, rows) && Dates(rows) == buckets
  {
    rows := [];
    for n := 0 to |buckets|
      invariant |rows| == n && RowsOf(c, rows)
      invariant forall m | 0 <= m < n :: rows[m].bucket == buckets[m]
    {
      rows := rows + [BucketRow(c, buckets[n])];
    }
  }

  function Dates(rows: seq<TimelineBucket>): seq<Calendar.Date> {
    seq(|rows|, n requires 0 <= n < |rows| => rows[n].bucket)
  }

  function Sums(rows: seq<TimelineBucket>): Overview {
    if rows == [] then Overview(0, 0, 0, 0, 0)
    else
      var before := Sums(rows[..|rows| - 1]);
      var row := rows[|rows| - 1];
      Overview(before.created + row.created, before.won + row.won, before.lost + row.lost,
               before.kgWon + row.kgWon, before.kgLost + row.kgLost)
  }

  // ---- The timeline loses nothing ----

  lemma {:induction false} SumsByColumn(c: Columns, rows: seq<TimelineBucket>)
    requires RowsOf(c, rows)
    ensures Sums(rows)
            == Overview(SumCounts(c.created, Dates(rows)), SumCounts(c.won, Dates(rows)),
                        SumCounts(c.lost, Dates(rows)), SumKg(c.won, Dates(rows)), SumKg(c.lost, Dates(rows)))
  {
    if rows != [] {
      var before := rows[..|rows| - 1];
      SumsByColumn(c, before);
      assert Dates(rows)[..|rows| - 1] == Dates(before);
    }
  }

  lemma {:induction false} DatedKg(items: seq<Item<Time>>, g: Calendar.Granularity)
    ensures Kg(Dated(items, g)) == Kg(items)
  {
    if items != [] {
      var before := items[..|items| - 1];
      DatedKg(before, g);
      assert Dated(items, g)[..|items| - 1] == Dated(before, g);
    }
  }

  /** What the lines of a passing opportunity add up to, seen from the overview's rows. */
  lemma {:induction false} WonLinesAt(l: Ledger, lines: seq<Line>, d: Dimensions, p: Calendar.Period, id: OpportunityId)
    requires id < |l.opportunities| && SourceAndProvince(l, l.opportunities[id], d) && WonIn(l.opportunities[id], p)
    ensures KgAt(WonLines(l, lines, d, p), id) == LineTotal(lines, d, id)
  {
    if lines != [] {
      var before := lines[..|lines| - 1];
      WonLinesAt(l, before, d, p, id);
      var items := WonLines(l, lines, d, p);
      if |items| > |WonLines(l, before, d, p)| {
        assert items[..|items| - 1] == WonLines(l, before, d, p);
      }
    }
  }

  predicate WonPasses(l: Ledger, lines: seq<Line>, d: Dimensions, p: Calendar.Period, id: OpportunityId) {
    OpportunityPasses(l, lines, id, d) && WonIn(l.opportunities[id], p)
  }

  /** Every won line belongs to an opportunity that the timeline's query passes. */
  lemma {:induction false} WonLinesPass(l: Ledger, lines: seq<Line>, all: seq<Line>, d: Dimensions,
                                        p: Calendar.Period, n: nat)
    requires lines <= all && n < |WonLines(l, lines, d, p)|
    ensures WonPasses(l, all, d, p, WonLines(l, lines, d, p)[n].key)
  {
    var before := lines[..|lines| - 1];
    if n < |WonLines(l, before, d, p)| {
      WonLinesPass(l, before, all, d, p, n);
    } else {
      assert all[|lines| - 1] == lines[|lines| - 1];
    }
  }

  lemma WonItemsBefore(l: Ledger, lines: seq<Line>, d: Dimensions, ids: seq<OpportunityId>, g: Calendar.Granularity)
    requires ids != [] && forall n | 0 <= n < |ids| :: ids[n] < |l.opportunities|
    ensures Kg(WonItems(l, lines, d, ids, g))
         == Kg(WonItems(l, lines, d, ids[..|ids| - 1], g)) + LineTotal(lines, d, ids[|ids| - 1])
  {
    assert WonItems(l, lines, d, ids, g)[..|ids| - 1] == WonItems(l, lines, d, ids[..|ids| - 1], g);
  }

  lemma {:induction false} WonItemsKg(l: Ledger, lines: seq<Line>, d: Dimensions, p: Calendar.Period,
                                      ids: seq<OpportunityId>, g: Calendar.Granularity)
    requires forall n | 0 <= n < |ids| :: ids[n] < |l.opportunities|
    requires forall n | 0 <= n < |ids| :: OpportunityPasses(l, lines, ids[n], d) && WonIn(l.opportunities[ids[n]], p)
    ensures Kg(WonItems(l, lines, d, ids, g)) == SumKg(WonLines(l, lines, d, p), ids)
  {
    if ids != [] {
      var before := ids[..|ids| - 1];
      WonItemsKg(l, lines, d, p, before, g);
      WonItemsBefore(l, lines, d, ids, g);
      WonLinesAt(l, lines, d, p, ids[|ids| - 1]);
    }
  }

  /** Summing lines directly and summing whole opportunities give the same weight. */
  lemma WonKgAgrees(l: Ledger, lines: seq<Line>, d: Dimensions, p: Calendar.Period, g: Calendar.Granularity)
    ensures Kg(WonItems(l, lines, d, WonIds(l, lines, d, p, |l.opportunities|), g)) == Kg(WonLines(l, lines, d, p))
  {
    var ids := WonIds(l, lines, d, p, |l.opportunities|);
    WonItemsKg(l, lines, d, p, ids, g);
    var items := WonLines(l, lines, d, p);
    forall n | 0 <= n < |items| ensures items[n].key in ids {
      WonLinesPass(l, lines, lines, d, p, n);
    }
    GroupsAddUp(items, ids);
  }

  ghost predicate Covers(dates: seq<Calendar.Date>, p: Calendar.Period, g: Calendar.Granularity) {
    forall t | Calendar.Within(t, p) :: Bucket(t, g) in dates
  }

  predicate KeysIn(items: seq<Item<Calendar.Date>>, dates: seq<Calendar.Date>) {
    forall n | 0 <= n < |items| :: items[n].key in dates
  }

  lemma CreatedCovered(l: Ledger, ids: seq<OpportunityId>, p: Calendar.Period, g: Calendar.Granularity,
                       dates: seq<Calendar.Date>)
    requires Covers(dates, p, g)
    requires forall n | 0 <= n < |ids| :: ids[n] < |l.opportunities|
    requires forall n | 0 <= n < |ids| :: CreatedIn(l.opportunities[ids[n]], p)
    ensures KeysIn(CreatedItems(l, ids, g), dates)
  {
  }

  lemma WonCovered(l: Ledger, lines: seq<Line>, d: Dimensions, ids: seq<OpportunityId>, p: Calendar.Period,
                   g: Calendar.Granularity, dates: seq<Calendar.Date>)
    requires Covers(dates, p, g)
    requires forall n | 0 <= n < |ids| :: ids[n] < |l.opportunities|
    requires forall n | 0 <= n < |ids| :: WonIn(l.opportunities[ids[n]], p)
    ensures KeysIn(WonItems(l, lines, d, ids, g), dates)
  {
  }

  lemma LostCovered(items: seq<Item<Time>>, p: Calendar.Period, g: Calendar.Granularity, dates: seq<Calendar.Date>)
    requires Covers(dates, p, g) && forall n | 0 <= n < |items| :: Calendar.Within(items[n].key, p)
    ensures KeysIn(Dated(items, g), dates)
  {
  }

  lemma TimelineConserves(l: Ledger, lines: seq<Line>, d: Dimensions, p: Calendar.Period, g: Calendar.Granularity,
                          rows: seq<TimelineBucket>)
    requires RowsOf(ColumnsOf(l, lines, d, p, g), rows) && Calendar.StrictlyIncreasing(Dates(rows))
    requires Covers(Dates(rows), p, g)
    ensures Sums(rows) == OverviewOf(l, lines, d, p)
  {
    var c := ColumnsOf(l, lines, d, p, g);
    CreatedCovered(l, CreatedIds(l, lines, d, p, |l.opportunities|), p, g, Dates(rows));
    WonCovered(l, lines, d, WonIds(l, lines, d, p, |l.opportunities|), p, g, Dates(rows));
    LostCovered(LossItems(l, d, p, |l.losses|), p, g, Dates(rows));
    ColumnsConserve(c, rows);
    DatedKg(LossItems(l, d, p, |l.losses|), g);
    WonKgAgrees(l, lines, d, p, g);
  }

  lemma ColumnsConserve(c: Columns, rows: seq<TimelineBucket>)
    requires RowsOf(c, rows) && Calendar.StrictlyIncreasing(Dates(rows))
    requires KeysIn(c.created, Dates(rows)) && KeysIn(c.won, Dates(rows)) && KeysIn(c.lost, Dates(rows))
    ensures Sums(rows) == Overview(|c.created|, |c.won|, |c.lost|, Kg(c.won), Kg(c.lost))
  {
    SumsByColumn(c, rows);
    GroupsAddUp(c.created, Dates(rows));
    GroupsAddUp(c.won, Dates(rows));
    GroupsAddUp(c.lost, Dates(rows));
  }

  // ---- Lost weight by product ----

  datatype Group = Group(product: ProductId, name: string, count: nat, kg: Quantity)

  datatype NamedProduct = NamedProduct(product: ProductId, name: string)

  /** The snapshot rows behind the product breakdown of lost weight. */
  function LostLines(l: Ledger, d: Dimensions, p: Calendar.Period, upTo: nat): seq<Item<NamedProduct>>
    requires upTo <= |l.losses|
  {
    if upTo == 0 then []
    else
      var e := l.losses[upTo - 1];
      var before := LostLines(l, d, p, upTo - 1);
      if LossPasses(l, e, d) && Calendar.Within(e.at, p) then before + NamedLines(e.products, d) else before
  }

  function NamedLines(products: seq<Snapshot>, d: Dimensions): seq<Item<NamedProduct>> {
    if products == [] then []
    else
      var last := products[|products| - 1];
      var before := NamedLines(products[..|products| - 1], d);
      if ProductPasses(last.product, d) then before + [Item(NamedProduct(last.product, last.name), last.quantity)]
      else before
  }

  /** The grouped rows, in whatever order the database returns them. */
  predicate IsGrouping(items: seq<Item<NamedProduct>>, groups: seq<Group>) {
    && Distinct(Names(groups))
    && (forall i | 0 <= i < |items| :: items[i].key in Names(groups))
    && (forall n | 0 <= n < |groups| ::
          groups[n].count == CountAt(items, Names(groups)[n]) && groups[n].kg == KgAt(items, Names(groups)[n])
          && groups[n].count > 0)
  }

  function Names(groups: seq<Group>): seq<NamedProduct> {
    seq(|groups|, n requires 0 <= n < |groups| => NamedProduct(groups[n].product, groups[n].name))
  }

  /** The dictionary by product id: a later row with the same id takes the place of an earlier one. */
  function Put(entries: seq<Group>, group: Group): seq<Group> {
    if entries == [] then [group]
    else if entries[0].product == group.product then [group] + entries[1..]
    else [entries[0]] + Put(entries[1..], group)
  }

  function ByProduct(groups: seq<Group>): seq<Group> {
    if groups == [] then [] else Put(ByProduct(groups[..|groups| - 1]), groups[|groups| - 1])
  }

  method CollectByProduct(groups: seq<Group>) returns (entries: seq<Group>)
    ensures entries == ByProduct(groups)
  {
    entries := [];
    for n := 0 to |groups|
      invariant entries == ByProduct(groups[..n])
    {
      assert groups[..n + 1][..n] == groups[..n];
      entries := Put(entries, groups[n]);
    }
    assert groups[..|groups|] == groups;
  }

  function GroupKg(groups: seq<Group>): Quantity {
    if groups == [] then 0 else groups[0].kg + GroupKg(groups[1..])
  }

  predicate ListsProduct(groups: seq<Group>, product: ProductId) {
    exists n | 0 <= n < |groups| :: groups[n].product == product
  }

  predicate ProductsDistinct(groups: seq<Group>) {
    forall i, j | 0 <= i < j < |groups| :: groups[i].product != groups[j].product
  }

  /** Every product id goes by one name only. */
  predicate OneNameEach(items: seq<Item<NamedProduct>>) {
    forall i, j | 0 <= i < |items| && 0 <= j < |items| && items[i].key.product == items[j].key.product ::
      items[i].key.name == items[j].key.name
  }

  lemma {:induction false} PutEffect(entries: seq<Group>, group: Group)
    requires forall n | 0 <= n < |entries| :: entries[n].kg > 0
    requires group.kg > 0
    ensures var after := Put(entries, group);
            && (forall n | 0 <= n < |after| :: after[n].kg > 0)
            && (forall product ::
                  ListsProduct(after, product) <==> ListsProduct(entries, product) || product == group.product)
            && (if ListsProduct(entries, group.product) then GroupKg(after) < GroupKg(entries) + group.kg
                else GroupKg(after) == GroupKg(entries) + group.kg)
  {
    var after := Put(entries, group);
    if entries == [] {
      assert after[0].product == group.product;
    } else {
      forall product
        ensures ListsProduct(entries, product) <==> entries[0].product == product || ListsProduct(entries[1..], product)
        ensures ListsProduct(after, product) <==> after[0].product == product || ListsProduct(after[1..], product)
      {
        SplitProducts(entries, product);
        SplitProducts(after, product);
      }
      if entries[0].product == group.product {
        assert after[1..] == entries[1..];
      } else {
        PutEffect(entries[1..], group);
        assert after[1..] == Put(entries[1..], group);
        assert forall n | 0 < n < |after| :: after[n] == after[1..][n - 1];
      }
    }
  }

  lemma SplitProducts(groups: seq<Group>, product: ProductId)
    requires groups != []
    ensures ListsProduct(groups, product) <==> groups[0].product == product || ListsProduct(groups[1..], product)
  {
    if ListsProduct(groups, product) && groups[0].product != product {
      var n :| 0 <= n < |groups| && groups[n].product == product;
      assert groups[1..][n - 1].product == product;
    }
    if ListsProduct(groups[1..], product) {
      var n :| 0 <= n < |groups[1..]| && groups[1..][n].product == product;
      assert groups[n + 1].product == product;
    }
  }

  function GroupTotal(groups: seq<Group>): Quantity {
    if groups == [] then 0 else GroupTotal(groups[..|groups| - 1]) + groups[|groups| - 1].kg
  }

  /** The dictionary keeps the whole weight exactly when no product id comes up twice. */
  lemma {:induction false} ByProductKg(groups: seq<Group>)
    requires forall n | 0 <= n < |groups| :: groups[n].kg > 0
    ensures var entries := ByProduct(groups);
            && (forall n | 0 <= n < |entries| :: entries[n].kg > 0)
            && (forall product :: ListsProduct(entries, product) <==> ListsProduct(groups, product))
            && GroupKg(entries) <= GroupTotal(groups)
            && (GroupKg(entries) == GroupTotal(groups) <==> ProductsDistinct(groups))
  {
    if groups != [] {
      var before := groups[..|groups| - 1];
      var last := groups[|groups| - 1];
      assert forall n | 0 <= n < |before| :: before[n] == groups[n];
      ByProductKg(before);
      PutEffect(ByProduct(before), last);
      LastProduct(groups);
    }
  }

  lemma LastProduct(groups: seq<Group>)
    requires groups != []
    ensures var before := groups[..|groups| - 1];
            var last := groups[|groups| - 1];
            && (forall product ::
                  ListsProduct(groups, product) <==> ListsProduct(before, product) || product == last.product)
            && (ProductsDistinct(groups) <==> ProductsDistinct(before) && !ListsProduct(before, last.product))
  {
    var before := groups[..|groups| - 1];
    var last := groups[|groups| - 1];
    forall product
      ensures ListsProduct(groups, product) <==> ListsProduct(before, product) || product == last.product
    {
      if ListsProduct(groups, product) && product != last.product {
        var n :| 0 <= n < |groups| && groups[n].product == product;
        assert before[n].product == product;
      }
      if ListsProduct(before, product) {
        var n :| 0 <= n < |before| && before[n].product == product;
        assert groups[n].product == product;
      }
      assert groups[|groups| - 1].product == last.product;
    }
    if ProductsDistinct(groups) {
      assert forall i | 0 <= i < |before| :: groups[i].product != last.product && before[i] == groups[i];
    }
  }

  lemma {:induction false} KgIsPositive(items: seq<Item<NamedProduct>>, key: NamedProduct)
    requires forall i | 0 <= i < |items| :: items[i].kg > 0
    ensures KgAt(items, key) >= 0 && (CountAt(items, key) > 0 ==> KgAt(items, key) > 0)
    ensures CountAt(items, key) > 0 ==> exists i | 0 <= i < |items| :: items[i].key == key
  {
    if items != [] {
      var before := items[..|items| - 1];
      KgIsPositive(before, key);
      if CountAt(before, key) > 0 {
        var i :| 0 <= i < |before| && before[i].key == key;
        assert items[i].key == key;
      }
    }
  }

  lemma {:induction false} GroupTotalIsSum(items: seq<Item<NamedProduct>>, groups: seq<Group>)
    requires forall n | 0 <= n < |groups| :: groups[n].kg == KgAt(items, Names(groups)[n])
    ensures GroupTotal(groups) == SumKg(items, Names(groups))
  {
    if groups != [] {
      var before := groups[..|groups| - 1];
      assert Names(groups)[..|groups| - 1] == Names(before);
      GroupTotalIsSum(items, before);
    }
  }

  lemma OneNameIffDistinct(items: seq<Item<NamedProduct>>, groups: seq<Group>)
    requires IsGrouping(items, groups) && forall i | 0 <= i < |items| :: items[i].kg > 0
    ensures ProductsDistinct(groups) <==> OneNameEach(items)
  {
    var names := Names(groups);
    if ProductsDistinct(groups) {
      forall i, j | 0 <= i < |items| && 0 <= j < |items| && items[i].key.product == items[j].key.product
        ensures items[i].key.name == items[j].key.name
      {
        var m :| 0 <= m < |names| && names[m] == items[i].key;
        var n :| 0 <= n < |names| && names[n] == items[j].key;
        assert m == n;
      }
    }
    if OneNameEach(items) {
      forall i, j | 0 <= i < j < |groups| ensures groups[i].product != groups[j].product {
        KgIsPositive(items, names[i]);
        KgIsPositive(items, names[j]);
        var a :| 0 <= a < |items| && items[a].key == names[i];
        var b :| 0 <= b < |items| && items[b].key == names[j];
        assert names[i] != names[j];
      }
    }
  }

  /**
   The products metric keeps the lost weight exactly when no product id was recorded under two
   names; otherwise it loses some. This holds for any order of the grouped rows.
   */
  lemma ProductsConserveIff(items: seq<Item<NamedProduct>>, groups: seq<Group>)
    requires IsGrouping(items, groups) && forall i | 0 <= i < |items| :: items[i].kg > 0
    ensures GroupKg(ByProduct(groups)) == Kg(items) <==> OneNameEach(items)
    ensures GroupKg(ByProduct(groups)) <= Kg(items)
  {
    forall n | 0 <= n < |groups| ensures groups[n].kg > 0 {
      KgIsPositive(items, Names(groups)[n]);
    }
    ByProductKg(groups);
    GroupTotalIsSum(items, groups);
    GroupsAddUp(items, Names(groups));
    OneNameIffDistinct(items, groups);
  }
}

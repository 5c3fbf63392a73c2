/** The product breakdown of lost weight over the ledgers that can arise, against the overview. */
module MetricsTheorems {
  import opened Wrappers
  import opened OpportunityLedger
  import opened LedgerInvariant
  import opened LedgerTheorems
  import opened Metrics
  import Calendar

  lemma {:induction false} KgConcat<K>(a: seq<Item<K>>, b: seq<Item<K>>)
    ensures Kg(a + b) == Kg(a) + Kg(b)
  {
    if b == [] {
      assert a + b == a;
    } else {
      assert (a + b)[..|a + b| - 1] == a + b[..|b| - 1];
      KgConcat(a, b[..|b| - 1]);
    }
  }

  lemma {:induction false} NamedKg(products: seq<Snapshot>, d: Dimensions, at: Time)
    ensures Kg(NamedLines(products, d))
         == if d.product.None? then Total(products) else Kg(SnapshotItems(products, d.product.value, at))
  {
    if products != [] {
      NamedKg(products[..|products| - 1], d, at);
    }
  }

  /** Lost weight by snapshot and by loss event is the same, because snapshots add up to each total. */
  lemma {:induction false} LostLinesKg(l: Ledger, d: Dimensions, p: Calendar.Period, upTo: nat)
    requires upTo <= |l.losses|
    requires forall i | 0 <= i < |l.losses| :: l.losses[i].total == Total(l.losses[i].products)
    ensures Kg(LostLines(l, d, p, upTo)) == Kg(LossItems(l, d, p, upTo))
  {
    if upTo > 0 {
      var e := l.losses[upTo - 1];
      LostLinesKg(l, d, p, upTo - 1);
      NamedKg(e.products, d, e.at);
      KgConcat(LostLines(l, d, p, upTo - 1), NamedLines(e.products, d));
      if d.product.Some? {
        KgConcat(LossItems(l, d, p, upTo - 1), SnapshotItems(e.products, d.product.value, e.at));
      }
    }
  }

  lemma {:induction false} NamedPositive(products: seq<Snapshot>, d: Dimensions, n: nat)
    requires GoodSnapshots(products) && n < |NamedLines(products, d)|
    ensures NamedLines(products, d)[n].kg > 0
  {
    var before := products[..|products| - 1];
    if n < |NamedLines(before, d)| {
      NamedPositive(before, d, n);
    }
  }

  lemma {:induction false} LostLinesPositive(l: Ledger, d: Dimensions, p: Calendar.Period, upTo: nat, n: nat)
    requires upTo <= |l.losses| && forall i | 0 <= i < |l.losses| :: GoodSnapshots(l.losses[i].products)
    requires n < |LostLines(l, d, p, upTo)|
    ensures LostLines(l, d, p, upTo)[n].kg > 0
  {
    var before := LostLines(l, d, p, upTo - 1);
    if n < |before| {
      LostLinesPositive(l, d, p, upTo - 1, n);
    } else {
      NamedPositive(l.losses[upTo - 1].products, d, n - |before|);
    }
  }

  /**
   In every ledger that can arise and for every filter, the breakdown by product adds up to the
   overview's lost weight exactly when no product id was lost under two names.
   */
  lemma ProductsMatchOverviewIff(l: Ledger, actions: seq<Action>, lines: seq<Line>, d: Dimensions, p: Calendar.Period,
                                 groups: seq<Group>)
    requires Empty(l)
    requires IsGrouping(LostLines(Run(l, actions), d, p, |Run(l, actions).losses|), groups)
    ensures var t := Run(l, actions);
            GroupKg(ByProduct(groups)) == OverviewOf(t, lines, d, p).kgLost
            <==> OneNameEach(LostLines(t, d, p, |t.losses|))
  {
    var t := Run(l, actions);
    forall i | 0 <= i < |t.losses|
      ensures GoodSnapshots(t.losses[i].products) && t.losses[i].total == Total(t.losses[i].products)
    {
      LossSnapshotsAddUp(l, actions, i);
    }
    var items := LostLines(t, d, p, |t.losses|);
    forall n | 0 <= n < |items| ensures items[n].kg > 0 {
      LostLinesPositive(t, d, p, |t.losses|, n);
    }
    LostLinesKg(t, d, p, |t.losses|);
    ProductsConserveIff(items, groups);
  }

  lemma OneItem(item: Item<NamedProduct>, key: NamedProduct)
    ensures KgAt([item], key) == (if item.key == key then item.kg else 0)
    ensures CountAt([item], key) == (if item.key == key then 1 else 0)
  {
    assert [item][..0] == [];
  }

  // ---- A product renamed between two losses ----

  lemma {:induction false} RunAppend(l: Ledger, first: seq<Action>, second: seq<Action>)
    ensures Run(l, first + second) == Run(Run(l, first), second)
  {
    if second == [] {
      assert first + second == first;
    } else {
      assert (first + second)[..|first + second| - 1] == first + second[..|second| - 1];
      RunAppend(l, first, second[..|second| - 1]);
    }
  }

  /** A new opportunity of the customer is quoted with one product and lost. */
  function QuotedAndLost(id: OpportunityId, kg: Quantity, at: Time): seq<Action> {
    [DoCreate(1, Web, None, None, at), DoQuote(id, [QuoteLine(1, kg)], None, at),
     DoLose(id, Some(Precio), None, None, at)]
  }

  predicate Sells(l: Ledger, name: string) {
    1 in l.customers && !l.customers[1].deleted && l.products == map[1 := Product(name, true)]
  }

  /** The ledger afterwards: one more opportunity and one more loss, with the product's name at that moment. */
  predicate OneMoreLoss(l: Ledger, t: Ledger, name: string, kg: Quantity, at: Time) {
    var id := |l.opportunities|;
    && t.customers == l.customers && t.products == l.products
    && |t.opportunities| == id + 1 && t.opportunities[..id] == l.opportunities && t.opportunities[id].deletedAt.None?
    && |t.losses| == |l.losses| + 1 && t.losses[..|l.losses|] == l.losses
    && t.losses[|l.losses|].opportunity == id && t.losses[|l.losses|].at == at && t.losses[|l.losses|].total == kg
    && t.losses[|l.losses|].products == [Snapshot(1, name, kg)]
  }

  lemma ThreeSteps(l: Ledger, a: Action, b: Action, c: Action)
    ensures Run(l, [a, b, c]) == Step(Step(Step(l, a), b), c)
  {
    assert [a, b, c][..2] == [a, b] && [a, b][..1] == [a] && [a][..0] == [];
    assert Run(l, [a]) == Step(l, a);
    assert Run(l, [a, b]) == Step(Run(l, [a]), b);
  }

  lemma OneLineQuote(l: Ledger, name: string, kg: Quantity)
    requires Sells(l, name) && kg > 0
    ensures ValidatedQuote(l, [QuoteLine(1, kg)], {}) == Success(map[1 := kg])
  {
    assert [QuoteLine(1, kg)][..0] == [];
    assert Quantities([QuoteLine(1, kg)]) == Success(map[1 := kg]);
  }

  lemma OneSnapshot(products: map<ProductId, Product>, kg: Quantity)
    requires 1 in products
    ensures Snapshots(map[1 := kg], products) == [Snapshot(1, products[1].name, kg)]
    ensures Total([Snapshot(1, products[1].name, kg)]) == kg
  {
    var quote: Quote := map[1 := kg];
    assert quote.Keys == {1};
    assert Smallest(quote.Keys) in {1};
    assert quote - {1} == map[];
    assert Snapshots(quote - {1}, products) == [];
    assert [Snapshot(1, products[1].name, kg)][..0] == [];
  }

  /** The ledger while the new opportunity is open. */
  predicate OneMoreOpen(l: Ledger, t: Ledger, status: Status, quote: Quote) {
    var id := |l.opportunities|;
    && t.customers == l.customers && t.products == l.products && t.losses == l.losses
    && |t.opportunities| == id + 1 && t.opportunities[..id] == l.opportunities
    && t.opportunities[id].customer == 1 && t.opportunities[id].deletedAt.None?
    && t.opportunities[id].status == status && t.opportunities[id].quote == quote
  }

  lemma OpenedOnce(l: Ledger, name: string, at: Time)
    requires Sells(l, name)
    ensures OneMoreOpen(l, Step(l, DoCreate(1, Web, None, None, at)), Nueva, map[])
  {
  }

  lemma QuotedOnce(l: Ledger, t: Ledger, name: string, kg: Quantity, at: Time)
    requires Sells(l, name) && kg > 0 && OneMoreOpen(l, t, Nueva, map[])
    ensures OneMoreOpen(l, Step(t, DoQuote(|l.opportunities|, [QuoteLine(1, kg)], None, at)), Cotizada, map[1 := kg])
  {
    OneLineQuote(t, name, kg);
  }

  lemma ClosedOnce(l: Ledger, t: Ledger, name: string, kg: Quantity, at: Time)
    requires Sells(l, name) && OneMoreOpen(l, t, Cotizada, map[1 := kg])
    ensures OneMoreLoss(l, Step(t, DoLose(|l.opportunities|, Some(Precio), None, None, at)), name, kg, at)
  {
    OneSnapshot(t.products, kg);
  }

  lemma LostOnce(l: Ledger, name: string, kg: Quantity, at: Time)
    requires Sells(l, name) && kg > 0
    ensures OneMoreLoss(l, Run(l, QuotedAndLost(|l.opportunities|, kg, at)), name, kg, at)
  {
    var a := QuotedAndLost(|l.opportunities|, kg, at);
    ThreeSteps(l, a[0], a[1], a[2]);
    OpenedOnce(l, name, at);
    QuotedOnce(l, Step(l, a[0]), name, kg, at);
    ClosedOnce(l, Step(Step(l, a[0]), a[1]), name, kg, at);
  }

  const ONE_PRODUCT := Ledger([], [], [], [], [], map[1 := Customer("Ana", None, None, false)],
                              map[1 := Product("Soja", true)], map[])

  /** Loses five kilograms of a product, renames it, and loses seven more. */
  const RENAMING: seq<Action> :=
    QuotedAndLost(0, 5000, 1) + ([ProductChanged(1, Product("Soja HB4", true))] + QuotedAndLost(1, 7000, 2))

  const UNFILTERED := Dimensions(None, None, None)
  const BOTH_LOSSES := Calendar.Span(0, 10)

  function LostNames(l: Ledger): seq<Item<NamedProduct>> {
    LostLines(l, UNFILTERED, BOTH_LOSSES, |l.losses|)
  }

  lemma LostTwice()
    ensures LostNames(Run(ONE_PRODUCT, RENAMING))
         == [Item(NamedProduct(1, "Soja"), 5000), Item(NamedProduct(1, "Soja HB4"), 7000)]
  {
    var first := Run(ONE_PRODUCT, QuotedAndLost(0, 5000, 1));
    LostOnce(ONE_PRODUCT, "Soja", 5000, 1);
    var between := first.(products := map[1 := Product("Soja HB4", true)]);
    var t := Run(between, QuotedAndLost(1, 7000, 2));
    LostOnce(between, "Soja HB4", 7000, 2);
    RenamingRun(first, between);
    TwoNames(first, between, t);
  }

  lemma RenamingRun(first: Ledger, between: Ledger)
    requires first == Run(ONE_PRODUCT, QuotedAndLost(0, 5000, 1)) && first.products.Keys == {1}
    requires between == first.(products := map[1 := Product("Soja HB4", true)])
    ensures Run(ONE_PRODUCT, RENAMING) == Run(between, QuotedAndLost(1, 7000, 2))
  {
    var renamed := ProductChanged(1, Product("Soja HB4", true));
    assert [renamed][..0] == [];
    assert Run(first, [renamed]) == Step(first, renamed) == between;
    RunAppend(first, [renamed], QuotedAndLost(1, 7000, 2));
    RunAppend(ONE_PRODUCT, QuotedAndLost(0, 5000, 1), [renamed] + QuotedAndLost(1, 7000, 2));
  }

  lemma TwoNames(first: Ledger, between: Ledger, t: Ledger)
    requires OneMoreLoss(ONE_PRODUCT, first, "Soja", 5000, 1) && OneMoreLoss(between, t, "Soja HB4", 7000, 2)
    requires between.opportunities == first.opportunities && between.losses == first.losses
    ensures LostNames(t) == [Item(NamedProduct(1, "Soja"), 5000), Item(NamedProduct(1, "Soja HB4"), 7000)]
  {
    assert t.losses[..1][0] == t.losses[0] == first.losses[0];
    assert t.opportunities[..1][0] == t.opportunities[0] == first.opportunities[0];
    OneLine(Snapshot(1, "Soja", 5000));
    OneLine(Snapshot(1, "Soja HB4", 7000));
    assert LostLines(t, UNFILTERED, BOTH_LOSSES, 1) == NamedLines(t.losses[0].products, UNFILTERED);
  }

  lemma OneLine(s: Snapshot)
    ensures NamedLines([s], UNFILTERED) == [Item(NamedProduct(s.product, s.name), s.quantity)]
  {
    assert [s][..0] == [];
  }

  /**
   A run whose product is renamed between two losses: the two names are two grouped rows, and
   whichever way they are grouped, the breakdown by product is not the overview's lost weight.
   */
  lemma RenamedProductLosesWeight(lines: seq<Line>, groups: seq<Group>)
    requires IsGrouping(LostNames(Run(ONE_PRODUCT, RENAMING)), groups)
    ensures Empty(ONE_PRODUCT)
    ensures OverviewOf(Run(ONE_PRODUCT, RENAMING), lines, UNFILTERED, BOTH_LOSSES).kgLost == 12000
    ensures GroupKg(ByProduct(groups)) < 12000
  {
    LostTwice();
    RunIsConserving();
    TwoNamesLoseWeight(Item(NamedProduct(1, "Soja"), 5000), Item(NamedProduct(1, "Soja HB4"), 7000), groups);
  }

  lemma TwoNamesLoseWeight(first: Item<NamedProduct>, second: Item<NamedProduct>, groups: seq<Group>)
    requires IsGrouping([first, second], groups) && first.kg > 0 && second.kg > 0
    requires first.key.product == second.key.product && |first.key.name| < |second.key.name|
    ensures Kg([first, second]) == first.kg + second.kg && GroupKg(ByProduct(groups)) < first.kg + second.kg
  {
    var items := [first, second];
    assert items[..1] == [first] && [first][..0] == [];
    assert Kg([first]) == first.kg;
    assert items[0].key.name != items[1].key.name;
    ProductsConserveIff(items, groups);
  }

  lemma RunIsConserving()
    ensures var t := Run(ONE_PRODUCT, RENAMING);
            Kg(LossItems(t, UNFILTERED, BOTH_LOSSES, |t.losses|)) == Kg(LostNames(t))
  {
    var t := Run(ONE_PRODUCT, RENAMING);
    forall i | 0 <= i < |t.losses| ensures t.losses[i].total == Total(t.losses[i].products) {
      LossSnapshotsAddUp(ONE_PRODUCT, RENAMING, i);
    }
    LostLinesKg(t, UNFILTERED, BOTH_LOSSES, |t.losses|);
  }

  const SOJA := NamedProduct(1, "Soja")
  const SOJA_HB4 := NamedProduct(1, "Soja HB4")
  const TWO_GROUPS := [Group(1, "Soja", 1, 5000), Group(1, "Soja HB4", 1, 7000)]

  lemma TwoItemsGrouped(first: Item<NamedProduct>, second: Item<NamedProduct>)
    requires first == Item(SOJA, 5000) && second == Item(SOJA_HB4, 7000)
    ensures IsGrouping([first, second], TWO_GROUPS)
  {
    assert [first, second][..1] == [first];
    assert Names(TWO_GROUPS) == [SOJA, SOJA_HB4];
    assert |SOJA.name| == 4 && |SOJA_HB4.name| == 8;
    OneItem(first, SOJA);
    OneItem(first, SOJA_HB4);
  }

  lemma SecondReplacesFirst()
    ensures GroupKg(ByProduct(TWO_GROUPS)) == 7000
  {
    assert TWO_GROUPS[..1] == [TWO_GROUPS[0]] && [TWO_GROUPS[0]][..0] == [];
    assert ByProduct([TWO_GROUPS[0]]) == [TWO_GROUPS[0]];
    assert ByProduct(TWO_GROUPS) == [TWO_GROUPS[1]];
  }

  /** The grouped rows exist. */
  lemma RenamedProductIsGrouped()
    ensures IsGrouping(LostNames(Run(ONE_PRODUCT, RENAMING)), TWO_GROUPS) && GroupKg(ByProduct(TWO_GROUPS)) == 7000
  {
    LostTwice();
    TwoItemsGrouped(Item(SOJA, 5000), Item(SOJA_HB4, 7000));
    SecondReplacesFirst();
  }
}

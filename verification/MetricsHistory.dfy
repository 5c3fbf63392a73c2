/**
 What the overview counts, said from the ledger itself: the status history, the quotes and the loss
 events, for every ledger that can arise and any order of the quote table.
 */
module MetricsHistory {
  import opened Wrappers
  import opened Tables
  import opened OpportunityLedger
  import opened LedgerInvariant
  import opened LedgerTheorems
  import opened Metrics
  import opened Trimming
  import opened CustomerIdentity
  import Calendar

  // ---- The quote table ----

  /** One line per quoted product of each opportunity, in any order. */
  predicate IsQuoteTable(l: Ledger, lines: seq<Line>) {
    && (forall n | 0 <= n < |lines| ::
          && lines[n].opportunity < |l.opportunities|
          && lines[n].product in l.opportunities[lines[n].opportunity].quote
          && lines[n].quantity == l.opportunities[lines[n].opportunity].quote[lines[n].product])
    && (forall m, n | 0 <= m < n < |lines| ::
          lines[m].opportunity != lines[n].opportunity || lines[m].product != lines[n].product)
    && (forall id, p | 0 <= id < |l.opportunities| && p in l.opportunities[id].quote ::
          exists n | 0 <= n < |lines| :: lines[n].opportunity == id && lines[n].product == p)
  }

  /** The sum of all quantities of a quote. */
  function QuoteTotal(q: Quote): Quantity {
    if q == map[] then 0
    else
      var p := Smallest(q.Keys);
      q[p] + QuoteTotal(q - {p})
  }

  /** A quote's weight of the product of interest, or of all. */
  function QuoteKg(q: Quote, product: Option<ProductId>): Quantity {
    match product
    case None => QuoteTotal(q)
    case Some(p) => if p in q then q[p] else 0
  }

  /** Whichever product is taken out first, the sum is the same. */
  lemma {:induction false} TakenOut(q: Quote, p: ProductId)
    requires p in q
    ensures QuoteTotal(q) == q[p] + QuoteTotal(q - {p})
  {
    var first := Smallest(q.Keys);
    if first != p {
      TakenOut(q - {first}, p);
      assert (q - {first}) - {p} == (q - {p}) - {first};
      SmallestStays(q.Keys, p);
      assert (q - {p}).Keys == q.Keys - {p};
    }
  }

  lemma SmallestStays(s: set<ProductId>, p: ProductId)
    requires p in s && p != Smallest(s)
    ensures s - {p} != {} && Smallest(s - {p}) == Smallest(s)
  {
    assert Smallest(s) in s - {p};
  }

  lemma PutIn(q: Quote, p: ProductId, quantity: Quantity)
    requires p !in q
    ensures QuoteTotal(q[p := quantity]) == QuoteTotal(q) + quantity
  {
    TakenOut(q[p := quantity], p);
    assert q[p := quantity] - {p} == q;
  }

  /** The quantities that the table holds for one opportunity. */
  function QuoteIn(lines: seq<Line>, id: OpportunityId): Quote {
    if lines == [] then map[]
    else
      var before := QuoteIn(lines[..|lines| - 1], id);
      var last := lines[|lines| - 1];
      if last.opportunity == id then before[last.product := last.quantity] else before
  }

  predicate LinesDistinct(lines: seq<Line>) {
    forall m, n | 0 <= m < n < |lines| ::
      lines[m].opportunity != lines[n].opportunity || lines[m].product != lines[n].product
  }

  lemma {:induction false} QuoteInMembers(lines: seq<Line>, id: OpportunityId, p: ProductId)
    requires LinesDistinct(lines)
    ensures p in QuoteIn(lines, id)
            <==> exists n | 0 <= n < |lines| :: lines[n].opportunity == id && lines[n].product == p
    ensures forall n | 0 <= n < |lines| && lines[n].opportunity == id && lines[n].product == p ::
              p in QuoteIn(lines, id) && QuoteIn(lines, id)[p] == lines[n].quantity
  {
    if lines != [] {
      var before := lines[..|lines| - 1];
      QuoteInMembers(before, id, p);
      assert forall n | 0 <= n < |before| :: before[n] == lines[n];
      if p in QuoteIn(before, id) {
        var n :| 0 <= n < |before| && before[n].opportunity == id && before[n].product == p;
        assert lines[n].opportunity == id && lines[n].product == p;
      }
    }
  }

  lemma {:induction false} LineTotalIsQuote(lines: seq<Line>, d: Dimensions, id: OpportunityId)
    requires LinesDistinct(lines)
    ensures LineTotal(lines, d, id) == QuoteKg(QuoteIn(lines, id), d.product)
  {
    if lines != [] {
      var before, last := lines[..|lines| - 1], lines[|lines| - 1];
      LineTotalIsQuote(before, d, id);
      if last.opportunity == id {
        QuoteInMembers(before, id, last.product);
        assert forall n | 0 <= n < |before| :: before[n] == lines[n];
        PutIn(QuoteIn(before, id), last.product, last.quantity);
      }
    }
  }

  lemma TableHoldsQuote(l: Ledger, lines: seq<Line>, id: OpportunityId)
    requires IsQuoteTable(l, lines) && id < |l.opportunities|
    ensures LinesDistinct(lines) && QuoteIn(lines, id) == l.opportunities[id].quote
  {
    var quote := l.opportunities[id].quote;
    forall p ensures p in QuoteIn(lines, id) <==> p in quote {
      QuoteInMembers(lines, id, p);
    }
    forall p | p in quote ensures QuoteIn(lines, id)[p] == quote[p] {
      QuoteInMembers(lines, id, p);
      var n :| 0 <= n < |lines| && lines[n].opportunity == id && lines[n].product == p;
    }
  }

  // ---- Which opportunities are meant ----

  /** Live, of the wanted source and province, and with the product of interest in its quote. */
  predicate OfInterest(l: Ledger, id: OpportunityId, d: Dimensions)
    requires id < |l.opportunities|
  {
    var o := l.opportunities[id];
    && o.deletedAt == None
    && (d.source == None || d.source == Some(o.source))
    && (d.province.Some? ==>
          o.customer in l.customers && InProvince(l.customers[o.customer].province, d.province.value))
    && (d.product.Some? ==> d.product.value in o.quote)
  }

  /**
   A stored province is the wanted one when they are equal but for case, with the spaces around the
   stored text and the white space around the wanted one left off.
   */
  lemma ProvinceIff(value: Option<string>, wanted: string)
    ensures InProvince(value, wanted)
            <==> && value.Some?
                 && exists v, w :: BetweenSpaces(value.value, v) && NormalName(wanted, w) && SameIgnoringCase(v, w)
  {
    StripIsNormal(wanted);
    assert NormalName(wanted, Strip(wanted));
    if value.Some? {
      var v := SpacesOff(value.value);
      SpacesOffIsBetween(value.value);
      LowerIff(v, Strip(wanted));
      forall u, w | BetweenSpaces(value.value, u) && NormalName(wanted, w) && SameIgnoringCase(u, w)
        ensures u == v && w == Strip(wanted)
      {
        BetweenSpacesUnique(value.value, u, v);
        if !Blank(wanted) {
          NormalTextUnique(wanted, Some(w), Some(Strip(wanted)));
        }
      }
    }
  }

  /** The last history row of the opportunity enters GANADA within the period. */
  predicate LastEntersGanada(l: Ledger, id: OpportunityId, p: Calendar.Period) {
    exists n | 0 <= n < |l.history| ::
      && l.history[n].opportunity == id
      && l.history[n].toStatus == Ganada && p.start <= l.history[n].at < p.end
      && forall m | n < m < |l.history| :: l.history[m].opportunity != id
  }

  /** Its first history row, the one that creates it, is in the period. */
  predicate FirstIsWithin(l: Ledger, id: OpportunityId, p: Calendar.Period) {
    exists n | 0 <= n < |l.history| ::
      && l.history[n].opportunity == id
      && l.history[n].kind == Created && p.start <= l.history[n].at < p.end
      && forall m | 0 <= m < n :: l.history[m].opportunity != id
  }

  /** Exactly the ids below `size` that `p` selects, in increasing order. */
  ghost predicate Lists(ids: seq<nat>, size: nat, p: nat -> bool) {
    && (forall m, n | 0 <= m < n < |ids| :: ids[m] < ids[n])
    && (forall id: nat :: id in ids <==> id < size && p(id))
  }

  /** There is one such list. */
  lemma {:induction false} ListsUnique(a: seq<nat>, b: seq<nat>, size: nat, p: nat -> bool)
    requires Lists(a, size, p) && Lists(b, size, p)
    ensures a == b
    decreases |a|
  {
    if a == [] {
      if b != [] {
        HasMember(b);
      }
    } else {
      assert a[|a| - 1] in b && b != [];
      assert b[|b| - 1] in a;
      var last := a[|a| - 1];
      assert last == b[|b| - 1];
      var shorter := (id: nat) => p(id) && id != last;
      ListsShorter(a, size, p);
      ListsShorter(b, size, p);
      ListsUnique(a[..|a| - 1], b[..|b| - 1], size, shorter);
    }
  }

  lemma HasMember(ids: seq<nat>)
    requires ids != []
    ensures ids[0] in ids
  {
  }

  lemma ListsShorter(a: seq<nat>, size: nat, p: nat -> bool)
    requires Lists(a, size, p) && a != []
    ensures Lists(a[..|a| - 1], size, (id: nat) => p(id) && id != a[|a| - 1])
  {
    var last := a[|a| - 1];
    var before := a[..|a| - 1];
    assert a == before + [last];
    forall id: nat ensures id in before <==> id < size && p(id) && id != last {
      assert id in a <==> id in before || id == last;
    }
  }

  lemma OneMoreListed(before: seq<nat>, size: nat, p: nat -> bool)
    requires Lists(before, size, p)
    ensures Lists(if p(size) then before + [size] else before, size + 1, p)
  {
    forall n | 0 <= n < |before| ensures before[n] < size {
      assert before[n] in before;
    }
  }

  function Filter(size: nat, p: nat -> bool): seq<nat> {
    if size == 0 then [] else if p(size - 1) then Filter(size - 1, p) + [size - 1] else Filter(size - 1, p)
  }

  lemma {:induction false} FilterLists(size: nat, p: nat -> bool)
    ensures Lists(Filter(size, p), size, p)
  {
    if size > 0 {
      FilterLists(size - 1, p);
      OneMoreListed(Filter(size - 1, p), size - 1, p);
    }
  }

  /** So any such list is the filtered one. */
  lemma OnlyFilter(ids: seq<nat>, size: nat, p: nat -> bool)
    requires Lists(ids, size, p)
    ensures ids == Filter(size, p)
  {
    FilterLists(size, p);
    ListsUnique(ids, Filter(size, p), size, p);
  }

  // ---- Won ----

  ghost predicate Won(l: Ledger, d: Dimensions, p: Calendar.Period, id: nat) {
    id < |l.opportunities| && OfInterest(l, id, d) && LastEntersGanada(l, id, p)
  }

  ghost function WonTest(l: Ledger, d: Dimensions, p: Calendar.Period): nat -> bool {
    (id: nat) => Won(l, d, p, id)
  }

  function SumOfQuotes(l: Ledger, d: Dimensions, ids: seq<nat>): Quantity {
    if ids == [] then 0
    else
      var last := ids[|ids| - 1];
      SumOfQuotes(l, d, ids[..|ids| - 1])
      + (if last < |l.opportunities| then QuoteKg(l.opportunities[last].quote, d.product) else 0)
  }

  /** In a chained history the last row of an opportunity is where it stands. */
  lemma LastRowIs(l: Ledger, id: OpportunityId, p: Calendar.Period)
    requires id < |l.opportunities| && ChainInv(l, id)
    ensures LastEntersGanada(l, id, p)
            <==> l.opportunities[id].status == Ganada && p.start <= l.opportunities[id].enteredAt < p.end
  {
    var trail := Trail(l, id);
    var last := trail[|trail| - 1];
    assert EntryOf(id)(l.history[last]);
    forall m | 0 <= m < |l.history| && l.history[m].opportunity == id ensures m <= last {
      WhereComplete(l.history, EntryOf(id), m);
      var k :| 0 <= k < |trail| && trail[k] == m;
    }
  }

  lemma InterestIff(l: Ledger, lines: seq<Line>, d: Dimensions, id: OpportunityId)
    requires IsQuoteTable(l, lines) && id < |l.opportunities|
    ensures OfInterest(l, id, d) <==> OpportunityPasses(l, lines, id, d)
  {
    if d.product.Some? {
      LineIff(l, lines, id, d.product.value);
    }
  }

  lemma LineIff(l: Ledger, lines: seq<Line>, id: OpportunityId, p: ProductId)
    requires IsQuoteTable(l, lines) && id < |l.opportunities|
    ensures HasLine(lines, id, p) <==> p in l.opportunities[id].quote
  {
    TableHoldsQuote(l, lines, id);
    QuoteInMembers(lines, id, p);
  }

  lemma WonIff(l: Ledger, lines: seq<Line>, d: Dimensions, p: Calendar.Period, id: OpportunityId)
    requires IsQuoteTable(l, lines) && id < |l.opportunities| && ChainInv(l, id)
    ensures WonTest(l, d, p)(id) <==> OpportunityPasses(l, lines, id, d) && WonIn(l.opportunities[id], p)
  {
    InterestIff(l, lines, d, id);
    LastRowIs(l, id, p);
  }

  lemma {:induction false} WonIdsFilter(l: Ledger, lines: seq<Line>, d: Dimensions, p: Calendar.Period, upTo: nat)
    requires upTo <= |l.opportunities| && IsQuoteTable(l, lines)
    requires forall id | 0 <= id < |l.opportunities| :: ChainInv(l, id)
    ensures WonIds(l, lines, d, p, upTo) == Filter(upTo, WonTest(l, d, p))
  {
    if upTo > 0 {
      WonIdsFilter(l, lines, d, p, upTo - 1);
      WonIff(l, lines, d, p, upTo - 1);
    }
  }

  /** The won weight is the sum over the won opportunities of their quotes. */
  lemma {:induction false} WonKg(l: Ledger, lines: seq<Line>, d: Dimensions, ids: seq<OpportunityId>,
                                 g: Calendar.Granularity)
    requires IsQuoteTable(l, lines) && forall n | 0 <= n < |ids| :: ids[n] < |l.opportunities|
    ensures Kg(WonItems(l, lines, d, ids, g)) == SumOfQuotes(l, d, ids)
  {
    if ids != [] {
      var last := ids[|ids| - 1];
      WonKg(l, lines, d, ids[..|ids| - 1], g);
      WonItemsBefore(l, lines, d, ids, g);
      TableHoldsQuote(l, lines, last);
      LineTotalIsQuote(lines, d, last);
    }
  }

  lemma AllChained(l: Ledger, actions: seq<Action>)
    requires Empty(l)
    ensures forall id | 0 <= id < |Run(l, actions).opportunities| :: ChainInv(Run(l, actions), id)
  {
    Reachable(l, actions);
    var t := Run(l, actions);
    forall id | 0 <= id < |t.opportunities| ensures ChainInv(t, id) {
      assert OpportunityInv(t, id);
    }
  }

  /**
   In every ledger that can arise, `won` is the number of live opportunities of interest whose last
   history row enters GANADA within the period, and the won weight is what their quotes hold of the
   product of interest.
   */
  lemma WonFromHistory(l: Ledger, actions: seq<Action>, lines: seq<Line>, d: Dimensions, p: Calendar.Period,
                       ids: seq<nat>)
    requires Empty(l) && IsQuoteTable(Run(l, actions), lines)
    requires Lists(ids, |Run(l, actions).opportunities|, WonTest(Run(l, actions), d, p))
    ensures var t := Run(l, actions);
            && OverviewOf(t, lines, d, p).won == |ids|
            && OverviewOf(t, lines, d, p).kgWon == SumOfQuotes(t, d, ids)
  {
    var t := Run(l, actions);
    AllChained(l, actions);
    WonIdsFilter(t, lines, d, p, |t.opportunities|);
    OnlyFilter(ids, |t.opportunities|, WonTest(t, d, p));
    WonKg(t, lines, d, ids, Calendar.Day);
    WonKgAgrees(t, lines, d, p, Calendar.Day);
  }

  // ---- Created ----

  /** The first history row of each opportunity is of the time it was created. */
  predicate StartsWhenCreated(l: Ledger) {
    forall id | 0 <= id < |l.opportunities| ::
      Trail(l, id) != [] && l.history[Trail(l, id)[0]].at == l.opportunities[id].createdAt
  }

  lemma {:induction false} WherePrefix<T>(rows: seq<T>, more: seq<T>, p: T -> bool)
    ensures Where(rows, p) <= Where(rows + more, p)
  {
    if more == [] {
      assert rows + more == rows;
    } else {
      var last := |more| - 1;
      assert rows + more == (rows + more[..last]) + [more[last]];
      WherePrefix(rows, more[..last], p);
      WhereSnoc(rows + more[..last], more[last], p);
    }
  }

  lemma TrailStays(l: Ledger, after: Ledger, id: OpportunityId)
    requires l.history <= after.history && Trail(l, id) != []
    ensures Trail(after, id) != [] && Trail(after, id)[0] == Trail(l, id)[0]
  {
    assert after.history == l.history + after.history[|l.history|..];
    WherePrefix(l.history, after.history[|l.history|..], EntryOf(id));
  }

  predicate CreationKept(l: Ledger, after: Ledger) {
    && |l.opportunities| <= |after.opportunities|
    && forall id | 0 <= id < |l.opportunities| :: after.opportunities[id].createdAt == l.opportunities[id].createdAt
  }

  predicate CreatesNone(l: Ledger, r: Result<Ledger, OpportunityLedger.Error>) {
    r.Success? ==> CreationKept(l, r.value) && |r.value.opportunities| == |l.opportunities|
  }

  lemma LosingCreatesNone(l: Ledger, id: OpportunityId, reason: Option<LossReason>, detail: Option<string>,
                          actor: Option<UserId>, at: Time)
    ensures CreatesNone(l, Lose(l, id, reason, detail, actor, at))
  {
  }

  lemma ReopeningCreatesNone(l: Ledger, id: OpportunityId, command: Uuid, expected: Status, actor: UserId, at: Time)
    ensures CreatesNone(l, ReopenOpportunity(l, id, command, expected, actor, at))
  {
  }

  lemma QuotingCreatesNone(l: Ledger, id: OpportunityId, lines: seq<QuoteLine>, actor: Option<UserId>, at: Time,
                           expected: Option<Time>)
    ensures CreatesNone(l, QuoteOpportunity(l, id, lines, actor, at))
    ensures CreatesNone(l, UpdateQuote(l, id, lines, expected, at))
  {
  }

  lemma StepKeepsCreation(l: Ledger, a: Action)
    ensures CreationKept(l, Step(l, a))
    ensures !a.DoCreate? ==> |Step(l, a).opportunities| == |l.opportunities|
  {
    match a
    case DoQuote(id, lines, actor, at) => QuotingCreatesNone(l, id, lines, actor, at, None);
    case DoUpdateQuote(id, lines, expected, at) => QuotingCreatesNone(l, id, lines, None, at, expected);
    case DoLose(id, reason, detail, actor, at) => LosingCreatesNone(l, id, reason, detail, actor, at);
    case DoReopen(id, command, expected, user, at) => ReopeningCreatesNone(l, id, command, expected, user, at);
    case _ =>
  }

  lemma CreatedStarts(l: Ledger, a: Action)
    requires LedgerInv(l) && a.DoCreate? && |Step(l, a).opportunities| > |l.opportunities|
    ensures var t, id := Step(l, a), |l.opportunities|;
            && |t.opportunities| == id + 1
            && Trail(t, id) != [] && t.history[Trail(t, id)[0]].at == t.opportunities[id].createdAt
  {
    var t, id := Step(l, a), |l.opportunities|;
    var h := t.history[|l.history|];
    WhereSnoc(l.history, h, EntryOf(id));
    assert EventsRefer(l);
    WhereNone(l.history, EntryOf(id));
  }

  lemma StepStarts(l: Ledger, a: Action)
    requires LedgerInv(l) && StartsWhenCreated(l)
    ensures StartsWhenCreated(Step(l, a))
  {
    StepKeeps(l, a);
    StepKeepsCreation(l, a);
    var t := Step(l, a);
    if a.DoCreate? && |t.opportunities| > |l.opportunities| {
      CreatedStarts(l, a);
    }
    forall id | 0 <= id < |l.opportunities|
      ensures Trail(t, id) != [] && t.history[Trail(t, id)[0]].at == t.opportunities[id].createdAt
    {
      TrailStays(l, t, id);
    }
  }

  lemma {:induction false} RunStarts(l: Ledger, actions: seq<Action>)
    requires Empty(l)
    ensures StartsWhenCreated(Run(l, actions))
  {
    if actions != [] {
      RunStarts(l, actions[..|actions| - 1]);
      Reachable(l, actions[..|actions| - 1]);
      StepStarts(Run(l, actions[..|actions| - 1]), actions[|actions| - 1]);
    }
  }

  ghost predicate NewlyCreated(l: Ledger, d: Dimensions, p: Calendar.Period, id: nat) {
    id < |l.opportunities| && OfInterest(l, id, d) && FirstIsWithin(l, id, p)
  }

  ghost function CreatedTest(l: Ledger, d: Dimensions, p: Calendar.Period): nat -> bool {
    (id: nat) => NewlyCreated(l, d, p, id)
  }

  lemma FirstRowIs(l: Ledger, id: OpportunityId, p: Calendar.Period)
    requires id < |l.opportunities| && ChainInv(l, id) && StartsWhenCreated(l)
    ensures FirstIsWithin(l, id, p) <==> p.start <= l.opportunities[id].createdAt < p.end
  {
    var trail := Trail(l, id);
    var first := trail[0];
    assert EntryOf(id)(l.history[first]);
    forall m | 0 <= m < |l.history| && l.history[m].opportunity == id ensures first <= m {
      WhereComplete(l.history, EntryOf(id), m);
      var k :| 0 <= k < |trail| && trail[k] == m;
    }
  }

  lemma CreatedIff(l: Ledger, lines: seq<Line>, d: Dimensions, p: Calendar.Period, id: OpportunityId)
    requires IsQuoteTable(l, lines) && id < |l.opportunities| && ChainInv(l, id) && StartsWhenCreated(l)
    ensures CreatedTest(l, d, p)(id) <==> OpportunityPasses(l, lines, id, d) && CreatedIn(l.opportunities[id], p)
  {
    InterestIff(l, lines, d, id);
    FirstRowIs(l, id, p);
  }

  lemma {:induction false} CreatedIdsFilter(l: Ledger, lines: seq<Line>, d: Dimensions, p: Calendar.Period, upTo: nat)
    requires upTo <= |l.opportunities| && IsQuoteTable(l, lines) && StartsWhenCreated(l)
    requires forall id | 0 <= id < |l.opportunities| :: ChainInv(l, id)
    ensures CreatedIds(l, lines, d, p, upTo) == Filter(upTo, CreatedTest(l, d, p))
  {
    if upTo > 0 {
      CreatedIdsFilter(l, lines, d, p, upTo - 1);
      CreatedIff(l, lines, d, p, upTo - 1);
    }
  }

  /** `created` is the number of live opportunities of interest whose first history row is in the period. */
  lemma CreatedFromHistory(l: Ledger, actions: seq<Action>, lines: seq<Line>, d: Dimensions, p: Calendar.Period,
                           ids: seq<nat>)
    requires Empty(l) && IsQuoteTable(Run(l, actions), lines)
    requires Lists(ids, |Run(l, actions).opportunities|, CreatedTest(Run(l, actions), d, p))
    ensures OverviewOf(Run(l, actions), lines, d, p).created == |ids|
  {
    var t := Run(l, actions);
    AllChained(l, actions);
    RunStarts(l, actions);
    CreatedIdsFilter(t, lines, d, p, |t.opportunities|);
    OnlyFilter(ids, |t.opportunities|, CreatedTest(t, d, p));
  }

  // ---- Lost ----

  predicate HasSnapshot(products: seq<Snapshot>, p: ProductId) {
    exists k | 0 <= k < |products| :: products[k].product == p
  }

  /** What the snapshots hold of a product. */
  function SnapshotKg(products: seq<Snapshot>, p: ProductId): Quantity {
    if products == [] then 0
    else
      var last := products[|products| - 1];
      SnapshotKg(products[..|products| - 1], p) + (if last.product == p then last.quantity else 0)
  }

  /** A loss of a live opportunity within the period, of the wanted source and province, that snapshots the product. */
  predicate LostWithin(l: Ledger, d: Dimensions, p: Calendar.Period, i: nat) {
    && i < |l.losses|
    && var e := l.losses[i];
    && p.start <= e.at < p.end
    && e.opportunity < |l.opportunities| && l.opportunities[e.opportunity].deletedAt == None
    && (d.source == None || d.source == Some(e.source))
    && (d.province.Some? ==> InProvince(e.province, d.province.value))
    && (d.product.Some? ==> HasSnapshot(e.products, d.product.value))
  }

  ghost function LostTest(l: Ledger, d: Dimensions, p: Calendar.Period): nat -> bool {
    (i: nat) => LostWithin(l, d, p, i)
  }

  /** The weight of a loss: all its snapshots, or those of the product. */
  function LossKg(e: Loss, product: Option<ProductId>): Quantity {
    match product
    case None => Total(e.products)
    case Some(p) => SnapshotKg(e.products, p)
  }

  function SumOfLosses(l: Ledger, d: Dimensions, ids: seq<nat>): Quantity {
    if ids == [] then 0
    else
      var last := ids[|ids| - 1];
      SumOfLosses(l, d, ids[..|ids| - 1]) + (if last < |l.losses| then LossKg(l.losses[last], d.product) else 0)
  }

  /** Each product is in one snapshot at most. */
  lemma {:induction false} SnapshotRows(products: seq<Snapshot>, p: ProductId, at: Time)
    requires GoodSnapshots(products)
    ensures var items := SnapshotItems(products, p, at);
            && |items| == (if HasSnapshot(products, p) then 1 else 0)
            && Kg(items) == SnapshotKg(products, p)
            && (!HasSnapshot(products, p) ==> SnapshotKg(products, p) == 0)
  {
    if products != [] {
      var before, last := products[..|products| - 1], products[|products| - 1];
      SnapshotRows(before, p, at);
      assert forall k | 0 <= k < |before| :: before[k] == products[k];
      assert HasSnapshot(products, p) <==> HasSnapshot(before, p) || last.product == p;
      assert last.product == p ==> !HasSnapshot(before, p);
      assert SnapshotItems(before, p, at) + [Item(at, last.quantity)] != [];
    }
  }

  lemma KgAppend<K>(a: seq<Item<K>>, b: seq<Item<K>>)
    requires |b| <= 1
    ensures Kg(a + b) == Kg(a) + Kg(b)
  {
    if b != [] {
      assert a + b == a + [b[0]] && (a + b)[..|a|] == a;
      assert b[..0] == [];
    } else {
      assert a + b == a;
    }
  }

  lemma LostRows(l: Ledger, d: Dimensions, p: Calendar.Period, upTo: nat)
    requires upTo < |l.losses| && GoodSnapshots(l.losses[upTo].products)
    requires l.losses[upTo].total == Total(l.losses[upTo].products)
    ensures var before, items := LossItems(l, d, p, upTo), LossItems(l, d, p, upTo + 1);
            && |items| == |before| + (if LostTest(l, d, p)(upTo) then 1 else 0)
            && Kg(items) == Kg(before) + (if LostTest(l, d, p)(upTo) then LossKg(l.losses[upTo], d.product) else 0)
  {
    var e := l.losses[upTo];
    var before := LossItems(l, d, p, upTo);
    if d.product.Some? {
      SnapshotRows(e.products, d.product.value, e.at);
      KgAppend(before, SnapshotItems(e.products, d.product.value, e.at));
    } else {
      KgAppend(before, [Item(e.at, e.total)]);
      assert [Item(e.at, e.total)][..0] == [];
    }
  }

  lemma {:induction false} LostItemsAre(l: Ledger, d: Dimensions, p: Calendar.Period, upTo: nat)
    requires upTo <= |l.losses|
    requires forall i | 0 <= i < |l.losses| ::
               GoodSnapshots(l.losses[i].products) && l.losses[i].total == Total(l.losses[i].products)
    ensures |LossItems(l, d, p, upTo)| == |Filter(upTo, LostTest(l, d, p))|
    ensures Kg(LossItems(l, d, p, upTo)) == SumOfLosses(l, d, Filter(upTo, LostTest(l, d, p)))
  {
    if upTo > 0 {
      LostItemsAre(l, d, p, upTo - 1);
      LostRows(l, d, p, upTo - 1);
      var before := Filter(upTo - 1, LostTest(l, d, p));
      assert (before + [upTo - 1])[..|before|] == before;
    }
  }

  /**
   `lost` is the number of loss events of live opportunities within the period that snapshot the product
   of interest, and the lost weight is what those snapshots hold.
   */
  lemma LostFromEvents(l: Ledger, actions: seq<Action>, lines: seq<Line>, d: Dimensions, p: Calendar.Period,
                       ids: seq<nat>)
    requires Empty(l)
    requires Lists(ids, |Run(l, actions).losses|, LostTest(Run(l, actions), d, p))
    ensures var t := Run(l, actions);
            OverviewOf(t, lines, d, p).lost == |ids| && OverviewOf(t, lines, d, p).kgLost == SumOfLosses(t, d, ids)
  {
    var t := Run(l, actions);
    forall i | 0 <= i < |t.losses|
      ensures GoodSnapshots(t.losses[i].products) && t.losses[i].total == Total(t.losses[i].products)
    {
      LossSnapshotsAddUp(l, actions, i);
    }
    OnlyFilter(ids, |t.losses|, LostTest(t, d, p));
    LostItemsAre(t, d, p, |t.losses|);
  }
}

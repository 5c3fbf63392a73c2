/**
 Loss statistics: totals and buckets over the loss events that pass a filter. Keys are texts, and
 the buckets are returned in the order of their keys.
 */
module LossStatistics {
  import opened Wrappers
  import opened Tables
  import opened OpportunityLedger
  import opened LedgerInvariant
  import opened LedgerTheorems
  import opened TextOrder
  import KeysetPages
  import Calendar

  datatype Bucket<K> = Bucket(key: K, count: nat, quantity: Quantity)

  datatype ProductBucket = ProductBucket(product: ProductId, name: string, count: nat, quantity: Quantity)

  datatype Statistics = Statistics(currentCount: nat, currentQuantity: Quantity, historicalCount: nat,
                                   historicalQuantity: Quantity, reopenedCount: nat,
                                   byReason: seq<Bucket<string>>, byProduct: seq<ProductBucket>,
                                   bySource: seq<Bucket<string>>, byProvince: seq<Bucket<string>>,
                                   timeline: seq<Bucket<string>>)

  const NO_PROVINCE: string := "<NONE>"

  function ProvinceKey(e: Loss): string {
    if e.province.None? || e.province.value == "" then NO_PROVINCE else e.province.value
  }

  function ReasonKey(e: Loss): string {
    match e.reason
    case Precio => "PRECIO"
    case SinRespuesta => "SIN_RESPUESTA"
    case Competencia => "COMPETENCIA"
    case ProyectoCancelado => "PROYECTO_CANCELADO"
    case Otro => "OTRO"
  }

  function SourceKey(e: Loss): string {
    match e.source
    case Web => "WEB"
    case WhatsApp => "WHATSAPP"
    case Referido => "REFERIDO"
    case Instagram => "INSTAGRAM"
  }

  function DateKey(e: Loss): string {
    DateText(Calendar.LocalDate(e.at))
  }

  /** Each key text stands for exactly one reason. */
  lemma ReasonKeyIff(e: Loss)
    ensures ReasonKey(e) == "PRECIO" <==> e.reason == Precio
    ensures ReasonKey(e) == "SIN_RESPUESTA" <==> e.reason == SinRespuesta
    ensures ReasonKey(e) == "COMPETENCIA" <==> e.reason == Competencia
    ensures ReasonKey(e) == "PROYECTO_CANCELADO" <==> e.reason == ProyectoCancelado
    ensures ReasonKey(e) == "OTRO" <==> e.reason == Otro
  {
    assert |"PRECIO"| == 6 && |"SIN_RESPUESTA"| == 13 && |"COMPETENCIA"| == 11 && |"PROYECTO_CANCELADO"| == 18
           && |"OTRO"| == 4;
  }

  lemma SourceKeyIff(e: Loss)
    ensures SourceKey(e) == "WEB" <==> e.source == Web
    ensures SourceKey(e) == "WHATSAPP" <==> e.source == WhatsApp
    ensures SourceKey(e) == "REFERIDO" <==> e.source == Referido
    ensures SourceKey(e) == "INSTAGRAM" <==> e.source == Instagram
  {
    assert |"WEB"| == 3 && |"WHATSAPP"| == 8 && |"REFERIDO"| == 8 && |"INSTAGRAM"| == 9;
    assert "WHATSAPP"[0] == 'W' && "REFERIDO"[0] == 'R';
  }

  /**
   A province is its own key; the key of no province stands for the losses without one exactly as long as
   no province has that text for its name.
   */
  lemma ProvinceKeyIff(e: Loss, name: string)
    ensures name != "" && name != "<NONE>" ==> (ProvinceKey(e) == name <==> e.province == Some(name))
    ensures ProvinceKey(e) == "<NONE>" <==> e.province == None || e.province == Some("") || e.province == Some("<NONE>")
  {
    assert |"<NONE>"| == 6;
  }

  /** A bucket counts the losses whose key has that text. */
  lemma {:induction false} SameKeyCounts(events: seq<Loss>, key: Loss -> string, k: string, chosen: Loss -> bool)
    requires forall i | 0 <= i < |events| :: key(events[i]) == k <==> chosen(events[i])
    ensures CountWithKey(events, key, k) == |Where(events, chosen)|
  {
    if events != [] {
      SameKeyCounts(events[..|events| - 1], key, k, chosen);
    }
  }

  /** The buckets by reason, source and province count the losses with that reason, source and province. */
  lemma KeysCountColumns(events: seq<Loss>, name: string)
    requires name != "" && name != "<NONE>"
    ensures CountWithKey(events, ReasonKey, "PRECIO") == |Where(events, (e: Loss) => e.reason == Precio)|
    ensures CountWithKey(events, ReasonKey, "SIN_RESPUESTA") == |Where(events, (e: Loss) => e.reason == SinRespuesta)|
    ensures CountWithKey(events, SourceKey, "WHATSAPP") == |Where(events, (e: Loss) => e.source == WhatsApp)|
    ensures CountWithKey(events, ProvinceKey, name) == |Where(events, (e: Loss) => e.province == Some(name))|
  {
    forall i | 0 <= i < |events|
      ensures ReasonKey(events[i]) == "PRECIO" <==> events[i].reason == Precio
      ensures ReasonKey(events[i]) == "SIN_RESPUESTA" <==> events[i].reason == SinRespuesta
      ensures SourceKey(events[i]) == "WHATSAPP" <==> events[i].source == WhatsApp
      ensures ProvinceKey(events[i]) == name <==> events[i].province == Some(name)
    {
      ReasonKeyIff(events[i]);
      SourceKeyIff(events[i]);
      ProvinceKeyIff(events[i], name);
    }
    SameKeyCounts(events, ReasonKey, "PRECIO", (e: Loss) => e.reason == Precio);
    SameKeyCounts(events, ReasonKey, "SIN_RESPUESTA", (e: Loss) => e.reason == SinRespuesta);
    SameKeyCounts(events, SourceKey, "WHATSAPP", (e: Loss) => e.source == WhatsApp);
    SameKeyCounts(events, ProvinceKey, name, (e: Loss) => e.province == Some(name));
  }

  // ---- Totals ----

  /** Ids of the losses that are the newest of an opportunity that is lost and not deleted. */
  function CurrentIds(l: Ledger): set<nat> {
    set i: nat | i < |l.losses| && l.losses[i].opportunity < |l.opportunities|
                 && Available(l, l.losses[i].opportunity) && l.opportunities[l.losses[i].opportunity].status.Perdida?
                 && LatestLoss(l.losses, l.losses[i].opportunity) == Some(i)
  }

  function ReopenedIds(l: Ledger): set<nat> {
    set n: nat | n < |l.reopens| :: l.reopens[n].loss
  }

  /** Losses of deleted opportunities that were never reopened: neither current nor reopened. */
  function BuriedIds(l: Ledger): set<nat> {
    set i: nat | i < |l.losses| && l.losses[i].opportunity < |l.opportunities|
                 && !Available(l, l.losses[i].opportunity) && i !in ReopenedIds(l)
  }

  function CountIn(ids: seq<nat>, keep: set<nat>): nat {
    if ids == [] then 0 else CountIn(ids[..|ids| - 1], keep) + (if ids[|ids| - 1] in keep then 1 else 0)
  }

  function QuantityIn(l: Ledger, ids: seq<nat>, keep: set<nat>): Quantity
    requires forall k | 0 <= k < |ids| :: ids[k] < |l.losses|
  {
    if ids == [] then 0
    else QuantityIn(l, ids[..|ids| - 1], keep) + (if ids[|ids| - 1] in keep then l.losses[ids[|ids| - 1]].total else 0)
  }

  function QuantityOf(l: Ledger, ids: seq<nat>): Quantity
    requires forall k | 0 <= k < |ids| :: ids[k] < |l.losses|
  {
    if ids == [] then 0 else QuantityOf(l, ids[..|ids| - 1]) + l.losses[ids[|ids| - 1]].total
  }

  // ---- Buckets ----

  predicate HasKey<K(==)>(buckets: seq<Bucket<K>>, key: K) {
    exists b | 0 <= b < |buckets| :: buckets[b].key == key
  }

  function Bump<K(==)>(buckets: seq<Bucket<K>>, key: K, quantity: Quantity): seq<Bucket<K>> {
    if buckets == [] then [Bucket(key, 1, quantity)]
    else if buckets[0].key == key
    then [Bucket(key, buckets[0].count + 1, buckets[0].quantity + quantity)] + buckets[1..]
    else [buckets[0]] + Bump(buckets[1..], key, quantity)
  }

  function EventBuckets<K(==)>(events: seq<Loss>, key: Loss -> K): seq<Bucket<K>> {
    if events == [] then []
    else Bump(EventBuckets(events[..|events| - 1], key), key(events[|events| - 1]), events[|events| - 1].total)
  }

  function Counts<K>(buckets: seq<Bucket<K>>): nat {
    if buckets == [] then 0 else buckets[0].count + Counts(buckets[1..])
  }

  function Quantities<K>(buckets: seq<Bucket<K>>): Quantity {
    if buckets == [] then 0 else buckets[0].quantity + Quantities(buckets[1..])
  }

  function TotalOf(events: seq<Loss>): Quantity {
    if events == [] then 0 else TotalOf(events[..|events| - 1]) + events[|events| - 1].total
  }

  function CountWithKey<K(==)>(events: seq<Loss>, key: Loss -> K, k: K): nat {
    if events == [] then 0
    else CountWithKey(events[..|events| - 1], key, k) + (if key(events[|events| - 1]) == k then 1 else 0)
  }

  function QuantityWithKey<K(==)>(events: seq<Loss>, key: Loss -> K, k: K): Quantity {
    if events == [] then 0
    else QuantityWithKey(events[..|events| - 1], key, k)
         + (if key(events[|events| - 1]) == k then events[|events| - 1].total else 0)
  }

  predicate KeysDistinct<K(==)>(buckets: seq<Bucket<K>>) {
    forall a, b | 0 <= a < b < |buckets| :: buckets[a].key != buckets[b].key
  }

  function BucketFor<K(==)>(buckets: seq<Bucket<K>>, k: K): Bucket<K> {
    if buckets == [] then Bucket(k, 0, 0)
    else if buckets[0].key == k then buckets[0]
    else BucketFor(buckets[1..], k)
  }

  lemma {:induction false} BumpEffect<K>(buckets: seq<Bucket<K>>, key: K, quantity: Quantity)
    requires KeysDistinct(buckets)
    ensures var after := Bump(buckets, key, quantity);
            && KeysDistinct(after)
            && Counts(after) == Counts(buckets) + 1 && Quantities(after) == Quantities(buckets) + quantity
            && (forall k :: HasKey(after, k) <==> HasKey(buckets, k) || k == key)
            && (forall k :: BucketFor(after, k)
                            == if k == key then Bucket(k, BucketFor(buckets, k).count + 1,
                                                       BucketFor(buckets, k).quantity + quantity)
                               else BucketFor(buckets, k))
  {
    var after := Bump(buckets, key, quantity);
    if buckets == [] {
      assert after[0].key == key;
    } else if buckets[0].key == key {
      assert after[1..] == buckets[1..];
      assert forall b | 0 < b < |buckets| :: after[b] == buckets[b];
      assert after[0].key == key;
    } else {
      var rest := buckets[1..];
      assert forall b | 0 <= b < |rest| :: rest[b] == buckets[b + 1];
      BumpEffect(rest, key, quantity);
      var bumped := Bump(rest, key, quantity);
      assert after[1..] == bumped;
      assert forall b | 0 < b < |after| :: after[b] == bumped[b - 1];
      forall k ensures HasKey(after, k) <==> HasKey(buckets, k) || k == key {
        HasKeySplit(after, k);
        HasKeySplit(buckets, k);
      }
      assert !HasKey(rest, buckets[0].key);
      assert !HasKey(bumped, buckets[0].key);
    }
  }

  lemma HasKeySplit<K>(buckets: seq<Bucket<K>>, k: K)
    requires buckets != []
    ensures HasKey(buckets, k) <==> buckets[0].key == k || HasKey(buckets[1..], k)
  {
    assert forall b | 0 <= b < |buckets[1..]| :: buckets[1..][b] == buckets[b + 1];
    if HasKey(buckets, k) && buckets[0].key != k {
      var b :| 0 <= b < |buckets| && buckets[b].key == k;
      assert buckets[1..][b - 1].key == k;
    }
  }

  /** Each key has one bucket with exactly its events, and the buckets add up to the totals. */
  lemma {:induction false} BucketsAddUp<K>(events: seq<Loss>, key: Loss -> K)
    ensures var buckets := EventBuckets(events, key);
            && KeysDistinct(buckets)
            && Counts(buckets) == |events| && Quantities(buckets) == TotalOf(events)
            && (forall k ::
                  BucketFor(buckets, k) == Bucket(k, CountWithKey(events, key, k), QuantityWithKey(events, key, k)))
            && (forall k :: HasKey(buckets, k) <==> exists i | 0 <= i < |events| :: key(events[i]) == k)
  {
    if events != [] {
      var before := events[..|events| - 1];
      var last := events[|events| - 1];
      BucketsAddUp(before, key);
      BumpEffect(EventBuckets(before, key), key(last), last.total);
      forall k
        ensures HasKey(EventBuckets(events, key), k) <==> exists i | 0 <= i < |events| :: key(events[i]) == k
      {
        if exists i | 0 <= i < |events| :: key(events[i]) == k {
          var i :| 0 <= i < |events| && key(events[i]) == k;
          assert i < |before| ==> key(before[i]) == k;
        }
        if HasKey(EventBuckets(before, key), k) {
          var i :| 0 <= i < |before| && key(before[i]) == k;
          assert key(events[i]) == k;
        }
      }
    }
  }

  // ---- Product buckets ----

  function BumpProduct(buckets: seq<ProductBucket>, s: Snapshot): seq<ProductBucket> {
    if buckets == [] then [ProductBucket(s.product, s.name, 1, s.quantity)]
    else if buckets[0].product == s.product
    then [buckets[0].(count := buckets[0].count + 1, quantity := buckets[0].quantity + s.quantity)] + buckets[1..]
    else [buckets[0]] + BumpProduct(buckets[1..], s)
  }

  function BumpProducts(buckets: seq<ProductBucket>, products: seq<Snapshot>): seq<ProductBucket> {
    if products == [] then buckets
    else BumpProduct(BumpProducts(buckets, products[..|products| - 1]), products[|products| - 1])
  }

  function ProductBuckets(events: seq<Loss>): seq<ProductBucket> {
    if events == [] then []
    else BumpProducts(ProductBuckets(events[..|events| - 1]), events[|events| - 1].products)
  }

  function ProductCounts(buckets: seq<ProductBucket>): nat {
    if buckets == [] then 0 else buckets[0].count + ProductCounts(buckets[1..])
  }

  function ProductQuantities(buckets: seq<ProductBucket>): Quantity {
    if buckets == [] then 0 else buckets[0].quantity + ProductQuantities(buckets[1..])
  }

  function SnapshotCount(events: seq<Loss>): nat {
    if events == [] then 0 else SnapshotCount(events[..|events| - 1]) + |events[|events| - 1].products|
  }

  predicate ProductsDistinct(buckets: seq<ProductBucket>) {
    forall a, b | 0 <= a < b < |buckets| :: buckets[a].product != buckets[b].product
  }

  function ProductBucketFor(buckets: seq<ProductBucket>, p: ProductId): (b: ProductBucket)
    ensures b.product == p
  {
    if buckets == [] then ProductBucket(p, "", 0, 0)
    else if buckets[0].product == p then buckets[0]
    else ProductBucketFor(buckets[1..], p)
  }

  /** All snapshots of the events, in their order. */
  function AllSnapshots(events: seq<Loss>): seq<Snapshot> {
    if events == [] then [] else AllSnapshots(events[..|events| - 1]) + events[|events| - 1].products
  }

  function CountOf(products: seq<Snapshot>, p: ProductId): nat {
    if products == [] then 0
    else CountOf(products[..|products| - 1], p) + (if products[|products| - 1].product == p then 1 else 0)
  }

  function WeightOf(products: seq<Snapshot>, p: ProductId): Quantity {
    if products == [] then 0
    else
      var last := products[|products| - 1];
      WeightOf(products[..|products| - 1], p) + (if last.product == p then last.quantity else 0)
  }

  /** The name of the first snapshot of a product. */
  function NameOf(products: seq<Snapshot>, p: ProductId): string {
    if products == [] then ""
    else
      var before := products[..|products| - 1];
      if CountOf(before, p) > 0 then NameOf(before, p)
      else if products[|products| - 1].product == p then products[|products| - 1].name
      else ""
  }

  /** The bucket that holds exactly the snapshots of a product. */
  function ExactBucket(products: seq<Snapshot>, p: ProductId): ProductBucket {
    ProductBucket(p, NameOf(products, p), CountOf(products, p), WeightOf(products, p))
  }

  predicate CountsPositive(buckets: seq<ProductBucket>) {
    forall b | b in buckets :: b.count > 0
  }

  function Bumped(b: ProductBucket, s: Snapshot): ProductBucket {
    if b.product != s.product then b
    else ProductBucket(b.product, if b.count == 0 then s.name else b.name, b.count + 1, b.quantity + s.quantity)
  }

  lemma {:induction false} BumpProductFor(buckets: seq<ProductBucket>, s: Snapshot, p: ProductId)
    requires CountsPositive(buckets)
    ensures ProductBucketFor(BumpProduct(buckets, s), p) == Bumped(ProductBucketFor(buckets, p), s)
  {
    if buckets != [] {
      assert buckets[0] in buckets;
      if buckets[0].product == s.product {
        assert BumpProduct(buckets, s)[1..] == buckets[1..];
      } else {
        BumpProductFor(buckets[1..], s, p);
        assert BumpProduct(buckets, s)[1..] == BumpProduct(buckets[1..], s);
      }
    }
  }

  lemma {:induction false} BumpProductEffect(buckets: seq<ProductBucket>, s: Snapshot)
    requires ProductsDistinct(buckets) && CountsPositive(buckets)
    ensures var after := BumpProduct(buckets, s);
            && ProductsDistinct(after) && CountsPositive(after)
            && ProductCounts(after) == ProductCounts(buckets) + 1
            && ProductQuantities(after) == ProductQuantities(buckets) + s.quantity
            && (forall b | b in after :: b.product == s.product || b in buckets)
  {
    if buckets != [] {
      var after := BumpProduct(buckets, s);
      var rest := buckets[1..];
      assert buckets == [buckets[0]] + rest;
      if buckets[0].product == s.product {
        assert after == [after[0]] + rest;
      } else {
        BumpProductEffect(rest, s);
        var bumped := BumpProduct(rest, s);
        assert after == [buckets[0]] + bumped;
        forall b | 0 < b < |after| ensures after[b].product != buckets[0].product {
          assert after[b] in bumped;
        }
      }
    }
  }

  lemma {:induction false} BumpProductsEffect(buckets: seq<ProductBucket>, products: seq<Snapshot>)
    requires ProductsDistinct(buckets) && CountsPositive(buckets)
    ensures var after := BumpProducts(buckets, products);
            && ProductsDistinct(after) && CountsPositive(after)
            && ProductCounts(after) == ProductCounts(buckets) + |products|
            && ProductQuantities(after) == ProductQuantities(buckets) + Total(products)
  {
    if products != [] {
      var before := products[..|products| - 1];
      BumpProductsEffect(buckets, before);
      BumpProductEffect(BumpProducts(buckets, before), products[|products| - 1]);
    }
  }

  lemma {:induction false} BumpProductsFor(products: seq<Snapshot>, p: ProductId)
    ensures ProductBucketFor(BumpProducts([], products), p) == ExactBucket(products, p)
  {
    if products != [] {
      var before := products[..|products| - 1];
      BumpProductsEffect([], before);
      BumpProductsFor(before, p);
      BumpProductFor(BumpProducts([], before), products[|products| - 1], p);
    }
  }

  lemma {:induction false} BumpProductsConcat(buckets: seq<ProductBucket>, a: seq<Snapshot>, b: seq<Snapshot>)
    ensures BumpProducts(BumpProducts(buckets, a), b) == BumpProducts(buckets, a + b)
  {
    if b == [] {
      assert a + b == a;
    } else {
      assert (a + b)[..|a + b| - 1] == a + b[..|b| - 1];
      BumpProductsConcat(buckets, a, b[..|b| - 1]);
    }
  }

  lemma {:induction false} BucketsOfAllSnapshots(events: seq<Loss>)
    ensures ProductBuckets(events) == BumpProducts([], AllSnapshots(events))
    ensures |AllSnapshots(events)| == SnapshotCount(events)
  {
    if events != [] {
      var before := events[..|events| - 1];
      BucketsOfAllSnapshots(before);
      BumpProductsConcat([], AllSnapshots(before), events[|events| - 1].products);
    }
  }

  lemma {:induction false} TotalConcat(a: seq<Snapshot>, b: seq<Snapshot>)
    ensures Total(a + b) == Total(a) + Total(b)
  {
    if b == [] {
      assert a + b == a;
    } else {
      assert (a + b)[..|a + b| - 1] == a + b[..|b| - 1];
      TotalConcat(a, b[..|b| - 1]);
    }
  }

  lemma {:induction false} SnapshotsTotal(events: seq<Loss>)
    requires forall i | 0 <= i < |events| :: events[i].total == Total(events[i].products)
    ensures Total(AllSnapshots(events)) == TotalOf(events)
  {
    if events != [] {
      var before := events[..|events| - 1];
      SnapshotsTotal(before);
      TotalConcat(AllSnapshots(before), events[|events| - 1].products);
    }
  }

  /**
   Each product has one bucket with exactly its snapshots, under the name of the first of them; the
   buckets add up to the loss totals when every total is the sum of its snapshots.
   */
  lemma ProductBucketsAddUp(events: seq<Loss>)
    requires forall i | 0 <= i < |events| :: events[i].total == Total(events[i].products)
    ensures var buckets := ProductBuckets(events);
            && ProductsDistinct(buckets) && CountsPositive(buckets)
            && (forall p :: ProductBucketFor(buckets, p) == ExactBucket(AllSnapshots(events), p))
            && ProductCounts(buckets) == SnapshotCount(events)
            && ProductQuantities(buckets) == TotalOf(events)
  {
    BucketsOfAllSnapshots(events);
    SnapshotsTotal(events);
    BumpProductsEffect([], AllSnapshots(events));
    forall p ensures ProductBucketFor(ProductBuckets(events), p) == ExactBucket(AllSnapshots(events), p) {
      BumpProductsFor(AllSnapshots(events), p);
    }
  }

  // ---- Buckets in the order of their keys ----

  /** By key, and among equal keys by what is counted. */
  predicate BucketBefore(a: Bucket<string>, b: Bucket<string>) {
    TextBefore(a.key, b.key)
    || (a.key == b.key && (a.count < b.count || (a.count == b.count && a.quantity < b.quantity)))
  }

  predicate ProductBefore(a: ProductBucket, b: ProductBucket) {
    a.product < b.product || (a.product == b.product && (TextBefore(a.name, b.name) || (a.name == b.name && (
      a.count < b.count || (a.count == b.count && a.quantity < b.quantity)))))
  }

  function ByKey(buckets: seq<Bucket<string>>): seq<Bucket<string>> {
    KeysetPages.Sorted(buckets, BucketBefore)
  }

  function ByProduct(buckets: seq<ProductBucket>): seq<ProductBucket> {
    KeysetPages.Sorted(buckets, ProductBefore)
  }

  lemma BucketsAreOrdered()
    ensures KeysetPages.StrictOrder(BucketBefore)
  {
    TextIsOrdered();
  }

  lemma ProductsAreOrdered()
    ensures KeysetPages.StrictOrder(ProductBefore)
  {
    TextIsOrdered();
  }

  lemma {:induction false} InsertTotals(b: Bucket<string>, buckets: seq<Bucket<string>>)
    ensures Counts(KeysetPages.Insert(b, buckets, BucketBefore)) == b.count + Counts(buckets)
    ensures Quantities(KeysetPages.Insert(b, buckets, BucketBefore)) == b.quantity + Quantities(buckets)
  {
    if buckets != [] && !BucketBefore(b, buckets[0]) {
      InsertTotals(b, buckets[1..]);
      assert KeysetPages.Insert(b, buckets, BucketBefore)[1..] == KeysetPages.Insert(b, buckets[1..], BucketBefore);
    } else {
      assert KeysetPages.Insert(b, buckets, BucketBefore)[1..] == buckets;
    }
  }

  lemma {:induction false} SortedTotals(buckets: seq<Bucket<string>>)
    ensures Counts(ByKey(buckets)) == Counts(buckets) && Quantities(ByKey(buckets)) == Quantities(buckets)
  {
    if buckets != [] {
      SortedTotals(buckets[1..]);
      InsertTotals(buckets[0], ByKey(buckets[1..]));
    }
  }

  lemma {:induction false} InsertProductTotals(b: ProductBucket, buckets: seq<ProductBucket>)
    ensures ProductCounts(KeysetPages.Insert(b, buckets, ProductBefore)) == b.count + ProductCounts(buckets)
    ensures ProductQuantities(KeysetPages.Insert(b, buckets, ProductBefore)) == b.quantity + ProductQuantities(buckets)
  {
    if buckets != [] && !ProductBefore(b, buckets[0]) {
      InsertProductTotals(b, buckets[1..]);
      assert KeysetPages.Insert(b, buckets, ProductBefore)[1..] == KeysetPages.Insert(b, buckets[1..], ProductBefore);
    } else {
      assert KeysetPages.Insert(b, buckets, ProductBefore)[1..] == buckets;
    }
  }

  lemma {:induction false} SortedProductTotals(buckets: seq<ProductBucket>)
    ensures ProductCounts(ByProduct(buckets)) == ProductCounts(buckets)
    ensures ProductQuantities(ByProduct(buckets)) == ProductQuantities(buckets)
  {
    if buckets != [] {
      SortedProductTotals(buckets[1..]);
      InsertProductTotals(buckets[0], ByProduct(buckets[1..]));
    }
  }

  predicate KeysIncrease(buckets: seq<Bucket<string>>) {
    forall a, b | 0 <= a < b < |buckets| :: TextBefore(buckets[a].key, buckets[b].key)
  }

  predicate ProductsIncrease(buckets: seq<ProductBucket>) {
    forall a, b | 0 <= a < b < |buckets| :: buckets[a].product < buckets[b].product
  }

  /** Sorting buckets of distinct keys gives the same buckets, their keys increasing. */
  lemma SortedBuckets(buckets: seq<Bucket<string>>)
    requires KeysDistinct(buckets)
    ensures KeysIncrease(ByKey(buckets)) && forall b :: b in ByKey(buckets) <==> b in buckets
  {
    BucketsAreOrdered();
    KeysetPages.SortedIncreases(buckets, BucketBefore);
    var sorted := ByKey(buckets);
    forall i, j | 0 <= i < j < |sorted| ensures TextBefore(sorted[i].key, sorted[j].key) {
      assert sorted[i] in buckets && sorted[j] in buckets;
      assert BucketBefore(sorted[i], sorted[j]);
    }
  }

  lemma SortedProducts(buckets: seq<ProductBucket>)
    requires ProductsDistinct(buckets)
    ensures ProductsIncrease(ByProduct(buckets)) && forall b :: b in ByProduct(buckets) <==> b in buckets
  {
    ProductsAreOrdered();
    KeysetPages.SortedIncreases(buckets, ProductBefore);
    var sorted := ByProduct(buckets);
    forall i, j | 0 <= i < j < |sorted| ensures sorted[i].product < sorted[j].product {
      assert sorted[i] in buckets && sorted[j] in buckets;
      assert ProductBefore(sorted[i], sorted[j]);
    }
  }

  lemma {:induction false} BucketForMember<K>(buckets: seq<Bucket<K>>, b: Bucket<K>)
    requires KeysDistinct(buckets) && b in buckets
    ensures BucketFor(buckets, b.key) == b
  {
    if buckets[0] != b {
      assert buckets == [buckets[0]] + buckets[1..];
      BucketForMember(buckets[1..], b);
    }
  }

  /**
   The buckets as they are returned: their keys increase, each is the key of some event, and its
   bucket holds exactly the events with that key; together they hold them all.
   */
  lemma SortedBucketsAddUp(events: seq<Loss>, key: Loss -> string)
    ensures var buckets := ByKey(EventBuckets(events, key));
            && KeysIncrease(buckets)
            && Counts(buckets) == |events| && Quantities(buckets) == TotalOf(events)
            && (forall b | b in buckets ::
                  b == Bucket(b.key, CountWithKey(events, key, b.key), QuantityWithKey(events, key, b.key)))
            && (forall k :: HasKey(buckets, k) <==> exists i | 0 <= i < |events| :: key(events[i]) == k)
  {
    BucketsAddUp(events, key);
    var found := EventBuckets(events, key);
    var buckets := ByKey(found);
    SortedTotals(found);
    SortedBuckets(found);
    forall b | b in buckets
      ensures b == Bucket(b.key, CountWithKey(events, key, b.key), QuantityWithKey(events, key, b.key))
    {
      BucketForMember(found, b);
    }
    forall k ensures HasKey(buckets, k) <==> HasKey(found, k) {
      SameKeys(buckets, found, k);
      SameKeys(found, buckets, k);
    }
  }

  lemma {:induction false} ProductBucketForMember(buckets: seq<ProductBucket>, b: ProductBucket)
    requires ProductsDistinct(buckets) && b in buckets
    ensures ProductBucketFor(buckets, b.product) == b
  {
    if buckets[0] != b {
      assert buckets == [buckets[0]] + buckets[1..];
      ProductBucketForMember(buckets[1..], b);
    }
  }

  lemma {:induction false} ListedIsMember(buckets: seq<ProductBucket>, p: ProductId)
    requires ProductBucketFor(buckets, p).count > 0
    ensures ProductBucketFor(buckets, p) in buckets
  {
    if buckets[0].product != p {
      ListedIsMember(buckets[1..], p);
    }
  }

  /**
   The product buckets as they are returned: ids increase, and they are exactly the buckets of the
   products that have a snapshot.
   */
  lemma SortedProductsAddUp(events: seq<Loss>)
    requires forall i | 0 <= i < |events| :: events[i].total == Total(events[i].products)
    ensures var buckets := ByProduct(ProductBuckets(events));
            && ProductsIncrease(buckets)
            && ProductCounts(buckets) == SnapshotCount(events) && ProductQuantities(buckets) == TotalOf(events)
            && forall b :: b in buckets <==> b.count > 0 && b == ExactBucket(AllSnapshots(events), b.product)
  {
    var found := ProductBuckets(events);
    ProductBucketsAddUp(events);
    SortedProductTotals(found);
    SortedProducts(found);
    forall b ensures b in found <==> b.count > 0 && b == ExactBucket(AllSnapshots(events), b.product) {
      if b in found {
        ProductBucketForMember(found, b);
      } else if b.count > 0 && b == ExactBucket(AllSnapshots(events), b.product) {
        ListedIsMember(found, b.product);
      }
    }
  }

  lemma SameKeys(a: seq<Bucket<string>>, b: seq<Bucket<string>>, k: string)
    requires forall x :: x in a ==> x in b
    ensures HasKey(a, k) ==> HasKey(b, k)
  {
    if HasKey(a, k) {
      var i :| 0 <= i < |a| && a[i].key == k;
      assert a[i] in b;
    }
  }

  lemma EventOfBucket(events: seq<Loss>, m: nat) returns (i: nat)
    requires m < |ByKey(EventBuckets(events, DateKey))|
    ensures i < |events| && DateKey(events[i]) == ByKey(EventBuckets(events, DateKey))[m].key
  {
    SortedBucketsAddUp(events, DateKey);
    var buckets := ByKey(EventBuckets(events, DateKey));
    assert HasKey(buckets, buckets[m].key);
    i :| 0 <= i < |events| && DateKey(events[i]) == buckets[m].key;
  }

  lemma EarlierByText(a: Calendar.Date, b: Calendar.Date)
    requires FourDigits(a) && FourDigits(b) && TextBefore(DateText(a), DateText(b))
    ensures Calendar.Ordinal(a) < Calendar.Ordinal(b)
  {
    WrittenDatesInOrder(a, b);
    Calendar.OrdinalOrder(a, b);
  }

  /** The timeline, sorted by text, is in the order of the local dates. */
  lemma TimelineIsChronological(events: seq<Loss>, m: nat, n: nat)
    requires forall i | 0 <= i < |events| :: FourDigits(Calendar.LocalDate(events[i].at))
    requires m < n < |ByKey(EventBuckets(events, DateKey))|
    ensures var buckets := ByKey(EventBuckets(events, DateKey));
            exists i, j | 0 <= i < |events| && 0 <= j < |events| ::
              DateKey(events[i]) == buckets[m].key && DateKey(events[j]) == buckets[n].key
              && Calendar.Ordinal(Calendar.LocalDate(events[i].at)) < Calendar.Ordinal(Calendar.LocalDate(events[j].at))
  {
    SortedBucketsAddUp(events, DateKey);
    var buckets := ByKey(EventBuckets(events, DateKey));
    var i := EventOfBucket(events, m);
    var j := EventOfBucket(events, n);
    EarlierByText(Calendar.LocalDate(events[i].at), Calendar.LocalDate(events[j].at));
  }

  // ---- The statistics ----

  function Rows(l: Ledger, ids: seq<nat>): seq<Loss>
    requires forall k | 0 <= k < |ids| :: ids[k] < |l.losses|
  {
    seq(|ids|, k requires 0 <= k < |ids| => l.losses[ids[k]])
  }

  function SetOf(ids: seq<nat>): set<nat> {
    set k | 0 <= k < |ids| :: ids[k]
  }

  method Compute(l: Ledger, passes: Loss -> bool) returns (s: Statistics)
    ensures var ids := Where(l.losses, passes);
            var events := Rows(l, ids);
            && s.historicalCount == |ids| && s.historicalQuantity == QuantityOf(l, ids)
            && s.currentCount == CountIn(ids, CurrentIds(l)) && s.currentQuantity == QuantityIn(l, ids, CurrentIds(l))
            && s.reopenedCount == |ReopenedIds(l) * SetOf(ids)|
            && s.byReason == ByKey(EventBuckets(events, ReasonKey))
            && s.byProduct == ByProduct(ProductBuckets(events))
            && s.bySource == ByKey(EventBuckets(events, SourceKey))
            && s.byProvince == ByKey(EventBuckets(events, ProvinceKey))
            && s.timeline == ByKey(EventBuckets(events, DateKey))
  {
    var ids := Where(l.losses, passes);
    var events := Rows(l, ids);
    var current := CurrentIds(l);
    var currentCount, currentQuantity, quantity := 0, 0, 0;
    for n := 0 to |ids|
      invariant currentCount == CountIn(ids[..n], current)
      invariant currentQuantity == QuantityIn(l, ids[..n], current)
      invariant quantity == QuantityOf(l, ids[..n])
    {
      assert ids[..n + 1][..n] == ids[..n];
      quantity := quantity + l.losses[ids[n]].total;
      if ids[n] in current {
        currentCount := currentCount + 1;
        currentQuantity := currentQuantity + l.losses[ids[n]].total;
      }
    }
    assert ids[..|ids|] == ids;
    var byReason := CollectEvents(events, ReasonKey);
    var bySource := CollectEvents(events, SourceKey);
    var byProvince := CollectEvents(events, ProvinceKey);
    var timeline := CollectEvents(events, DateKey);
    var byProduct := CollectProducts(events);
    s := Statistics(currentCount, currentQuantity, |ids|, quantity, |ReopenedIds(l) * SetOf(ids)|,
                    byReason, byProduct, bySource, byProvince, timeline);
  }

  method CollectEvents(events: seq<Loss>, key: Loss -> string) returns (buckets: seq<Bucket<string>>)
    ensures buckets == ByKey(EventBuckets(events, key))
  {
    buckets := [];
    for n := 0 to |events|
      invariant buckets == EventBuckets(events[..n], key)
    {
      assert events[..n + 1][..n] == events[..n];
      buckets := Bump(buckets, key(events[n]), events[n].total);
    }
    assert events[..|events|] == events;
    buckets := ByKey(buckets);
  }

  method CollectProducts(events: seq<Loss>) returns (buckets: seq<ProductBucket>)
    ensures buckets == ByProduct(ProductBuckets(events))
  {
    buckets := [];
    for n := 0 to |events|
      invariant buckets == ProductBuckets(events[..n])
    {
      assert events[..n + 1][..n] == events[..n];
      ghost var before := buckets;
      var products := events[n].products;
      for k := 0 to |products|
        invariant buckets == BumpProducts(before, products[..k])
      {
        assert products[..k + 1][..k] == products[..k];
        buckets := BumpProduct(buckets, products[k]);
      }
      assert products[..|products|] == products;
    }
    assert events[..|events|] == events;
    buckets := ByProduct(buckets);
  }

  // ---- Reconciliation with the ledger ----

  /** Every loss is current, reopened or buried, and only one of these. */
  lemma LossesPartition(t: Ledger, i: nat)
    requires LedgerInv(t) && i < |t.losses|
    ensures (if i in CurrentIds(t) then 1 else 0) + (if i in ReopenedIds(t) then 1 else 0)
            + (if i in BuriedIds(t) then 1 else 0) == 1
  {
    var id := t.losses[i].opportunity;
    assert OpportunityInv(t, id);
    var k := LossPlace(t, i);
    LatestIsLast(t.losses, id);
    assert k == |LossesOf(t, id)| - 1 <==> LatestLoss(t.losses, id) == Some(i);
    ReopenedIff(t, i, k);
  }

  lemma ReopenedIff(t: Ledger, i: nat, k: nat)
    requires LedgerInv(t) && i < |t.losses| && LossPlaced(t, t.losses[i].opportunity, k, i)
    ensures i in ReopenedIds(t) <==> k < |ReopensOf(t, t.losses[i].opportunity)|
  {
    var id := t.losses[i].opportunity;
    assert OpportunityInv(t, id);
    if k < |ReopensOf(t, id)| {
      PlaceReopen(t, id, k);
      assert t.reopens[ReopensOf(t, id)[k]].loss == i;
    }
    forall n: nat | n < |t.reopens| && t.reopens[n].loss == i ensures k < |ReopensOf(t, id)| {
      var m := ReopenPlace(t, n);
      assert m == k;
    }
  }

  lemma {:induction false} CountsPartition(t: Ledger, ids: seq<nat>)
    requires LedgerInv(t) && forall k | 0 <= k < |ids| :: ids[k] < |t.losses|
    ensures |ids| == CountIn(ids, CurrentIds(t)) + CountIn(ids, ReopenedIds(t)) + CountIn(ids, BuriedIds(t))
    ensures QuantityOf(t, ids)
         == QuantityIn(t, ids, CurrentIds(t)) + QuantityIn(t, ids, ReopenedIds(t)) + QuantityIn(t, ids, BuriedIds(t))
  {
    if ids != [] {
      CountsPartition(t, ids[..|ids| - 1]);
      LossesPartition(t, ids[|ids| - 1]);
    }
  }

  lemma SetOfSnoc(ids: seq<nat>)
    requires ids != []
    ensures SetOf(ids) == SetOf(ids[..|ids| - 1]) + {ids[|ids| - 1]}
  {
    var before := ids[..|ids| - 1];
    forall x | x in SetOf(before) ensures x in SetOf(ids) {
      var k :| 0 <= k < |before| && before[k] == x;
      assert ids[k] == x;
    }
    forall x | x in SetOf(ids) && x != ids[|ids| - 1] ensures x in SetOf(before) {
      var k :| 0 <= k < |ids| && ids[k] == x;
      assert before[k] == x;
    }
  }

  lemma {:induction false} CountIsCardinality(ids: seq<nat>, keep: set<nat>)
    requires forall j, k | 0 <= j < k < |ids| :: ids[j] < ids[k]
    ensures CountIn(ids, keep) == |keep * SetOf(ids)|
  {
    if ids != [] {
      var before := ids[..|ids| - 1];
      var last := ids[|ids| - 1];
      CountIsCardinality(before, keep);
      assert last !in SetOf(before);
      SetOfSnoc(ids);
      if last in keep {
        assert keep * SetOf(ids) == keep * SetOf(before) + {last};
      } else {
        assert keep * SetOf(ids) == keep * SetOf(before);
      }
    }
  }

  lemma {:induction false} RowsTotal(l: Ledger, ids: seq<nat>)
    requires forall k | 0 <= k < |ids| :: ids[k] < |l.losses|
    ensures TotalOf(Rows(l, ids)) == QuantityOf(l, ids)
  {
    if ids != [] {
      RowsTotal(l, ids[..|ids| - 1]);
      assert Rows(l, ids)[..|ids| - 1] == Rows(l, ids[..|ids| - 1]);
    }
  }

  /**
   For every filter: the losses ever recorded are the current ones, the reopened ones and the
   unreopened ones of deleted opportunities, in number and in quantity.
   */
  lemma HistoryReconciles(l: Ledger, actions: seq<Action>, passes: Loss -> bool)
    requires Empty(l)
    ensures var t := Run(l, actions);
            var ids := Where(t.losses, passes);
            && |ids| == CountIn(ids, CurrentIds(t)) + |ReopenedIds(t) * SetOf(ids)| + |BuriedIds(t) * SetOf(ids)|
            && QuantityOf(t, ids) == QuantityIn(t, ids, CurrentIds(t)) + QuantityIn(t, ids, ReopenedIds(t))
                                     + QuantityIn(t, ids, BuriedIds(t))
  {
    Reachable(l, actions);
    var t := Run(l, actions);
    var ids := Where(t.losses, passes);
    CountsPartition(t, ids);
    CountIsCardinality(ids, ReopenedIds(t));
    CountIsCardinality(ids, BuriedIds(t));
  }

  /** Every returned breakdown adds up to the historical totals, by product because snapshots add up to each total. */
  lemma BreakdownsReconcile(l: Ledger, actions: seq<Action>, passes: Loss -> bool, key: Loss -> string)
    requires Empty(l)
    ensures var t := Run(l, actions);
            var ids := Where(t.losses, passes);
            var events := Rows(t, ids);
            && Counts(ByKey(EventBuckets(events, key))) == |ids|
            && Quantities(ByKey(EventBuckets(events, key))) == QuantityOf(t, ids)
            && ProductQuantities(ByProduct(ProductBuckets(events))) == QuantityOf(t, ids)
            && ProductCounts(ByProduct(ProductBuckets(events))) == SnapshotCount(events)
            && ProductsIncrease(ByProduct(ProductBuckets(events)))
  {
    var t := Run(l, actions);
    var ids := Where(t.losses, passes);
    var events := Rows(t, ids);
    SortedBucketsAddUp(events, key);
    RowsTotal(t, ids);
    forall i | 0 <= i < |events| ensures events[i].total == Total(events[i].products) {
      LossSnapshotsAddUp(l, actions, ids[i]);
    }
    SortedProductsAddUp(events);
  }
}

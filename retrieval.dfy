/** The semantic retrieval service: the vector index as a map from
    `str(product.id)` to its entry, the metadata filter, search with its
    score threshold and catalog re-hydration, and "find similar".
    The embedder, Python's float formatting and the index's nearest-neighbour
    query are foreign services and appear as function-valued parameters. */
module Retrieval {
  import opened Wrappers
  import opened Builtins
  import opened Models
  import opened Schemas

  /** The configured `search_min_score`. */
  const DefaultMinScore: real := 0.3

  /** The looser score floor used when looking for similar products. */
  const SimilarMinScore: real := 0.2

  /** Stand-in for the text of the validation error raised when a similarity
      falls outside `[0, 1]`. */
  const SimilarityOutOfRange: string := "similarity must be between 0 and 1"

  // ----- filters -----

  datatype PriceRange = AtLeast(lo: real) | AtMost(hi: real) | Between(lo: real, hi: real)

  /** `{"category": {"$eq": ...}, "price": {"$gte": ..., "$lte": ...}}`, each key optional. */
  datatype MetadataFilter = MetadataFilter(category: Option<string>, price: Option<PriceRange>)

  datatype ProductMetadata = ProductMetadata(
    productId: int,
    name: string,
    category: string,
    brand: string,
    price: real,
    stockQuantity: int,
    isActive: bool)

  /** `_build_filter`: category equality only for a truthy category, a price
      range on whichever bounds are given, and no filter at all when neither applies. */
  function BuildFilter(category: Option<string>, minPrice: Option<real>, maxPrice: Option<real>): (r: Option<MetadataFilter>)
    ensures r.None? <==> !TruthyText(category) && minPrice.None? && maxPrice.None?
    ensures r.Some? ==> (r.value.category.Some? <==> TruthyText(category))
    ensures r.Some? ==> (r.value.price.Some? <==> minPrice.Some? || maxPrice.Some?)
  {
    var cat := if TruthyText(category) then category else None;
    var price :=
      if minPrice.Some? && maxPrice.Some? then Some(Between(minPrice.value, maxPrice.value))
      else if minPrice.Some? then Some(AtLeast(minPrice.value))
      else if maxPrice.Some? then Some(AtMost(maxPrice.value))
      else None;
    if cat.None? && price.None? then None else Some(MetadataFilter(cat, price))
  }

  predicate InRange(r: PriceRange, price: real) {
    match r
    case AtLeast(lo) => lo <= price
    case AtMost(hi) => price <= hi
    case Between(lo, hi) => lo <= price <= hi
  }

  /** How the index reads a filter: `$eq` on the category, inclusive `$gte`
      and `$lte` on the price; no filter admits everything. */
  predicate Admits(f: Option<MetadataFilter>, m: ProductMetadata) {
    f.None? ||
    ((f.value.category.Some? ==> m.category == f.value.category.value) &&
     (f.value.price.Some? ==> InRange(f.value.price.value, m.price)))
  }

  /** The filter built from the search arguments admits exactly the metadata
      that meets each requested constraint. */
  lemma BuildFilterAdmits(category: Option<string>, minPrice: Option<real>, maxPrice: Option<real>, m: ProductMetadata)
    ensures Admits(BuildFilter(category, minPrice, maxPrice), m) <==>
      && (TruthyText(category) ==> m.category == category.value)
      && (minPrice.Some? ==> minPrice.value <= m.price)
      && (maxPrice.Some? ==> m.price <= maxPrice.value)
  {
  }

  // ----- what gets indexed -----

  /** The embedding model and the `str()` rendering of a float price. */
  datatype TextModel = TextModel(encode: string -> seq<real>, formatPrice: real -> string)

  function PricePhrase(p: Product, tm: TextModel): string {
    "price $" + tm.formatPrice(p.price)
  }

  /** `_product_to_text`: the non-empty fields joined by single spaces. */
  function ProductToText(p: Product, tm: TextModel): string {
    Join(NonEmpty([p.name, p.description.GetOr(""), p.category, p.brand.GetOr(""), PricePhrase(p, tm)]), " ")
  }

  /** The text always ends with the price phrase, whatever else is missing. */
  lemma ProductToTextEndsWithPrice(p: Product, tm: TextModel)
    ensures var r := ProductToText(p, tm); var phrase := PricePhrase(p, tm);
      |phrase| <= |r| && r[|r| - |phrase|..] == phrase
  {
    var parts := [p.name, p.description.GetOr(""), p.category, p.brand.GetOr(""), PricePhrase(p, tm)];
    NonEmptyKeepsLast(parts);
    JoinEndsWithLast(NonEmpty(parts), " ");
  }

  /** With every field present and non-empty, the text is the five parts in
      their fixed order, separated by single spaces. */
  lemma ProductToTextAllFields(p: Product, tm: TextModel)
    requires p.name != "" && p.category != ""
    requires TruthyText(p.description) && TruthyText(p.brand)
    ensures ProductToText(p, tm) ==
      p.name + " " + p.description.value + " " + p.category + " " + p.brand.value + " " + PricePhrase(p, tm)
  {
    var phrase := PricePhrase(p, tm);
    var parts := [p.name, p.description.value, p.category, p.brand.value, phrase];
    NonEmptyOfNonEmpty(parts);
    var t3 := [p.brand.value, phrase];
    assert Join(t3, " ") == p.brand.value + " " + phrase by { assert t3[1..] == [phrase]; }
    var t2 := [p.category] + t3;
    assert Join(t2, " ") == p.category + " " + Join(t3, " ") by { assert t2[1..] == t3; }
    var t1 := [p.description.value] + t2;
    assert Join(t1, " ") == p.description.value + " " + Join(t2, " ") by { assert t1[1..] == t2; }
    assert parts == [p.name] + t1;
    assert Join(parts, " ") == p.name + " " + Join(t1, " ") by { assert parts[1..] == t1; }
  }

  /** Without description and brand, the text is name, category and price phrase. */
  lemma ProductToTextSkipsMissing(p: Product, tm: TextModel)
    requires p.name != "" && p.category != ""
    requires p.description.None? && p.brand.None?
    ensures ProductToText(p, tm) == p.name + " " + p.category + " " + PricePhrase(p, tm)
  {
    var phrase := PricePhrase(p, tm);
    var parts := [p.name, "", p.category, "", phrase];
    assert parts[1..][1..][1..][1..] == [phrase];
    assert NonEmpty(parts[1..][1..][1..]) == [phrase];
    assert NonEmpty(parts[1..][1..]) == [p.category, phrase];
    var kept := [p.name, p.category, phrase];
    assert NonEmpty(parts) == kept;
    assert kept[1..][1..] == [phrase];
    assert Join(kept[1..], " ") == p.category + " " + phrase;
  }

  /** `_product_to_metadata`. */
  function ProductToMetadata(p: Product): (m: ProductMetadata)
    ensures m.brand == p.brand.GetOr("") && m.productId == p.id && m.isActive == p.isActive
  {
    ProductMetadata(p.id, p.name, p.category, p.brand.GetOr(""), p.price, p.stockQuantity, p.isActive)
  }

  /** The id a product is stored under: `str(product.id)`. */
  function IdKey(productId: int): string {
    IntToString(productId)
  }

  datatype IndexEntry = IndexEntry(id: string, values: seq<real>, metadata: ProductMetadata)

  function EntryFor(p: Product, tm: TextModel): IndexEntry {
    IndexEntry(IdKey(p.id), tm.encode(ProductToText(p, tm)), ProductToMetadata(p))
  }

  /** The entries sent for a list of products, in order. */
  function EntriesFor(ps: seq<Product>, tm: TextModel): seq<IndexEntry>
    decreases |ps|
  {
    if |ps| == 0 then [] else EntriesFor(ps[..|ps| - 1], tm) + [EntryFor(ps[|ps| - 1], tm)]
  }

  lemma {:induction false} EntriesForAt(ps: seq<Product>, tm: TextModel)
    ensures |EntriesFor(ps, tm)| == |ps|
    ensures forall i :: 0 <= i < |ps| ==> EntriesFor(ps, tm)[i] == EntryFor(ps[i], tm)
    decreases |ps|
  {
    if |ps| > 0 {
      EntriesForAt(ps[..|ps| - 1], tm);
    }
  }

  /** One upsert request: entries are written in order, a later one
      overwriting an earlier one with the same id. */
  function UpsertAll(m: map<string, IndexEntry>, vs: seq<IndexEntry>): map<string, IndexEntry>
    decreases |vs|
  {
    if |vs| == 0 then m else UpsertAll(m[vs[0].id := vs[0]], vs[1..])
  }

  /** Concatenation of the batches sent, in order. */
  function Concat(bs: seq<seq<IndexEntry>>): seq<IndexEntry>
    decreases |bs|
  {
    if |bs| == 0 then [] else Concat(bs[..|bs| - 1]) + bs[|bs| - 1]
  }

  lemma {:induction false} UpsertAllAppend(m: map<string, IndexEntry>, a: seq<IndexEntry>, b: seq<IndexEntry>)
    ensures UpsertAll(m, a + b) == UpsertAll(UpsertAll(m, a), b)
    decreases |a|
  {
    if |a| == 0 {
      assert a + b == b;
    } else {
      assert (a + b)[0] == a[0];
      assert (a + b)[1..] == a[1..] + b;
      UpsertAllAppend(m[a[0].id := a[0]], a[1..], b);
    }
  }

  predicate DistinctIds(vs: seq<IndexEntry>) {
    forall i, j :: 0 <= i < j < |vs| ==> vs[i].id != vs[j].id
  }

  /** After an upsert of entries with distinct ids, each of them is stored. */
  lemma {:induction false} UpsertAllStores(m: map<string, IndexEntry>, vs: seq<IndexEntry>, i: int)
    requires DistinctIds(vs) && 0 <= i < |vs|
    ensures vs[i].id in UpsertAll(m, vs) && UpsertAll(m, vs)[vs[i].id] == vs[i]
    decreases |vs|
  {
    if i == 0 {
      UpsertAllKeeps(m[vs[0].id := vs[0]], vs[1..], vs[0].id);
    } else {
      UpsertAllStores(m[vs[0].id := vs[0]], vs[1..], i - 1);
    }
  }

  /** An id no entry carries is left as it was. */
  lemma {:induction false} UpsertAllKeeps(m: map<string, IndexEntry>, vs: seq<IndexEntry>, k: string)
    requires forall j :: 0 <= j < |vs| ==> vs[j].id != k
    ensures (k in UpsertAll(m, vs) <==> k in m)
    ensures k in m ==> UpsertAll(m, vs)[k] == m[k]
    decreases |vs|
  {
    if |vs| > 0 {
      UpsertAllKeeps(m[vs[0].id := vs[0]], vs[1..], k);
    }
  }

  lemma {:induction false} SelectKeepsUniqueIds(ps: seq<Product>, category: Option<string>)
    requires UniqueProductIds(ps)
    ensures UniqueProductIds(SelectProducts(ps, category))
    decreases |ps|
  {
    if |ps| > 0 {
      SelectKeepsUniqueIds(ps[1..], category);
      var rest := SelectProducts(ps[1..], category);
      forall q | q in rest ensures q.id != ps[0].id {
        assert q in ps[1..];
      }
    }
  }

  /** The vector index: slot `str(id)` holds a product's entry. `upserts`
      records every upsert request sent, in order. */
  class VectorIndex {
    var entries: map<string, IndexEntry>
    ghost var upserts: seq<seq<IndexEntry>>

    constructor ()
      ensures entries == map[] && upserts == []
    {
      entries := map[];
      upserts := [];
    }

    method Upsert(vectors: seq<IndexEntry>)
      modifies this
      ensures entries == UpsertAll(old(entries), vectors)
      ensures upserts == old(upserts) + [vectors]
    {
      entries := UpsertAll(entries, vectors);
      upserts := upserts + [vectors];
    }

    /** `index_product`: re-indexing a product overwrites its slot. */
    method IndexProduct(p: Product, tm: TextModel)
      modifies this
      ensures entries == old(entries)[IdKey(p.id) := EntryFor(p, tm)]
      ensures upserts == old(upserts) + [[EntryFor(p, tm)]]
    {
      Upsert([EntryFor(p, tm)]);
    }

    /** `delete_product`: removes the slot, a no-op when it is absent. */
    method DeleteProduct(productId: int)
      modifies this
      ensures entries == old(entries) - {IdKey(productId)}
      ensures upserts == old(upserts)
    {
      entries := entries - {IdKey(productId)};
    }

    /** `index_all_products`: every active product is sent exactly once, in
        table order, in non-empty batches of at most `batchSize` (one at a
        time when `batchSize < 1`); the remainder is flushed at the end.
        `batches` names the upsert requests this call sends. */
    method IndexAllProducts(catalog: seq<Product>, tm: TextModel, batchSize: int)
      returns (count: int, ghost batches: seq<seq<IndexEntry>>)
      modifies this
      ensures count == |ActiveProducts(catalog)|
      ensures upserts == old(upserts) + batches
      ensures Concat(batches) == EntriesFor(ActiveProducts(catalog), tm)
      ensures forall k :: 0 <= k < |batches| ==> 0 < |batches[k]| <= Max(batchSize, 1)
      ensures entries == UpsertAll(old(entries), EntriesFor(ActiveProducts(catalog), tm))
    {
      var products := ActiveProducts(catalog);
      var vectors: seq<IndexEntry> := [];
      batches := [];
      ghost var sent: seq<IndexEntry> := [];
      for i := 0 to |products|
        invariant upserts == old(upserts) + batches
        invariant Concat(batches) == sent
        invariant sent + vectors == EntriesFor(products[..i], tm)
        invariant entries == UpsertAll(old(entries), sent)
        invariant forall k :: 0 <= k < |batches| ==> 0 < |batches[k]| <= Max(batchSize, 1)
        invariant vectors == [] || |vectors| < batchSize
      {
        EntriesForSnoc(products, i, tm);
        vectors, batches, sent := Buffer(EntryFor(products[i], tm), vectors, batchSize,
          old(upserts), old(entries), batches, sent, EntriesFor(products[..i], tm));
      }
      if |vectors| > 0 {
        SendBatch(vectors, old(upserts), old(entries), batches, sent);
        batches := batches + [vectors];
        sent := sent + vectors;
      }
      assert products[..|products|] == products;
      count := |products|;
    }

    /** One loop iteration of `IndexAllProducts`: append the entry to the
        pending batch and send the batch once it holds `batchSize` entries. */
    method Buffer(
      e: IndexEntry, vectors: seq<IndexEntry>, batchSize: int,
      ghost before: seq<seq<IndexEntry>>, ghost initial: map<string, IndexEntry>,
      ghost batches: seq<seq<IndexEntry>>, ghost sent: seq<IndexEntry>, ghost target: seq<IndexEntry>)
      returns (vectors': seq<IndexEntry>, ghost batches': seq<seq<IndexEntry>>, ghost sent': seq<IndexEntry>)
      requires upserts == before + batches && Concat(batches) == sent && sent + vectors == target
      requires entries == UpsertAll(initial, sent)
      requires forall k :: 0 <= k < |batches| ==> 0 < |batches[k]| <= Max(batchSize, 1)
      requires vectors == [] || |vectors| < batchSize
      modifies this
      ensures upserts == before + batches' && Concat(batches') == sent' && sent' + vectors' == target + [e]
      ensures entries == UpsertAll(initial, sent')
      ensures forall k :: 0 <= k < |batches'| ==> 0 < |batches'[k]| <= Max(batchSize, 1)
      ensures vectors' == [] || |vectors'| < batchSize
    {
      vectors' := vectors + [e];
      assert sent + vectors' == target + [e];
      batches', sent' := batches, sent;
      if |vectors'| >= batchSize {
        SendBatch(vectors', before, initial, batches, sent);
        batches', sent' := batches + [vectors'], sent + vectors';
        vectors' := [];
      }
    }

    /** One upsert of a batch inside `IndexAllProducts`, with the bookkeeping
        that relates everything sent so far to the index contents. */
    method SendBatch(
      vectors: seq<IndexEntry>, ghost before: seq<seq<IndexEntry>>, ghost initial: map<string, IndexEntry>,
      ghost batches: seq<seq<IndexEntry>>, ghost sent: seq<IndexEntry>)
      requires upserts == before + batches && Concat(batches) == sent
      requires entries == UpsertAll(initial, sent)
      modifies this
      ensures upserts == before + (batches + [vectors]) && Concat(batches + [vectors]) == sent + vectors
      ensures entries == UpsertAll(initial, sent + vectors)
    {
      UpsertAllAppend(initial, sent, vectors);
      ConcatSnoc(batches, vectors);
      Upsert(vectors);
    }
  }

  lemma EntriesForSnoc(ps: seq<Product>, i: int, tm: TextModel)
    requires 0 <= i < |ps|
    ensures EntriesFor(ps[..i + 1], tm) == EntriesFor(ps[..i], tm) + [EntryFor(ps[i], tm)]
  {
    assert ps[..i + 1][..i] == ps[..i];
  }

  lemma ConcatSnoc(bs: seq<seq<IndexEntry>>, b: seq<IndexEntry>)
    ensures Concat(bs + [b]) == Concat(bs) + b
  {
    assert (bs + [b])[..|bs|] == bs;
  }

  /** After `index_all_products` over a catalog with unique ids, every active
      product sits in its own slot with its current entry. */
  lemma IndexAllStoresActive(m: map<string, IndexEntry>, catalog: seq<Product>, tm: TextModel, p: Product)
    requires UniqueProductIds(catalog) && p in ActiveProducts(catalog)
    ensures var stored := UpsertAll(m, EntriesFor(ActiveProducts(catalog), tm));
      IdKey(p.id) in stored && stored[IdKey(p.id)] == EntryFor(p, tm)
  {
    var active := ActiveProducts(catalog);
    SelectKeepsUniqueIds(catalog, None);
    var vs := EntriesFor(active, tm);
    EntriesForAt(active, tm);
    forall i, j | 0 <= i < j < |vs| ensures vs[i].id != vs[j].id {
      if vs[i].id == vs[j].id {
        IntToStringInjective(active[i].id, active[j].id);
      }
    }
    var i :| 0 <= i < |active| && active[i] == p;
    UpsertAllStores(m, vs, i);
  }

  // ----- search -----

  datatype QueryRequest = QueryRequest(vector: seq<real>, topK: int, filter: Option<MetadataFilter>)

  datatype Match = Match(id: string, score: real)

  /** The index's nearest-neighbour query over its current entries; `Err`
      is a failure of the embedding or the transport. */
  type IndexQuery = (map<string, IndexEntry>, QueryRequest) -> Result<seq<Match>, string>

  /** What a search reads: the index contents and the two foreign services. */
  datatype SearchBackend = SearchBackend(entries: map<string, IndexEntry>, query: IndexQuery, model: TextModel)

  /** A match the search keeps: above the threshold, with an integer id that
      names an active product. */
  predicate Qualifies(catalog: seq<Product>, m: Match, threshold: real) {
    && threshold <= m.score
    && ParseInt(m.id).Some?
    && FindProduct(catalog, ParseInt(m.id).value).Some?
    && FindProduct(catalog, ParseInt(m.id).value).value.isActive
  }

  /** One iteration of the loop over `results.matches`. */
  function KeepMatch(catalog: seq<Product>, kept: seq<SearchResult>, m: Match, threshold: real): Result<seq<SearchResult>, string> {
    if m.score < threshold then Ok(kept)
    else match ParseInt(m.id)
      case None => Err(InvalidLiteral(m.id))
      case Some(productId) =>
        match FindProduct(catalog, productId)
        case None => Ok(kept)
        case Some(p) =>
          if !p.isActive then Ok(kept)
          else if 0.0 <= m.score <= 1.0 then Ok(kept + [SearchResult(p, m.score)])
          else Err(SimilarityOutOfRange)
  }

  /** The loop over the matches, as a function of the matches seen so far. */
  function Rehydrate(catalog: seq<Product>, matches: seq<Match>, threshold: real): Result<seq<SearchResult>, string>
    decreases |matches|
  {
    if |matches| == 0 then Ok([])
    else match Rehydrate(catalog, matches[..|matches| - 1], threshold)
      case Err(e) => Err(e)
      case Ok(kept) => KeepMatch(catalog, kept, matches[|matches| - 1], threshold)
  }

  /** An exception raised on a prefix of the matches ends the whole search. */
  lemma {:induction false} RehydrateErrSticky(catalog: seq<Product>, matches: seq<Match>, k: int, threshold: real)
    requires 0 <= k <= |matches| && Rehydrate(catalog, matches[..k], threshold).Err?
    ensures Rehydrate(catalog, matches, threshold) == Rehydrate(catalog, matches[..k], threshold)
    decreases |matches| - k
  {
    if k < |matches| {
      assert matches[..k + 1][..k] == matches[..k];
      RehydrateErrSticky(catalog, matches, k + 1, threshold);
    } else {
      assert matches[..k] == matches;
    }
  }

  /** `PineconeService.search`, as the functions above compose it. */
  function SearchSpec(
    catalog: seq<Product>, backend: SearchBackend, query: string, topK: int,
    category: Option<string>, minPrice: Option<real>, maxPrice: Option<real>, minScore: Option<real>
  ): Result<seq<SearchResult>, string>
  {
    var threshold := minScore.GetOr(DefaultMinScore);
    var request := QueryRequest(backend.model.encode(query), topK, BuildFilter(category, minPrice, maxPrice));
    match backend.query(backend.entries, request)
    case Err(e) => Err(e)
    case Ok(matches) => Rehydrate(catalog, matches, threshold)
  }

  /** `search`: query the index, then keep, in index order, the matches at or
      above the threshold whose product exists and is active. */
  method Search(
    catalog: seq<Product>, backend: SearchBackend, query: string, topK: int,
    category: Option<string>, minPrice: Option<real>, maxPrice: Option<real>, minScore: Option<real>
  ) returns (r: Result<seq<SearchResult>, string>)
    ensures r == SearchSpec(catalog, backend, query, topK, category, minPrice, maxPrice, minScore)
  {
    var threshold := if minScore.None? then DefaultMinScore else minScore.value;
    var queryEmbedding := backend.model.encode(query);
    var filter := BuildFilter(category, minPrice, maxPrice);
    var response := backend.query(backend.entries, QueryRequest(queryEmbedding, topK, filter));
    if response.Err? {
      return Err(response.error);
    }
    var matches := response.value;
    var results: seq<SearchResult> := [];
    for i := 0 to |matches|
      invariant Rehydrate(catalog, matches[..i], threshold) == Ok(results)
    {
      assert matches[..i + 1][..i] == matches[..i];
      var m := matches[i];
      assert Rehydrate(catalog, matches[..i + 1], threshold) == KeepMatch(catalog, results, m, threshold);
      if m.score >= threshold {
        var productId := ParseInt(m.id);
        if productId.None? {
          RehydrateErrSticky(catalog, matches, i + 1, threshold);
          return Err(InvalidLiteral(m.id));
        }
        var product := FindProduct(catalog, productId.value);
        if product.Some? && product.value.isActive {
          if !(0.0 <= m.score <= 1.0) {
            RehydrateErrSticky(catalog, matches, i + 1, threshold);
            return Err(SimilarityOutOfRange);
          }
          results := results + [SearchResult(product.value, m.score)];
        }
      }
    }
    assert matches[..|matches|] == matches;
    r := Ok(results);
  }

  /** Every kept result is an active catalog product whose similarity is in
      `[0, 1]` and at or above the threshold. */
  lemma {:induction false} RehydrateSound(catalog: seq<Product>, matches: seq<Match>, threshold: real)
    requires Rehydrate(catalog, matches, threshold).Ok?
    ensures var rs := Rehydrate(catalog, matches, threshold).value;
      forall k :: 0 <= k < |rs| ==>
        && rs[k].product in catalog && rs[k].product.isActive
        && FindProduct(catalog, rs[k].product.id) == Some(rs[k].product)
        && threshold <= rs[k].similarity && 0.0 <= rs[k].similarity <= 1.0
    decreases |matches|
  {
    if |matches| > 0 {
      RehydrateSound(catalog, matches[..|matches| - 1], threshold);
    }
  }

  /** The kept results are an order-preserving subsequence of the matches:
      `idx` says where each came from, and the positions it lists are exactly
      the qualifying matches. */
  lemma {:induction false} RehydrateOrder(catalog: seq<Product>, matches: seq<Match>, threshold: real) returns (idx: seq<int>)
    requires Rehydrate(catalog, matches, threshold).Ok?
    ensures var rs := Rehydrate(catalog, matches, threshold).value;
      && |idx| == |rs|
      && (forall k :: 0 <= k < |idx| ==> 0 <= idx[k] < |matches|)
      && (forall k, l :: 0 <= k < l < |idx| ==> idx[k] < idx[l])
      && (forall k :: 0 <= k < |idx| ==>
            rs[k].similarity == matches[idx[k]].score && ParseInt(matches[idx[k]].id) == Some(rs[k].product.id))
      && (forall i :: 0 <= i < |matches| ==> (Qualifies(catalog, matches[i], threshold) <==> i in idx))
    decreases |matches|
  {
    if |matches| == 0 {
      idx := [];
    } else {
      var n := |matches| - 1;
      var prefix := matches[..n];
      var prev := RehydrateOrder(catalog, prefix, threshold);
      var last := matches[n];
      assert Rehydrate(catalog, matches, threshold) == KeepMatch(catalog, Rehydrate(catalog, prefix, threshold).value, last, threshold);
      if Qualifies(catalog, last, threshold) {
        idx := prev + [n];
      } else {
        idx := prev;
      }
      forall i | 0 <= i < n ensures matches[i] == prefix[i] { }
    }
  }

  predicate NonIncreasingScores(ms: seq<Match>) {
    forall i, j :: 0 <= i < j < |ms| ==> ms[i].score >= ms[j].score
  }

  predicate NonIncreasingSimilarity(rs: seq<SearchResult>) {
    forall i, j :: 0 <= i < j < |rs| ==> rs[i].similarity >= rs[j].similarity
  }

  /** The results of `search`: live catalog products above the threshold,
      a subsequence of the index's matches, and sorted by descending
      similarity whenever the index returns its matches so sorted. */
  lemma SearchResultsLive(
    catalog: seq<Product>, backend: SearchBackend, query: string, topK: int,
    category: Option<string>, minPrice: Option<real>, maxPrice: Option<real>, minScore: Option<real>)
    requires SearchSpec(catalog, backend, query, topK, category, minPrice, maxPrice, minScore).Ok?
    ensures var rs := SearchSpec(catalog, backend, query, topK, category, minPrice, maxPrice, minScore).value;
      forall k :: 0 <= k < |rs| ==>
        && rs[k].product in catalog && rs[k].product.isActive
        && minScore.GetOr(DefaultMinScore) <= rs[k].similarity && 0.0 <= rs[k].similarity <= 1.0
    ensures var request := QueryRequest(backend.model.encode(query), topK, BuildFilter(category, minPrice, maxPrice));
      var rs := SearchSpec(catalog, backend, query, topK, category, minPrice, maxPrice, minScore).value;
      backend.query(backend.entries, request).Ok? &&
      (NonIncreasingScores(backend.query(backend.entries, request).value) ==> NonIncreasingSimilarity(rs))
  {
    var request := QueryRequest(backend.model.encode(query), topK, BuildFilter(category, minPrice, maxPrice));
    var matches := backend.query(backend.entries, request).value;
    var threshold := minScore.GetOr(DefaultMinScore);
    RehydrateSound(catalog, matches, threshold);
    var idx := RehydrateOrder(catalog, matches, threshold);
  }

  // ----- find similar -----

  /** The comprehension that drops the source product. */
  function OtherProducts(rs: seq<SearchResult>, productId: int): (r: seq<SearchResult>)
    ensures |r| <= |rs|
    decreases |rs|
  {
    if |rs| == 0 then []
    else
      var prev := OtherProducts(rs[..|rs| - 1], productId);
      var last := rs[|rs| - 1];
      if last.product.id != productId then prev + [last] else prev
  }

  /** A result of some other product than `productId`. */
  predicate OtherThan(x: SearchResult, productId: int) {
    x.product.id != productId
  }

  /** The comprehension keeps its input's order: `idx` says where each kept
      result sits in `rs`, and the positions it lists are exactly those of
      the other products. */
  lemma {:induction false} OtherProductsOrder(rs: seq<SearchResult>, productId: int) returns (idx: seq<int>)
    ensures var r := OtherProducts(rs, productId);
      && |idx| == |r|
      && (forall k :: 0 <= k < |idx| ==> 0 <= idx[k] < |rs| && r[k] == rs[idx[k]])
      && (forall k, l :: 0 <= k < l < |idx| ==> idx[k] < idx[l])
      && (forall i :: 0 <= i < |rs| ==> (OtherThan(rs[i], productId) <==> i in idx))
    decreases |rs|
  {
    if |rs| == 0 {
      idx := [];
    } else {
      var n := |rs| - 1;
      var prefix := rs[..n];
      var prev := OtherProductsOrder(prefix, productId);
      var kept := OtherProducts(prefix, productId);
      forall i | 0 <= i < n ensures rs[i] == prefix[i] { }
      if OtherThan(rs[n], productId) {
        idx := prev + [n];
        assert OtherProducts(rs, productId) == kept + [rs[n]];
      } else {
        idx := prev;
        assert OtherProducts(rs, productId) == kept;
      }
      assert forall k :: 0 <= k < |prev| ==> idx[k] == prev[k];
      assert forall i :: 0 <= i < n ==> (i in idx <==> i in prev);
    }
  }

  /** The comprehension keeps exactly the results of other products. */
  lemma OtherProductsMembers(rs: seq<SearchResult>, productId: int)
    ensures forall x :: x in OtherProducts(rs, productId) <==> x in rs && x.product.id != productId
  {
    var idx := OtherProductsOrder(rs, productId);
    var r := OtherProducts(rs, productId);
    forall x ensures x in r <==> x in rs && x.product.id != productId {
      if x in r {
        var k :| 0 <= k < |r| && r[k] == x;
        assert OtherThan(rs[idx[k]], productId);
      }
      if x in rs && x.product.id != productId {
        var i :| 0 <= i < |rs| && rs[i] == x;
        assert OtherThan(rs[i], productId);
        var k :| 0 <= k < |idx| && idx[k] == i;
      }
    }
  }

  /** `find_similar_products`: `[]` for an unknown product; otherwise a
      search on the product's own text for `topK + 1` matches at the looser
      floor, without the product itself, cut to `topK`. */
  function FindSimilarProducts(catalog: seq<Product>, backend: SearchBackend, productId: int, topK: int): (r: Result<seq<SearchResult>, string>)
    ensures FindProduct(catalog, productId).None? ==> r == Ok([])
    ensures r.Ok? ==> forall k :: 0 <= k < |r.value| ==> r.value[k].product.id != productId
    ensures r.Ok? ==> forall k :: 0 <= k < |r.value| ==> r.value[k].product in catalog && r.value[k].product.isActive
    ensures r.Ok? && 0 <= topK ==> |r.value| <= topK
    ensures r.Ok? ==> forall k :: 0 <= k < |r.value| ==> SimilarMinScore <= r.value[k].similarity
  {
    match FindProduct(catalog, productId)
    case None => Ok([])
    case Some(p) =>
      var found := SearchSpec(catalog, backend, ProductToText(p, backend.model), topK + 1, None, None, None, Some(SimilarMinScore));
      if found.Err? then Err(found.error)
      else
        SearchResultsLive(catalog, backend, ProductToText(p, backend.model), topK + 1, None, None, None, Some(SimilarMinScore));
        var others := OtherProducts(found.value, productId);
        OtherProductsMembers(found.value, productId);
        var r := Prefix(others, topK);
        assert forall k :: 0 <= k < |r| ==> r[k] in others;
        Ok(r)
  }

  /** One step of unfolding `find_similar_products` for a known product. */
  lemma FindSimilarUnfold(catalog: seq<Product>, backend: SearchBackend, productId: int, topK: int)
    requires FindProduct(catalog, productId).Some?
    ensures var p := FindProduct(catalog, productId).value;
      var s := SearchSpec(catalog, backend, ProductToText(p, backend.model), topK + 1, None, None, None, Some(SimilarMinScore));
      FindSimilarProducts(catalog, backend, productId, topK) ==
        if s.Err? then Err(s.error) else Ok(Prefix(OtherProducts(s.value, productId), topK))
  {
  }

  /** The first `topK` results of other products, taken in order: `idx`
      says where each sits in `rs`; every other product that was cut comes
      after all the kept ones, and when fewer than `topK` were kept none was
      cut. */
  lemma FirstOtherProducts(rs: seq<SearchResult>, productId: int, topK: int) returns (idx: seq<int>)
    ensures var r := Prefix(OtherProducts(rs, productId), topK);
      && |idx| == |r|
      && (forall k :: 0 <= k < |idx| ==> 0 <= idx[k] < |rs| && r[k] == rs[idx[k]])
      && (forall k, l :: 0 <= k < l < |idx| ==> idx[k] < idx[l])
      && (forall i, k :: 0 <= i < |rs| && rs[i].product.id != productId && i !in idx && 0 <= k < |idx| ==> idx[k] < i)
      && (0 <= topK && |idx| < topK ==>
            forall i :: 0 <= i < |rs| && rs[i].product.id != productId ==> i in idx)
  {
    var others := OtherProducts(rs, productId);
    var all := OtherProductsOrder(rs, productId);
    var r := Prefix(others, topK);
    var n := |r|;
    assert r == others[..n];
    idx := all[..n];
    forall i, k | 0 <= i < |rs| && rs[i].product.id != productId && i !in idx && 0 <= k < |idx|
      ensures idx[k] < i
    {
      assert OtherThan(rs[i], productId);
      var j :| 0 <= j < |all| && all[j] == i;
    }
    if 0 <= topK && n < topK {
      assert idx == all;
      forall i | 0 <= i < |rs| && rs[i].product.id != productId ensures i in idx {
        assert OtherThan(rs[i], productId);
      }
    }
  }

  /** For a known product, `find_similar_products` is the search on that
      product's text for `topK + 1` matches at the 0.2 floor: it raises
      exactly when that search does, and otherwise returns, in search order,
      the first `topK` results that are not the product itself (`idx` says
      where each sits in the search's results). */
  lemma FindSimilarFromSearch(catalog: seq<Product>, backend: SearchBackend, productId: int, topK: int) returns (idx: seq<int>)
    requires FindProduct(catalog, productId).Some?
    ensures var p := FindProduct(catalog, productId).value;
      var s := SearchSpec(catalog, backend, ProductToText(p, backend.model), topK + 1, None, None, None, Some(SimilarMinScore));
      var r := FindSimilarProducts(catalog, backend, productId, topK);
      && (r.Err? <==> s.Err?)
      && (s.Err? ==> r == Err(s.error))
      && (r.Ok? ==>
            && |idx| == |r.value|
            && (forall k :: 0 <= k < |idx| ==> 0 <= idx[k] < |s.value| && r.value[k] == s.value[idx[k]])
            && (forall k, l :: 0 <= k < l < |idx| ==> idx[k] < idx[l])
            && (forall i, k :: 0 <= i < |s.value| && s.value[i].product.id != productId && i !in idx && 0 <= k < |idx| ==> idx[k] < i)
            && (0 <= topK && |idx| < topK ==>
                  forall i :: 0 <= i < |s.value| && s.value[i].product.id != productId ==> i in idx))
  {
    var p := FindProduct(catalog, productId).value;
    var s := SearchSpec(catalog, backend, ProductToText(p, backend.model), topK + 1, None, None, None, Some(SimilarMinScore));
    FindSimilarUnfold(catalog, backend, productId, topK);
    idx := [];
    if s.Ok? {
      idx := FirstOtherProducts(s.value, productId, topK);
    }
  }

  /** The index answers a query with at most `top_k` matches. */
  ghost predicate QueryBounded(q: IndexQuery) {
    forall entries, request :: q(entries, request).Ok? ==> |q(entries, request).value| <= request.topK
  }

  /** Rehydration keeps at most one result per match. */
  lemma {:induction false} RehydrateShrinks(catalog: seq<Product>, matches: seq<Match>, threshold: real)
    requires Rehydrate(catalog, matches, threshold).Ok?
    ensures |Rehydrate(catalog, matches, threshold).value| <= |matches|
    decreases |matches|
  {
    if |matches| > 0 {
      RehydrateShrinks(catalog, matches[..|matches| - 1], threshold);
    }
  }

  /** Over an index that honours `top_k`, a search returns at most `top_k`
      results. */
  lemma SearchAtMostTopK(
    catalog: seq<Product>, backend: SearchBackend, query: string, topK: int,
    category: Option<string>, minPrice: Option<real>, maxPrice: Option<real>, minScore: Option<real>)
    requires QueryBounded(backend.query)
    requires SearchSpec(catalog, backend, query, topK, category, minPrice, maxPrice, minScore).Ok?
    ensures |SearchSpec(catalog, backend, query, topK, category, minPrice, maxPrice, minScore).value| <= topK
  {
    var request := QueryRequest(backend.model.encode(query), topK, BuildFilter(category, minPrice, maxPrice));
    var matches := backend.query(backend.entries, request).value;
    RehydrateShrinks(catalog, matches, minScore.GetOr(DefaultMinScore));
  }
}

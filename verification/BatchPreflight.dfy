/** The canonical expansion of a batch request into one plan per (product, platform, index). */
module BatchPreflight {
  import opened Wrappers
  import opened Sorting

  const MAX_BATCH_VARIANTS: nat := 60

  /** In alphabetical order of their names. */
  datatype Platform = Instagram | Tiktok | Youtube

  function PlatformRank(p: Platform): nat {
    match p case Instagram => 0 case Tiktok => 1 case Youtube => 2
  }

  predicate PlatformLe(a: Platform, b: Platform) { PlatformRank(a) <= PlatformRank(b) }

  lemma PlatformLeIsOrder()
    ensures TotalPreorder(PlatformLe) && Antisymmetric(PlatformLe)
  {
  }

  function PlatformName(p: Platform): string {
    match p case Instagram => "instagram" case Tiktok => "tiktok" case Youtube => "youtube"
  }

  /** Platforms sort as their names do. */
  lemma PlatformsSortByName(a: Platform, b: Platform)
    ensures PlatformLe(a, b) <==> StringLe(PlatformName(a), PlatformName(b))
  {
    StringLeByFirstDifference("", PlatformName(a), PlatformName(b));
    StringLeTotal(PlatformName(a), PlatformName(b));
  }

  datatype BatchRequest = BatchRequest(
    productIds: seq<int>,
    platforms: seq<Platform>,
    perPlatform: nat,
    language: string,
    priority: nat,
    maxConcurrency: nat,
    creativeAngle: Option<string>)

  /** The field bounds of the request schema. */
  predicate ValidRequest(r: BatchRequest) {
    && 1 <= |r.productIds| <= 20 && 1 <= |r.platforms| <= 3
    && 1 <= r.perPlatform <= 10 && 1 <= r.maxConcurrency <= 20 && r.priority <= 100
  }

  datatype BrandRef = BrandRef(id: nat, digest: string)

  /** A product's brand reference; `brand` is None both for no reference and for a dangling one. */
  datatype Product = Product(brandId: Option<nat>, brand: Option<BrandRef>)

  type Catalogue = map<int, Product>

  /** Everything that a variant's source digest covers; duration, aspect and contract are constants. */
  datatype Plan = Plan(product: int, platform: Platform, index: nat, language: string,
                       creativeAngle: Option<string>, brand: Option<BrandRef>)

  datatype Frozen = Frozen(productIds: seq<int>, platforms: seq<Platform>, perPlatform: nat, language: string,
                           priority: nat, maxConcurrency: nat, creativeAngle: Option<string>, plans: seq<Plan>)

  datatype PreflightResult = Ready(frozen: Frozen) | Refused(code: nat)

  // ----- the expansion as a function -----

  function PlanOf(r: BatchRequest, products: Catalogue, product: int, platform: Platform, index: nat): Plan {
    Plan(product, platform, index, r.language, r.creativeAngle, if product in products then products[product].brand else None)
  }

  function IndexPlans(r: BatchRequest, products: Catalogue, product: int, platform: Platform, n: nat): seq<Plan> {
    if n == 0 then [] else IndexPlans(r, products, product, platform, n - 1) + [PlanOf(r, products, product, platform, n)]
  }

  function PlatformPlans(r: BatchRequest, products: Catalogue, product: int, platforms: seq<Platform>): seq<Plan> {
    if platforms == [] then []
    else PlatformPlans(r, products, product, platforms[..|platforms| - 1])
         + IndexPlans(r, products, product, platforms[|platforms| - 1], r.perPlatform)
  }

  function Expansion(r: BatchRequest, products: Catalogue, ids: seq<int>, platforms: seq<Platform>): seq<Plan> {
    if ids == [] then []
    else Expansion(r, products, ids[..|ids| - 1], platforms) + PlatformPlans(r, products, ids[|ids| - 1], platforms)
  }

  // ----- what the expansion contains, and in what order -----

  predicate Before(a: Plan, b: Plan) {
    a.product < b.product
    || (a.product == b.product && (PlatformRank(a.platform) < PlatformRank(b.platform)
                                   || (a.platform == b.platform && a.index < b.index)))
  }

  predicate StrictlyOrdered(plans: seq<Plan>) { forall i, j :: 0 <= i < j < |plans| ==> Before(plans[i], plans[j]) }

  lemma {:induction false} IndexPlansAt(r: BatchRequest, products: Catalogue, product: int, platform: Platform, n: nat)
    ensures |IndexPlans(r, products, product, platform, n)| == n
    ensures forall k :: 0 <= k < n ==>
      IndexPlans(r, products, product, platform, n)[k] == PlanOf(r, products, product, platform, k + 1)
  {
    if n > 0 { IndexPlansAt(r, products, product, platform, n - 1); }
  }

  lemma AppendOrdered(front: seq<Plan>, back: seq<Plan>)
    requires StrictlyOrdered(front) && StrictlyOrdered(back)
    requires forall a, b :: a in front && b in back ==> Before(a, b)
    ensures StrictlyOrdered(front + back)
  {
    var plans := front + back;
    forall i, j | 0 <= i < j < |plans| ensures Before(plans[i], plans[j]) {
      if i < |front| <= j { assert front[i] in front && back[j - |front|] in back; }
    }
  }

  lemma OrderedIsDistinct(plans: seq<Plan>)
    requires StrictlyOrdered(plans)
    ensures Distinct(plans)
  {
    forall i, j | 0 <= i < j < |plans| ensures plans[i] != plans[j] { assert Before(plans[i], plans[j]); }
  }

  lemma {:induction false} SizeOfPlatforms(r: BatchRequest, products: Catalogue, product: int, platforms: seq<Platform>)
    ensures |PlatformPlans(r, products, product, platforms)| == |platforms| * r.perPlatform
  {
    if platforms != [] {
      SizeOfPlatforms(r, products, product, platforms[..|platforms| - 1]);
      IndexPlansAt(r, products, product, platforms[|platforms| - 1], r.perPlatform);
      assert (|platforms| - 1) * r.perPlatform + r.perPlatform == |platforms| * r.perPlatform;
    }
  }

  lemma {:induction false} SizeOfExpansion(r: BatchRequest, products: Catalogue, ids: seq<int>, platforms: seq<Platform>)
    ensures |Expansion(r, products, ids, platforms)| == |ids| * (|platforms| * r.perPlatform)
  {
    if ids != [] {
      SizeOfExpansion(r, products, ids[..|ids| - 1], platforms);
      SizeOfPlatforms(r, products, ids[|ids| - 1], platforms);
      assert (|ids| - 1) * (|platforms| * r.perPlatform) + |platforms| * r.perPlatform == |ids| * (|platforms| * r.perPlatform);
    }
  }

  /** A plan belongs to a list exactly when it is the plan of one of the listed triples. */
  predicate IsPlanOf(p: Plan, r: BatchRequest, products: Catalogue, product: int, platforms: seq<Platform>) {
    p.platform in platforms && 1 <= p.index <= r.perPlatform && p == PlanOf(r, products, product, p.platform, p.index)
  }

  lemma IndexPlansMembers(r: BatchRequest, products: Catalogue, product: int, platform: Platform, p: Plan)
    ensures p in IndexPlans(r, products, product, platform, r.perPlatform) <==> IsPlanOf(p, r, products, product, [platform])
  {
    var plans := IndexPlans(r, products, product, platform, r.perPlatform);
    IndexPlansAt(r, products, product, platform, r.perPlatform);
    if IsPlanOf(p, r, products, product, [platform]) { assert plans[p.index - 1] == p; }
  }

  lemma {:induction false} PlatformPlansMembers(r: BatchRequest, products: Catalogue, product: int, platforms: seq<Platform>, p: Plan)
    ensures p in PlatformPlans(r, products, product, platforms) <==> IsPlanOf(p, r, products, product, platforms)
  {
    if platforms != [] {
      var init, last := platforms[..|platforms| - 1], platforms[|platforms| - 1];
      assert platforms == init + [last];
      PlatformPlansMembers(r, products, product, init, p);
      IndexPlansMembers(r, products, product, last, p);
    }
  }

  lemma {:induction false} ExpansionMembers(r: BatchRequest, products: Catalogue, ids: seq<int>, platforms: seq<Platform>, p: Plan)
    ensures p in Expansion(r, products, ids, platforms) <==>
            p.product in ids && IsPlanOf(p, r, products, p.product, platforms)
  {
    if ids != [] {
      var init, last := ids[..|ids| - 1], ids[|ids| - 1];
      assert ids == init + [last];
      ExpansionMembers(r, products, init, platforms, p);
      PlatformPlansMembers(r, products, last, platforms, p);
    }
  }

  lemma {:induction false} PlatformPlansOrdered(r: BatchRequest, products: Catalogue, product: int, platforms: seq<Platform>)
    requires Sorted(PlatformLe, platforms) && Distinct(platforms)
    ensures StrictlyOrdered(PlatformPlans(r, products, product, platforms))
  {
    if platforms != [] {
      var init, last := platforms[..|platforms| - 1], platforms[|platforms| - 1];
      PlatformPlansOrdered(r, products, product, init);
      IndexPlansAt(r, products, product, last, r.perPlatform);
      var front, back := PlatformPlans(r, products, product, init), IndexPlans(r, products, product, last, r.perPlatform);
      forall a, b | a in front && b in back ensures Before(a, b) {
        PlatformPlansMembers(r, products, product, init, a);
        IndexPlansMembers(r, products, product, last, b);
        var m :| 0 <= m < |init| && init[m] == a.platform;
        assert PlatformLe(platforms[m], platforms[|init|]) && platforms[m] != platforms[|init|];
      }
      AppendOrdered(front, back);
    }
  }

  lemma {:induction false} ExpansionOrdered(r: BatchRequest, products: Catalogue, ids: seq<int>, platforms: seq<Platform>)
    requires Sorted(IntLe, ids) && Distinct(ids) && Sorted(PlatformLe, platforms) && Distinct(platforms)
    ensures StrictlyOrdered(Expansion(r, products, ids, platforms))
  {
    if ids != [] {
      var init, last := ids[..|ids| - 1], ids[|ids| - 1];
      ExpansionOrdered(r, products, init, platforms);
      PlatformPlansOrdered(r, products, last, platforms);
      var front, back := Expansion(r, products, init, platforms), PlatformPlans(r, products, last, platforms);
      forall a, b | a in front && b in back ensures Before(a, b) {
        ExpansionMembers(r, products, init, platforms, a);
        PlatformPlansMembers(r, products, last, platforms, b);
        var m :| 0 <= m < |init| && init[m] == a.product;
        assert IntLe(ids[m], ids[|init|]) && ids[m] != ids[|init|];
      }
      AppendOrdered(front, back);
    }
  }

  // ----- the service -----

  function Freeze(r: BatchRequest, products: Catalogue): Frozen {
    var ids, platforms := Sort(IntLe, r.productIds), Sort(PlatformLe, r.platforms);
    Frozen(ids, platforms, r.perPlatform, r.language, r.priority, r.maxConcurrency, r.creativeAngle,
           Expansion(r, products, ids, platforms))
  }

  predicate Missing(products: Catalogue, ids: seq<int>) { exists d :: d in ids && d !in products }

  predicate Dangling(products: Catalogue, id: int) {
    id in products && products[id].brandId.Some? && products[id].brand.None?
  }

  predicate SomeDangling(products: Catalogue, ids: seq<int>) { exists d :: d in ids && Dangling(products, d) }

  lemma ChecksIgnoreOrder(r: BatchRequest, products: Catalogue)
    ensures var ids := Sort(IntLe, r.productIds);
      && |ids| == |r.productIds| && |Sort(PlatformLe, r.platforms)| == |r.platforms|
      && (Missing(products, ids) <==> Missing(products, r.productIds))
      && (SomeDangling(products, ids) <==> SomeDangling(products, r.productIds))
  {
    SortKeepsElements(IntLe, r.productIds);
    SortKeepsElements(PlatformLe, r.platforms);
  }

  function Preflight(r: BatchRequest, products: Catalogue): PreflightResult {
    if !Distinct(r.productIds) || !Distinct(r.platforms) then Refused(422)
    else
      var total := |r.productIds| * (|r.platforms| * r.perPlatform);
      if total > MAX_BATCH_VARIANTS || r.maxConcurrency > total then Refused(422)
      else if Missing(products, r.productIds) then Refused(404)
      else if SomeDangling(products, r.productIds) then Refused(409)
      else Ready(Freeze(r, products))
  }

  lemma SortedDistinct(r: BatchRequest)
    requires Distinct(r.productIds) && Distinct(r.platforms)
    ensures Sorted(IntLe, Sort(IntLe, r.productIds)) && Distinct(Sort(IntLe, r.productIds))
    ensures Sorted(PlatformLe, Sort(PlatformLe, r.platforms)) && Distinct(Sort(PlatformLe, r.platforms))
    ensures |Sort(IntLe, r.productIds)| == |r.productIds| && |Sort(PlatformLe, r.platforms)| == |r.platforms|
  {
    IntLeIsOrder();
    PlatformLeIsOrder();
    SortSorts(IntLe, r.productIds);
    SortSorts(PlatformLe, r.platforms);
    SortKeepsElements(IntLe, r.productIds);
    SortKeepsElements(PlatformLe, r.platforms);
    SortPermutes(IntLe, r.productIds);
    SortPermutes(PlatformLe, r.platforms);
    DistinctByMultiset(r.productIds, Sort(IntLe, r.productIds));
    DistinctByMultiset(r.platforms, Sort(PlatformLe, r.platforms));
  }

  /** What an accepted preflight promises, for every request and catalogue. */
  lemma PreflightIsCanonical(r: BatchRequest, products: Catalogue)
    requires Preflight(r, products).Ready?
    ensures var f := Preflight(r, products).frozen;
      && |f.plans| == |r.productIds| * (|r.platforms| * r.perPlatform) <= MAX_BATCH_VARIANTS
      && r.maxConcurrency <= |f.plans|
      && StrictlyOrdered(f.plans) && Distinct(f.plans)
      && (forall p :: p in f.plans <==> p.product in r.productIds && IsPlanOf(p, r, products, p.product, r.platforms))
  {
    SortedDistinct(r);
    SortKeepsElements(IntLe, r.productIds);
    SortKeepsElements(PlatformLe, r.platforms);
    var ids, platforms := Sort(IntLe, r.productIds), Sort(PlatformLe, r.platforms);
    SizeOfExpansion(r, products, ids, platforms);
    ExpansionOrdered(r, products, ids, platforms);
    OrderedIsDistinct(Expansion(r, products, ids, platforms));
    forall p ensures p in Freeze(r, products).plans <==> p.product in r.productIds && IsPlanOf(p, r, products, p.product, r.platforms) {
      ExpansionMembers(r, products, ids, platforms, p);
    }
  }

  /** Which requests are refused, and with which code. */
  lemma PreflightExact(r: BatchRequest, products: Catalogue)
    ensures var total := |r.productIds| * (|r.platforms| * r.perPlatform);
      var invalid := (exists i, j :: 0 <= i < j < |r.productIds| && r.productIds[i] == r.productIds[j])
                     || (exists i, j :: 0 <= i < j < |r.platforms| && r.platforms[i] == r.platforms[j])
                     || total > 60 || r.maxConcurrency > total;
      var missing := exists d :: d in r.productIds && d !in products;
      var dangling := exists d :: d in r.productIds && d in products && products[d].brandId.Some? && products[d].brand.None?;
      if invalid then Preflight(r, products) == Refused(422)
      else if missing then Preflight(r, products) == Refused(404)
      else if dangling then Preflight(r, products) == Refused(409)
      else Preflight(r, products).Ready?
  {
  }

  /** What an accepted preflight freezes: the request, its lists sorted, and one plan per triple with the product's own brand. */
  lemma FrozenExact(r: BatchRequest, products: Catalogue)
    requires Preflight(r, products).Ready?
    ensures var f := Preflight(r, products).frozen;
      && multiset(f.productIds) == multiset(r.productIds) && Sorted(IntLe, f.productIds)
      && multiset(f.platforms) == multiset(r.platforms) && Sorted(PlatformLe, f.platforms)
      && f.perPlatform == r.perPlatform && f.language == r.language && f.priority == r.priority
      && f.maxConcurrency == r.maxConcurrency && f.creativeAngle == r.creativeAngle
      && (forall p :: p in f.plans ==>
            && p.product in r.productIds && p.platform in r.platforms && 1 <= p.index <= r.perPlatform
            && p.language == r.language && p.creativeAngle == r.creativeAngle
            && p.product in products && p.brand == products[p.product].brand)
      && (forall d, q, i :: d in r.productIds && q in r.platforms && 1 <= i <= r.perPlatform ==>
            d in products && Plan(d, q, i, r.language, r.creativeAngle, products[d].brand) in f.plans)
  {
    var f := Preflight(r, products).frozen;
    PreflightIsCanonical(r, products);
    SortedDistinct(r);
    SortPermutes(IntLe, r.productIds);
    SortPermutes(PlatformLe, r.platforms);
    assert forall d :: d in r.productIds ==> d in products;
    forall d, q, i | d in r.productIds && q in r.platforms && 1 <= i <= r.perPlatform
      ensures d in products && Plan(d, q, i, r.language, r.creativeAngle, products[d].brand) in f.plans
    {
      var p := Plan(d, q, i, r.language, r.creativeAngle, products[d].brand);
      assert IsPlanOf(p, r, products, p.product, r.platforms);
    }
  }

  /** Requests that differ at most in the order of their lists. */
  predicate SameUpToOrder(a: BatchRequest, b: BatchRequest) {
    && multiset(a.productIds) == multiset(b.productIds) && multiset(a.platforms) == multiset(b.platforms)
    && a.(productIds := [], platforms := []) == b.(productIds := [], platforms := [])
  }

  lemma {:induction false} ExpansionIgnoresOrder(a: BatchRequest, b: BatchRequest, products: Catalogue, ids: seq<int>, platforms: seq<Platform>)
    requires a.perPlatform == b.perPlatform && a.language == b.language && a.creativeAngle == b.creativeAngle
    ensures Expansion(a, products, ids, platforms) == Expansion(b, products, ids, platforms)
    decreases ids
  {
    if ids != [] {
      ExpansionIgnoresOrder(a, b, products, ids[..|ids| - 1], platforms);
      PlatformsIgnoreOrder(a, b, products, ids[|ids| - 1], platforms);
    }
  }

  lemma {:induction false} PlatformsIgnoreOrder(a: BatchRequest, b: BatchRequest, products: Catalogue, id: int, platforms: seq<Platform>)
    requires a.perPlatform == b.perPlatform && a.language == b.language && a.creativeAngle == b.creativeAngle
    ensures PlatformPlans(a, products, id, platforms) == PlatformPlans(b, products, id, platforms)
  {
    if platforms != [] {
      PlatformsIgnoreOrder(a, b, products, id, platforms[..|platforms| - 1]);
      var q := platforms[|platforms| - 1];
      IndexPlansAt(a, products, id, q, a.perPlatform);
      IndexPlansAt(b, products, id, q, b.perPlatform);
      assert IndexPlans(a, products, id, q, a.perPlatform) == IndexPlans(b, products, id, q, b.perPlatform);
    }
  }

  /** The frozen payload identifies the request exactly up to the order of its lists. */
  lemma FrozenIffSameUpToOrder(a: BatchRequest, b: BatchRequest, products: Catalogue)
    ensures Freeze(a, products) == Freeze(b, products) <==> SameUpToOrder(a, b)
  {
    IntLeIsOrder();
    PlatformLeIsOrder();
    SortIsCanonical(IntLe, a.productIds, b.productIds);
    SortIsCanonical(PlatformLe, a.platforms, b.platforms);
    if SameUpToOrder(a, b) {
      ExpansionIgnoresOrder(a, b, products, Sort(IntLe, a.productIds), Sort(PlatformLe, a.platforms));
    }
  }

  class BatchVideoPreflightService {
    /** The nested loops over products, platforms and indices. */
    static method Run(r: BatchRequest, products: Catalogue) returns (result: PreflightResult)
      ensures result == Preflight(r, products)
    {
      if !Distinct(r.productIds) || !Distinct(r.platforms) { return Refused(422); }
      var ids, platforms := Sort(IntLe, r.productIds), Sort(PlatformLe, r.platforms);
      ChecksIgnoreOrder(r, products);
      var total := |ids| * (|platforms| * r.perPlatform);
      if total > MAX_BATCH_VARIANTS || r.maxConcurrency > total { return Refused(422); }
      if Missing(products, ids) { return Refused(404); }
      var plans := AllPlans(r, products, ids, platforms);
      if plans.None? { return Refused(409); }
      result := Ready(Frozen(ids, platforms, r.perPlatform, r.language, r.priority, r.maxConcurrency, r.creativeAngle, plans.value));
    }

    /** The outer loop, over products in order; a dangling brand reference stops it. */
    static method AllPlans(r: BatchRequest, products: Catalogue, ids: seq<int>, platforms: seq<Platform>) returns (all: Option<seq<Plan>>)
      ensures all == if SomeDangling(products, ids) then None else Some(Expansion(r, products, ids, platforms))
    {
      var plans: seq<Plan> := [];
      for i := 0 to |ids|
        invariant plans == Expansion(r, products, ids[..i], platforms)
        invariant forall m :: 0 <= m < i ==> !Dangling(products, ids[m])
      {
        if Dangling(products, ids[i]) {
          assert ids[i] in ids;
          return None;
        }
        var added := ProductLoop(r, products, ids[i], platforms);
        assert ids[..i + 1][..i] == ids[..i];
        plans := plans + added;
      }
      assert ids[..|ids|] == ids;
      all := Some(plans);
    }

    /** The two inner loops, for one product. */
    static method ProductLoop(r: BatchRequest, products: Catalogue, product: int, platforms: seq<Platform>)
      returns (plans: seq<Plan>)
      ensures plans == PlatformPlans(r, products, product, platforms)
    {
      plans := [];
      for j := 0 to |platforms|
        invariant plans == PlatformPlans(r, products, product, platforms[..j])
      {
        ghost var outer := plans;
        for index := 1 to r.perPlatform + 1
          invariant plans == outer + IndexPlans(r, products, product, platforms[j], index - 1)
        {
          plans := plans + [PlanOf(r, products, product, platforms[j], index)];
        }
        assert platforms[..j + 1][..j] == platforms[..j];
      }
      assert platforms[..|platforms|] == platforms;
    }
  }
}

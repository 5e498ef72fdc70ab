/** The rules of the product list view (`ListaProductos.jsx`): the derived filtered
    list, the stock badges, selling with a per-product in-flight flag, and the
    throttle on refreshing when the user comes back to the product section. */
module ProductList {
  import opened Wrappers
  import opened Seqs
  import opened Text
  import opened Catalog

  // ---------------------------------------------------------------------------
  // Search and stock-tier filter

  /** The stock select: "todos", "bajo" or "agotado". */
  datatype StockTier = All | Low | SoldOut

  /** The stock condition a tier imposes. */
  predicate InTier(tier: StockTier, stock: int) {
    match tier
    case All => true
    case Low => 0 < stock <= 5
    case SoldOut => stock == 0
  }

  /** Case-insensitive substring match of the search text against a name. */
  predicate NameMatches(nombre: string, busqueda: string) {
    Contains(ToLower(nombre), ToLower(busqueda))
  }

  /** The search condition: a blank search matches everything, any other search is
      matched untrimmed against the name. */
  predicate SearchOk(p: Product, busqueda: string) {
    IsBlank(busqueda) || NameMatches(p.nombre, busqueda)
  }

  /** Whether the list shows `p`: it meets the search and its stock fits the tier. */
  predicate Shown(p: Product, busqueda: string, tier: StockTier) {
    SearchOk(p, busqueda) && InTier(tier, p.stock)
  }

  /** The filter effect: the name filter runs only when the trimmed search is
      non-empty, then the tier filter narrows the result. The two stages amount to a
      single filter by `Shown`. */
  function FilterProducts(productos: seq<Product>, busqueda: string, tier: StockTier): (r: seq<Product>)
    ensures r == Filter(productos, (p: Product) => Shown(p, busqueda, tier))
  {
    var bySearch :=
      if Trim(busqueda) != "" then Filter(productos, (p: Product) => NameMatches(p.nombre, busqueda))
      else productos;
    SearchStageIsFilter(productos, busqueda);
    match tier
    case All =>
      FilterCongruent(productos, (p: Product) => SearchOk(p, busqueda), (p: Product) => Shown(p, busqueda, tier));
      bySearch
    case Low =>
      FilterFilter(productos, (p: Product) => SearchOk(p, busqueda), (p: Product) => 0 < p.stock <= 5,
                   (p: Product) => Shown(p, busqueda, tier));
      Filter(bySearch, (p: Product) => 0 < p.stock <= 5)
    case SoldOut =>
      FilterFilter(productos, (p: Product) => SearchOk(p, busqueda), (p: Product) => p.stock == 0,
                   (p: Product) => Shown(p, busqueda, tier));
      Filter(bySearch, (p: Product) => p.stock == 0)
  }

  /** The list shown is an order-preserving selection of `productos` holding
      exactly the products `Shown` accepts; with tier "todos" and a blank search it
      is `productos` itself. */
  lemma FilterProductsSelects(productos: seq<Product>, busqueda: string, tier: StockTier)
    ensures var r := FilterProducts(productos, busqueda, tier);
      && IsSubsequence(r, productos)
      && |r| <= |productos|
      && (forall p :: p in r <==> p in productos && Shown(p, busqueda, tier))
      && (tier == All && IsBlank(busqueda) ==> r == productos)
  {
  }

  /** The search stage, skipped for a blank search, is a filter by `SearchOk`. */
  lemma SearchStageIsFilter(productos: seq<Product>, busqueda: string)
    ensures (if Trim(busqueda) != "" then Filter(productos, (p: Product) => NameMatches(p.nombre, busqueda))
             else productos)
         == Filter(productos, (p: Product) => SearchOk(p, busqueda))
  {
    if Trim(busqueda) != "" {
      FilterCongruent(productos, (p: Product) => NameMatches(p.nombre, busqueda), (p: Product) => SearchOk(p, busqueda));
    }
  }

  /** Tier "bajo" shows only products with 1 to 5 units, tier "agotado" only
      products with none. */
  lemma TierBounds(productos: seq<Product>, busqueda: string)
    ensures forall p :: p in FilterProducts(productos, busqueda, Low) ==> 0 < p.stock <= 5
    ensures forall p :: p in FilterProducts(productos, busqueda, SoldOut) ==> p.stock == 0
  {
  }

  /** The search ignores letter case, in the query and in the names alike. */
  lemma SearchIgnoresCase(productos: seq<Product>, busqueda: string, tier: StockTier, p: Product)
    requires p in productos
    requires !IsBlank(busqueda)
    requires InTier(tier, p.stock)
    ensures p in FilterProducts(productos, busqueda, tier)
        <==> Contains(ToLower(p.nombre), ToLower(busqueda))
    ensures NameMatches(p.nombre, busqueda) <==> NameMatches(p.nombre, ToLower(busqueda))
    ensures NameMatches(p.nombre, busqueda) <==> NameMatches(ToLower(p.nombre), busqueda)
  {
    ToLowerIdempotent(busqueda);
    ToLowerIdempotent(p.nombre);
  }

  /** The query is matched untrimmed: a search such as "cola " passes the blank
      test, and its space must then occur in the name, so it never finds a product
      whose name has no space. */
  lemma SearchKeepsSpaces(p: Product, busqueda: string, j: int)
    requires 0 <= j < |busqueda| && busqueda[j] == ' '
    requires forall i :: 0 <= i < |p.nombre| ==> p.nombre[i] != ' '
    requires !IsBlank(busqueda)
    ensures !SearchOk(p, busqueda)
  {
    var name, query := ToLower(p.nombre), ToLower(busqueda);
    forall k
      ensures !OccursAt(name, query, k)
    {
      if 0 <= k && k + |query| <= |name| {
        assert name[k..k + |query|][j] == name[k + j];
        assert LowerChar(p.nombre[k + j]) != ' ';
      }
    }
  }

  // ---------------------------------------------------------------------------
  // Filter controls

  datatype Filters = Filters(busqueda: string, tier: StockTier)

  /** `limpiarFiltros`: an empty search and tier "todos", which shows every product. */
  function ClearFilters(f: Filters): (r: Filters)
    ensures forall productos :: FilterProducts(productos, r.busqueda, r.tier) == productos
    ensures !ShowsClearButton(r)
  {
    Filters("", All)
  }

  /** The desktop "Limpiar filtros" button appears while the search is non-empty
      (untrimmed) or a tier other than "todos" is chosen. */
  predicate ShowsClearButton(f: Filters) {
    |f.busqueda| > 0 || f.tier != All
  }

  // ---------------------------------------------------------------------------
  // Stock badges on a product card

  datatype Badge = LowStockBadge | SoldOutBadge

  /** The badges on a card: "Stock Bajo" for 1 to 3 units, "Sin Stock" for none;
      the two conditions are tested separately, yet a card never shows both. */
  function Badges(stock: int): (r: set<Badge>)
    ensures |r| <= 1
    ensures LowStockBadge in r <==> 0 < stock <= 3
    ensures SoldOutBadge in r <==> stock == 0
  {
    (if 0 < stock <= 3 then {LowStockBadge} else {}) + (if stock == 0 then {SoldOutBadge} else {})
  }

  /** A "Stock Bajo" card passes the "bajo" filter (which also admits 4 and 5 units),
      and a card shows "Sin Stock" exactly when it passes the "agotado" filter. */
  lemma BadgesAgreeWithTiers(stock: int)
    ensures LowStockBadge in Badges(stock) ==> InTier(Low, stock)
    ensures SoldOutBadge in Badges(stock) <==> InTier(SoldOut, stock)
    ensures InTier(Low, 4) && LowStockBadge !in Badges(4)
  {
  }

  // ---------------------------------------------------------------------------
  // Selling: `venderProducto` and the `vendiendo` map

  /** `vendiendo`: product id to "a sale request for it is in flight". */
  type InFlight = map<int, bool>

  /** An absent entry reads as `undefined`, which is not in flight. */
  predicate IsSelling(vendiendo: InFlight, id: int) {
    id in vendiendo && vendiendo[id]
  }

  /** The sell button is enabled when there is stock and no sale of this product
      is in flight. */
  function SellEnabled(p: Product, vendiendo: InFlight): (enabled: bool)
    ensures enabled <==> p.stock > 0 && (p.idProducto !in vendiendo || !vendiendo[p.idProducto])
  {
    !(p.stock <= 0 || IsSelling(vendiendo, p.idProducto))
  }

  /** The body of `POST /ventas/`. */
  datatype SaleRequest = SaleRequest(idProducto: int, cantidad: int)

  datatype SaleStart =
    | NoStockAlert
    | Started(vendiendo: InFlight, request: SaleRequest)

  /** The synchronous part of `venderProducto`: without stock nothing is sent and the
      map is left alone; otherwise this product's flag is raised, no other flag
      changes, and one unit of it is requested. */
  function BeginSale(vendiendo: InFlight, p: Product): (r: SaleStart)
    ensures r.NoStockAlert? <==> p.stock <= 0
    ensures r.Started? ==>
      && IsSelling(r.vendiendo, p.idProducto)
      && !SellEnabled(p, r.vendiendo)
      && r.vendiendo.Keys == vendiendo.Keys + {p.idProducto}
      && (forall id :: id in vendiendo && id != p.idProducto ==> r.vendiendo[id] == vendiendo[id])
      && r.request == SaleRequest(p.idProducto, 1)
  {
    if p.stock <= 0 then NoStockAlert
    else Started(vendiendo[p.idProducto := true], SaleRequest(p.idProducto, 1))
  }

  /** The `finally` step: this product's flag is lowered, no other flag changes. */
  function FinishSale(vendiendo: InFlight, id: int): (r: InFlight)
    ensures !IsSelling(r, id)
    ensures r.Keys == vendiendo.Keys + {id}
    ensures forall other :: other in vendiendo && other != id ==> r[other] == vendiendo[other]
  {
    vendiendo[id := false]
  }

  /** What the server answered to the sale request. */
  datatype SaleOutcome = SaleOk | SaleFailed

  /** The user-visible result of one sell click. */
  datatype Notice = NoStock | SaleRegistered | SaleError

  datatype SellResult = SellResult(
    vendiendo: InFlight,
    request: Option<SaleRequest>,
    silentRefetch: bool,
    notice: Notice)

  /** A whole sell action, from click to `finally`: a request for one unit of the
      product is sent exactly when it has stock; the list is re-fetched silently only after a success;
      and afterwards the product's flag is down again, whatever the outcome, with
      every other flag as it was. */
  function Sell(vendiendo: InFlight, p: Product, outcome: SaleOutcome): (r: SellResult)
    ensures r.request.Some? <==> p.stock > 0
    ensures r.request.Some? ==> r.request.value == SaleRequest(p.idProducto, 1)
    ensures r.request.None? ==> r.vendiendo == vendiendo && r.notice == NoStock && !r.silentRefetch
    ensures r.request.Some? ==>
      && r.vendiendo == vendiendo[p.idProducto := false]
      && (r.silentRefetch <==> outcome == SaleOk)
      && (r.notice == SaleRegistered <==> outcome == SaleOk)
      && (r.notice == SaleError <==> outcome == SaleFailed)
  {
    match BeginSale(vendiendo, p)
    case NoStockAlert => SellResult(vendiendo, None, false, NoStock)
    case Started(during, request) =>
      var after := FinishSale(during, p.idProducto);
      assert after == vendiendo[p.idProducto := false];
      match outcome
      case SaleOk => SellResult(after, Some(request), true, SaleRegistered)
      case SaleFailed => SellResult(after, Some(request), false, SaleError)
  }

  /** An enabled button starts a sale, and the started sale disables the button
      until it finishes, so a second click cannot send a second request meanwhile. */
  lemma SellGuardsDoubleClick(v: InFlight, p: Product)
    requires SellEnabled(p, v)
    ensures BeginSale(v, p).Started?
    ensures !SellEnabled(p, BeginSale(v, p).vendiendo)
    ensures SellEnabled(p, FinishSale(BeginSale(v, p).vendiendo, p.idProducto))
  {
  }

  /** Two sales of different products may overlap: finishing one leaves the other
      in flight, and its button stays disabled. */
  lemma OverlappingSalesIndependent(v: InFlight, a: Product, b: Product)
    requires a.idProducto != b.idProducto
    requires a.stock > 0 && b.stock > 0
    ensures
      var v1 := BeginSale(v, a).vendiendo;
      var v2 := BeginSale(v1, b).vendiendo;
      var v3 := FinishSale(v2, a.idProducto);
      && IsSelling(v3, b.idProducto)
      && !IsSelling(v3, a.idProducto)
      && !SellEnabled(b, v3)
      && SellEnabled(a, v3)
  {
  }

  // ---------------------------------------------------------------------------
  // Refresh when coming back to the product section

  /** The minimum gap, in milliseconds, between automatic refreshes (`tiempoEsperaMinimo`). */
  const MinRefreshGap: int := 1000

  datatype Section = Products | Register | Reports

  /** `ultimaActualizacion`: the clock reading of the last update. */
  datatype Throttle = Throttle(lastUpdate: int)

  /** Mounting stamps the throttle with the current time. */
  function Mount(now: int): (t: Throttle)
    ensures t.lastUpdate == now
    ensures forall from: Section, later: int ::
      now <= later <= now + MinRefreshGap ==> !ChangeSection(t, from, Products, later).silentRefetch
    ensures forall from: Section, later: int ::
      from != Products && later > now + MinRefreshGap ==> ChangeSection(t, from, Products, later).silentRefetch
  {
    Throttle(now)
  }

  /** A completed load (the initial one or a silent one) stamps its own time, so
      coming back to the product section right after it does not load again. */
  function RecordLoad(t: Throttle, now: int): (r: Throttle)
    ensures r.lastUpdate == now
    ensures forall from: Section, later: int ::
      now <= later <= now + MinRefreshGap ==> !ChangeSection(r, from, Products, later).silentRefetch
    ensures forall from: Section, later: int ::
      from != Products && later > now + MinRefreshGap ==> ChangeSection(r, from, Products, later).silentRefetch
  {
    Throttle(now)
  }

  datatype Reentry = Reentry(throttle: Throttle, silentRefetch: bool)

  /** `cambiarSeccion` followed by the effect keyed on the section: the effect runs
      only when the section really changes; entering the product section refetches
      silently when more than `MinRefreshGap` ms have passed, and stamps the time of
      that refetch; otherwise nothing changes. */
  function ChangeSection(t: Throttle, from: Section, to: Section, now: int): (r: Reentry)
    ensures r.silentRefetch <==> from != to && to == Products && now - t.lastUpdate > MinRefreshGap
    ensures r.silentRefetch ==> r.throttle.lastUpdate == now
    ensures !r.silentRefetch ==> r.throttle == t
  {
    if from != to && to == Products && now - t.lastUpdate > MinRefreshGap then
      Reentry(Throttle(now), true)
    else
      Reentry(t, false)
  }

  /** Once a re-entry has refetched, no re-entry within the next `MinRefreshGap` ms
      refetches again, however the user moves between sections. */
  lemma NoRefetchWithinGap(t: Throttle, a: Section, b: Section, now1: int, now2: int)
    requires ChangeSection(t, a, Products, now1).silentRefetch
    requires now1 <= now2 <= now1 + MinRefreshGap
    ensures !ChangeSection(ChangeSection(t, a, Products, now1).throttle, b, Products, now2).silentRefetch
  {
  }
}

/** The search_and_order task: for one site, build the imagery search, project
    the matching item ids, build the order request, and report the order's URL.
    The two HTTP POSTs are the parameters `search` and `order`; the random wait
    before the order is left out. */
module SearchOrder {
  import opened Common

  /** GeoJSON polygon coordinates, passed through untouched. */
  type Coordinates = seq<seq<seq<real>>>

  datatype Geometry = Geometry(kind: string, coordinates: Coordinates)

  datatype Filter =
    | GeometryFilter(fieldName: string, config: Geometry)
    | DateRangeFilter(fieldName: string, gte: string, lt: string)
    | RangeFilter(fieldName: string)            // an empty config: no bound on the field
    | AndFilter(filters: seq<Filter>)

  datatype SearchRequest = SearchRequest(itemTypes: seq<string>, filter: Filter)

  /** `predecessor_outputs['1']['feature']`: the site's polygon and its name. */
  datatype SiteFeature = SiteFeature(coordinates: Coordinates, name: string)

  /** `static_input`: the acquisition window. */
  datatype Window = Window(startDatetime: string, endDatetime: string)

  datatype SearchFeature = SearchFeature(id: string)
  datatype SearchResponse = SearchResponse(ok: bool, content: string, features: seq<SearchFeature>)

  datatype Product = Product(itemIds: seq<string>, itemType: string, productBundle: string)
  datatype Tool = Clip(aoi: Geometry) | Harmonize(targetSensor: string)
  datatype OrderRequest = OrderRequest(name: string, products: seq<Product>, orderType: string, tools: seq<Tool>)

  /** The order POST's response; `id` is read only when `ok`. */
  datatype OrderResponse = OrderResponse(ok: bool, id: string)

  datatype ItemCount = ItemCount(count: nat)

  /** The record the step returns. */
  datatype TaskOutput = TaskOutput(orderId: string, orderUrl: string, item: seq<ItemCount>,
                                   imageIdsOrdered: seq<string>, geometry: Coordinates,
                                   name: string, startTime: string, endTime: string)

  const OrdersUrl: string := "https://api.planet.com/compute/ops/orders/v2"

  function SiteGeometry(coordinates: Coordinates): Geometry {
    Geometry("Polygon", coordinates)
  }

  /** Geometry, then acquisition date, then the (unbounded) cloud-cover range. */
  function SearchFilter(site: SiteFeature, window: Window): Filter {
    AndFilter([GeometryFilter("geometry", SiteGeometry(site.coordinates)),
               DateRangeFilter("acquired", window.startDatetime, window.endDatetime),
               RangeFilter("cloud_cover")])
  }

  function SearchRequestFor(site: SiteFeature, window: Window): SearchRequest {
    SearchRequest(["PSScene"], SearchFilter(site, window))
  }

  /** The ids of the matched items, in response order. */
  function ImageIds(features: seq<SearchFeature>): (ids: seq<string>)
    ensures |ids| == |features|
    ensures forall i :: 0 <= i < |features| ==> ids[i] == features[i].id
  {
    seq(|features|, i requires 0 <= i < |features| => features[i].id)
  }

  /** The clip tool followed by harmonization to Sentinel-2. */
  function OrderRequestFor(site: SiteFeature, imageIds: seq<string>): OrderRequest {
    OrderRequest(site.name,
                 [Product(imageIds, "PSScene", "analytic_sr_udm2")],
                 "partial",
                 [Clip(SiteGeometry(site.coordinates)), Harmonize("Sentinel-2")])
  }

  function OrderUrl(id: string): string {
    OrdersUrl + "/" + id
  }

  /** The step: `search` and `order` stand for the two POSTs; `order` yields None when the
      POST raises, after which reading the unbound `response` raises in turn. */
  function SearchAndOrder(pred: map<string, SiteFeature>, window: Window,
                          search: SearchRequest -> SearchResponse,
                          order: OrderRequest -> Option<OrderResponse>): (r: Result<TaskOutput>)
    ensures "1" !in pred ==> r == Err(MissingPredecessor)
    ensures "1" in pred ==>
              var site := pred["1"];
              var found := search(SearchRequestFor(site, window));
              var ids := ImageIds(found.features);
              && (!found.ok ==> r == Err(SearchFailed(found.content)))
              && (found.ok && order(OrderRequestFor(site, ids)).None? ==> r == Err(OrderRequestRaised))
              && (found.ok && order(OrderRequestFor(site, ids)).Some? ==> r.Ok?)
              && (r.Ok? ==>
                    && found.ok
                    && r.value.imageIdsOrdered == ids
                    && r.value.item == [ItemCount(|found.features|)]
                    && r.value.geometry == site.coordinates
                    && r.value.name == site.name
                    && r.value.startTime == window.startDatetime
                    && r.value.endTime == window.endDatetime
                    && var placed := order(OrderRequestFor(site, ids));
                       && placed.Some?
                       && (placed.value.ok ==> r.value.orderId == placed.value.id &&
                                               r.value.orderUrl == OrderUrl(placed.value.id))
                       && (!placed.value.ok ==> r.value.orderId == "" && r.value.orderUrl == ""))
  {
    if "1" !in pred then Err(MissingPredecessor)
    else
      var site := pred["1"];
      var found := search(SearchRequestFor(site, window));
      if !found.ok then Err(SearchFailed(found.content))
      else
        var ids := ImageIds(found.features);
        var count := |ids|;
        match order(OrderRequestFor(site, ids))
        case None => Err(OrderRequestRaised)
        case Some(response) =>
          var orderId := if response.ok then response.id else "";
          var orderUrl := if response.ok then OrderUrl(orderId) else "";
          Ok(TaskOutput(orderId, orderUrl, [ItemCount(count)], ids, site.coordinates,
                        site.name, window.startDatetime, window.endDatetime))
  }

  // ---------------------------------------------------------------------------
  // What the filters mean to the search service

  /** A catalogue item as the filters see it: its acquisition time and whether its
      footprint meets a given polygon. */
  datatype Item = Item(acquired: string, meets: Coordinates -> bool)

  /** Code-point lexicographic order: timestamps written in one ISO-8601 format
      compare this way in time order. */
  predicate Before(a: string, b: string) {
    if a == [] then b != []
    else if b == [] then false
    else if a[0] == b[0] then Before(a[1..], b[1..])
    else a[0] < b[0]
  }

  lemma {:induction false} BeforeIrreflexive(a: string)
    ensures !Before(a, a)
  {
    if a != [] {
      BeforeIrreflexive(a[1..]);
    }
  }

  predicate Admits(f: Filter, item: Item)
    decreases f
  {
    match f
    case GeometryFilter(_, g) => item.meets(g.coordinates)
    case DateRangeFilter(_, gte, lt) => !Before(item.acquired, gte) && Before(item.acquired, lt)
    case RangeFilter(_) => true
    case AndFilter(fs) => forall i :: 0 <= i < |fs| ==> Admits(fs[i], item)
  }

  /** The search admits exactly the items that meet the site polygon and were acquired
      in the half-open window [start, end): the cloud-cover filter restricts nothing. */
  lemma SearchFilterMeaning(site: SiteFeature, window: Window, item: Item)
    ensures Admits(SearchFilter(site, window), item) <==>
              item.meets(site.coordinates) &&
              !Before(item.acquired, window.startDatetime) && Before(item.acquired, window.endDatetime)
  {
    var fs := SearchFilter(site, window).filters;
    assert Admits(SearchFilter(site, window), item) <==>
             Admits(fs[0], item) && Admits(fs[1], item) && Admits(fs[2], item);
  }

  /** The window is half-open: an item acquired exactly at the end is excluded, one acquired
      exactly at the start is included (when the window is not empty and the polygon is met). */
  lemma DateWindowHalfOpen(site: SiteFeature, window: Window, meets: Coordinates -> bool)
    ensures !Admits(SearchFilter(site, window), Item(window.endDatetime, meets))
    ensures Before(window.startDatetime, window.endDatetime) && meets(site.coordinates) ==>
              Admits(SearchFilter(site, window), Item(window.startDatetime, meets))
  {
    BeforeIrreflexive(window.endDatetime);
    BeforeIrreflexive(window.startDatetime);
    SearchFilterMeaning(site, window, Item(window.endDatetime, meets));
    SearchFilterMeaning(site, window, Item(window.startDatetime, meets));
  }

  /** The order clips to the very polygon the search filtered on, orders exactly the ids
      found, and applies clip before harmonize. */
  lemma OrderMatchesSearch(site: SiteFeature, window: Window, features: seq<SearchFeature>)
    ensures var req := OrderRequestFor(site, ImageIds(features));
            var geo := SearchFilter(site, window).filters[0];
            && req.tools[0].Clip? && geo.GeometryFilter? && req.tools[0].aoi == geo.config
            && req.tools[1] == Harmonize("Sentinel-2") && |req.tools| == 2
            && |req.products| == 1
            && |req.products[0].itemIds| == |features|
            && forall i :: 0 <= i < |features| ==> req.products[0].itemIds[i] == features[i].id
  {
  }

  /** The order id can be read back from the order URL, which is never empty. */
  lemma {:induction false} OrderUrlRoundTrip(id: string)
    ensures StartsWith(OrderUrl(id), OrdersUrl + "/")
    ensures OrderUrl(id)[|OrdersUrl| + 1..] == id
    ensures OrderUrl(id) != ""
  {
  }

  /** In a returned record, the order URL is empty exactly when the order was not
      accepted. */
  lemma OrderUrlSetIffAccepted(pred: map<string, SiteFeature>, window: Window,
                               search: SearchRequest -> SearchResponse,
                               order: OrderRequest -> Option<OrderResponse>)
    requires SearchAndOrder(pred, window, search, order).Ok?
    ensures var out := SearchAndOrder(pred, window, search, order).value;
            var placed := order(OrderRequestFor(pred["1"], out.imageIdsOrdered));
            placed.Some? && (out.orderUrl != "" <==> placed.value.ok)
  {
  }
}

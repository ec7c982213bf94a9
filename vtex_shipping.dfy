/**
 * The VTEX shipping simulation: the request headers, the conversion of the
 * requested SKUs into catalogue product ids, and the projection of the
 * simulation's logistics information onto SLA ids and prices. The catalogue
 * lookup and the simulation request are HTTP calls and are parameters here.
 */
module VtexShipping {
  import opened Wrappers
  import opened PyText

  // ----- Headers -----

  /** A setting read from the environment: its value, stripped, or "" when unset. */
  function Setting(env: Option<string>): (s: string)
    ensures Trimmed(s)
    ensures env.None? ==> s == ""
    ensures env.Some? ==> s == Strip(env.value)
  {
    Strip(env.GetOr(""))
  }

  /** A setting of only white space is empty, and so counts as missing. */
  lemma BlankSetting(text: string)
    requires forall i :: 0 <= i < |text| ==> IsSpace(text[i])
    ensures Setting(Some(text)) == ""
  {
    StripBlank(text);
  }

  const AppKeyHeader: string := "X-VTEX-API-AppKey"
  const AppTokenHeader: string := "X-VTEX-API-AppToken"

  /**
   * `_vtex_headers`: JSON accept and content type always, and the two
   * application credentials only when both the key and the token are set.
   */
  method VtexHeaders(appKey: string, appToken: string) returns (headers: map<string, string>)
    ensures "Accept" in headers && headers["Accept"] == "application/json"
    ensures "Content-Type" in headers && headers["Content-Type"] == "application/json"
    ensures AppKeyHeader in headers <==> appKey != "" && appToken != ""
    ensures AppTokenHeader in headers <==> appKey != "" && appToken != ""
    ensures AppKeyHeader in headers ==> headers[AppKeyHeader] == appKey
    ensures AppTokenHeader in headers ==> headers[AppTokenHeader] == appToken
    ensures headers.Keys <= {"Accept", "Content-Type", AppKeyHeader, AppTokenHeader}
  {
    headers := map["Accept" := "application/json", "Content-Type" := "application/json"];
    if appKey != "" && appToken != "" {
      headers := headers[AppKeyHeader := appKey];
      headers := headers[AppTokenHeader := appToken];
    }
  }

  // ----- Converting SKUs -----

  /** One requested item: SKU, quantity and an optional seller. */
  datatype ItemInput = ItemInput(sku: string, quantity: int, seller: Option<string>)

  /** One item of the simulation request: the product id, the quantity and the seller. */
  datatype PayloadItem = PayloadItem(id: int, quantity: int, seller: string)

  /** The product id as the request sends it: `str(pid)`. */
  function IdText(p: PayloadItem): (s: string)
    ensures s != [] && (s[0] == '-' <==> p.id < 0)
  {
    IntToString(p.id)
  }

  /** `item.seller or "1"`: a missing or empty seller is seller "1". */
  function SellerOf(item: ItemInput): (s: string)
    ensures s != ""
    ensures item.seller.Some? && item.seller.value != "" ==> s == item.seller.value
  {
    if item.seller.Some? && item.seller.value != "" then item.seller.value else "1"
  }

  /** The request entry for an item whose SKU was found with product id `pid`. */
  function PayloadOf(item: ItemInput, pid: int): PayloadItem {
    PayloadItem(pid, item.quantity, SellerOf(item))
  }

  /** The request entries of the items whose SKU the lookup finds, in item order. */
  function Converted(items: seq<ItemInput>, lookup: string -> Option<int>): seq<PayloadItem>
    decreases |items|
  {
    if items == [] then []
    else
      var init := Converted(items[..|items| - 1], lookup);
      var last := items[|items| - 1];
      match lookup(last.sku)
      case Some(pid) => init + [PayloadOf(last, pid)]
      case None => init
  }

  /** The SKUs the lookup does not find, in item order. */
  function NotFound(items: seq<ItemInput>, lookup: string -> Option<int>): seq<string>
    decreases |items|
  {
    if items == [] then []
    else
      var init := NotFound(items[..|items| - 1], lookup);
      var last := items[|items| - 1];
      if lookup(last.sku).None? then init + [last.sku] else init
  }

  /**
   * The loop of `simulate_shipping_for_skus` that looks every SKU up: found
   * items become request entries, the others are reported as not found.
   */
  method Partition(items: seq<ItemInput>, lookup: string -> Option<int>)
    returns (payload: seq<PayloadItem>, notFound: seq<string>)
    ensures payload == Converted(items, lookup)
    ensures notFound == NotFound(items, lookup)
  {
    payload, notFound := [], [];
    var i := 0;
    while i < |items|
      invariant 0 <= i <= |items|
      invariant payload == Converted(items[..i], lookup)
      invariant notFound == NotFound(items[..i], lookup)
    {
      assert items[..i + 1][..i] == items[..i];
      var item := items[i];
      var pid := lookup(item.sku);
      if pid.None? {
        notFound := notFound + [item.sku];
        i := i + 1;
        continue;
      }
      payload := payload + [PayloadItem(pid.value, item.quantity, SellerOf(item))];
      i := i + 1;
    }
    assert items[..i] == items;
  }

  /** Every item goes to exactly one of the two lists. */
  lemma {:induction false} PartitionSizes(items: seq<ItemInput>, lookup: string -> Option<int>)
    ensures |Converted(items, lookup)| + |NotFound(items, lookup)| == |items|
    decreases |items|
  {
    if items != [] {
      PartitionSizes(items[..|items| - 1], lookup);
    }
  }

  /** A found item contributes its request entry, with the product id as text and its quantity and seller. */
  lemma {:induction false} ConvertedComplete(items: seq<ItemInput>, lookup: string -> Option<int>)
    ensures forall i :: 0 <= i < |items| && lookup(items[i].sku).Some? ==>
      PayloadOf(items[i], lookup(items[i].sku).value) in Converted(items, lookup)
    decreases |items|
  {
    if items != [] {
      var init := items[..|items| - 1];
      ConvertedComplete(init, lookup);
      var last := items[|items| - 1];
      var tail := if lookup(last.sku).Some? then [PayloadOf(last, lookup(last.sku).value)] else [];
      var c := Converted(items, lookup);
      assert c == Converted(init, lookup) + tail;
      forall i | 0 <= i < |items| && lookup(items[i].sku).Some?
        ensures PayloadOf(items[i], lookup(items[i].sku).value) in c
      {
        if i < |init| {
          assert items[i] == init[i];
        } else {
          assert PayloadOf(items[i], lookup(items[i].sku).value) in tail;
        }
      }
    }
  }

  /** Every request entry is that of a found item. */
  lemma {:induction false} ConvertedSound(items: seq<ItemInput>, lookup: string -> Option<int>)
    ensures forall p :: p in Converted(items, lookup) ==>
      exists i :: 0 <= i < |items| && lookup(items[i].sku).Some? && p == PayloadOf(items[i], lookup(items[i].sku).value)
    decreases |items|
  {
    if items != [] {
      var init := items[..|items| - 1];
      ConvertedSound(init, lookup);
      forall p | p in Converted(items, lookup)
        ensures exists i :: 0 <= i < |items| && lookup(items[i].sku).Some? && p == PayloadOf(items[i], lookup(items[i].sku).value)
      {
        if p in Converted(init, lookup) {
          var i :| 0 <= i < |init| && lookup(init[i].sku).Some? && p == PayloadOf(init[i], lookup(init[i].sku).value);
          assert items[i] == init[i];
        } else {
          assert p == PayloadOf(items[|items| - 1], lookup(items[|items| - 1].sku).value);
        }
      }
    }
  }

  /** A missing item contributes its SKU to the not-found list. */
  lemma {:induction false} NotFoundComplete(items: seq<ItemInput>, lookup: string -> Option<int>)
    ensures forall i :: 0 <= i < |items| && lookup(items[i].sku).None? ==> items[i].sku in NotFound(items, lookup)
    decreases |items|
  {
    if items != [] {
      var init := items[..|items| - 1];
      NotFoundComplete(init, lookup);
      forall i | 0 <= i < |init| ensures items[i] == init[i] {
      }
    }
  }

  /** Every not-found SKU is that of an item the lookup does not find. */
  lemma {:induction false} NotFoundSound(items: seq<ItemInput>, lookup: string -> Option<int>)
    ensures forall s :: s in NotFound(items, lookup) ==> exists i :: 0 <= i < |items| && items[i].sku == s && lookup(s).None?
    decreases |items|
  {
    if items != [] {
      var init := items[..|items| - 1];
      NotFoundSound(init, lookup);
      forall s | s in NotFound(items, lookup) ensures exists i :: 0 <= i < |items| && items[i].sku == s && lookup(s).None? {
        if s in NotFound(init, lookup) {
          var i :| 0 <= i < |init| && init[i].sku == s && lookup(s).None?;
          assert items[i] == init[i];
        } else {
          assert items[|items| - 1].sku == s;
        }
      }
    }
  }

  /** The id text of a request entry reads back as the product id the lookup gave, for non-negative ids. */
  lemma PayloadIdRoundTrip(item: ItemInput, pid: nat)
    ensures var id := IdText(PayloadOf(item, pid));
      (forall i :: 0 <= i < |id| ==> '0' <= id[i] <= '9') && DigitsValue(id) == pid
  {
    NatToStringRoundTrip(pid);
  }

  // ----- The simulation -----

  /** A JSON value as `requests` decodes it. */
  datatype Json =
    | JNull
    | JBool(b: bool)
    | JNum(n: real)
    | JStr(s: string)
    | JArr(elems: seq<Json>)
    | JObj(fields: map<string, Json>)

  /** Python truthiness of a decoded value. */
  predicate Falsy(j: Json) {
    match j
    case JNull => true
    case JBool(b) => !b
    case JNum(n) => n == 0.0
    case JStr(s) => s == ""
    case JArr(xs) => xs == []
    case JObj(m) => m == map[]
  }

  /** `d.get(k)`: `None` for a missing key. */
  function Get(m: map<string, Json>, k: string): Json {
    if k in m then m[k] else JNull
  }

  /** The objects among the elements, in order. */
  function Dicts(xs: seq<Json>): (ds: seq<map<string, Json>>)
    ensures forall d :: d in ds ==> JObj(d) in xs
    decreases |xs|
  {
    if xs == [] then []
    else
      var init := Dicts(xs[..|xs| - 1]);
      var last := xs[|xs| - 1];
      if last.JObj? then init + [last.fields] else init
  }

  /** Every object among the elements is kept. */
  lemma {:induction false} DictsComplete(xs: seq<Json>)
    ensures forall i :: 0 <= i < |xs| && xs[i].JObj? ==> xs[i].fields in Dicts(xs)
    decreases |xs|
  {
    if xs != [] {
      var init := xs[..|xs| - 1];
      DictsComplete(init);
      forall i | 0 <= i < |init| ensures xs[i] == init[i] {
      }
    }
  }

  /** Raised when a value that is neither falsy nor iterable is iterated. */
  const NotIterable: string := "object is not iterable"

  /**
   * The objects `for s in (x or [])` visits: none for a falsy value, the
   * objects of a list, none for a string or an object (they iterate over
   * characters and keys), and an error for a number or `true`.
   */
  function DictsIn(j: Json): (r: Result<seq<map<string, Json>>>)
    ensures r.Err? <==> !Falsy(j) && (j.JNum? || j.JBool?)
    ensures j.JArr? ==> r == Ok(Dicts(j.elems))
  {
    if Falsy(j) then Ok([])
    else
      match j
      case JArr(xs) => Ok(Dicts(xs))
      case JStr(_) => Ok([])
      case JObj(_) => Ok([])
      case _ => Err(NotIterable)
  }

  /** An SLA reduced to its id and its price (`None` when missing). */
  datatype SlaIdPrice = SlaIdPrice(id: Json, price: Json)

  /** The projection of one SLA. */
  function IdPrice(d: map<string, Json>): SlaIdPrice {
    SlaIdPrice(Get(d, "id"), Get(d, "price"))
  }

  /** One logistics entry simplified: its item index and its SLAs reduced to id and price. */
  datatype Simplified = Simplified(itemIndex: Json, slas: seq<SlaIdPrice>)

  /** Raised when a logistics entry is not an object and has no `get`. */
  const NoGet: string := "object has no attribute 'get'"

  /** The simplification of one logistics entry. */
  function SimplifyInfo(info: Json): (r: Result<Simplified>)
    ensures r.Ok? ==> info.JObj? && DictsIn(Get(info.fields, "slas")).Ok?
    ensures r.Ok? ==> r.value.itemIndex == Get(info.fields, "itemIndex")
    ensures r.Ok? ==> var ds := DictsIn(Get(info.fields, "slas")).value;
      |r.value.slas| == |ds| && forall i :: 0 <= i < |ds| ==> r.value.slas[i] == IdPrice(ds[i])
    ensures info.JObj? && DictsIn(Get(info.fields, "slas")).Ok? ==> r.Ok?
  {
    if !info.JObj? then Err(NoGet)
    else
      match DictsIn(Get(info.fields, "slas"))
      case Err(e) => Err(e)
      case Ok(ds) =>
        Ok(Simplified(Get(info.fields, "itemIndex"), seq(|ds|, i requires 0 <= i < |ds| => IdPrice(ds[i]))))
  }

  /** The simplification of every logistics entry, in order, or the first error. */
  function SimplifyAll(infos: seq<Json>): Result<seq<Simplified>>
    decreases |infos|
  {
    if infos == [] then Ok([])
    else
      match SimplifyAll(infos[..|infos| - 1])
      case Err(e) => Err(e)
      case Ok(init) =>
        match SimplifyInfo(infos[|infos| - 1])
        case Err(e) => Err(e)
        case Ok(s) => Ok(init + [s])
  }

  /** One simplified entry per logistics entry, each the simplification of its entry; an error exactly when one entry fails. */
  lemma {:induction false} SimplifyAllProperties(infos: seq<Json>)
    ensures var r := SimplifyAll(infos);
      && (r.Ok? <==> forall i :: 0 <= i < |infos| ==> SimplifyInfo(infos[i]).Ok?)
      && (r.Ok? ==> |r.value| == |infos| && forall i :: 0 <= i < |infos| ==> r.value[i] == SimplifyInfo(infos[i]).value)
    decreases |infos|
  {
    if infos != [] {
      var init := infos[..|infos| - 1];
      SimplifyAllProperties(init);
      forall i | 0 <= i < |init| ensures infos[i] == init[i] {
      }
    }
  }

  /** The elements `for info in x` visits for the logistics information, or the error iterating it raises. */
  function Infos(j: Json): (r: Result<seq<Json>>)
    ensures j.JArr? ==> r == Ok(j.elems)
  {
    match j
    case JArr(xs) => Ok(xs)
    case JStr(s) => if s == "" then Ok([]) else Err(NoGet)
    case JObj(m) => if m == map[] then Ok([]) else Err(NoGet)
    case _ => Err(NotIterable)
  }

  /** The simulation request: the items found, the country and the postal code (and no coordinates). */
  datatype SimRequest = SimRequest(items: seq<PayloadItem>, country: string, postalCode: string)

  /** What the simulation call gives: an HTTP error, another failure, or the decoded body. */
  datatype Response = HttpError(detail: string) | OtherFailure(detail: string) | Body(data: Json)

  /** The dictionary `simulate_shipping_for_skus` returns. */
  datatype Outcome =
    | NotConverted(message: string, notFoundSkus: seq<string>)
    | Simulated(notFoundSkus: seq<string>, request: SimRequest, logisticsInfo: Json, slas: seq<Simplified>)
    | Failed(message: string)

  const NothingConverted: string := "Nenhum SKU pôde ser convertido em ProductId"
  const HttpErrorPrefix: string := "Erro HTTP na simulação: "
  const FailurePrefix: string := "Falha ao simular frete: "

  /** `data.get("logisticsInfo", [])`, or the error for a body that is not an object. */
  function LogisticsOf(data: Json): Result<Json> {
    if !data.JObj? then Err(NoGet)
    else if "logisticsInfo" in data.fields then Ok(data.fields["logisticsInfo"])
    else Ok(JArr([]))
  }

  /** The loop that simplifies every logistics entry. */
  method SimplifyLoop(infos: seq<Json>) returns (r: Result<seq<Simplified>>)
    ensures r == SimplifyAll(infos)
  {
    var simplified: seq<Simplified> := [];
    var i := 0;
    while i < |infos|
      invariant 0 <= i <= |infos|
      invariant SimplifyAll(infos[..i]) == Ok(simplified)
    {
      assert infos[..i + 1][..i] == infos[..i];
      var s := SimplifyInfo(infos[i]);
      if s.Err? {
        SimplifyAllFails(infos, i + 1);
        return Err(s.error);
      }
      simplified := simplified + [s.value];
      i := i + 1;
    }
    assert infos[..i] == infos;
    return Ok(simplified);
  }

  /** When the first `n` entries give an error, all of them give that error. */
  lemma {:induction false} SimplifyAllFails(infos: seq<Json>, n: nat)
    requires n <= |infos| && SimplifyAll(infos[..n]).Err?
    ensures SimplifyAll(infos) == SimplifyAll(infos[..n])
    decreases |infos| - n
  {
    if n < |infos| {
      assert infos[..n + 1][..n] == infos[..n];
      SimplifyAllFails(infos, n + 1);
    } else {
      assert infos[..n] == infos;
    }
  }

  /**
   * `simulate_shipping_for_skus`: converts the SKUs; with none converted it
   * answers at once with the SKUs not found; otherwise it sends the request
   * (`post`) and simplifies the logistics information, reporting failures
   * with the source's two message prefixes.
   */
  method SimulateShippingForSkus(items: seq<ItemInput>, postalCode: string, country: string, sc: string,
                                 lookup: string -> Option<int>, post: (SimRequest, string) -> Response)
    returns (out: Outcome)
    ensures Converted(items, lookup) == [] ==> out == NotConverted(NothingConverted, NotFound(items, lookup))
    ensures Converted(items, lookup) != [] ==> !out.NotConverted?
    ensures out.Simulated? ==>
      && out.notFoundSkus == NotFound(items, lookup)
      && out.request == SimRequest(Converted(items, lookup), country, postalCode)
      && post(out.request, sc).Body?
      && LogisticsOf(post(out.request, sc).data) == Ok(out.logisticsInfo)
      && Infos(out.logisticsInfo).Ok?
      && SimplifyAll(Infos(out.logisticsInfo).value) == Ok(out.slas)
    ensures var request := SimRequest(Converted(items, lookup), country, postalCode);
      Converted(items, lookup) != [] && post(request, sc).HttpError? ==>
        out == Failed(HttpErrorPrefix + post(request, sc).detail)
    ensures var request := SimRequest(Converted(items, lookup), country, postalCode);
      Converted(items, lookup) != [] && post(request, sc).OtherFailure? ==>
        out == Failed(FailurePrefix + post(request, sc).detail)
    ensures var request := SimRequest(Converted(items, lookup), country, postalCode);
      var resp := post(request, sc);
      Converted(items, lookup) != [] && resp.Body? && LogisticsOf(resp.data).Err? ==>
        out == Failed(FailurePrefix + LogisticsOf(resp.data).error)
    ensures var request := SimRequest(Converted(items, lookup), country, postalCode);
      var resp := post(request, sc);
      Converted(items, lookup) != [] && resp.Body? && LogisticsOf(resp.data).Ok? &&
      Infos(LogisticsOf(resp.data).value).Err? ==>
        out == Failed(FailurePrefix + Infos(LogisticsOf(resp.data).value).error)
    ensures var request := SimRequest(Converted(items, lookup), country, postalCode);
      var resp := post(request, sc);
      Converted(items, lookup) != [] && resp.Body? && LogisticsOf(resp.data).Ok? &&
      Infos(LogisticsOf(resp.data).value).Ok? && SimplifyAll(Infos(LogisticsOf(resp.data).value).value).Err? ==>
        out == Failed(FailurePrefix + SimplifyAll(Infos(LogisticsOf(resp.data).value).value).error)
    ensures var request := SimRequest(Converted(items, lookup), country, postalCode);
      var resp := post(request, sc);
      Converted(items, lookup) != [] && resp.Body? && LogisticsOf(resp.data).Ok? &&
      Infos(LogisticsOf(resp.data).value).Ok? && SimplifyAll(Infos(LogisticsOf(resp.data).value).value).Ok? ==>
        out == Simulated(NotFound(items, lookup), request, LogisticsOf(resp.data).value,
                         SimplifyAll(Infos(LogisticsOf(resp.data).value).value).value)
    ensures out.Failed? ==> |out.message| >= |FailurePrefix| || |out.message| >= |HttpErrorPrefix|
  {
    var payload, notFound := Partition(items, lookup);
    if payload == [] {
      return NotConverted(NothingConverted, notFound);
    }
    var request := SimRequest(payload, country, postalCode);
    var resp := post(request, sc);
    match resp {
      case HttpError(detail) =>
        return Failed(HttpErrorPrefix + detail);
      case OtherFailure(detail) =>
        return Failed(FailurePrefix + detail);
      case Body(data) =>
        var logistics := LogisticsOf(data);
        if logistics.Err? {
          return Failed(FailurePrefix + logistics.error);
        }
        var infos := Infos(logistics.value);
        if infos.Err? {
          return Failed(FailurePrefix + infos.error);
        }
        var simplified := SimplifyLoop(infos.value);
        if simplified.Err? {
          return Failed(FailurePrefix + simplified.error);
        }
        return Simulated(notFound, request, logistics.value, simplified.value);
    }
  }

  // ----- extract_slas_id_price -----

  /** True for an SLA that has both an id and a price. */
  predicate Priced(d: map<string, Json>) {
    "id" in d && "price" in d
  }

  /** The id and price of the priced SLAs, in order. */
  function PricedOf(ds: seq<map<string, Json>>): (r: seq<SlaIdPrice>)
    decreases |ds|
  {
    if ds == [] then []
    else
      var init := PricedOf(ds[..|ds| - 1]);
      var last := ds[|ds| - 1];
      if Priced(last) then init + [IdPrice(last)] else init
  }

  /** The flattened id and price of every priced SLA of the entries, in order, or the first error. */
  function ExtractAll(infos: seq<Json>): Result<seq<SlaIdPrice>>
    decreases |infos|
  {
    if infos == [] then Ok([])
    else
      match ExtractAll(infos[..|infos| - 1])
      case Err(e) => Err(e)
      case Ok(init) =>
        var info := infos[|infos| - 1];
        if !info.JObj? then Err(NoGet)
        else
          match DictsIn(Get(info.fields, "slas"))
          case Err(e) => Err(e)
          case Ok(ds) => Ok(init + PricedOf(ds))
  }

  /** The inner loop over the SLAs of one entry, appending the priced ones. */
  method AppendPriced(result: seq<SlaIdPrice>, ds: seq<map<string, Json>>) returns (r: seq<SlaIdPrice>)
    ensures r == result + PricedOf(ds)
  {
    r := result;
    var j := 0;
    while j < |ds|
      invariant 0 <= j <= |ds|
      invariant r == result + PricedOf(ds[..j])
    {
      assert ds[..j + 1][..j] == ds[..j];
      var sla := ds[j];
      if "id" in sla && "price" in sla {
        r := r + [SlaIdPrice(Get(sla, "id"), Get(sla, "price"))];
      }
      j := j + 1;
    }
    assert ds[..j] == ds;
  }

  /**
   * `extract_slas_id_price`: the id and price of every SLA object holding
   * both, across all entries in order; nothing for a missing list; the error
   * Python raises for an entry that is not an object or SLAs that cannot be
   * iterated.
   */
  method ExtractSlasIdPrice(logisticsInfo: Option<seq<Json>>) returns (r: Result<seq<SlaIdPrice>>)
    ensures logisticsInfo.None? ==> r == Ok([])
    ensures logisticsInfo.Some? ==> r == ExtractAll(logisticsInfo.value)
  {
    var infos := logisticsInfo.GetOr([]);
    var result: seq<SlaIdPrice> := [];
    var i := 0;
    while i < |infos|
      invariant 0 <= i <= |infos|
      invariant ExtractAll(infos[..i]) == Ok(result)
    {
      assert infos[..i + 1][..i] == infos[..i];
      var info := infos[i];
      if !info.JObj? {
        ExtractAllFails(infos, i + 1);
        return Err(NoGet);
      }
      var slas := DictsIn(Get(info.fields, "slas"));
      if slas.Err? {
        ExtractAllFails(infos, i + 1);
        return Err(slas.error);
      }
      result := AppendPriced(result, slas.value);
      i := i + 1;
    }
    assert infos[..i] == infos;
    return Ok(result);
  }

  /** When the first `n` entries give an error, all of them give that error. */
  lemma {:induction false} ExtractAllFails(infos: seq<Json>, n: nat)
    requires n <= |infos| && ExtractAll(infos[..n]).Err?
    ensures ExtractAll(infos) == ExtractAll(infos[..n])
    decreases |infos| - n
  {
    if n < |infos| {
      assert infos[..n + 1][..n] == infos[..n];
      ExtractAllFails(infos, n + 1);
    } else {
      assert infos[..n] == infos;
    }
  }

  /** Every extracted entry comes from a priced SLA, and every priced SLA is extracted. */
  lemma {:induction false} PricedOfMembers(ds: seq<map<string, Json>>)
    ensures forall e :: e in PricedOf(ds) ==> exists d :: d in ds && Priced(d) && e == IdPrice(d)
    ensures forall d :: d in ds && Priced(d) ==> IdPrice(d) in PricedOf(ds)
    decreases |ds|
  {
    if ds != [] {
      var init := ds[..|ds| - 1];
      PricedOfMembers(init);
      assert forall d :: d in ds <==> d in init || d == ds[|ds| - 1];
    }
  }

  /** With every SLA priced, the priced projection is the whole projection. */
  lemma {:induction false} PricedOfAll(ds: seq<map<string, Json>>)
    requires forall i :: 0 <= i < |ds| ==> Priced(ds[i])
    ensures PricedOf(ds) == seq(|ds|, i requires 0 <= i < |ds| => IdPrice(ds[i]))
    decreases |ds|
  {
    if ds != [] {
      PricedOfAll(ds[..|ds| - 1]);
    }
  }

  /** The SLAs of all simplified entries one after the other. */
  function FlatSlas(ss: seq<Simplified>): seq<SlaIdPrice>
    decreases |ss|
  {
    if ss == [] then [] else FlatSlas(ss[..|ss| - 1]) + ss[|ss| - 1].slas
  }

  /** True when every SLA object of every entry has an id and a price. */
  predicate AllPriced(infos: seq<Json>) {
    forall i :: 0 <= i < |infos| && infos[i].JObj? && DictsIn(Get(infos[i].fields, "slas")).Ok? ==>
      forall d :: d in DictsIn(Get(infos[i].fields, "slas")).value ==> Priced(d)
  }

  /**
   * Extraction fails exactly when the simplification does; and when every
   * SLA object has an id and a price, extraction gives the simplified SLAs
   * flattened in order.
   */
  lemma {:induction false} ExtractMatchesSimplify(infos: seq<Json>)
    ensures ExtractAll(infos).Ok? <==> SimplifyAll(infos).Ok?
    ensures AllPriced(infos) && SimplifyAll(infos).Ok? ==> ExtractAll(infos) == Ok(FlatSlas(SimplifyAll(infos).value))
    decreases |infos|
  {
    if infos != [] {
      var init := infos[..|infos| - 1];
      var last := infos[|infos| - 1];
      ExtractMatchesSimplify(init);
      if AllPriced(infos) && SimplifyAll(infos).Ok? {
        assert AllPriced(init) by {
          forall i | 0 <= i < |init| ensures infos[i] == init[i] {
          }
        }
        var ds := DictsIn(Get(last.fields, "slas")).value;
        forall i | 0 <= i < |ds| ensures Priced(ds[i]) {
          assert ds[i] in ds;
        }
        PricedOfAll(ds);
        var s := SimplifyAll(infos).value;
        assert s == SimplifyAll(init).value + [SimplifyInfo(last).value];
        assert s[..|s| - 1] == SimplifyAll(init).value;
      }
    }
  }
}

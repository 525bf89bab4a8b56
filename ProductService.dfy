/** The product catalogue of src/services/productService.ts: `ProductSchema`, the
    five-entry fallback catalogue, and `getProducts`, which never fails: on any
    request failure it serves the fallback catalogue instead. */
module ProductService {
  import opened Json
  import opened Validation
  import opened Api
  import opened Browser

  datatype Product = Product(id: string, title: string, image: string, description: string, specs: seq<string>)

  const ImageAutomation: string :=
    "https://space.coze.cn/api/coze_space/gen_image?image_size=square&prompt=automation%20script%20icon&sign=a8289b7480ceef4ff194b6832ad899dd"
  const ImageScraping: string :=
    "https://space.coze.cn/api/coze_space/gen_image?image_size=square&prompt=data%20scraping%20tool%20icon&sign=9af90ccab9a314111c85a25816d59061"

  /** `DEFAULT_PRODUCTS`, the fallback catalogue. */
  const DefaultProducts: seq<Product> := [
    Product("1", "Forsaken", ImageAutomation, "更新日期5/10", ["运行状态🟢", "执行日志记录"]),
    Product("2", "Pressure", ImageScraping, "更新日期7/5", ["运行状态🟣", "完全安全", "执行日志记录"]),
    Product("3", "天堂站立", ImageAutomation, "更新日期7/1", ["运行状态🟢", "完全安全", "执行日志记录"]),
    Product("4", "巨魔起源", ImageAutomation, "更新日期7/1", ["运行状态🟢", "完全安全", "执行日志记录"]),
    Product("5", "黑暗欺骗", ImageAutomation, "更新日期5/30", ["运行状态🟢", "完全安全", "执行日志记录"])
  ]

  /** The fallback catalogue has five entries with ids "1" to "5", pairwise
      distinct, each with a non-empty list of specs. */
  lemma DefaultProductsShape()
    ensures |DefaultProducts| == 5
    ensures forall i :: 0 <= i < 5 ==> DefaultProducts[i].id == NatToDecimal(i + 1)
    ensures forall i, j :: 0 <= i < j < |DefaultProducts| ==> DefaultProducts[i].id != DefaultProducts[j].id
    ensures forall i :: 0 <= i < |DefaultProducts| ==> |DefaultProducts[i].specs| > 0
  {
    forall i | 0 <= i < 5
      ensures DefaultProducts[i].id == NatToDecimal(i + 1)
    {
      assert NatToDecimal(i + 1) == [DigitChar(i + 1)];
    }
  }

  /** `ProductSchema` at `path`. */
  function ParseProduct(path: seq<string>, v: Option<Json>): (r: Result<Product, seq<Issue>>)
    ensures r.Success? ==> v.Some? && v.value.JObj?
    ensures r.Success? ==>
              var f := v.value.fields;
              && Field(f, "id") == Some(JStr(r.value.id))
              && Field(f, "title") == Some(JStr(r.value.title))
              && Field(f, "image") == Some(JStr(r.value.image))
              && Field(f, "description") == Some(JStr(r.value.description))
              && Field(f, "specs").Some? && Field(f, "specs").value.JArr?
              && |Field(f, "specs").value.items| == |r.value.specs|
              && forall k :: 0 <= k < |r.value.specs| ==> Field(f, "specs").value.items[k] == JStr(r.value.specs[k])
  {
    match v
    case Some(JObj(f)) =>
      var id := ExpectString(path + ["id"], Field(f, "id"));
      var title := ExpectString(path + ["title"], Field(f, "title"));
      var image := ExpectString(path + ["image"], Field(f, "image"));
      var description := ExpectString(path + ["description"], Field(f, "description"));
      var specs := ParseArray(path + ["specs"], Field(f, "specs"), ExpectString);
      if id.Success? && title.Success? && image.Success? && description.Success? && specs.Success? then
        Success(Product(id.value, title.value, image.value, description.value, specs.value))
      else
        Failure(IssuesOf(id) + IssuesOf(title) + IssuesOf(image) + IssuesOf(description) + IssuesOf(specs))
    case _ => Failure(NotAnObject(path, v))
  }

  /** `z.array(ProductSchema)`: an array whose every element is a valid product,
      element `k` validated at path `[k]`. */
  function ParseProductList(v: Option<Json>): (r: Result<seq<Product>, seq<Issue>>)
    ensures r.Success? <==>
              && v.Some? && v.value.JArr?
              && forall k :: 0 <= k < |v.value.items| ==> ParseProduct([NatToDecimal(k)], Some(v.value.items[k])).Success?
    ensures r.Success? ==>
              && |r.value| == |v.value.items|
              && forall k :: 0 <= k < |r.value| ==> ParseProduct([NatToDecimal(k)], Some(v.value.items[k])) == Success(r.value[k])
  {
    assert forall k: nat :: [] + [NatToDecimal(k)] == [NatToDecimal(k)];
    ParseArray([], v, ParseProduct)
  }

  function StringsToJson(s: seq<string>): (js: seq<Json>)
    ensures |js| == |s| && forall k :: 0 <= k < |s| ==> js[k] == JStr(s[k])
  {
    seq(|s|, k requires 0 <= k < |s| => JStr(s[k]))
  }

  /** The wire form of a product, as a backend would send it. */
  function ProductToJson(p: Product): Json {
    JObj(map["id" := JStr(p.id), "title" := JStr(p.title), "image" := JStr(p.image),
             "description" := JStr(p.description), "specs" := JArr(StringsToJson(p.specs))])
  }

  function ProductsToJson(ps: seq<Product>): (j: Json)
    ensures j.JArr? && |j.items| == |ps| && forall k :: 0 <= k < |ps| ==> j.items[k] == ProductToJson(ps[k])
  {
    JArr(seq(|ps|, k requires 0 <= k < |ps| => ProductToJson(ps[k])))
  }

  /** Every product survives being sent and validated, at any path. */
  lemma ProductRoundTrip(path: seq<string>, p: Product)
    ensures ParseProduct(path, Some(ProductToJson(p))) == Success(p)
  {
    var f := ProductToJson(p).fields;
    var items := StringsToJson(p.specs);
    assert Field(f, "specs") == Some(JArr(items));
    ParseItemsAll(path + ["specs"], items, 0, ExpectString, p.specs);
    assert p.specs[0..] == p.specs;
  }

  /** Every catalogue survives being sent and validated. */
  lemma ProductListRoundTrip(ps: seq<Product>)
    ensures ParseProductList(Some(ProductsToJson(ps))) == Success(ps)
  {
    var items := ProductsToJson(ps).items;
    forall k | 0 <= k < |items|
      ensures ParseProduct([] + [NatToDecimal(k)], Some(items[k])) == Success(ps[k])
    {
      ProductRoundTrip([] + [NatToDecimal(k)], ps[k]);
    }
    ParseItemsAll([], items, 0, ParseProduct, ps);
    assert ps[0..] == ps;
  }

  /** `token || undefined`: a missing or empty stored token sends no token. */
  function TokenToSend(stored: Option<string>): (t: Option<string>)
    ensures t.Some? <==> stored.Some? && stored.value != ""
    ensures t.Some? ==> t == stored
  {
    if stored.Some? && stored.value != "" then stored else None
  }

  function ProductsConfig(stored: Option<string>): RequestConfig {
    RequestConfig(Some(GET), None, None, TokenToSend(stored))
  }

  /** The request `getProducts` makes with what the store holds, and what it yields. */
  function ProductsOutcome(env: Env, store: Storage): Result<seq<Product>, RequestError>
    reads store
  {
    Request(env, "/products", ParseProductList, Some(ProductsConfig(store.GetItem(AuthTokenKey))))
  }

  /** The catalogue call passes no `headers` of its own, so it behaves as the code is written. */
  lemma ProductsRequestAsWritten(env: Env, store: Storage)
    ensures ProductsOutcome(env, store)
            == RequestAsWritten(env, "/products", ParseProductList, Some(ProductsConfig(store.GetItem(AuthTokenKey))))
  {
    RequestAgreesWithoutCallerHeaders(env, "/products", ParseProductList, Some(ProductsConfig(store.GetItem(AuthTokenKey))));
  }

  /** `getProducts()`: the validated catalogue on success, the fallback catalogue
      on every failure. It reads the store and changes nothing. */
  function GetProducts(env: Env, store: Storage): (ps: seq<Product>)
    reads store
    ensures ProductsOutcome(env, store).Success? ==> ps == ProductsOutcome(env, store).value
    ensures ProductsOutcome(env, store).Failure? ==> ps == DefaultProducts
  {
    match ProductsOutcome(env, store)
    case Success(products) => products
    case Failure(_) => DefaultProducts
  }

  const ProductsFailureText: string := "获取产品数据失败，使用默认数据"

  /** The toast `getProducts()` shows: one error toast exactly when it falls back. */
  function ProductsNotice(env: Env, store: Storage): (t: Option<Toast>)
    reads store
    ensures t.Some? <==> ProductsOutcome(env, store).Failure?
    ensures t.Some? ==> t.value == ToastError(ProductsFailureText) && GetProducts(env, store) == DefaultProducts
  {
    if ProductsOutcome(env, store).Failure? then Some(ToastError(ProductsFailureText)) else None
  }

  /** The catalogue request carries `Authorization: Bearer <token>` exactly when
      the store holds a non-empty token. */
  lemma ProductsRequestAuthorization(store: Storage)
    ensures var headers := FetchInitAsWritten(Some(ProductsConfig(store.GetItem(AuthTokenKey)))).headers;
            && ("Authorization" in headers <==> AuthTokenKey in store.items && store.items[AuthTokenKey] != "")
            && ("Authorization" in headers ==> headers["Authorization"] == "Bearer " + store.items[AuthTokenKey])
            && headers["Content-Type"] == "application/json"
  {
    AsWrittenAgreesWithoutCallerHeaders(Some(ProductsConfig(store.GetItem(AuthTokenKey))));
  }

  /** A network failure serves the fallback catalogue. */
  lemma NetworkFailureServesDefaults(env: Env, store: Storage)
    requires env.fetch(Url(env, "/products"), FetchInitAsWritten(Some(ProductsConfig(store.GetItem(AuthTokenKey))))) == Rejected
    ensures GetProducts(env, store) == DefaultProducts
  {
    AsWrittenAgreesWithoutCallerHeaders(Some(ProductsConfig(store.GetItem(AuthTokenKey))));
  }

  /** A backend that answers with a well-formed catalogue gets exactly that catalogue shown. */
  lemma ServedCatalogueIsShown(env: Env, store: Storage, status: nat, served: seq<Product>)
    requires env.fetch(Url(env, "/products"), FetchInitAsWritten(Some(ProductsConfig(store.GetItem(AuthTokenKey)))))
             == Responded(Response(true, status, Some(EnvelopeToJson(Envelope(200, None, Some(ProductsToJson(served)))))))
    ensures GetProducts(env, store) == served
  {
    AsWrittenAgreesWithoutCallerHeaders(Some(ProductsConfig(store.GetItem(AuthTokenKey))));
    SuccessEnvelopeYieldsPayload(status, None, Some(ProductsToJson(served)), ParseProductList);
    ProductListRoundTrip(served);
  }

  /** The fallback catalogue itself satisfies the product schema. */
  lemma DefaultProductsValidate()
    ensures ParseProductList(Some(ProductsToJson(DefaultProducts))) == Success(DefaultProducts)
  {
    ProductListRoundTrip(DefaultProducts);
  }
}

/** Product validation, payload building and list arithmetic of
    src/products/products.route.js (create, update and list routes). */
module Products {
  import opened Wrappers
  import opened JsText
  import opened RequestValues

  /** The six categories a new product may have. */
  const Allowed: seq<string> := [
    "عطور مستوحاة", "أدوات المصمم", "العود و البخور",
    "Flankers", "الزيوت العطرية", "المتوسم (عطور حصرية)"]
  const HennaPowder := "حناء بودر"
  const AllValues := "all"
  const DefaultPage := 1
  const DefaultLimit := 10

  /** A numeric body field: undefined, the empty text, or any other value, kept as its
      JavaScript truthiness and what `Number` makes of it (None for NaN or an infinity).
      The text "0" is `Sent(true, Some(0.0))`, the number 0 is `Sent(false, Some(0.0))`. */
  datatype NumberInput = Undefined | EmptyText | Sent(truthy: bool, number: Option<real>)

  /** A numeric query parameter: absent or "", a text `parseFloat` reads a number from,
      or one it reads NaN from. */
  datatype QueryNumber = Blank | Parsed(value: real) | Unparsable

  /** `inStock`: missing, a JSON boolean, or a text value. */
  datatype FlagInput = Unset | Flag(b: bool) | Text(s: string)

  datatype CreateRequest = CreateRequest(
    name: string, category: string, description: string, oldPrice: NumberInput,
    price: NumberInput, image: ImageInput, author: string, inStock: FlagInput)

  /** The document `/create-product` saves; absent optional fields are None. */
  datatype ProductData = ProductData(
    name: string, category: string, description: string, price: real,
    oldPrice: Option<real>, image: seq<string>, author: string, inStock: Option<bool>)

  datatype UpdateRequest = UpdateRequest(
    name: string, category: string, price: NumberInput, oldPrice: NumberInput,
    description: string, author: string, inStock: FlagInput)

  /** The `$set` of `/update-product`: `oldPrice` None is null, `image` None leaves the
      images as they are. */
  datatype UpdateData = UpdateData(
    name: string, category: string, price: real, description: string, author: string,
    inStock: bool, oldPrice: Option<real>, image: Option<seq<string>>)

  datatype ProductError = MissingFields | UnsupportedCategory | InvalidPrice | NoImages | ProductNotFound

  datatype ListQuery = ListQuery(
    category: string, size: string, color: string, minPrice: QueryNumber,
    maxPrice: QueryNumber, page: Option<int>, limit: Option<int>)

  datatype PriceRange = PriceRange(min: real, max: real)

  /** The query document of the product list; None is an absent key. */
  datatype Filter = Filter(
    category: Option<string>, size: Option<string>, color: Option<string>, price: Option<PriceRange>)

  /** JavaScript truthiness of a numeric body field. */
  predicate NumberTruthy(n: NumberInput) {
    n.Sent? && n.truthy
  }

  /** `Number(x)`, None when it is NaN or infinite: undefined is NaN and "" is 0. */
  function ToNumber(n: NumberInput): Option<real> {
    match n
    case Undefined => None
    case EmptyText => Some(0.0)
    case Sent(_, number) => number
  }

  predicate ImageTruthy(image: ImageInput) {
    image.List? || (image.Single? && image.url != "")
  }

  /** `Number.isFinite(Number(price)) && Number(price) > 0`. */
  predicate PriceOk(price: NumberInput) {
    ToNumber(price).Some? && ToNumber(price).value > 0.0
  }

  /** `oldPrice` kept only when it is neither undefined nor "" and converts to a finite
      number. */
  function OldPrice(oldPrice: NumberInput): (r: Option<real>)
    ensures r.Some? <==> oldPrice.Sent? && oldPrice.number.Some?
    ensures r.Some? ==> r.value == oldPrice.number.value
    ensures oldPrice.EmptyText? ==> r.None?
  {
    if oldPrice.Sent? then oldPrice.number else None
  }

  /** `Array.isArray(image) ? image : [String(image)]`. */
  function ImageList(image: ImageInput): (r: seq<string>)
    ensures image.List? ==> r == image.urls
    ensures image.Single? ==> r == [image.url]
  {
    match image
    case List(urls) => urls
    case Single(url) => [url]
    case NoImage => ["undefined"]
  }

  predicate CreateFieldsPresent(req: CreateRequest) {
    && req.name != "" && req.category != "" && req.description != ""
    && NumberTruthy(req.price) && ImageTruthy(req.image) && req.author != ""
  }

  /** `/create-product`: the checks in order, then the saved document. */
  function CreateProduct(req: CreateRequest): (r: Result<ProductData, ProductError>)
    ensures r == Err(MissingFields) <==> !CreateFieldsPresent(req)
    ensures r == Err(UnsupportedCategory) <==> CreateFieldsPresent(req) && req.category !in Allowed
    ensures r == Err(InvalidPrice) <==>
              CreateFieldsPresent(req) && req.category in Allowed && !PriceOk(req.price)
    ensures r == Err(NoImages) <==>
              CreateFieldsPresent(req) && req.category in Allowed && PriceOk(req.price) && req.image == List([])
    ensures r.Ok? <==>
              CreateFieldsPresent(req) && req.category in Allowed && PriceOk(req.price) && req.image != List([])
    ensures r.Ok? ==>
      && r.value.name == Trim(req.name) && r.value.description == Trim(req.description)
      && r.value.category == req.category && r.value.author == req.author
      && r.value.price == ToNumber(req.price).value && r.value.price > 0.0
      && r.value.image == ImageList(req.image) && |r.value.image| > 0
      && r.value.oldPrice == OldPrice(req.oldPrice)
      && (r.value.inStock.Some? <==> req.inStock.Flag?)
      && (req.inStock.Flag? ==> r.value.inStock == Some(req.inStock.b))
  {
    if !CreateFieldsPresent(req) then Err(MissingFields)
    else if req.category !in Allowed then Err(UnsupportedCategory)
    else if !PriceOk(req.price) then Err(InvalidPrice)
    else
      var images := ImageList(req.image);
      if |images| == 0 then Err(NoImages)
      else
        Ok(ProductData(Trim(req.name), req.category, Trim(req.description), ToNumber(req.price).value,
                       OldPrice(req.oldPrice), images, req.author,
                       if req.inStock.Flag? then Some(req.inStock.b) else None))
  }

  /** A name of white space only passes the presence check wherever a real name would,
      and is saved empty. */
  lemma BlankNameSavedEmpty(req: CreateRequest)
    requires req.name != "" && forall i :: 0 <= i < |req.name| ==> IsSpace(req.name[i])
    requires CreateProduct(req.(name := "x")).Ok?
    ensures CreateProduct(req).Ok? && CreateProduct(req).value.name == ""
  {
    BlankIffAllSpace(req.name);
  }

  /** A price sent as the text "0" is present but not positive: the answer is "invalid
      price", not "missing fields". */
  lemma TextZeroIsInvalidPrice(req: CreateRequest)
    requires req.price == Sent(true, Some(0.0))
    requires CreateFieldsPresent(req.(price := Sent(true, Some(1.0)))) && req.category in Allowed
    ensures CreateProduct(req) == Err(InvalidPrice)
  {
  }

  /** The update's `inStock`: a boolean as it is, anything else true only when its
      string form lower-cases to "true". */
  function CoerceInStock(f: FlagInput): (r: bool)
    ensures f.Flag? ==> r == f.b
    ensures f.Unset? ==> !r
  {
    match f
    case Flag(b) => b
    case Text(s) => ToLower(s) == "true"
    case Unset => ToLower("undefined") == "true"
  }

  /** Text coerces to true exactly when it spells "true" in any mix of letter cases. */
  lemma CoerceTextIff(s: string)
    ensures CoerceInStock(Text(s)) <==>
      |s| == 4 && s[0] in "tT" && s[1] in "rR" && s[2] in "uU" && s[3] in "eE"
  {
    LowerIsTrue(s);
  }

  predicate UpdateFieldsPresent(req: UpdateRequest) {
    req.name != "" && req.category != "" && NumberTruthy(req.price) && req.description != ""
  }

  /** `/update-product`: `found` is whether the product was found, `keepImages` the parsed
      list of images to keep and `newImageUrls` the URLs of the uploaded files. */
  method BuildUpdate(found: bool, req: UpdateRequest, keepImages: seq<string>, newImageUrls: seq<string>)
    returns (r: Result<UpdateData, ProductError>)
    ensures !found ==> r == Err(ProductNotFound)
    ensures found && !UpdateFieldsPresent(req) ==> r == Err(MissingFields)
    ensures found && UpdateFieldsPresent(req) && !PriceOk(req.price) ==> r == Err(InvalidPrice)
    ensures r.Ok? <==> found && UpdateFieldsPresent(req) && PriceOk(req.price)
    ensures r.Ok? ==>
      && r.value.name == Trim(req.name) && r.value.description == Trim(req.description)
      && r.value.category == req.category && r.value.author == req.author
      && r.value.price == ToNumber(req.price).value && r.value.price > 0.0
      && r.value.inStock == CoerceInStock(req.inStock)
      && r.value.oldPrice == OldPrice(req.oldPrice)
      && (|keepImages| > 0 || |newImageUrls| > 0 ==> r.value.image == Some(keepImages + newImageUrls))
      && (|keepImages| == 0 && |newImageUrls| == 0 ==> r.value.image == None)
  {
    if !found {
      return Err(ProductNotFound);
    }
    if !UpdateFieldsPresent(req) {
      return Err(MissingFields);
    }
    if !PriceOk(req.price) {
      return Err(InvalidPrice);
    }
    var inStock := CoerceInStock(req.inStock);
    var updateData := UpdateData(Trim(req.name), req.category, ToNumber(req.price).value, Trim(req.description),
                                 req.author, inStock, OldPrice(req.oldPrice), None);
    if |keepImages| > 0 || |newImageUrls| > 0 {
      updateData := updateData.(image := Some(keepImages + newImageUrls));
    }
    r := Ok(updateData);
  }

  /** Create and update accept and reject a present price alike. */
  lemma PriceRuleShared(c: CreateRequest, u: UpdateRequest)
    requires CreateFieldsPresent(c) && c.category in Allowed && c.image != List([])
    requires UpdateFieldsPresent(u) && c.price == u.price
    ensures CreateProduct(c).Ok? <==> PriceOk(u.price)
  {
  }

  /** The list route's query document, built key by key. */
  method BuildFilter(q: ListQuery) returns (f: Filter)
    ensures f.category.Some? <==> q.category != "" && q.category != AllValues
    ensures f.category.Some? ==> f.category.value == q.category
    ensures f.size.Some? <==> q.category == HennaPowder && q.size != ""
    ensures f.size.Some? ==> f.size.value == q.size
    ensures f.color.Some? <==> q.color != "" && q.color != AllValues
    ensures f.color.Some? ==> f.color.value == q.color
    ensures f.price.Some? <==> q.minPrice.Parsed? && q.maxPrice.Parsed?
    ensures f.price.Some? ==> f.price.value == PriceRange(q.minPrice.value, q.maxPrice.value)
  {
    f := Filter(None, None, None, None);
    if q.category != "" && q.category != AllValues {
      f := f.(category := Some(q.category));
      if q.category == HennaPowder && q.size != "" {
        f := f.(size := Some(q.size));
      }
    }
    if q.color != "" && q.color != AllValues {
      f := f.(color := Some(q.color));
    }
    if !q.minPrice.Blank? && !q.maxPrice.Blank? {
      if q.minPrice.Parsed? && q.maxPrice.Parsed? {
        f := f.(price := Some(PriceRange(q.minPrice.value, q.maxPrice.value)));
      }
    }
  }

  /** `(page - 1) * limit`, with the defaults of the query. */
  function Skip(q: ListQuery): int {
    (q.page.GetOr(DefaultPage) - 1) * q.limit.GetOr(DefaultLimit)
  }

  /** `Math.ceil(total / limit)`; None when the quotient is not finite (limit 0). */
  function TotalPages(total: nat, limit: int): (r: Option<int>)
    ensures r.None? <==> limit == 0
    ensures limit > 0 ==> (r.value - 1) * limit < total <= r.value * limit
  {
    if limit == 0 then None
    else if limit > 0 then
      var pages := (total + limit - 1) / limit;
      assert (pages - 1) * limit < total <= pages * limit by {
        assert pages * limit <= total + limit - 1 < pages * limit + limit;
      }
      Some(pages)
    else Some(-(total / -limit))
  }

  /** Position `i` lies on page `i / limit + 1`, and that page is within the page count. */
  lemma PageWindow(total: nat, limit: int, i: nat)
    requires limit > 0 && i < total
    ensures var page := i / limit + 1;
      && 1 <= page <= TotalPages(total, limit).value
      && (page - 1) * limit <= i < (page - 1) * limit + limit
  {
    var page := i / limit + 1;
    var pages := TotalPages(total, limit).value;
    assert (page - 1) * limit <= i < (page - 1) * limit + limit;
    assert (page - 1) * limit < pages * limit;
    assert (page - 1 - pages) * limit < 0;
  }

  /** Every product position is on a page between 1 and the page count: the page whose
      window `skip .. skip + limit` holds it. */
  lemma PagesCoverProducts(q: ListQuery, total: nat, i: nat)
    requires q.limit.GetOr(DefaultLimit) > 0 && i < total
    requires q.page == Some(i / q.limit.GetOr(DefaultLimit) + 1)
    ensures 1 <= q.page.value <= TotalPages(total, q.limit.GetOr(DefaultLimit)).value
    ensures Skip(q) <= i < Skip(q) + q.limit.GetOr(DefaultLimit)
  {
    PageWindow(total, q.limit.GetOr(DefaultLimit), i);
  }
}

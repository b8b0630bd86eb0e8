/**
 * The `products` table row and its dictionary form. The list and object columns are stored as
 * JSON text; `to_dict` decodes them, falling back to an empty list (images) or null (variants,
 * details) when the text is empty, does not decode, or (for images) is not a list.
 */
module Models {
  import opened Wrappers
  import opened Json

  /** One row of the `products` table. `images`, `variants` and `details` hold JSON text. */
  datatype ProductRow = ProductRow(
    id: string,
    name: string,
    description: string,
    price: real,
    originalPrice: Option<real>,
    image: string,
    images: string,
    category: string,
    rating: real,
    reviews: int,
    inStock: bool,
    variants: Option<string>,
    details: Option<string>,
    artisanStory: Option<string>)

  /** A row as handed to the table for insertion: the columns with defaults may be left unset. */
  datatype NewProduct = NewProduct(
    id: string,
    name: string,
    description: string,
    price: real,
    originalPrice: Option<real>,
    image: string,
    images: Option<string>,
    category: string,
    rating: Option<real>,
    reviews: Option<int>,
    inStock: Option<bool>,
    variants: Option<string>,
    details: Option<string>,
    artisanStory: Option<string>)

  /** The inserted row: unset columns take their defaults (images `'[]'`, rating 0.0, reviews 0, in stock). */
  function Insert(p: NewProduct): (r: ProductRow)
    ensures r.images == (if p.images.Some? then p.images.value else "[]")
    ensures r.rating == (if p.rating.Some? then p.rating.value else 0.0)
    ensures r.reviews == (if p.reviews.Some? then p.reviews.value else 0)
    ensures r.inStock == (p.inStock.None? || p.inStock.value)
    ensures r.id == p.id && r.name == p.name && r.description == p.description && r.price == p.price
    ensures r.originalPrice == p.originalPrice && r.image == p.image && r.category == p.category
    ensures r.variants == p.variants && r.details == p.details && r.artisanStory == p.artisanStory
  {
    ProductRow(p.id, p.name, p.description, p.price, p.originalPrice, p.image, p.images.GetOr("[]"),
               p.category, p.rating.GetOr(0.0), p.reviews.GetOr(0), p.inStock.GetOr(true),
               p.variants, p.details, p.artisanStory)
  }

  /**
   * The dictionary `to_dict` returns, one field per key, under the response's key names
   * (`originalPrice`, `inStock`, `artisanStory`). `variants` and `details` are `JNull` for None.
   */
  datatype ProductDict = ProductDict(
    id: string,
    name: string,
    description: string,
    price: real,
    originalPrice: Option<real>,
    image: string,
    images: seq<Json>,
    category: string,
    rating: real,
    reviews: int,
    inStock: bool,
    variants: Json,
    details: Json,
    artisanStory: Option<string>)

  /** The `images` column as a list: its decoded items, or [] when empty, undecodable or not a list. */
  function ImagesOf(text: string): (r: seq<Json>)
    ensures (Loads(text).Some? && Loads(text).value.JArr?) ==> r == Loads(text).value.items
    ensures !(Loads(text).Some? && Loads(text).value.JArr?) ==> r == []
  {
    if text == "" then []
    else
      match Loads(text)
      case Some(JArr(items)) => items
      case _ => []
  }

  /** A nullable JSON column decoded: null when unset, empty or undecodable, otherwise the decoded value. */
  function DecodedOrNull(text: Option<string>): (r: Json)
    ensures (text.None? || text == Some("")) ==> r == JNull
    ensures (text.Some? && Loads(text.value).None?) ==> r == JNull
    ensures (text.Some? && Loads(text.value).Some?) ==> r == Loads(text.value).value
  {
    if text.None? || text.value == "" then JNull
    else
      match Loads(text.value)
      case Some(v) => v
      case None => JNull
  }

  /** `Product.to_dict`: every scalar column passed through, the JSON columns decoded with their fallbacks. */
  function ToDict(row: ProductRow): (d: ProductDict)
    ensures d.id == row.id && d.name == row.name && d.description == row.description
    ensures d.price == row.price && d.image == row.image && d.category == row.category
    ensures d.rating == row.rating && d.reviews == row.reviews
    ensures d.originalPrice == row.originalPrice && d.inStock == row.inStock
    ensures d.artisanStory == row.artisanStory
    ensures d.images == ImagesOf(row.images)
    ensures d.variants == DecodedOrNull(row.variants) && d.details == DecodedOrNull(row.details)
  {
    ProductDict(row.id, row.name, row.description, row.price, row.originalPrice, row.image,
                ImagesOf(row.images), row.category, row.rating, row.reviews, row.inStock,
                DecodedOrNull(row.variants), DecodedOrNull(row.details), row.artisanStory)
  }

  /** A list of paths as JSON strings. */
  function StringItems(paths: seq<string>): (items: seq<Json>)
    ensures |items| == |paths| && forall i :: 0 <= i < |paths| ==> items[i] == JStr(paths[i])
  {
    seq(|paths|, i requires 0 <= i < |paths| => JStr(paths[i]))
  }

  /** The JSON text `json.dumps(paths)` writes for a list of paths. */
  function DumpPaths(paths: seq<string>): string {
    Dumps(JArr(StringItems(paths)), PythonStyle)
  }

  /** A list of paths stored with `json.dumps` comes back from `to_dict` as the same list. */
  lemma ImagesRoundTrip(row: ProductRow, paths: seq<string>)
    requires row.images == DumpPaths(paths)
    ensures ToDict(row).images == StringItems(paths)
  {
    var j := JArr(StringItems(paths));
    assert WellFormed(j);
    LoadsDumps(j, PythonStyle);
  }

  /** A JSON column stored with `json.dumps` comes back from `to_dict` as the stored value. */
  lemma DecodedRoundTrip(v: Json)
    requires WellFormed(v)
    ensures DecodedOrNull(Some(Dumps(v, PythonStyle))) == v
  {
    LoadsDumps(v, PythonStyle);
  }

  /** A row inserted with every defaulted column unset reads back as an empty image list, rated 0.0 by 0 reviews, in stock. */
  lemma InsertDefaults(p: NewProduct)
    requires p.images.None? && p.rating.None? && p.reviews.None? && p.inStock.None?
    ensures var d := ToDict(Insert(p));
      d.images == [] && d.rating == 0.0 && d.reviews == 0 && d.inStock
  {
    ImagesRoundTrip(Insert(p), []);
  }
}

/**
 * The request and response shapes of the product API: the closed category enumeration, and
 * validation of a decoded JSON request body into a product record (all fields of which are
 * typed), a partial-update record (every field optional) and a login request.
 */
module Schemas {
  import opened Wrappers
  import opened Dict
  import opened Json

  /** The five product categories. */
  datatype Category = Shawls | Pherans | Handbags | DryFruits | GiftHampers

  /** The string value of each category, as the API sends and stores it. */
  function CategoryValue(c: Category): string {
    match c
    case Shawls => "shawls"
    case Pherans => "pherans"
    case Handbags => "handbags"
    case DryFruits => "dry-fruits"
    case GiftHampers => "gift-hampers"
  }

  /** Every category value, in declaration order. */
  const CategoryValues: seq<string> := ["shawls", "pherans", "handbags", "dry-fruits", "gift-hampers"]

  /** `CategoryEnum(s)`: the member whose value is exactly `s`; any other string is rejected. */
  function ParseCategory(s: string): (r: Option<Category>)
    ensures r.Some? <==> s in CategoryValues
    ensures r.Some? ==> CategoryValue(r.value) == s
  {
    if s == "shawls" then Some(Shawls)
    else if s == "pherans" then Some(Pherans)
    else if s == "handbags" then Some(Handbags)
    else if s == "dry-fruits" then Some(DryFruits)
    else if s == "gift-hampers" then Some(GiftHampers)
    else None
  }

  /** Every category's value reads back as that category, and the values list is exactly them. */
  lemma CategoryRoundTrip(c: Category)
    ensures ParseCategory(CategoryValue(c)) == Some(c)
    ensures CategoryValue(c) in CategoryValues
  {
  }

  /** Distinct categories have distinct values. */
  lemma CategoryValueInjective(a: Category, b: Category)
    ensures CategoryValue(a) == CategoryValue(b) ==> a == b
  {
  }

  // ---------------------------------------------------------------- typed field readers

  /** `List[Dict[str, Any]]`: an array whose items are all objects. */
  function AsDictList(j: Json): (r: Option<seq<Entries<Json>>>)
    ensures r.Some? <==> j.JArr? && forall i :: 0 <= i < |j.items| ==> j.items[i].JObj?
    ensures r.Some? ==> |r.value| == |j.items| && forall i :: 0 <= i < |j.items| ==> j.items[i] == JObj(r.value[i])
  {
    if j.JArr? && forall i :: 0 <= i < |j.items| ==> j.items[i].JObj? then
      Some(seq(|j.items|, i requires 0 <= i < |j.items| && j.items[i].JObj? => j.items[i].members))
    else None
  }

  /** `List[str]`: an array whose items are all strings. */
  function AsStringList(j: Json): (r: Option<seq<string>>)
    ensures r.Some? <==> j.JArr? && forall i :: 0 <= i < |j.items| ==> j.items[i].JStr?
    ensures r.Some? ==> |r.value| == |j.items| && forall i :: 0 <= i < |j.items| ==> j.items[i] == JStr(r.value[i])
  {
    if j.JArr? && forall i :: 0 <= i < |j.items| ==> j.items[i].JStr? then
      Some(seq(|j.items|, i requires 0 <= i < |j.items| && j.items[i].JStr? => j.items[i].s))
    else None
  }

  /**
   * The outcome of reading one field: its value (None when the field is `Optional` and absent
   * or null), or a validation failure.
   */
  datatype Field<T> = Valid(v: T) | Invalid

  /** A required `str` field: absent or of another type fails. */
  function ReqString(raw: Option<Json>): Field<string> {
    if raw.Some? && raw.value.JStr? then Valid(raw.value.s) else Invalid
  }

  /** A required `float` field. */
  function ReqFloat(raw: Option<Json>): Field<real> {
    if raw.Some? && raw.value.JNum? then Valid(raw.value.n as real) else Invalid
  }

  /** A required `CategoryEnum` field. */
  function ReqCategory(raw: Option<Json>): Field<Category> {
    if raw.Some? && raw.value.JStr? && ParseCategory(raw.value.s).Some? then Valid(ParseCategory(raw.value.s).value)
    else Invalid
  }

  /** A `bool` field with a default: absent gives the default, any non-boolean (null included) fails. */
  function DefBool(raw: Option<Json>, default: bool): Field<bool> {
    if raw.None? then Valid(default) else if raw.value.JBool? then Valid(raw.value.b) else Invalid
  }

  /** A `float` field with a default. */
  function DefFloat(raw: Option<Json>, default: real): Field<real> {
    if raw.None? then Valid(default) else if raw.value.JNum? then Valid(raw.value.n as real) else Invalid
  }

  /** An `int` field with a default. */
  function DefInt(raw: Option<Json>, default: int): Field<int> {
    if raw.None? then Valid(default) else if raw.value.JNum? then Valid(raw.value.n) else Invalid
  }

  /** Absent and null are both "not given" for an `Optional` field. */
  predicate Unset(raw: Option<Json>) {
    raw.None? || raw.value == JNull
  }

  /** An `Optional[str]` field: accepted when not given or a string, and None exactly when not given. */
  function OptString(raw: Option<Json>): (f: Field<Option<string>>)
    ensures f.Valid? <==> Unset(raw) || raw.value.JStr?
    ensures f.Valid? ==> (f.v.None? <==> Unset(raw)) && (f.v.Some? ==> raw == Some(JStr(f.v.value)))
  {
    if Unset(raw) then Valid(None) else if raw.value.JStr? then Valid(Some(raw.value.s)) else Invalid
  }

  /** An `Optional[float]` field. */
  function OptFloat(raw: Option<Json>): (f: Field<Option<real>>)
    ensures f.Valid? <==> Unset(raw) || raw.value.JNum?
    ensures f.Valid? ==> (f.v.None? <==> Unset(raw)) && (f.v.Some? ==> raw.value.JNum? && f.v.value == raw.value.n as real)
  {
    if Unset(raw) then Valid(None) else if raw.value.JNum? then Valid(Some(raw.value.n as real)) else Invalid
  }

  /** An `Optional[int]` field. */
  function OptInt(raw: Option<Json>): (f: Field<Option<int>>)
    ensures f.Valid? <==> Unset(raw) || raw.value.JNum?
    ensures f.Valid? ==> (f.v.None? <==> Unset(raw)) && (f.v.Some? ==> raw == Some(JNum(f.v.value)))
  {
    if Unset(raw) then Valid(None) else if raw.value.JNum? then Valid(Some(raw.value.n)) else Invalid
  }

  /** An `Optional[bool]` field. */
  function OptBool(raw: Option<Json>): (f: Field<Option<bool>>)
    ensures f.Valid? <==> Unset(raw) || raw.value.JBool?
    ensures f.Valid? ==> (f.v.None? <==> Unset(raw)) && (f.v.Some? ==> raw == Some(JBool(f.v.value)))
  {
    if Unset(raw) then Valid(None) else if raw.value.JBool? then Valid(Some(raw.value.b)) else Invalid
  }

  /** An `Optional[CategoryEnum]` field: a string outside the enumeration fails. */
  function OptCategory(raw: Option<Json>): (f: Field<Option<Category>>)
    ensures f.Valid? <==> Unset(raw) || (raw.value.JStr? && raw.value.s in CategoryValues)
    ensures f.Valid? ==> (f.v.None? <==> Unset(raw)) && (f.v.Some? ==> raw == Some(JStr(CategoryValue(f.v.value))))
  {
    if Unset(raw) then Valid(None)
    else if raw.value.JStr? && ParseCategory(raw.value.s).Some? then Valid(ParseCategory(raw.value.s))
    else Invalid
  }

  /** An `Optional[Dict[str, Any]]` field. */
  function OptDict(raw: Option<Json>): (f: Field<Option<Entries<Json>>>)
    ensures f.Valid? <==> Unset(raw) || raw.value.JObj?
    ensures f.Valid? ==> (f.v.None? <==> Unset(raw)) && (f.v.Some? ==> raw == Some(JObj(f.v.value)))
  {
    if Unset(raw) then Valid(None) else if raw.value.JObj? then Valid(Some(raw.value.members)) else Invalid
  }

  /** An `Optional[List[Dict[str, Any]]]` field. */
  function OptDictList(raw: Option<Json>): (f: Field<Option<seq<Entries<Json>>>>)
    ensures f.Valid? <==> Unset(raw) || AsDictList(raw.value).Some?
    ensures f.Valid? ==> (f.v.None? <==> Unset(raw)) && (f.v.Some? ==> AsDictList(raw.value) == f.v)
  {
    if Unset(raw) then Valid(None)
    else if AsDictList(raw.value).Some? then Valid(AsDictList(raw.value))
    else Invalid
  }

  /** An `Optional[List[str]]` field. */
  function OptStringList(raw: Option<Json>): (f: Field<Option<seq<string>>>)
    ensures f.Valid? <==> Unset(raw) || AsStringList(raw.value).Some?
    ensures f.Valid? ==> (f.v.None? <==> Unset(raw)) && (f.v.Some? ==> AsStringList(raw.value) == f.v)
  {
    if Unset(raw) then Valid(None)
    else if AsStringList(raw.value).Some? then Valid(AsStringList(raw.value))
    else Invalid
  }

  /** The value under a field's alias or, failing that, under its own name (`populate_by_name`). */
  function Aliased(ms: Entries<Json>, alias: string, name: string): (r: Option<Json>)
    ensures HasKey(ms, alias) ==> r == Lookup(ms, alias)
    ensures !HasKey(ms, alias) ==> r == Lookup(ms, name)
  {
    if Lookup(ms, alias).Some? then Lookup(ms, alias) else Lookup(ms, name)
  }

  /** The field's name when it failed. */
  function Flag<T>(f: Field<T>, name: string): seq<string> {
    if f.Valid? then [] else [name]
  }

  // ---------------------------------------------------------------- ProductBase

  datatype ProductBase = ProductBase(
    name: string,
    description: string,
    price: real,
    originalPrice: Option<real>,
    category: Category,
    inStock: bool,
    rating: real,
    reviews: int,
    variants: Option<seq<Entries<Json>>>,
    details: Option<Entries<Json>>,
    artisanStory: Option<string>)

  /** The keys of the fields that are not required. */
  const OptionalKeys: seq<string> := ["original_price", "originalPrice", "in_stock", "inStock", "rating",
                                      "reviews", "variants", "details", "artisan_story", "artisanStory"]

  /**
   * The record from its validated fields: the record when every field is valid, otherwise the
   * names of the failing fields, in declaration order.
   */
  function Assemble(
    name: Field<string>,
    description: Field<string>,
    price: Field<real>,
    originalPrice: Field<Option<real>>,
    category: Field<Category>,
    inStock: Field<bool>,
    rating: Field<real>,
    reviews: Field<int>,
    variants: Field<Option<seq<Entries<Json>>>>,
    details: Field<Option<Entries<Json>>>,
    artisanStory: Field<Option<string>>)
    : (r: Result<ProductBase, seq<string>>)
    ensures r.Ok? <==> (name.Valid? && description.Valid? && price.Valid?
      && originalPrice.Valid? && category.Valid? && inStock.Valid?
      && rating.Valid? && reviews.Valid? && variants.Valid?
      && details.Valid? && artisanStory.Valid?)
    ensures r.Ok? ==> r.value == ProductBase(name.v, description.v, price.v, originalPrice.v, category.v, inStock.v,
                                             rating.v, reviews.v, variants.v, details.v, artisanStory.v)
    ensures r.Err? ==> r.error != []
    ensures name.Invalid? ==> r.Err? && "name" in r.error
    ensures description.Invalid? ==> r.Err? && "description" in r.error
    ensures price.Invalid? ==> r.Err? && "price" in r.error
    ensures category.Invalid? ==> r.Err? && "category" in r.error
  {
    var errors := Flag(name, "name") + Flag(description, "description") + Flag(price, "price")
      + Flag(originalPrice, "originalPrice") + Flag(category, "category") + Flag(inStock, "inStock")
      + Flag(rating, "rating") + Flag(reviews, "reviews") + Flag(variants, "variants")
      + Flag(details, "details") + Flag(artisanStory, "artisanStory");
    if errors == [] then
      Ok(ProductBase(name.v, description.v, price.v, originalPrice.v, category.v, inStock.v,
                     rating.v, reviews.v, variants.v, details.v, artisanStory.v))
    else
      Err(errors)
  }

  /**
   * Validation of a decoded request body as a `ProductBase`: the record when every field is
   * present where required and of its declared type, otherwise the names of the failing fields.
   */
  function ValidateProduct(body: Json): (r: Result<ProductBase, seq<string>>)
    ensures r.Err? ==> r.error != []
    ensures r.Ok? ==> (body.JObj?
      && Lookup(body.members, "name") == Some(JStr(r.value.name))
      && Lookup(body.members, "description") == Some(JStr(r.value.description))
      && Lookup(body.members, "category") == Some(JStr(CategoryValue(r.value.category))))
  {
    if !body.JObj? then Err(["body"])
    else
      var ms := body.members;
      var category := ReqCategory(Lookup(ms, "category"));
      assert category.Valid? ==> ParseCategory(Lookup(ms, "category").value.s) == Some(category.v);
      Assemble(
        ReqString(Lookup(ms, "name")),
        ReqString(Lookup(ms, "description")),
        ReqFloat(Lookup(ms, "price")),
        OptFloat(Aliased(ms, "original_price", "originalPrice")),
        category,
        DefBool(Aliased(ms, "in_stock", "inStock"), true),
        DefFloat(Lookup(ms, "rating"), 0.0),
        DefInt(Lookup(ms, "reviews"), 0),
        OptDictList(Lookup(ms, "variants")),
        OptDict(Lookup(ms, "details")),
        OptString(Aliased(ms, "artisan_story", "artisanStory")))
  }

  /** A body carrying the required fields and none of the others takes every default: in stock, rated 0.0 by 0 reviews, no optionals. */
  lemma ProductDefaults(ms: Entries<Json>, name: string, description: string, price: int, c: Category)
    requires Lookup(ms, "name") == Some(JStr(name)) && Lookup(ms, "description") == Some(JStr(description))
    requires Lookup(ms, "price") == Some(JNum(price)) && Lookup(ms, "category") == Some(JStr(CategoryValue(c)))
    requires forall k :: k in OptionalKeys ==> !HasKey(ms, k)
    ensures ValidateProduct(JObj(ms))
         == Ok(ProductBase(name, description, price as real, None, c, true, 0.0, 0, None, None, None))
  {
    CategoryRoundTrip(c);
    var keys := OptionalKeys;
    assert keys[0] in keys && keys[1] in keys && keys[2] in keys && keys[3] in keys && keys[4] in keys;
    assert keys[5] in keys && keys[6] in keys && keys[7] in keys && keys[8] in keys && keys[9] in keys;
    assert Aliased(ms, "original_price", "originalPrice") == None;
    assert Aliased(ms, "in_stock", "inStock") == None;
    assert Lookup(ms, "rating") == None && Lookup(ms, "reviews") == None;
    assert Lookup(ms, "variants") == None && Lookup(ms, "details") == None;
    assert Aliased(ms, "artisan_story", "artisanStory") == None;
    assert ReqCategory(Lookup(ms, "category")) == Valid(c);
    assert ReqString(Lookup(ms, "name")) == Valid(name) && ReqString(Lookup(ms, "description")) == Valid(description);
    assert ReqFloat(Lookup(ms, "price")) == Valid(price as real);
    assert OptFloat(None).Valid? && OptFloat(None).v.None? && OptString(None).Valid? && OptString(None).v.None?;
    assert OptDictList(None).Valid? && OptDictList(None).v.None? && OptDict(None).Valid? && OptDict(None).v.None?;
    assert DefBool(None, true) == Valid(true) && DefFloat(None, 0.0) == Valid(0.0) && DefInt(None, 0) == Valid(0);
  }

  /** A category string outside the enumeration fails validation, and the error names the field. */
  lemma ProductRejectsCategory(ms: Entries<Json>)
    requires Lookup(ms, "category").Some?
    requires var c := Lookup(ms, "category").value; !c.JStr? || c.s !in CategoryValues
    ensures ValidateProduct(JObj(ms)).Err? && "category" in ValidateProduct(JObj(ms)).error
  {
  }

  /** A missing required field fails validation, and the error names it. */
  lemma ProductRequiresFields(ms: Entries<Json>, field: string)
    requires field in ["name", "description", "price", "category"]
    requires !HasKey(ms, field)
    ensures ValidateProduct(JObj(ms)).Err? && field in ValidateProduct(JObj(ms)).error
  {
  }

  /** A field sent under its alias is read from there even when its own name is also present. */
  lemma AliasWins(ms: Entries<Json>, p: int)
    requires Lookup(ms, "original_price") == Some(JNum(p))
    requires ValidateProduct(JObj(ms)).Ok?
    ensures ValidateProduct(JObj(ms)).value.originalPrice == Some(p as real)
  {
  }

  /** With no alias present, the field's own name is read. */
  lemma NameWithoutAlias(ms: Entries<Json>, p: int)
    requires !HasKey(ms, "original_price") && Lookup(ms, "originalPrice") == Some(JNum(p))
    requires ValidateProduct(JObj(ms)).Ok?
    ensures ValidateProduct(JObj(ms)).value.originalPrice == Some(p as real)
  {
  }

  // ---------------------------------------------------------------- ProductUpdate

  /** Every field optional; absent or null means "not sent". */
  datatype ProductUpdate = ProductUpdate(
    name: Option<string>,
    description: Option<string>,
    price: Option<real>,
    originalPrice: Option<real>,
    category: Option<Category>,
    inStock: Option<bool>,
    rating: Option<real>,
    reviews: Option<int>,
    image: Option<string>,
    images: Option<seq<string>>,
    variants: Option<seq<Entries<Json>>>,
    details: Option<Entries<Json>>,
    artisanStory: Option<string>)

  const NoUpdate := ProductUpdate(None, None, None, None, None, None, None, None, None, None, None, None, None)

  /** The value a field was sent with: absent and null are both None. */
  function Sent(ms: Entries<Json>, k: string): (r: Option<Json>)
    ensures r.None? <==> Unset(Lookup(ms, k))
  {
    if Unset(Lookup(ms, k)) then None else Lookup(ms, k)
  }

  /** The fields of `ProductUpdate`, in declaration order. */
  const UpdateKeys: seq<string> := ["name", "description", "price", "original_price", "category", "in_stock",
                                    "rating", "reviews", "image", "images", "variants", "details", "artisan_story"]

  /** What the body sent for each field of `ProductUpdate`. */
  function SentFields(ms: Entries<Json>): (raw: seq<Option<Json>>)
    ensures |raw| == |UpdateKeys| && forall i :: 0 <= i < |UpdateKeys| ==> raw[i] == Sent(ms, UpdateKeys[i])
  {
    seq(|UpdateKeys|, i requires 0 <= i < |UpdateKeys| => Sent(ms, UpdateKeys[i]))
  }

  /** Validation of a decoded request body as a `ProductUpdate`: every field read as an `Optional`. */
  function ValidateUpdate(body: Json): (r: Result<ProductUpdate, seq<string>>)
    ensures r.Err? ==> r.error != []
    ensures r.Ok? <==> body.JObj? && UpdateFieldsValid(SentFields(body.members))
    ensures r.Ok? ==> UpdateCarries(r.value, SentFields(body.members))
  {
    if !body.JObj? then Err(["body"]) else UpdateFromFields(SentFields(body.members))
  }

  /** Every field sent has its declared type (a field not sent is always fine). */
  predicate UpdateFieldsValid(raw: seq<Option<Json>>)
    requires |raw| == |UpdateKeys|
  {
    && OptString(raw[0]).Valid? && OptString(raw[1]).Valid? && OptFloat(raw[2]).Valid?
    && OptFloat(raw[3]).Valid? && OptCategory(raw[4]).Valid? && OptBool(raw[5]).Valid?
    && OptFloat(raw[6]).Valid? && OptInt(raw[7]).Valid? && OptString(raw[8]).Valid?
    && OptStringList(raw[9]).Valid? && OptDictList(raw[10]).Valid? && OptDict(raw[11]).Valid?
    && OptString(raw[12]).Valid?
  }

  /** The update holds, field by field, the value each field was sent with (None for a field not sent). */
  predicate UpdateCarries(u: ProductUpdate, raw: seq<Option<Json>>)
    requires |raw| == |UpdateKeys| && UpdateFieldsValid(raw)
  {
    && u.name == OptString(raw[0]).v && u.description == OptString(raw[1]).v
    && u.price == OptFloat(raw[2]).v && u.originalPrice == OptFloat(raw[3]).v
    && u.category == OptCategory(raw[4]).v && u.inStock == OptBool(raw[5]).v
    && u.rating == OptFloat(raw[6]).v && u.reviews == OptInt(raw[7]).v
    && u.image == OptString(raw[8]).v && u.images == OptStringList(raw[9]).v
    && u.variants == OptDictList(raw[10]).v && u.details == OptDict(raw[11]).v
    && u.artisanStory == OptString(raw[12]).v
  }

  /**
   * The update record from the values sent for each field: valid exactly when every field sent
   * has its declared type, and then carrying each sent value; otherwise the names of the
   * ill-typed fields.
   */
  function UpdateFromFields(raw: seq<Option<Json>>): (r: Result<ProductUpdate, seq<string>>)
    requires |raw| == |UpdateKeys|
    ensures r.Ok? <==> UpdateFieldsValid(raw)
    ensures r.Ok? ==> UpdateCarries(r.value, raw)
    ensures r.Err? ==> r.error != []
    ensures !OptString(raw[0]).Valid? ==> r.Err? && "name" in r.error
    ensures !OptFloat(raw[2]).Valid? ==> r.Err? && "price" in r.error
    ensures !OptCategory(raw[4]).Valid? ==> r.Err? && "category" in r.error
  {
    var name := OptString(raw[0]);
    var description := OptString(raw[1]);
    var price := OptFloat(raw[2]);
    var originalPrice := OptFloat(raw[3]);
    var category := OptCategory(raw[4]);
    var inStock := OptBool(raw[5]);
    var rating := OptFloat(raw[6]);
    var reviews := OptInt(raw[7]);
    var image := OptString(raw[8]);
    var images := OptStringList(raw[9]);
    var variants := OptDictList(raw[10]);
    var details := OptDict(raw[11]);
    var artisanStory := OptString(raw[12]);
    var errors := Flag(name, "name") + Flag(description, "description") + Flag(price, "price")
      + Flag(originalPrice, "original_price") + Flag(category, "category") + Flag(inStock, "in_stock")
      + Flag(rating, "rating") + Flag(reviews, "reviews") + Flag(image, "image") + Flag(images, "images")
      + Flag(variants, "variants") + Flag(details, "details") + Flag(artisanStory, "artisan_story");
    if errors == [] then
      Ok(ProductUpdate(name.v, description.v, price.v, originalPrice.v, category.v, inStock.v,
                       rating.v, reviews.v, image.v, images.v, variants.v, details.v, artisanStory.v))
    else
      Err(errors)
  }

  /**
   * A validated update read from a body: a field is None exactly when its key is absent or null,
   * and otherwise holds the value sent under that key.
   */
  lemma UpdateReadsSentKeys(ms: Entries<Json>)
    requires ValidateUpdate(JObj(ms)).Ok?
    ensures var u := ValidateUpdate(JObj(ms)).value;
      && (u.name.None? <==> Unset(Lookup(ms, "name")))
      && (u.name.Some? ==> Lookup(ms, "name") == Some(JStr(u.name.value)))
      && (u.price.None? <==> Unset(Lookup(ms, "price")))
      && (u.price.Some? ==> Lookup(ms, "price").value.JNum? && u.price.value == Lookup(ms, "price").value.n as real)
      && (u.originalPrice.None? <==> Unset(Lookup(ms, "original_price")))
      && (u.category.None? <==> Unset(Lookup(ms, "category")))
      && (u.category.Some? ==> Lookup(ms, "category") == Some(JStr(CategoryValue(u.category.value))))
      && (u.inStock.None? <==> Unset(Lookup(ms, "in_stock")))
      && (u.inStock.Some? ==> Lookup(ms, "in_stock") == Some(JBool(u.inStock.value)))
      && (u.artisanStory.None? <==> Unset(Lookup(ms, "artisan_story")))
      && (u.artisanStory.Some? ==> Lookup(ms, "artisan_story") == Some(JStr(u.artisanStory.value)))
  {
    var raw := SentFields(ms);
    assert raw[0] == Sent(ms, "name") && raw[2] == Sent(ms, "price") && raw[3] == Sent(ms, "original_price");
    assert raw[4] == Sent(ms, "category") && raw[5] == Sent(ms, "in_stock") && raw[12] == Sent(ms, "artisan_story");
  }

  /** No field is required: an empty object is a valid update that changes nothing. */
  lemma EmptyUpdate()
    ensures ValidateUpdate(JObj([])) == Ok(NoUpdate)
  {
  }

  /** A field sent as null is the same as a field not sent. */
  lemma UpdateNullIsAbsent(ms: Entries<Json>, key: string)
    requires !HasKey(ms, key)
    ensures ValidateUpdate(JObj(ms + [(key, JNull)])) == ValidateUpdate(JObj(ms))
  {
    var ms' := ms + [(key, JNull)];
    forall k ensures Sent(ms', k) == Sent(ms, k) {
      if k == key {
        LookupAppendNew(ms, key, JNull);
      } else {
        LookupAppend(ms, key, JNull, k);
      }
    }
    assert SentFields(ms') == SentFields(ms);
  }

  lemma {:induction false} LookupAppend(ms: Entries<Json>, key: string, v: Json, k: string)
    requires k != key
    ensures Lookup(ms + [(key, v)], k) == Lookup(ms, k)
  {
    if ms != [] {
      assert (ms + [(key, v)])[1..] == ms[1..] + [(key, v)];
      LookupAppend(ms[1..], key, v, k);
    }
  }

  /** A key appended to a dictionary that lacked it is found with its value. */
  lemma {:induction false} LookupAppendNew(ms: Entries<Json>, key: string, v: Json)
    requires !HasKey(ms, key)
    ensures Lookup(ms + [(key, v)], key) == Some(v)
  {
    if ms != [] {
      assert ms[0].0 != key;
      assert (ms + [(key, v)])[1..] == ms[1..] + [(key, v)];
      assert !HasKey(ms[1..], key) by {
        forall i | 0 <= i < |ms[1..]| ensures ms[1..][i].0 != key {
          assert ms[1..][i] == ms[i + 1];
        }
      }
      LookupAppendNew(ms[1..], key, v);
    }
  }

  // ---------------------------------------------------------------- LoginRequest

  datatype LoginRequest = LoginRequest(username: string, password: string)

  /** Both `username` and `password` are required strings. */
  function ValidateLogin(body: Json): (r: Result<LoginRequest, seq<string>>)
    ensures r.Ok? <==> body.JObj? && ReqString(Lookup(body.members, "username")).Valid?
                                  && ReqString(Lookup(body.members, "password")).Valid?
    ensures r.Ok? ==> (Lookup(body.members, "username") == Some(JStr(r.value.username))
                   && Lookup(body.members, "password") == Some(JStr(r.value.password)))
    ensures r.Err? ==> r.error != []
  {
    if !body.JObj? then Err(["body"])
    else
      var user := ReqString(Lookup(body.members, "username"));
      var pass := ReqString(Lookup(body.members, "password"));
      if user.Valid? && pass.Valid? then Ok(LoginRequest(user.v, pass.v))
      else Err(Flag(user, "username") + Flag(pass, "password"))
  }
}

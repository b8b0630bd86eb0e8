/**
 * The product API's request handlers: the CORS origin list and the preflight origin choice, the
 * path an uploaded image is saved under, and the products table with its create, update, delete,
 * list and lookup operations. Uploaded files are represented by their name and size only; the
 * random hex strings the server draws are a parameter `uuids` (draw k is `uuids(k)`), and
 * Python's `float()` and `int()` on form strings are parameters `float` and `parseInt`.
 */
module Backend {
  import opened Wrappers
  import opened Text
  import opened Json
  import opened Schemas
  import opened Models

  /** An error response: its status code and `detail`. */
  datatype HttpError = HttpError(status: int, detail: string)

  const NotFound := HttpError(404, "Product not found")
  const InvalidPrice := HttpError(400, "Invalid price value")
  /** An exception the handler does not catch. */
  const ServerError := HttpError(500, "Internal Server Error")
  /** A form field the framework could not convert to its declared type. */
  const ValidationError := HttpError(422, "Validation error - check required fields")

  /** The 422 `create_product` raises for a category outside the enumeration. */
  function InvalidCategory(category: string): HttpError {
    HttpError(422, "Invalid category: " + category
      + ". Must be one of: ['shawls', 'pherans', 'handbags', 'dry-fruits', 'gift-hampers']")
  }

  // ---------------------------------------------------------------- CORS

  const DefaultOrigins: seq<string> := [
    "http://localhost:8080", "http://127.0.0.1:8080", "http://localhost:8081", "http://127.0.0.1:8081",
    "http://localhost:8082", "http://127.0.0.1:8082", "http://localhost:5173",
    "https://kashmiricraft.com", "https://www.kashmiricraft.com"]

  /** An entry as configured: non-empty, neither starting nor ending with whitespace (so stripping it changes nothing). */
  predicate Clean(o: string) {
    o != "" && !IsPySpace(o[0]) && !IsPySpace(o[|o| - 1])
  }

  /** A stripped entry that is not empty is clean. */
  lemma StrippedClean(s: string)
    ensures PyStrip(s) != "" ==> Clean(PyStrip(s))
  {
    StripShape(s, IsPySpace);
  }

  /** Each entry stripped, the entries that strip to nothing dropped, order kept. */
  function CleanEntries(parts: seq<string>): (r: seq<string>)
    ensures |r| <= |parts|
    ensures forall i :: 0 <= i < |r| ==> Clean(r[i])
  {
    if parts == [] then [] else Cleaned(parts[0]) + CleanEntries(parts[1..])
  }

  /** One entry cleaned: its stripped text, or nothing when that is empty. */
  function Cleaned(p: string): (r: seq<string>)
    ensures |r| <= 1 && forall i :: 0 <= i < |r| ==> Clean(r[i])
  {
    var s := PyStrip(p);
    StrippedClean(p);
    if s != "" then [s] else []
  }

  /** An origin is allowed exactly when it is not empty and some entry strips to it. */
  lemma {:induction false} CleanEntriesMembers(parts: seq<string>, x: string)
    ensures x in CleanEntries(parts) <==> x != "" && exists j :: 0 <= j < |parts| && PyStrip(parts[j]) == x
  {
    if parts != [] {
      CleanEntriesMembers(parts[1..], x);
      if x != "" && exists j :: 0 <= j < |parts| && PyStrip(parts[j]) == x {
        var j :| 0 <= j < |parts| && PyStrip(parts[j]) == x;
        if j > 0 {
          assert PyStrip(parts[1..][j - 1]) == x;
        }
      }
      if x in CleanEntries(parts[1..]) {
        var j :| 0 <= j < |parts| - 1 && PyStrip(parts[1..][j]) == x;
        assert PyStrip(parts[j + 1]) == x;
      }
    }
  }

  /** Cleaning works entry by entry: the cleaned halves of a list, in order, make the cleaned list. */
  lemma {:induction false} CleanEntriesAppend(a: seq<string>, b: seq<string>)
    ensures CleanEntries(a + b) == CleanEntries(a) + CleanEntries(b)
  {
    if a != [] {
      ConsAppend(a, b);
      CleanEntriesAppend(a[1..], b);
      AppendAssoc(Cleaned(a[0]), CleanEntries(a[1..]), CleanEntries(b));
    } else {
      assert a + b == b;
    }
  }

  /** The head and tail of `a + b` when `a` is not empty. */
  lemma ConsAppend<T>(a: seq<T>, b: seq<T>)
    requires a != []
    ensures (a + b)[0] == a[0] && (a + b)[1..] == a[1..] + b
  {
  }

  /** `x` is the first part of `x + y`. */
  lemma PrefixOfAppend<T>(x: seq<T>, y: seq<T>)
    ensures (x + y)[..|x|] == x
  {
  }

  lemma AppendAssoc<T>(x: seq<T>, y: seq<T>, z: seq<T>)
    ensures x + (y + z) == (x + y) + z
  {
  }

  /** One entry cleans to its stripped text, or to nothing when that is empty. */
  lemma CleanEntriesOne(p: string)
    ensures CleanEntries([p]) == if PyStrip(p) == "" then [] else [PyStrip(p)]
  {
    assert [p][1..] == [];
  }

  /** Whitespace before and after a clean entry is removed, and nothing else. */
  lemma StripPadding(left: string, o: string, right: string)
    requires All(left, IsPySpace) && All(right, IsPySpace) && Clean(o)
    ensures PyStrip(left + o + right) == o
  {
    DropSpaces(left, o + right);
    assert left + o + right == left + (o + right);
    KeepSolidEnd(o, right);
  }

  /** Leading space characters are dropped up to the first other character. */
  lemma {:induction false} DropSpaces(left: string, s: string)
    requires All(left, IsPySpace) && s != [] && !IsPySpace(s[0])
    ensures DropLeading(left + s, IsPySpace) == s
  {
    if left != [] {
      assert (left + s)[1..] == left[1..] + s;
      DropSpaces(left[1..], s);
    } else {
      assert left + s == s;
    }
  }

  /** Trailing space characters after a non-space character are dropped, and only they. */
  lemma {:induction false} KeepSolidEnd(o: string, right: string)
    requires All(right, IsPySpace) && o != [] && !IsPySpace(o[|o| - 1])
    ensures DropTrailing(o + right, IsPySpace) == o
  {
    if right != [] {
      var n := |right| - 1;
      assert (o + right)[..|o + right| - 1] == o + right[..n];
      KeepSolidEnd(o, right[..n]);
    } else {
      assert o + right == o;
    }
  }

  /**
   * Entries that are clean origins with whitespace around them clean to exactly those origins:
   * `lefts[i] + origins[i] + rights[i]` becomes `origins[i]`, in order.
   */
  lemma {:induction false} CleanEntriesPadded(raw: seq<string>, lefts: seq<string>, origins: seq<string>, rights: seq<string>)
    requires |lefts| == |raw| && |origins| == |raw| && |rights| == |raw|
    requires forall i :: 0 <= i < |raw| ==> raw[i] == lefts[i] + origins[i] + rights[i]
    requires forall i :: 0 <= i < |raw| ==> All(lefts[i], IsPySpace) && All(rights[i], IsPySpace) && Clean(origins[i])
    ensures CleanEntries(raw) == origins
  {
    if raw != [] {
      StripPadding(lefts[0], origins[0], rights[0]);
      CleanEntriesPadded(raw[1..], lefts[1..], origins[1..], rights[1..]);
    }
  }

  /** Whitespace holds no comma. */
  lemma SpacesHaveNoComma(w: string)
    requires All(w, IsPySpace)
    ensures ',' !in w
  {
  }

  /**
   * A comma-separated variable whose entries are clean, comma-free origins padded with whitespace
   * configures exactly the stripped origins, in order, whatever the defaults.
   */
  lemma PaddedOriginsStripped(raw: seq<string>, lefts: seq<string>, origins: seq<string>, rights: seq<string>, defaults: seq<string>)
    requires |raw| >= 1 && |lefts| == |raw| && |origins| == |raw| && |rights| == |raw|
    requires forall i :: 0 <= i < |raw| ==> raw[i] == lefts[i] + origins[i] + rights[i]
    requires forall i :: 0 <= i < |raw| ==> All(lefts[i], IsPySpace) && All(rights[i], IsPySpace) && Clean(origins[i])
    requires forall i :: 0 <= i < |raw| ==> ',' !in origins[i]
    ensures CorsOrigins(Some(Join(raw, ",")), defaults) == origins
  {
    forall i | 0 <= i < |raw|
      ensures ',' !in raw[i]
    {
      SpacesHaveNoComma(lefts[i]);
      SpacesHaveNoComma(rights[i]);
    }
    JoinNotEmpty(raw, [',']);
    SplitJoin(raw, ',');
    CleanEntriesPadded(raw, lefts, origins, rights);
  }

  /**
   * The origin list before cleaning: the `CORS_ORIGINS` variable split on `,` when it is set and
   * non-empty, else the built-in list (`DefaultOrigins` in the running service).
   */
  function RawOrigins(env: Option<string>, defaults: seq<string>): (r: seq<string>)
    ensures env.Some? && env.value != "" ==> Join(r, ",") == env.value && forall i :: 0 <= i < |r| ==> ',' !in r[i]
    ensures env.None? || env.value == "" ==> r == defaults
  {
    if env.Some? && env.value != "" then Split(env.value, ',') else defaults
  }

  /** The allowed origins: the raw list with every entry stripped and the blank entries dropped. */
  function CorsOrigins(env: Option<string>, defaults: seq<string>): (r: seq<string>)
    ensures forall i :: 0 <= i < |r| ==> Clean(r[i])
    ensures |r| <= |RawOrigins(env, defaults)|
    ensures forall x :: x in r <==>
      x != "" && exists j :: 0 <= j < |RawOrigins(env, defaults)| && PyStrip(RawOrigins(env, defaults)[j]) == x
  {
    var raw := RawOrigins(env, defaults);
    assert forall x :: x in CleanEntries(raw) <==> x != "" && exists j :: 0 <= j < |raw| && PyStrip(raw[j]) == x by {
      forall x
        ensures x in CleanEntries(raw) <==> x != "" && exists j :: 0 <= j < |raw| && PyStrip(raw[j]) == x
      {
        CleanEntriesMembers(raw, x);
      }
    }
    CleanEntries(raw)
  }

  /** Cleaning a list whose entries are all clean changes nothing. */
  lemma {:induction false} CleanEntriesIdentity(parts: seq<string>)
    requires forall i :: 0 <= i < |parts| ==> Clean(parts[i])
    ensures CleanEntries(parts) == parts
  {
    if parts != [] {
      StripUnpadded(parts[0], IsPySpace);
      CleanEntriesIdentity(parts[1..]);
    }
  }

  /** Every built-in origin is already clean. */
  lemma DefaultsClean()
    ensures forall i :: 0 <= i < |DefaultOrigins| ==> Clean(DefaultOrigins[i])
  {
    var d := DefaultOrigins;
    assert forall i :: 0 <= i < |d| ==> Clean(d[i]);
  }

  /** Without the variable, or with it empty, clean defaults are used as they are. */
  lemma UnsetUsesDefaults(env: Option<string>, defaults: seq<string>)
    requires env.None? || env == Some("")
    requires forall i :: 0 <= i < |defaults| ==> Clean(defaults[i])
    ensures CorsOrigins(env, defaults) == defaults
  {
    CleanEntriesIdentity(defaults);
  }

  /** A comma-separated list of clean, comma-free origins configures exactly those origins, whatever the defaults. */
  lemma CorsOriginsRoundTrip(origins: seq<string>, defaults: seq<string>)
    requires |origins| >= 1
    requires forall i :: 0 <= i < |origins| ==> Clean(origins[i]) && ',' !in origins[i]
    ensures CorsOrigins(Some(Join(origins, ",")), defaults) == origins
  {
    JoinNotEmpty(origins, [',']);
    SplitJoin(origins, ',');
    CleanEntriesIdentity(origins);
  }

  /** A join whose first part is not empty is not empty. */
  lemma JoinNotEmpty(parts: seq<string>, sep: string)
    requires |parts| >= 1 && parts[0] != ""
    ensures Join(parts, sep) != ""
  {
    if |parts| > 1 {
      assert Join(parts, sep) == parts[0] + sep + Join(parts[1..], sep);
    }
  }

  /** The preflight `Access-Control-Allow-Origin`: the request's origin when allowed, else the first allowed origin, else `*`. */
  function AllowOrigin(originHeader: Option<string>, allowed: seq<string>): (r: string)
    ensures r in allowed || (allowed == [] && r == "*")
    ensures originHeader.GetOr("") in allowed ==> r == originHeader.GetOr("")
    ensures originHeader.GetOr("") !in allowed && allowed != [] ==> r == allowed[0]
  {
    var origin := originHeader.GetOr("");
    if origin in allowed then origin else if allowed != [] then allowed[0] else "*"
  }

  // ---------------------------------------------------------------- uploads

  /** An uploaded file part: its file name ("" when the part has none) and its size in bytes. */
  datatype Upload = Upload(filename: string, size: nat)

  /** Python's `s[:n]`. */
  function Prefix(s: string, n: nat): (r: string)
    ensures |r| == (if |s| <= n then |s| else n) && r == s[..|r|]
  {
    if |s| <= n then s else s[..n]
  }

  /** Where `save_uploaded_file` puts a file: `/uploads/<product id>_<8 hex chars><extension>`. */
  function SavedPath(productId: string, hex: string, filename: string): (r: string)
    ensures StartsWith(r, "/uploads/" + productId + "_")
    ensures r == "/uploads/" + productId + "_" + Prefix(hex, 8) + Extension(filename)
  {
    var head := "/uploads/" + productId + "_";
    var name := Prefix(hex, 8);
    var ext := Extension(filename);
    AppendAssoc(head, name, ext);
    PrefixOfAppend(head, name + ext);
    head + name + ext
  }

  /** Browsers may send empty file parts; those (no file name, or no bytes) are skipped. */
  predicate Kept(f: Upload) {
    f.filename != "" && f.size > 0
  }

  /** `save_uploaded_file` for one product: the `k`-th file saved draws `uuids(k)`. */
  function Saver(productId: string, uuids: nat -> string): (nat, Upload) -> string {
    (k: nat, f: Upload) => SavedPath(productId, uuids(k), f.filename)
  }

  /** What `save` returns for each kept file, in order; the k-th kept file is saved as number `next + k`. */
  function SavedNames(files: seq<Upload>, save: (nat, Upload) -> string, next: nat): (r: seq<string>)
    ensures |r| <= |files|
  {
    if files == [] then []
    else if Kept(files[0]) then [save(next, files[0])] + SavedNames(files[1..], save, next + 1)
    else SavedNames(files[1..], save, next)
  }

  /** The paths the kept files are saved under, in order; the k-th saved file draws `uuids(next + k)`. */
  function KeptPaths(files: seq<Upload>, productId: string, uuids: nat -> string, next: nat): (r: seq<string>)
    ensures |r| <= |files|
  {
    SavedNames(files, Saver(productId, uuids), next)
  }

  /** Nothing is saved exactly when no file is kept. */
  lemma {:induction false} SavedNamesEmpty(files: seq<Upload>, save: (nat, Upload) -> string, next: nat)
    ensures SavedNames(files, save, next) == [] <==> forall i :: 0 <= i < |files| ==> !Kept(files[i])
  {
    if files != [] {
      var tl := files[1..];
      SavedNamesEmpty(tl, save, next);
      SavedNamesEmpty(tl, save, next + 1);
      assert forall i :: 0 <= i < |tl| ==> tl[i] == files[i + 1];
    }
  }

  /** No path is produced exactly when no file is kept. */
  lemma KeptPathsEmpty(files: seq<Upload>, productId: string, uuids: nat -> string, next: nat)
    ensures KeptPaths(files, productId, uuids, next) == [] <==> forall i :: 0 <= i < |files| ==> !Kept(files[i])
  {
    SavedNamesEmpty(files, Saver(productId, uuids), next);
  }

  /** Every saved path lies in the upload directory and carries the product id. */
  lemma {:induction false} KeptPathsShape(files: seq<Upload>, productId: string, uuids: nat -> string, next: nat)
    ensures forall p :: p in KeptPaths(files, productId, uuids, next) ==> StartsWith(p, "/uploads/" + productId + "_")
  {
    if files != [] {
      KeptPathsShape(files[1..], productId, uuids, next);
      KeptPathsShape(files[1..], productId, uuids, next + 1);
      var save := Saver(productId, uuids);
      assert save(next, files[0]) == SavedPath(productId, uuids(next), files[0].filename);
    }
  }

  /** One turn of the upload loop: the file at `i` is saved as number `next` when it is kept, then the files after it. */
  lemma SaveStep(files: seq<Upload>, i: nat, save: (nat, Upload) -> string, next: nat, done: seq<string>)
    requires i < |files|
    ensures Kept(files[i]) ==> (done + SavedNames(files[i..], save, next) ==
      (done + [save(next, files[i])]) + SavedNames(files[i + 1..], save, next + 1))
    ensures !Kept(files[i]) ==> (done + SavedNames(files[i..], save, next) ==
      done + SavedNames(files[i + 1..], save, next))
  {
    assert files[i..][1..] == files[i + 1..];
    if Kept(files[i]) {
      var rest := SavedNames(files[i + 1..], save, next + 1);
      assert done + ([save(next, files[i])] + rest) == (done + [save(next, files[i])]) + rest;
    }
  }

  /** The loop over the uploaded parts: save each kept file with `save` (`save_uploaded_file`) and collect its path. */
  method SaveUploads(files: seq<Upload>, save: (nat, Upload) -> string, first: nat) returns (paths: seq<string>)
    ensures paths == SavedNames(files, save, first)
  {
    paths := [];
    var i := 0;
    var next := first;
    assert files[0..] == files;
    while i < |files|
      invariant 0 <= i <= |files| && next == first + |paths|
      invariant paths + SavedNames(files[i..], save, next) == SavedNames(files, save, first)
    {
      SaveStep(files, i, save, next, paths);
      if Kept(files[i]) {
        paths := paths + [save(next, files[i])];
        next := next + 1;
      }
      i := i + 1;
    }
    assert paths + [] == paths;
  }

  // ---------------------------------------------------------------- stored JSON columns

  /** Python truthiness of a decoded JSON value. */
  predicate Truthy(j: Json) {
    match j
    case JNull => false
    case JBool(b) => b
    case JNum(n) => n != 0
    case JStr(s) => s != ""
    case JArr(items) => items != []
    case JObj(ms) => ms != []
  }

  /** The `images` column decoded, or None when it is empty or does not decode (the handlers then use []). */
  function StoredImages(text: string): (r: Option<Json>)
    ensures r.Some? ==> Loads(text) == r
  {
    if text == "" then None else Loads(text)
  }

  /** A stored path list decodes to its paths. */
  lemma StoredPaths(paths: seq<string>)
    ensures StoredImages(DumpPaths(paths)) == Some(JArr(StringItems(paths)))
  {
    var j := JArr(StringItems(paths));
    assert WellFormed(j);
    LoadsDumps(j, PythonStyle);
    DumpsHead(j, PythonStyle);
  }

  /**
   * A JSON form field normalised for storage: None when absent, blank or not decodable,
   * otherwise the decoded value re-encoded by `json.dumps`.
   */
  function Reserialized(text: Option<string>): (r: Option<string>)
    ensures (text.None? || PyStrip(text.value) == "") ==> r.None?
    ensures text.Some? && Loads(text.value).None? ==> r.None?
    ensures r.Some? ==> Loads(text.value).Some? && r.value == Dumps(Loads(text.value).value, PythonStyle)
  {
    if text.None? || PyStrip(text.value) == "" then None
    else
      match Loads(text.value)
      case Some(v) => Some(Dumps(v, PythonStyle))
      case None => None
  }

  /** The text `JSON.stringify` sends is never blank. */
  lemma SentTextNotBlank(v: Json)
    ensures PyStrip(Dumps(v, JsStyle)) != ""
  {
    var d := Dumps(v, JsStyle);
    DumpsHead(v, JsStyle);
    var c := d[0];
    assert c == 'n' || c == 't' || c == 'f' || c == '"' || c == '[' || c == '{' || c == '-' || IsDigit(c);
    assert !IsPySpace(c);
    SolidStartNotBlank(d, IsPySpace);
  }

  /** The text `JSON.stringify` sends for a value is stored so that `to_dict` returns that value. */
  lemma ReserializedRoundTrip(v: Json)
    requires WellFormed(v)
    ensures DecodedOrNull(Reserialized(Some(Dumps(v, JsStyle)))) == v
  {
    SentTextNotBlank(v);
    assert ValidStyle(JsStyle);
    LoadsDumps(v, JsStyle);
    DecodedRoundTrip(v);
  }

  // ---------------------------------------------------------------- create

  /** The multipart form of `POST /api/products`; the optional strings are None when not sent. */
  datatype CreateForm = CreateForm(
    name: string,
    description: string,
    price: string,
    originalPrice: Option<string>,
    category: string,
    inStock: Option<string>,
    rating: Option<string>,
    reviews: Option<string>,
    variants: Option<string>,
    details: Option<string>,
    artisanStory: Option<string>,
    image: Upload,
    additionalImages: seq<Upload>)

  /** `<category>-<6 hex chars>`. */
  function ProductId(c: Category, hex: string): (r: string)
    ensures StartsWith(r, CategoryValue(c) + "-") && |r| == |CategoryValue(c)| + 1 + |Prefix(hex, 6)|
  {
    var r := CategoryValue(c) + "-" + Prefix(hex, 6);
    assert r[..|CategoryValue(c) + "-"|] == CategoryValue(c) + "-";
    r
  }

  /** On create, in stock iff the lower-cased flag is `true`, `1` or `yes`. */
  predicate CreateInStock(flag: string)
    ensures CreateInStock(flag) ==> PyStrip(flag) == flag && 1 <= |flag| <= 4
  {
    var lower := AsciiLower(flag);
    if lower in ["true", "1", "yes"] then
      assert !IsPySpace(lower[0]) && !IsPySpace(lower[|lower| - 1]);
      StripUnpadded(flag, IsPySpace);
      true
    else false
  }

  /** An optional form number: 0 when empty or unparseable. */
  function NumberOrZero(text: string, float: string -> Option<real>): (r: real)
    ensures text == "" || float(text).None? ==> r == 0.0
    ensures text != "" && float(text).Some? ==> r == float(text).value
  {
    if text != "" && float(text).Some? then float(text).value else 0.0
  }

  function CountOrZero(text: string, parseInt: string -> Option<int>): (r: int)
    ensures text == "" || parseInt(text).None? ==> r == 0
    ensures text != "" && parseInt(text).Some? ==> r == parseInt(text).value
  {
    if text != "" && parseInt(text).Some? then parseInt(text).value else 0
  }

  /** The original price on create: parsed when given and not blank; None otherwise or when unparseable. */
  function CreateOriginalPrice(text: Option<string>, float: string -> Option<real>): (r: Option<real>)
    ensures text.None? || PyStrip(text.value) == "" ==> r.None?
    ensures text.Some? && PyStrip(text.value) != "" ==> r == float(text.value)
  {
    if text.Some? && PyStrip(text.value) != "" then float(text.value) else None
  }

  /** The row `create_product` inserts, given the category, the id and the saved image paths (main image first). */
  function NewRow(form: CreateForm, c: Category, productId: string, paths: seq<string>,
                  float: string -> Option<real>, parseInt: string -> Option<int>): (r: Result<ProductRow, HttpError>)
    requires |paths| >= 1
    ensures r.Err? <==> float(form.price).None?
    ensures r.Err? ==> r.error == InvalidPrice
    ensures r.Ok? ==> (r.value.id == productId && r.value.category == CategoryValue(c)
      && r.value.image == paths[0] && r.value.images == DumpPaths(paths)
      && r.value.price == float(form.price).value
      && (r.value.inStock <==> CreateInStock(form.inStock.GetOr("true"))))
    ensures r.Ok? ==> (r.value.name == form.name && r.value.description == form.description
      && r.value.originalPrice == CreateOriginalPrice(form.originalPrice, float)
      && r.value.rating == NumberOrZero(form.rating.GetOr("0.0"), float)
      && r.value.reviews == CountOrZero(form.reviews.GetOr("0"), parseInt)
      && r.value.variants == Reserialized(form.variants) && r.value.details == Reserialized(form.details)
      && r.value.artisanStory == form.artisanStory)
  {
    var price := float(form.price);
    if price.None? then Err(InvalidPrice)
    else
      Ok(Insert(NewProduct(
        productId, form.name, form.description, price.value,
        CreateOriginalPrice(form.originalPrice, float),
        paths[0], Some(DumpPaths(paths)), CategoryValue(c),
        Some(NumberOrZero(form.rating.GetOr("0.0"), float)),
        Some(CountOrZero(form.reviews.GetOr("0"), parseInt)),
        Some(CreateInStock(form.inStock.GetOr("true"))),
        Reserialized(form.variants), Reserialized(form.details), form.artisanStory)))
  }

  /** The index of the first row with the given id, as `query.filter(id == ...).first()` finds it. */
  function FindRow(rows: seq<ProductRow>, id: string): (r: Option<nat>)
    ensures r.None? <==> forall i :: 0 <= i < |rows| ==> rows[i].id != id
    ensures r.Some? ==> r.value < |rows| && rows[r.value].id == id
    ensures r.Some? ==> forall i :: 0 <= i < r.value ==> rows[i].id != id
  {
    if rows == [] then None
    else if rows[0].id == id then Some(0)
    else
      var r := FindRow(rows[1..], id);
      if r.Some? then Some(r.value + 1) else None
  }

  predicate DistinctIds(rows: seq<ProductRow>) {
    forall i, j :: 0 <= i < j < |rows| ==> rows[i].id != rows[j].id
  }

  /** A row whose id is not yet taken can be appended. */
  lemma AppendKeepsIdsDistinct(rows: seq<ProductRow>, row: ProductRow)
    requires DistinctIds(rows) && FindRow(rows, row.id).None?
    ensures DistinctIds(rows + [row])
  {
  }

  /**
   * The outcome of `create_product` on a table: the category is checked before anything else,
   * the main image is saved under draw 1, the kept additional images under draws 2, 3, ...;
   * the price is then parsed, and a clashing id fails the insert.
   */
  function Created(rows: seq<ProductRow>, form: CreateForm, uuids: nat -> string,
                   float: string -> Option<real>, parseInt: string -> Option<int>): (r: Result<ProductRow, HttpError>)
    ensures ParseCategory(form.category).None? ==> r == Err(InvalidCategory(form.category))
    ensures r.Ok? ==> (ParseCategory(form.category).Some?
      && r.value.id == ProductId(ParseCategory(form.category).value, uuids(0))
      && FindRow(rows, r.value.id).None?)
  {
    var c := ParseCategory(form.category);
    if c.None? then Err(InvalidCategory(form.category))
    else
      var row := CreatedRow(form, c.value, uuids, float, parseInt);
      if row.Err? then row
      else if FindRow(rows, row.value.id).Some? then Err(ServerError)
      else row
  }

  /** The row built for a valid category: the id, the main image under draw 1, the kept additional images after it. */
  function CreatedRow(form: CreateForm, c: Category, uuids: nat -> string,
                      float: string -> Option<real>, parseInt: string -> Option<int>): (r: Result<ProductRow, HttpError>)
    ensures r.Ok? ==> r.value.id == ProductId(c, uuids(0))
  {
    var productId := ProductId(c, uuids(0));
    var main := SavedPath(productId, uuids(1), form.image.filename);
    NewRow(form, c, productId, [main] + KeptPaths(form.additionalImages, productId, uuids, 2), float, parseInt)
  }

  /** A created product lists its main image first, then each kept additional image in upload order. */
  lemma CreatedImages(rows: seq<ProductRow>, form: CreateForm, uuids: nat -> string,
                      float: string -> Option<real>, parseInt: string -> Option<int>)
    requires Created(rows, form, uuids, float, parseInt).Ok?
    ensures var row := Created(rows, form, uuids, float, parseInt).value;
      var main := SavedPath(row.id, uuids(1), form.image.filename);
      ToDict(row).image == main
      && ToDict(row).images == StringItems([main] + KeptPaths(form.additionalImages, row.id, uuids, 2))
  {
    var row := Created(rows, form, uuids, float, parseInt).value;
    var main := SavedPath(row.id, uuids(1), form.image.filename);
    ImagesRoundTrip(row, [main] + KeptPaths(form.additionalImages, row.id, uuids, 2));
  }

  /** A created product's price is the parsed form price, and a price that does not parse is a 400 (after the category check). */
  lemma CreatedPrice(rows: seq<ProductRow>, form: CreateForm, uuids: nat -> string,
                     float: string -> Option<real>, parseInt: string -> Option<int>)
    requires ParseCategory(form.category).Some?
    ensures float(form.price).None? ==> Created(rows, form, uuids, float, parseInt) == Err(InvalidPrice)
    ensures Created(rows, form, uuids, float, parseInt).Ok? ==> Created(rows, form, uuids, float, parseInt).value.price == float(form.price).value
  {
  }

  // ---------------------------------------------------------------- update

  /** The multipart form of `PUT /api/products/{id}`; every field optional. */
  datatype UpdateForm = UpdateForm(
    name: Option<string>,
    description: Option<string>,
    price: Option<string>,
    originalPrice: Option<string>,
    category: Option<string>,
    inStock: Option<string>,
    rating: Option<string>,
    reviews: Option<string>,
    variants: Option<string>,
    details: Option<string>,
    artisanStory: Option<string>,
    image: Option<Upload>,
    additionalImages: seq<Upload>)

  const NoChanges := UpdateForm(None, None, None, None, None, None, None, None, None, None, None, None, [])

  /** On update, in stock iff the stripped, lower-cased flag is `true`, `1`, `yes` or `on`. */
  predicate UpdateInStock(flag: string)
    ensures UpdateInStock(flag) ==> 1 <= |PyStrip(flag)| <= 4
  {
    AsciiLower(PyStrip(flag)) in ["true", "1", "yes", "on"]
  }

  /**
   * The update's flag parser extends the create's: it accepts every flag the create accepts, and
   * beyond those only padded flags and `on` in any case.
   */
  lemma InStockFlags(flag: string)
    ensures CreateInStock(flag) ==> UpdateInStock(flag)
    ensures UpdateInStock(flag) <==> CreateInStock(PyStrip(flag)) || AsciiLower(PyStrip(flag)) == "on"
  {
  }

  /** `on` marks a product in stock on update but not on create. */
  lemma OnOnlyOnUpdate()
    ensures !CreateInStock("on") && UpdateInStock("on")
  {
    var on := "on";
    LowerOn();
    assert !CreateInStock(on) by {
      assert |"true"| == 4 && |"yes"| == 3 && |"1"| == 1;
    }
    assert PyStrip(on) == on by {
      assert !IsPySpace('o') && !IsPySpace('n');
      StripUnpadded(on, IsPySpace);
    }
  }

  /** `on` is already lower case. */
  lemma LowerOn()
    ensures AsciiLower("on") == "on"
  {
    assert AsciiLower("n") == "n";
  }

  /** A text field: stripped when sent, kept when not. */
  function UpdatedText(current: string, sent: Option<string>): (r: string)
    ensures sent.None? ==> r == current
    ensures sent.Some? ==> r == PyStrip(sent.value)
  {
    if sent.Some? then PyStrip(sent.value) else current
  }

  /** A number field: the parsed value when sent, not blank and parseable; otherwise the current value. */
  function UpdatedNumber<T>(current: T, sent: Option<string>, parse: string -> Option<T>): (r: T)
    ensures (sent.None? || PyStrip(sent.value) == "" || parse(sent.value).None?) ==> r == current
    ensures sent.Some? && PyStrip(sent.value) != "" && parse(sent.value).Some? ==> r == parse(sent.value).value
  {
    if sent.Some? && PyStrip(sent.value) != "" && parse(sent.value).Some? then parse(sent.value).value else current
  }

  /** The original price: cleared by a blank value or by 0, set by another number, kept when unparseable or not sent. */
  function UpdatedOriginalPrice(current: Option<real>, sent: Option<string>, float: string -> Option<real>): (r: Option<real>)
    ensures sent.None? ==> r == current
    ensures sent.Some? && PyStrip(sent.value) == "" ==> r.None?
    ensures sent.Some? && PyStrip(sent.value) != "" && float(PyStrip(sent.value)).None? ==> r == current
    ensures sent.Some? && PyStrip(sent.value) != "" && float(PyStrip(sent.value)) == Some(0.0) ==> r.None?
    ensures r.Some? && r != current ==> r.value != 0.0 && sent.Some? && float(PyStrip(sent.value)) == r
  {
    if sent.None? then current
    else
      var s := PyStrip(sent.value);
      if s == "" then None
      else if float(s).None? then current
      else if float(s).value == 0.0 then None
      else float(s)
  }

  /** A JSON field: when sent, its normalised form (None when blank or not decodable). */
  function UpdatedJson(current: Option<string>, sent: Option<string>): (r: Option<string>)
    ensures sent.None? ==> r == current
    ensures sent.Some? ==> r == Reserialized(sent)
  {
    if sent.Some? then Reserialized(sent) else current
  }

  /** The artisan story: cleared by a blank value, otherwise stored as sent (not stripped). */
  function UpdatedStory(current: Option<string>, sent: Option<string>): (r: Option<string>)
    ensures sent.None? ==> r == current
    ensures sent.Some? && PyStrip(sent.value) == "" ==> r.None?
    ensures sent.Some? && PyStrip(sent.value) != "" ==> r == sent
  {
    if sent.None? then current else if PyStrip(sent.value) == "" then None else sent
  }

  /** Every non-image field of a row after an update; `category` is the already validated category. */
  function UpdatedFields(row: ProductRow, form: UpdateForm, category: Option<Category>,
                         float: string -> Option<real>, parseInt: string -> Option<int>): (r: ProductRow)
    ensures r.id == row.id && r.image == row.image && r.images == row.images
    ensures r.category == if category.Some? then CategoryValue(category.value) else row.category
    ensures r.inStock == if form.inStock.Some? then UpdateInStock(form.inStock.value) else row.inStock
    ensures r.name == UpdatedText(row.name, form.name) && r.description == UpdatedText(row.description, form.description)
    ensures r.price == UpdatedNumber(row.price, form.price, float)
    ensures r.originalPrice == UpdatedOriginalPrice(row.originalPrice, form.originalPrice, float)
    ensures r.rating == UpdatedNumber(row.rating, form.rating, float)
    ensures r.reviews == UpdatedNumber(row.reviews, form.reviews, parseInt)
    ensures r.variants == UpdatedJson(row.variants, form.variants) && r.details == UpdatedJson(row.details, form.details)
    ensures r.artisanStory == UpdatedStory(row.artisanStory, form.artisanStory)
  {
    row.(name := UpdatedText(row.name, form.name),
         description := UpdatedText(row.description, form.description),
         price := UpdatedNumber(row.price, form.price, float),
         originalPrice := UpdatedOriginalPrice(row.originalPrice, form.originalPrice, float),
         category := if category.Some? then CategoryValue(category.value) else row.category,
         inStock := if form.inStock.Some? then UpdateInStock(form.inStock.value) else row.inStock,
         rating := UpdatedNumber(row.rating, form.rating, float),
         reviews := UpdatedNumber(row.reviews, form.reviews, parseInt),
         variants := UpdatedJson(row.variants, form.variants),
         details := UpdatedJson(row.details, form.details),
         artisanStory := UpdatedStory(row.artisanStory, form.artisanStory))
  }

  /** A form that sends nothing leaves every field as it was. */
  lemma UnsentFieldsKept(row: ProductRow, float: string -> Option<real>, parseInt: string -> Option<int>)
    ensures UpdatedFields(row, NoChanges, None, float, parseInt) == row
  {
  }

  /**
   * A new main image: the stored list keeps everything after its first entry behind the new
   * main image. A stored value that decodes to something truthy other than a list cannot be
   * sliced and concatenated, and the request fails.
   */
  function WithMainImage(row: ProductRow, main: string): (r: Result<ProductRow, HttpError>)
    ensures r.Ok? ==> r.value == row.(image := main, images := r.value.images)
    ensures r.Err? ==> r.error == ServerError
  {
    var existing := StoredImages(row.images);
    if existing.None? || !Truthy(existing.value) then
      Ok(row.(image := main, images := Dumps(JArr([JStr(main)]), PythonStyle)))
    else if existing.value.JArr? then
      Ok(row.(image := main, images := Dumps(JArr([JStr(main)] + existing.value.items[1..]), PythonStyle)))
    else
      Err(ServerError)
  }

  /** On a stored path list, the new main image replaces the first entry and the rest is kept. */
  lemma MainImageReplacesFirst(row: ProductRow, paths: seq<string>, main: string)
    requires row.images == DumpPaths(paths)
    ensures paths != [] ==> WithMainImage(row, main) == Ok(row.(image := main, images := DumpPaths([main] + paths[1..])))
    ensures paths == [] ==> WithMainImage(row, main) == Ok(row.(image := main, images := DumpPaths([main])))
  {
    StoredPaths(paths);
    assert [JStr(main)] == StringItems([main]);
    if paths != [] {
      assert [JStr(main)] + StringItems(paths)[1..] == StringItems([main] + paths[1..]);
    }
  }

  /**
   * New additional images go right after the main image, ahead of the stored entries after the
   * first. With no new image the row is unchanged. The stored value's `len` is taken, which
   * fails for numbers, booleans and null, and its tail cannot be appended unless it is a list.
   */
  function WithAdditionalImages(row: ProductRow, newPaths: seq<string>): (r: Result<ProductRow, HttpError>)
    ensures newPaths == [] ==> r == Ok(row)
    ensures r.Ok? ==> r.value == row.(images := r.value.images)
    ensures r.Err? ==> r.error == ServerError
  {
    if newPaths == [] then Ok(row)
    else
      var head := [JStr(row.image)] + StringItems(newPaths);
      var existing := StoredImages(row.images);
      var tail: Option<seq<Json>> :=
        if existing.None? then Some([])
        else match existing.value
          case JArr(items) => Some(if |items| > 1 then items[1..] else [])
          case JStr(s) => if |s| > 1 then None else Some([])
          case JObj(ms) => if |ms| > 1 then None else Some([])
          case _ => None;
      if tail.None? then Err(ServerError)
      else Ok(row.(images := Dumps(JArr(head + tail.value), PythonStyle)))
  }

  /** On a stored path list: main image, then the new images, then the stored entries after the first. */
  lemma AdditionalImagesInserted(row: ProductRow, paths: seq<string>, newPaths: seq<string>)
    requires row.images == DumpPaths(paths) && paths != [] && newPaths != []
    ensures WithAdditionalImages(row, newPaths) == Ok(row.(images := DumpPaths([row.image] + newPaths + paths[1..])))
  {
    StoredPaths(paths);
    var items := StringItems(paths);
    assert (if |items| > 1 then items[1..] else []) == StringItems(paths[1..]);
    assert [JStr(row.image)] + StringItems(newPaths) + StringItems(paths[1..])
        == StringItems([row.image] + newPaths + paths[1..]);
  }

  /**
   * The outcome of `update_product`: an invalid category is refused by form validation before
   * the lookup; then the row's fields, its main image (draw 0 when one is sent) and its additional
   * images (the following draws); the index of the row and its new value.
   */
  function Updated(rows: seq<ProductRow>, id: string, form: UpdateForm, uuids: nat -> string,
                   float: string -> Option<real>, parseInt: string -> Option<int>): (r: Result<(nat, ProductRow), HttpError>)
    ensures form.category.Some? && ParseCategory(form.category.value).None? ==> r == Err(ValidationError)
    ensures r.Ok? ==> r.value.0 < |rows| && rows[r.value.0].id == id && r.value.1.id == id
    ensures (form.category.None? || ParseCategory(form.category.value).Some?) && FindRow(rows, id).None?
            ==> r == Err(NotFound)
  {
    if form.category.Some? && ParseCategory(form.category.value).None? then Err(ValidationError)
    else
      var found := FindRow(rows, id);
      if found.None? then Err(NotFound)
      else
        var category := if form.category.Some? then ParseCategory(form.category.value) else None;
        var row := UpdatedRow(rows[found.value], form, category, uuids, float, parseInt);
        if row.Err? then Err(row.error) else Ok((found.value, row.value))
  }

  /** A found row after the update: its fields, then its main image, then its additional images. */
  function UpdatedRow(row: ProductRow, form: UpdateForm, category: Option<Category>, uuids: nat -> string,
                      float: string -> Option<real>, parseInt: string -> Option<int>): (r: Result<ProductRow, HttpError>)
    ensures r.Ok? ==> r.value.id == row.id
    ensures r.Ok? ==> r.value == UpdatedFields(row, form, category, float, parseInt).(image := r.value.image, images := r.value.images)
  {
    var fields := UpdatedFields(row, form, category, float, parseInt);
    var first: nat := if form.image.Some? then 1 else 0;
    var withMain :=
      if form.image.Some? then WithMainImage(fields, SavedPath(row.id, uuids(0), form.image.value.filename))
      else Ok(fields);
    if withMain.Err? then withMain
    else WithAdditionalImages(withMain.value, KeptPaths(form.additionalImages, row.id, uuids, first))
  }

  /** Only the two image columns of an updated row differ from the field update of the found row. */
  lemma UpdatedKeepsFields(rows: seq<ProductRow>, id: string, form: UpdateForm, uuids: nat -> string,
                           float: string -> Option<real>, parseInt: string -> Option<int>)
    requires Updated(rows, id, form, uuids, float, parseInt).Ok?
    ensures var (i, row) := Updated(rows, id, form, uuids, float, parseInt).value;
      var category := if form.category.Some? then ParseCategory(form.category.value) else None;
      row == UpdatedFields(rows[i], form, category, float, parseInt).(image := row.image, images := row.images)
  {
    var category := if form.category.Some? then ParseCategory(form.category.value) else None;
    var found := FindRow(rows, id);
    var up := UpdatedRow(rows[found.value], form, category, uuids, float, parseInt);
    assert Updated(rows, id, form, uuids, float, parseInt) == Ok((found.value, up.value));
  }

  /** A created row holds the form's text fields as sent and its optional numbers and JSON fields normalised. */
  lemma CreatedFields(rows: seq<ProductRow>, form: CreateForm, uuids: nat -> string,
                      float: string -> Option<real>, parseInt: string -> Option<int>)
    requires Created(rows, form, uuids, float, parseInt).Ok?
    ensures var row := Created(rows, form, uuids, float, parseInt).value;
      && row.name == form.name && row.description == form.description
      && row.originalPrice == CreateOriginalPrice(form.originalPrice, float)
      && row.rating == NumberOrZero(form.rating.GetOr("0.0"), float)
      && row.reviews == CountOrZero(form.reviews.GetOr("0"), parseInt)
      && (row.inStock <==> CreateInStock(form.inStock.GetOr("true")))
      && row.variants == Reserialized(form.variants) && row.details == Reserialized(form.details)
      && row.artisanStory == form.artisanStory
  {
  }

  /** An update whose parts are all empty or skipped leaves the row as it was. */
  lemma EmptyUpdateKeepsRow(rows: seq<ProductRow>, id: string, files: seq<Upload>, uuids: nat -> string,
                            float: string -> Option<real>, parseInt: string -> Option<int>)
    requires FindRow(rows, id).Some?
    requires forall i :: 0 <= i < |files| ==> !Kept(files[i])
    ensures var u := Updated(rows, id, NoChanges.(additionalImages := files), uuids, float, parseInt);
      u.Ok? && u.value.1 == rows[u.value.0]
  {
    KeptPathsEmpty(files, id, uuids, 0);
  }

  // ---------------------------------------------------------------- delete

  /** The JSON strings among decoded list items. */
  function PathsIn(items: seq<Json>): (r: seq<string>)
    ensures forall i :: 0 <= i < |items| ==> (items[i].JStr? ==> items[i].s in r)
    ensures forall p :: p in r ==> JStr(p) in items
  {
    if items == [] then []
    else (if items[0].JStr? then [items[0].s] else []) + PathsIn(items[1..])
  }

  /** The entries that name a file (Python truthiness of a path). */
  function NonEmpty(paths: seq<string>): (r: seq<string>)
    ensures forall p :: p in r <==> p in paths && p != ""
  {
    if paths == [] then [] else (if paths[0] != "" then [paths[0]] else []) + NonEmpty(paths[1..])
  }

  /**
   * The files `delete_product` removes, as written: the handler decodes `images` with a `json`
   * that its module never imports, the resulting error is swallowed by the bare `except`, and
   * only the main image is removed.
   */
  function DeletedPathsAsWritten(row: ProductRow): (r: seq<string>)
    ensures forall p :: p in r ==> p == row.image
  {
    NonEmpty([row.image])
  }

  /** The files deleting a product is meant to remove: the main image and every image in its list. */
  function DeletedPaths(row: ProductRow): (r: seq<string>)
    ensures row.image != "" ==> row.image in r
  {
    var listed := match StoredImages(row.images)
      case Some(JArr(items)) => PathsIn(items)
      case _ => [];
    NonEmpty([row.image] + listed)
  }

  /** Every stored image path is among the files removed. */
  lemma DeletesListedImages(row: ProductRow, paths: seq<string>)
    requires row.images == DumpPaths(paths)
    ensures forall p :: p in DeletedPaths(row) <==> (p == row.image || p in paths) && p != ""
  {
    StoredPaths(paths);
    var items := StringItems(paths);
    forall p | p in paths ensures p in PathsIn(items) {
      var i :| 0 <= i < |paths| && paths[i] == p;
      assert items[i] == JStr(p);
    }
    forall p | p in PathsIn(items) ensures p in paths {
      assert JStr(p) in items;
      var i :| 0 <= i < |items| && items[i] == JStr(p);
    }
  }

  /** As written, every listed image other than the main image is left on disk. */
  lemma DeleteAsWrittenKeepsFiles(row: ProductRow, paths: seq<string>, p: string)
    requires row.images == DumpPaths(paths)
    requires p in paths && p != "" && p != row.image
    ensures p !in DeletedPathsAsWritten(row)
    ensures p in DeletedPaths(row)
  {
    DeletesListedImages(row, paths);
  }

  // ---------------------------------------------------------------- reads

  /** The rows of a category, in table order (all rows when no category is given). */
  function InCategory(rows: seq<ProductRow>, category: Option<Category>): (r: seq<ProductRow>)
    ensures |r| <= |rows|
    ensures forall row :: row in r <==> row in rows && (category.None? || row.category == CategoryValue(category.value))
  {
    if rows == [] then []
    else
      (if category.None? || rows[0].category == CategoryValue(category.value) then [rows[0]] else [])
      + InCategory(rows[1..], category)
  }

  /** The rows of a category from two parts of the table are those of the first part, then those of the second. */
  lemma {:induction false} InCategoryAppend(a: seq<ProductRow>, b: seq<ProductRow>, category: Option<Category>)
    ensures InCategory(a + b, category) == InCategory(a, category) + InCategory(b, category)
  {
    if a != [] {
      var head := if category.None? || a[0].category == CategoryValue(category.value) then [a[0]] else [];
      ConsAppend(a, b);
      InCategoryAppend(a[1..], b, category);
      AppendAssoc(head, InCategory(a[1..], category), InCategory(b, category));
    } else {
      assert a + b == b;
    }
  }

  /** A row of the category is listed as often as the table holds it; any other row not at all. */
  lemma {:induction false} InCategoryCounts(rows: seq<ProductRow>, category: Option<Category>, row: ProductRow)
    ensures multiset(InCategory(rows, category))[row]
      == if category.None? || row.category == CategoryValue(category.value) then multiset(rows)[row] else 0
  {
    if rows != [] {
      InCategoryCounts(rows[1..], category, row);
      assert rows == [rows[0]] + rows[1..];
    }
  }

  /** Without a category every row is listed, in table order. */
  lemma {:induction false} InCategoryAll(rows: seq<ProductRow>)
    ensures InCategory(rows, None) == rows
  {
    if rows != [] {
      InCategoryAll(rows[1..]);
      assert [rows[0]] + rows[1..] == rows;
    }
  }

  /** Every row in dictionary form. */
  function Dicts(rows: seq<ProductRow>): (r: seq<ProductDict>)
    ensures |r| == |rows| && forall i :: 0 <= i < |rows| ==> r[i] == ToDict(rows[i])
  {
    seq(|rows|, i requires 0 <= i < |rows| => ToDict(rows[i]))
  }

  /** The body of `create_product` once the category is valid: the main image, then the upload loop, then the row. */
  method CreateRow(form: CreateForm, c: Category, uuids: nat -> string,
                   float: string -> Option<real>, parseInt: string -> Option<int>)
    returns (r: Result<ProductRow, HttpError>)
    ensures r == CreatedRow(form, c, uuids, float, parseInt)
  {
    var productId := ProductId(c, uuids(0));
    var main := SavedPath(productId, uuids(1), form.image.filename);
    var extra := SaveUploads(form.additionalImages, Saver(productId, uuids), 2);
    r := NewRow(form, c, productId, [main] + extra, float, parseInt);
  }

  /** The body of `update_product` once the row is found: fields, then main image, then the upload loop. */
  method UpdateRow(current: ProductRow, form: UpdateForm, category: Option<Category>, uuids: nat -> string,
                   float: string -> Option<real>, parseInt: string -> Option<int>)
    returns (r: Result<ProductRow, HttpError>)
    ensures r == UpdatedRow(current, form, category, uuids, float, parseInt)
  {
    var row := UpdatedFields(current, form, category, float, parseInt);
    var first: nat := 0;
    var withMain := Ok(row);
    if form.image.Some? {
      withMain := WithMainImage(row, SavedPath(current.id, uuids(0), form.image.value.filename));
      first := 1;
    }
    if withMain.Err? {
      return withMain;
    }
    var extra := SaveUploads(form.additionalImages, Saver(current.id, uuids), first);
    r := WithAdditionalImages(withMain.value, extra);
  }

  /** The products table. */
  class ProductTable {
    var rows: seq<ProductRow>

    /** Product ids are the primary key. */
    predicate Valid()
      reads this
    {
      DistinctIds(rows)
    }

    constructor ()
      ensures rows == [] && Valid()
    {
      rows := [];
    }

    /** `GET /api/products`: the products of the category (every product without one), in table order. */
    function ListProducts(category: Option<Category>): (r: seq<ProductDict>)
      reads this
      ensures r == Dicts(InCategory(rows, category))
    {
      Dicts(InCategory(rows, category))
    }

    /** `GET /api/products/{id}`: the product with that id, or 404. */
    function GetProduct(id: string): (r: Result<ProductDict, HttpError>)
      reads this
      ensures r.Err? <==> forall i :: 0 <= i < |rows| ==> rows[i].id != id
      ensures r.Err? ==> r.error == NotFound
      ensures r.Ok? ==> exists i :: 0 <= i < |rows| && rows[i].id == id && r.value == ToDict(rows[i])
    {
      var found := FindRow(rows, id);
      if found.None? then Err(NotFound) else Ok(ToDict(rows[found.value]))
    }

    /** `POST /api/products`: the new product is appended; on any error the table is unchanged. */
    method CreateProduct(form: CreateForm, uuids: nat -> string, float: string -> Option<real>, parseInt: string -> Option<int>)
      returns (r: Result<ProductDict, HttpError>)
      requires Valid()
      modifies this
      ensures Valid()
      ensures var c := Created(old(rows), form, uuids, float, parseInt);
        (c.Ok? ==> rows == old(rows) + [c.value] && r == Ok(ToDict(c.value)))
        && (c.Err? ==> rows == old(rows) && r == Err(c.error))
    {
      var category := ParseCategory(form.category);
      if category.None? {
        return Err(InvalidCategory(form.category));
      }
      var row := CreateRow(form, category.value, uuids, float, parseInt);
      if row.Err? {
        return Err(row.error);
      }
      if FindRow(rows, row.value.id).Some? {
        return Err(ServerError);
      }
      AppendKeepsIdsDistinct(rows, row.value);
      rows := rows + [row.value];
      r := Ok(ToDict(row.value));
    }

    /** `PUT /api/products/{id}`: the row is replaced in place; on any error the table is unchanged. */
    method UpdateProduct(id: string, form: UpdateForm, uuids: nat -> string,
                         float: string -> Option<real>, parseInt: string -> Option<int>)
      returns (r: Result<ProductDict, HttpError>)
      requires Valid()
      modifies this
      ensures Valid()
      ensures var u := Updated(old(rows), id, form, uuids, float, parseInt);
        (u.Ok? ==> rows == old(rows)[u.value.0 := u.value.1] && r == Ok(ToDict(u.value.1)))
        && (u.Err? ==> rows == old(rows) && r == Err(u.error))
    {
      if form.category.Some? && ParseCategory(form.category.value).None? {
        return Err(ValidationError);
      }
      var found := FindRow(rows, id);
      if found.None? {
        return Err(NotFound);
      }
      var category := if form.category.Some? then ParseCategory(form.category.value) else None;
      var row := UpdateRow(rows[found.value], form, category, uuids, float, parseInt);
      if row.Err? {
        return Err(row.error);
      }
      rows := rows[found.value := row.value];
      r := Ok(ToDict(row.value));
    }

    /**
     * `DELETE /api/products/{id}` with the module-level `import json` it is missing: the row is
     * removed, and the paths of the files the handler intends to remove with it are returned
     * (`DeletedPaths`). As written, only `DeletedPathsAsWritten` (the main image) are removed.
     */
    method DeleteProductCorrected(id: string) returns (r: Result<seq<string>, HttpError>)
      requires Valid()
      modifies this
      ensures Valid()
      ensures FindRow(old(rows), id).None? ==> rows == old(rows) && r == Err(NotFound)
      ensures FindRow(old(rows), id).Some? ==>
        var i := FindRow(old(rows), id).value;
        rows == old(rows)[..i] + old(rows)[i + 1..] && r == Ok(DeletedPaths(old(rows)[i]))
      ensures forall k :: 0 <= k < |rows| ==> rows[k].id != id
    {
      var found := FindRow(rows, id);
      if found.None? {
        return Err(NotFound);
      }
      var i := found.value;
      var removed := rows[i];
      rows := rows[..i] + rows[i + 1..];
      r := Ok(DeletedPaths(removed));
    }
  }
}

# Kashmiri Treasures storefront, modelled in Dafny

Kashmiri Treasures is a small shop for Kashmiri crafts and dry fruits. A React front end shows a
catalogue by category, a product page, a cart checkout form and an admin page. A FastAPI back end
keeps the products in one SQL table and stores the uploaded pictures as files. This project models
the core of both halves and proves properties of the model:

- `schemas.dfy` (module `Schemas`): the five categories, and the pydantic validation of a product,
  an update and a login body.
- `models.dfy` (module `Models`): a row of the `products` table, its column defaults, and `to_dict`.
  `to_dict` decodes the three JSON text columns with their fallbacks.
- `backend.dfy` (module `Backend`): the handlers of `main.py`. This covers the CORS origin list and
  the preflight origin, the upload loop and its file names, and the create, update, read and delete
  endpoints. Each endpoint is first a function over the table's rows. The table is then a class
  whose methods change its `rows` and are proved against those functions.
- `json.dfy` (module `Json`): the JSON texts the two sides exchange. It has one serializer that
  covers both `json.dumps` and `JSON.stringify`, and a parser for `json.loads`. The round trip
  `loads(dumps(v)) == v` is proved.
- `dict.dfy` (module `Dict`): insertion-ordered string-keyed dictionaries (JSON objects, React state
  records, header lists).
- `text.dfy` (module `Text`): the string operations the code relies on, namely JavaScript `trim`,
  Python `strip`, `split`/`join`, `lower`, `includes`, integer `toString`, `os.path.basename` and
  `os.path.splitext`.
- `api.ts` becomes `api.dfy` (module `Api`): the base URL, the `ApiService` client class over
  `localStorage`, the retry loop of `getProducts`, and the error messages each call rejects with.
- `Checkout.tsx` becomes `checkout.dfy`; `ProductDetail.tsx` becomes `product_detail.dfy`;
  `ProductGallery.tsx` becomes `gallery.dfy`; `Admin.tsx` becomes `admin.dfy`.
  `cart.dfy` is the item the pages hand to the cart.
- `products.ts` becomes `catalog.dfy` (module `Catalog`): the twelve catalogue entries and their two
  lookups.

Some inputs are parameters instead of being computed:

- The network: each request's outcome (a reply, or the error `fetch` rejects with).
- `uuid4` draws: a function from the draw's number to its hex text.
- Python's `float`/`int` parsing, and JavaScript's number-to-text conversion.
- The page's location and the `VITE_API_URL` setting.

## Model

| member | source | states |
|---|---|---|
| Schemas.ParseCategory | backend/schemas.py:5-10 | `CategoryEnum(s)` succeeds exactly on the five values, and the member found has value `s` |
| Schemas.CategoryRoundTrip | backend/schemas.py:5-10 | every category's value reads back as that category |
| Schemas.CategoryValueInjective | backend/schemas.py:5-10 | two categories with the same value are the same category |
| Schemas.AsDictList | backend/schemas.py:21 | a `List[Dict]` field accepts exactly arrays whose items are all objects, keeping them |
| Schemas.AsStringList | backend/schemas.py:41 | a `List[str]` field accepts exactly arrays whose items are all strings, keeping them |
| Schemas.Aliased | backend/schemas.py:16-26 | an aliased field is read under its alias when present, otherwise under its own name |
| Schemas.Assemble | backend/schemas.py:12-23 | a product validates iff every field does; it carries the field values; each invalid required field is named in the errors |
| Schemas.ValidateProduct | backend/schemas.py:12-26 | a validated product comes from an object body, and errors are never an empty list |
| Schemas.ProductDefaults | backend/schemas.py:18-23 | a body with only the four required fields gets in stock, rating 0.0, 0 reviews and no optional values |
| Schemas.ProductRejectsCategory | backend/schemas.py:17 | a category outside the enumeration fails, and the error names `category` |
| Schemas.ProductRequiresFields | backend/schemas.py:13-17 | a missing name, description, price or category fails, and the error names it |
| Schemas.AliasWins | backend/schemas.py:16 | `original_price` is read even when `originalPrice` is also sent |
| Schemas.NameWithoutAlias | backend/schemas.py:16-26 | without the alias, `originalPrice` is read (`populate_by_name`) |
| Schemas.Sent | backend/schemas.py:31-44 | an optional field counts as not sent exactly when it is absent or null |
| Schemas.SentFields | backend/schemas.py:31-44 | the values sent for the thirteen update fields, in declaration order |
| Schemas.ValidateUpdate | backend/schemas.py:31-44 | an update validates iff the body is an object and every field sent has its declared type; it then holds each sent value, None for a field absent or null; errors are never an empty list |
| Schemas.UpdateFromFields | backend/schemas.py:31-44 | valid iff every sent value has its field's type; the update then carries each sent value field by field; an ill-typed name, price or category is named in the errors |
| Schemas.UpdateReadsSentKeys | backend/schemas.py:31-44 | a validated update's name, price, original price, category, stock flag and story are None iff their key is absent or null, else the value sent under it |
| Schemas.EmptyUpdate | backend/schemas.py:31-44 | `{}` is a valid update that sets nothing |
| Schemas.UpdateNullIsAbsent | backend/schemas.py:31-44 | sending a field as null is the same as not sending it |
| Schemas.ValidateLogin | backend/schemas.py:55-57 | a login body validates iff it is an object with string `username` and `password`, and carries those |
| Models.Insert | backend/models.py:10-23 | an inserted row takes `'[]'`, 0.0, 0 and in stock for the defaulted columns left unset, and keeps every given column |
| Models.ImagesOf | backend/models.py:29-57 | `images` is the decoded list, or [] when the column is empty, undecodable or not a list |
| Models.DecodedOrNull | backend/models.py:36-48 | `variants`/`details` are null when unset, empty or undecodable, else the decoded value |
| Models.ToDict | backend/models.py:50-65 | every scalar column is passed through under its camel-case key; the JSON columns are decoded |
| Models.StringItems | backend/models.py:32 | a path list as JSON strings, item by item |
| Models.ImagesRoundTrip | backend/models.py:29-34 | a path list stored with `json.dumps` comes back from `to_dict` as the same list |
| Models.DecodedRoundTrip | backend/models.py:36-48 | a JSON column stored with `json.dumps` comes back from `to_dict` as the stored value |
| Models.InsertDefaults | backend/models.py:16-20 | a row inserted with every defaulted column unset reads back with no images, rated 0.0 by 0 reviews, in stock |
| Backend.StrippedClean | backend/main.py:49 | a stripped origin that is not empty has no surrounding whitespace |
| Backend.CleanEntries | backend/main.py:49 | the origin list after stripping and dropping blanks holds only clean entries and is no longer than before |
| Backend.CleanEntriesMembers | backend/main.py:49 | an origin is allowed exactly when it is not empty and some configured entry strips to it |
| Backend.CleanEntriesAppend | backend/main.py:49 | cleaning goes entry by entry and keeps order: the cleaned list of `a + b` is that of `a` followed by that of `b` |
| Backend.CleanEntriesOne | backend/main.py:49 | one entry cleans to its stripped text, or to nothing when that is blank |
| Backend.StripPadding | backend/main.py:49 | `strip()` removes the whitespace around a clean origin and nothing else |
| Backend.CleanEntriesPadded | backend/main.py:49 | clean origins with whitespace around them clean to exactly those origins, in order |
| Backend.PaddedOriginsStripped | backend/main.py:36-49 | a comma-separated `CORS_ORIGINS` of whitespace-padded origins configures exactly the stripped origins, in order |
| Backend.CorsOrigins | backend/main.py:36-49 | the allowed origins are all clean, no more than the raw list, and are exactly the non-empty stripped raw entries |
| Backend.RawOrigins | backend/main.py:36-46 | with `CORS_ORIGINS` set and non-empty, the comma-free pieces that join back to it; otherwise the built-in list |
| Backend.CleanEntriesIdentity | backend/main.py:49 | cleaning a list of clean entries changes nothing |
| Backend.DefaultsClean | backend/main.py:37-45 | every built-in origin is already clean |
| Backend.UnsetUsesDefaults | backend/main.py:36-46 | with `CORS_ORIGINS` unset or empty, the built-in list is used unchanged |
| Backend.CorsOriginsRoundTrip | backend/main.py:36-49 | a comma-joined list of clean origins configures exactly those origins |
| Backend.AllowOrigin | backend/main.py:108-125 | the preflight echoes an allowed origin, else the first allowed one, else `*` |
| Backend.Prefix | backend/main.py:83 | Python `s[:n]` is the first `min(n, len(s))` characters |
| Backend.SavedPath | backend/main.py:79-91 | a saved file's path is `/uploads/<id>_<8 hex chars><extension>` |
| Backend.SavedNames | backend/main.py:186-192 | the paths of the kept files, one per kept file, in upload order |
| Backend.KeptPaths | backend/main.py:186-192 | the paths the kept files are saved under, no more than the files |
| Backend.SavedNamesEmpty | backend/main.py:187-190 | nothing is saved exactly when every part is empty (no file name or no bytes) |
| Backend.KeptPathsEmpty | backend/main.py:362-370 | no new path exactly when no part is kept, so the list is left alone |
| Backend.KeptPathsShape | backend/main.py:83-91 | every saved path lies under `/uploads/` and starts with the product id |
| Backend.SaveUploads | backend/main.py:186-192 | the upload loop returns exactly the saved paths of the kept files, in order |
| Backend.StoredImages | backend/main.py:353-358 | the stored image list is what `json.loads` gives, or nothing when it fails |
| Backend.StoredPaths | backend/main.py:353-359 | a stored path list decodes to those paths |
| Backend.Reserialized | backend/main.py:196-208 | a JSON form field is stored as `json.dumps(json.loads(text))`, and as None when blank or undecodable |
| Backend.SentTextNotBlank | backend/main.py:197 | a `JSON.stringify` text is never blank, so it is never dropped as empty |
| Backend.ReserializedRoundTrip | backend/main.py:196-201 | a value the admin page sends as JSON is read back unchanged by `to_dict` |
| Backend.ProductId | backend/main.py:180 | a new id is `<category>-<6 hex chars>` |
| Backend.CreateInStock | backend/main.py:225 | a create-time flag that marks the product in stock is unpadded and one to four characters long |
| Backend.UpdateInStock | backend/main.py:309-312 | an update-time flag that marks the product in stock strips to one to four characters |
| Backend.InStockFlags | backend/main.py:311-312 | every flag the create accepts the update accepts, and the update accepts exactly the stripped flags the create accepts plus `on` |
| Backend.OnOnlyOnUpdate | backend/main.py:311-312 | `on` marks a product in stock on update but not on create |
| Backend.NumberOrZero | backend/main.py:227-230 | rating is 0.0 when empty or unparseable, else the parsed number |
| Backend.CountOrZero | backend/main.py:232-235 | review count is 0 when empty or unparseable, else the parsed integer |
| Backend.CreateOriginalPrice | backend/main.py:218-223 | the original price on create is None when missing or blank, else `float` of it |
| Backend.NewRow | backend/main.py:210-253 | the inserted row has the given id, category, main image and image list, the name and description as sent, the parsed price, original price, rating and count with their fallbacks, the create-time stock flag, and the variants and details re-serialized; a price that does not parse is a 400 |
| Backend.FindRow | backend/main.py:393-395 | the first row with the id, or none when no row has it |
| Backend.AppendKeepsIdsDistinct | backend/models.py:10 | appending a row whose id is free keeps the primary key unique |
| Backend.Created | backend/main.py:150-259 | an invalid category is a 422 naming it; a created row has a fresh id of that category |
| Backend.CreatedRow | backend/main.py:180-253 | the new row's id is drawn first, then the main image is saved, then the additional images |
| Backend.CreatedImages | backend/main.py:183-210 | a created product lists its main image first, then each kept additional image in upload order |
| Backend.CreatedPrice | backend/main.py:213-216 | the price is `float(price)`, and an unparseable price is a 400 after the category check |
| Backend.CreatedFields | backend/main.py:210-253 | a created row holds the form's name, description and story as sent, the fallbacks for original price, rating and count, the stock flag, and re-serialized variants and details |
| Backend.UpdatedText | backend/main.py:287-290 | a sent name or description is stored stripped; an unsent one is kept |
| Backend.UpdatedNumber | backend/main.py:291-322 | a sent, non-blank, parseable number replaces the value; otherwise the value is kept |
| Backend.UpdatedOriginalPrice | backend/main.py:296-306 | the original price is cleared by blank or 0, set by another number, kept when unparseable or unsent |
| Backend.UpdatedJson | backend/main.py:323-338 | a sent JSON field is re-serialized (None when blank or undecodable); an unsent one is kept |
| Backend.UpdatedStory | backend/main.py:339-341 | a blank story clears it; any other is stored unstripped; unsent keeps it |
| Backend.UpdatedFields | backend/main.py:286-341 | the id and images are untouched; every other column follows its own rule: stripped text, parsed-or-kept numbers, the original price's clear cases, re-serialized JSON, the story's blank clear, the category and the update-time stock flag |
| Backend.UnsentFieldsKept | backend/main.py:286-341 | an update that sends no field leaves every column as it was |
| Backend.UpdatedKeepsFields | backend/main.py:286-381 | an updated row differs from the field update of the found row only in its two image columns |
| Backend.WithMainImage | backend/main.py:344-359 | a new main image replaces `image` and only the image list changes besides |
| Backend.MainImageReplacesFirst | backend/main.py:351-359 | on a stored list, the new main image replaces the first entry and the rest is kept |
| Backend.WithAdditionalImages | backend/main.py:361-380 | no new file leaves the row as it is; otherwise only the image list changes |
| Backend.AdditionalImagesInserted | backend/main.py:379-380 | the list becomes main image, new images, then the stored entries after the first |
| Backend.Updated | backend/main.py:261-385 | an invalid category is rejected, a missing id is a 404, and the updated row keeps its id |
| Backend.UpdatedRow | backend/main.py:286-380 | the updated row keeps its id and differs from the field update only in its two image columns |
| Backend.EmptyUpdateKeepsRow | backend/main.py:361-370 | an update with only empty file parts leaves the row unchanged |
| Backend.PathsIn | backend/main.py:398-403 | the strings among decoded list items, each one of them |
| Backend.NonEmpty | backend/main.py:407-408 | the entries that name a file are the non-empty ones |
| Backend.DeletedPathsAsWritten | backend/main.py:397-405 | as written, only the main image is removed |
| Backend.DeletedPaths | backend/main.py:397-414 | deleting removes the main image, and intends to remove every listed image too |
| Backend.DeletesListedImages | backend/main.py:397-414 | the files removed are exactly the non-empty main image and stored list entries |
| Backend.DeleteAsWrittenKeepsFiles | backend/main.py:397-405 | as written, a listed image other than the main one stays on disk |
| Backend.InCategory | backend/main.py:137-140 | a row is listed exactly when it is in the table and of the category (any row without one) |
| Backend.InCategoryAppend | backend/main.py:137-140 | the filter keeps table order: the rows listed from `a + b` are those from `a`, then those from `b` |
| Backend.InCategoryCounts | backend/main.py:137-140 | a row of the category is listed as many times as the table holds it, any other row never |
| Backend.InCategoryAll | backend/main.py:137-140 | without a category every row is listed, in table order |
| Backend.Dicts | backend/main.py:141 | every row in `to_dict` form, position by position |
| Backend.CreateRow | backend/main.py:179-253 | the create body computes exactly the specified new row |
| Backend.UpdateRow | backend/main.py:286-380 | the update body computes exactly the specified updated row |
| Backend.ProductTable.constructor | backend/models.py:7-8 | the table starts empty, with unique ids |
| Backend.ProductTable.ListProducts | backend/main.py:132-141 | `GET /api/products` lists the category's rows as dictionaries, in table order |
| Backend.ProductTable.GetProduct | backend/main.py:143-148 | `GET /api/products/{id}` is a 404 iff no row has the id, else that row's dictionary |
| Backend.ProductTable.CreateProduct | backend/main.py:150-259 | the new row is appended and ids stay unique; on an error the table is unchanged |
| Backend.ProductTable.UpdateProduct | backend/main.py:261-385 | the row is replaced in place and ids stay unique; on an error the table is unchanged |
| Backend.ProductTable.DeleteProductCorrected | backend/main.py:387-419 | a missing id is a 404 with nothing changed; otherwise exactly that row is removed, and the files reported are those the handler intends to remove (the main image and every listed image) |
| Json.ParseValue | backend/models.py:32 | the parser always consumes input; what a parse means is stated by `Json.LoadsDumps` (parsing printed JSON gives back the value) |
| Json.NumberRoundTrip | backend/main.py:199 | an integer written out reads back as itself |
| Json.EscapeRoundTrip | backend/main.py:199 | a string written with escapes reads back as itself |
| Json.LoadsDumps | backend/main.py:196-208 | `json.loads(json.dumps(v)) == v` for every value, in both writers' styles |
| Dict.Lookup | src/pages/ProductDetail.tsx:50 | a key is absent iff no entry carries it; a value found is stored under that key |
| Dict.Put | src/pages/ProductDetail.tsx:264 | `{...prev, [k]: v}` keeps the key order and appends a new key at the end |
| Dict.PutDistinct | src/pages/ProductDetail.tsx:264 | the keys stay distinct |
| Dict.PutLookupSame | src/pages/ProductDetail.tsx:264 | after the update, `k` maps to `v` |
| Dict.PutLookupOther | src/pages/ProductDetail.tsx:264 | the update leaves every other key's value unchanged |
| Text.StripEmptyIff | backend/main.py:49 | a string strips to nothing iff it is all whitespace |
| Text.StripShape | backend/main.py:49 | a stripped string is a substring with no whitespace at either end |
| Text.StripUnpadded | backend/main.py:49 | stripping a string without surrounding whitespace changes nothing |
| Text.AsciiLower | backend/main.py:311-312 | `lower()` maps `A`-`Z` to `a`-`z` and keeps every other character |
| Text.Contains | src/lib/api.ts:148-151 | `includes` holds iff the text occurs at some position |
| Text.Split | backend/main.py:36 | `split(",")` gives at least one part, none holding a comma, and joining them gives the text back |
| Text.SplitJoin | backend/main.py:36 | splitting a join of comma-free parts gives the parts back |
| Text.NatToString | src/pages/Admin.tsx:201 | `toString` of a whole number is digits with no leading zero |
| Text.DigitsValueOfNat | src/pages/Admin.tsx:201 | those digits read back as the number |
| Text.Basename | backend/main.py:409 | `basename` is the whole path when it has no `/`, and otherwise exactly what follows the last `/` |
| Text.Extension | backend/main.py:82 | `splitext(...)[1]` is the part of the base name from its last `.`, present exactly when a character other than a dot comes before some dot there, and empty otherwise |
| Text.ExtensionRule | backend/main.py:82 | the last dot of a base name ends an extension exactly when some non-dot character precedes some dot |
| Api.GetApiBaseUrl | src/lib/api.ts:9-26 | `VITE_API_URL` when set; the page's own origin on the two production hosts; else localhost:8000 |
| Api.AssetBase | src/components/ProductGallery.tsx:111 | the image origin is `VITE_API_URL` when set, else localhost:8000 |
| Api.AssetBaseWhenConfigured | src/lib/api.ts:11-13 | when `VITE_API_URL` is set, images and API calls use the same origin |
| Api.AssetBaseIgnoresProductionHost | src/lib/api.ts:16-21 | on either production host without `VITE_API_URL`, API calls go to the page's own origin and images to localhost, and the two differ |
| Api.Prop | src/lib/api.ts:192-200 | reading a property of null throws; a present value comes from an object member |
| Api.ReadJson | src/lib/api.ts:142 | `response.json()` gives the decoded body or rejects with the parse error |
| Api.ProductsUrl | src/lib/api.ts:117-119 | the list URL carries `?category=` exactly when a non-empty category is given |
| Api.AttemptError | src/lib/api.ts:136-140 | an attempt fails iff the fetch threw or the reply is not ok |
| Api.Classify | src/lib/api.ts:147-154 | the last failure becomes the timeout message, the unreachable message, or itself |
| Api.ProductsFrom | src/lib/api.ts:121-162 | from attempt `k`: an ok reply gives its body; a failed last attempt gives its classified error; past the last attempt, the exhausted message |
| Api.AttemptsFrom | src/lib/api.ts:121-147 | no request iff `k` is past the last attempt; exactly one more when attempt `k` succeeds or is the last |
| Api.Backoff | src/lib/api.ts:158 | the wait after failed attempt `k` is `1000 * (k + 1)` ms |
| Api.AttemptsBounded | src/lib/api.ts:121 | the loop makes at most `retries + 1` requests, none when `retries < 0` |
| Api.DefaultAttempts | src/lib/api.ts:116-158 | with the default two retries, one to three requests; all three, ending in the last failure classified, when every attempt fails; waits of 1000 and 2000 ms |
| Api.FirstOkWins | src/lib/api.ts:142 | the first ok reply's body is the result, and no further request is sent |
| Api.AllAttemptsFail | src/lib/api.ts:146-155 | when every attempt fails, all are made and the last failure is reported classified |
| Api.HttpErrorNeverRethrown | src/lib/api.ts:136-154 | a non-ok reply on the last attempt always surfaces as the unreachable (or timeout) message |
| Api.EntryMessages | src/lib/api.ts:196 | the validation messages, one per entry, or the first error an entry raises |
| Api.EntryMessage | src/lib/api.ts:196 | an entry raises only a TypeError, and an object entry raises iff its `loc` is present and neither null nor an array; a non-object entry reads `undefined: undefined` |
| Api.ValidationErrorFlattened | src/lib/api.ts:194-198 | a 422 listing entries reads `Validation error: ` and the entries' texts joined by `, ` |
| Api.ValidationEntryMessage | src/lib/api.ts:196 | an entry's message is its location joined by `.`, a colon and its message |
| Api.EntryMessagesOk | src/lib/api.ts:196 | entries that each give their message give the list of messages |
| Api.ValidationDetailStringified | src/lib/api.ts:197 | a 422 whose detail is a string or object reads `Validation error: ` and the detail as JSON |
| Api.CreateError | src/lib/api.ts:191-200 | a null body is a TypeError; outside 422 a truthy detail is the message; else a truthy message; else "Failed to create product" |
| Api.CreateOutcome | src/lib/api.ts:183-203 | a rejected fetch is rethrown, an ok reply gives its body, and a non-ok reply always rejects, with `CreateError` of its decoded body |
| Api.UpdateOutcome | src/lib/api.ts:212-225 | a rejected fetch is rethrown, an ok reply gives its body, and a non-ok reply rejects with its detail or "Failed to update product", with no 422 flattening |
| Api.DeleteOutcome | src/lib/api.ts:241-243 | a delete succeeds iff the reply is ok; otherwise it rejects with a fixed message |
| Api.StoredToken | src/lib/api.ts:90 | the stored token is `String(data.access_token)`; a null reply throws |
| Api.AccessTokenStored | src/lib/api.ts:90 | a string `access_token` is stored exactly |
| Api.LoginOutcome | src/lib/api.ts:78-92 | a login succeeds iff the reply is ok and decodes to non-null; a non-ok reply is `Invalid credentials` |
| Api.CredentialsRoundTrip | src/lib/api.ts:82 | the login body decodes to the user name and password |
| Api.LoginAuthenticates | src/lib/api.ts:85-91 | an ok login reply with a string token stores that token |
| Api.ApiService.constructor | src/lib/api.ts:57 | the client starts with the given storage and base URL |
| Api.ApiService.AuthToken | src/lib/api.ts:58-60 | the token is present iff stored under `admin_token`, and is that value |
| Api.ApiService.IsAuthenticated | src/lib/api.ts:98-100 | authenticated iff a non-empty token is stored under `admin_token` |
| Api.ApiService.GetHeaders | src/lib/api.ts:62-76 | the JSON headers, plus `Bearer <token>` when asked for and a token is stored |
| Api.ApiService.Login | src/lib/api.ts:78-92 | one POST of the credentials; on success the token is stored, on failure storage is unchanged |
| Api.ApiService.Logout | src/lib/api.ts:94-100 | the token is removed and the client is then not authenticated |
| Api.ApiService.CheckHealth | src/lib/api.ts:102-114 | healthy iff the health GET gave an ok reply; a rejected fetch is unhealthy |
| Api.ApiService.GetProducts | src/lib/api.ts:116-163 | the loop's result, request count and waits are those of the specification functions |
| Api.ApiService.GetProductsDefault | src/lib/api.ts:116-163 | called without `retries`, one to three GETs of the same URL, the loop's result, and waits that are a prefix of 1000, 2000 ms |
| Api.ApiService.GetProduct | src/lib/api.ts:165-175 | one GET; a non-ok reply rejects with `Failed to fetch product` |
| Api.ApiService.CreateProduct | src/lib/api.ts:177-204 | without a token it rejects before any request; otherwise one authorised multipart POST |
| Api.ApiService.UpdateProduct | src/lib/api.ts:206-226 | the same guard, then one authorised multipart PUT of the product URL |
| Api.ApiService.DeleteProduct | src/lib/api.ts:228-244 | the same guard, then one authorised DELETE of the product URL |
| Checkout.HandleInputChange | src/pages/Checkout.tsx:64-67 | the named input takes the typed value and nothing else changes |
| Checkout.SelectPayment | src/pages/Checkout.tsx:321-346 | a payment button changes only the payment method |
| Checkout.MissingFields | src/pages/Checkout.tsx:73-74 | the missing fields are exactly the listed ones that trim to nothing |
| Checkout.FirstIndex | src/pages/Checkout.tsx:86 | the first position of a character, or -1 when absent |
| Checkout.EmailPattern | src/pages/Checkout.tsx:86-87 | a matching address has at least five characters and starts and ends with a non-space, non-`@` character |
| Checkout.ValidEmail | src/pages/Checkout.tsx:86-87 | an accepted address has at least five characters and starts and ends with a non-space, non-`@` character |
| Checkout.ValidEmailIsPattern | src/pages/Checkout.tsx:86 | what the executable email check accepts, the pattern matches |
| Checkout.PatternIsValidEmail | src/pages/Checkout.tsx:86 | what the pattern matches, the executable check accepts |
| Checkout.ValidEmailMatchesPattern | src/pages/Checkout.tsx:86 | the executable check accepts exactly the pattern's matches |
| Checkout.Submit | src/pages/Checkout.tsx:69-130 | the verdict is the first failing check in the order missing, email, phone, pincode; else the order is placed |
| Checkout.Digits | src/pages/Checkout.tsx:97-98 | a string of exactly `n` ASCII digits has nothing to trim, and is not blank when `n > 0` |
| Checkout.PlacedIffValid | src/pages/Checkout.tsx:72-118 | an order is placed iff every required field is filled and all three patterns match |
| Checkout.ApartmentOptional | src/pages/Checkout.tsx:73 | the apartment never changes the verdict |
| Checkout.MissingFieldsIgnoresApartment | src/pages/Checkout.tsx:73-74 | forms that differ only in the apartment miss the same fields |
| Checkout.PaddedEmailRejected | src/pages/Checkout.tsx:86-87 | an email with a leading space passes the blank check but fails the pattern |
| Checkout.View | src/pages/Checkout.tsx:132-147 | the form is shown iff the cart has items |
| ProductDetail.SelectVariant | src/pages/ProductDetail.tsx:264 | choosing an option keeps the variant order and adds a new variant at the end |
| ProductDetail.SelectOverwritesOnlyThatVariant | src/pages/ProductDetail.tsx:264 | the chosen variant takes the option and the others keep theirs |
| ProductDetail.EntryTexts | src/pages/ProductDetail.tsx:106-107 | each entry becomes `key: value`, in order |
| ProductDetail.VariantString | src/pages/ProductDetail.tsx:106-108 | the text is empty iff nothing is selected, and one selection gives `key: value` |
| ProductDetail.VariantOf | src/pages/ProductDetail.tsx:106-116 | no variant text iff nothing is chosen; one choice gives `key: value` |
| ProductDetail.TwoVariantsText | src/pages/ProductDetail.tsx:106-108 | two choices are joined with `, ` |
| ProductDetail.Decrement | src/pages/ProductDetail.tsx:284 | the minus button never goes below 1 |
| ProductDetail.QuantityStaysPositive | src/pages/ProductDetail.tsx:284-291 | any sequence of presses keeps the quantity at least 1 |
| ProductDetail.IncreasesCount | src/pages/ProductDetail.tsx:291 | `n` plus presses add exactly `n` |
| ProductDetail.AddToCartPayload | src/pages/ProductDetail.tsx:105-117 | the cart item copies the product's fields and has a variant iff one is chosen |
| ProductDetail.CategoryPath | src/pages/ProductDetail.tsx:134-143 | a known category links to `/<category>`, any other string to `/` |
| ProductDetail.CategoryName | src/pages/ProductDetail.tsx:145-154 | a known category shows its display name, any other string itself |
| ProductDetail.DisplayName | src/pages/ProductDetail.tsx:145-151 | each category's display name is non-empty and differs from its value |
| ProductDetail.BreadcrumbOfProduct | src/pages/ProductDetail.tsx:171-172 | a product's breadcrumb never falls back to `/` or the raw value |
| ProductDetail.Others | src/pages/ProductDetail.tsx:60 | the other products are exactly those with a different id |
| ProductDetail.RelatedProducts | src/pages/ProductDetail.tsx:59-60 | at most four others, the first four in order |
| ProductDetail.OthersKeepsOrder | src/pages/ProductDetail.tsx:60 | filtering keeps the list's order |
| ProductDetail.RelatedKeepsOrder | src/pages/ProductDetail.tsx:60 | the related products appear in catalogue order |
| ProductDetail.DetailImageUrl | src/pages/ProductDetail.tsx:186-190 | a path starting with `/` gets the origin in front; anything else is used as it is |
| ProductDetail.DetailImageUrlIdempotent | src/pages/ProductDetail.tsx:186-190 | with an origin not starting with `/`, resolving twice is resolving once |
| ProductDetail.Thumbnails | src/pages/ProductDetail.tsx:196-203 | at most four thumbnails, each resolved like the main picture |
| Gallery.ResolveImage | src/components/ProductGallery.tsx:108-112 | absolute addresses kept; others get the origin and exactly one `/` before the path (the same rule builds the admin table's thumbnails, src/pages/Admin.tsx:734-737) |
| Gallery.ResolveImageIdempotent | src/components/ProductGallery.tsx:108-112 | with an absolute origin, resolving twice is resolving once |
| Gallery.AgreesWithDetailOnRootedPaths | src/components/ProductGallery.tsx:111 | for `/...` paths the grid and the product page show the same address |
| Gallery.DiffersFromDetailOnRelativePaths | src/components/ProductGallery.tsx:111 | for every path that is neither absolute nor rooted, the grid puts the base and a `/` in front, the product page uses the path as it is, and the two differ |
| Gallery.AddToCartPayload | src/components/ProductGallery.tsx:53-62 | a card adds the product without a variant |
| Gallery.SameAsDetailWithoutVariant | src/components/ProductGallery.tsx:56-62 | it is the product page's item with nothing chosen |
| Gallery.LoadProducts | src/components/ProductGallery.tsx:18-43 | a load ends not loading; success shows the products, failure none and a toast |
| Gallery.Render | src/components/ProductGallery.tsx:69-100 | spinner iff loading; once loaded, the grid of exactly the loaded products when there are any, else the no-products message |
| Gallery.FailedLoadShowsNoProducts | src/components/ProductGallery.tsx:23-87 | a failed load shows the same notice as an empty category |
| Admin.ResetForm | src/pages/Admin.tsx:170-189 | the form, files, previews and edited product are all cleared |
| Admin.ResetRestoresInitialState | src/pages/Admin.tsx:170-189 | resetting gives exactly the page's initial editor |
| Admin.VariantsJson | src/pages/Admin.tsx:203 | the variants as a JSON array, one item per variant |
| Admin.OpenEditDialog | src/pages/Admin.tsx:191-209 | editing fills every form field from the product (numbers as text, a missing optional field as the empty text, variants and details as pretty JSON) and shows its main picture and the rest as previews; picked files are kept |
| Admin.PartOf | src/pages/Admin.tsx:220-278 | a wire name read back gives the part it names |
| Admin.WireRoundTrip | src/pages/Admin.tsx:220-278 | every part's wire name reads back as that part |
| Admin.WireInjective | src/pages/Admin.tsx:220-278 | two parts never share a wire name |
| Admin.UpdatePart | src/pages/Admin.tsx:218-238 | the append the update path makes for a field |
| Admin.CreatePart | src/pages/Admin.tsx:250-270 | the append the create path makes for a field |
| Admin.PartsInOrder | src/pages/Admin.tsx:218-270 | each text field is appended at its own position |
| Admin.AttachAll | src/pages/Admin.tsx:276-278 | each additional image is attached under `additional_images`, in order |
| Admin.AppendTexts | src/pages/Admin.tsx:218-270 | the text appends in turn build the specified entries |
| Admin.AppendFiles | src/pages/Admin.tsx:276-278 | the image loop appends each file in order |
| Admin.BuildFormData | src/pages/Admin.tsx:216-279 | the handler builds exactly the specified body |
| Admin.RenderUnder | src/pages/Admin.tsx:218-270 | each field receives exactly the text of its own append |
| Admin.RenderCarriesNoFiles | src/pages/Admin.tsx:218-270 | the text appends carry no file |
| Admin.RenderUnderOther | src/pages/Admin.tsx:218-270 | nothing is sent under a name that is not a part's |
| Admin.BodyTexts | src/pages/Admin.tsx:216-279 | in a body each field receives its own append's text |
| Admin.BodyFiles | src/pages/Admin.tsx:241-278 | the main image and the additional images come back as picked |
| Admin.FilesSent | src/pages/Admin.tsx:241-278 | the files sent are the picked main image and the additional images in order |
| Admin.NothingElseSent | src/pages/Admin.tsx:216-279 | no body sends anything under a name the backend does not read |
| Admin.UpdateSendsEveryField | src/pages/Admin.tsx:218-238 | an update sends every text field exactly once |
| Admin.UpdateClearsOriginalPrice | src/pages/Admin.tsx:223-229 | an update always sends the original price, blank as the empty text |
| Admin.UpdateSendsClearableFields | src/pages/Admin.tsx:234-238 | an update sends story, variants and details even when empty |
| Admin.CreateOmitsBlankOriginalPrice | src/pages/Admin.tsx:255-257 | a create leaves out a blank original price |
| Admin.CreateOmitsEmptyStory | src/pages/Admin.tsx:262-264 | a create leaves out an empty story but sends one of spaces |
| Admin.CreateOmitsBlankVariants | src/pages/Admin.tsx:265-267 | a create leaves out blank variants |
| Admin.CreateOmitsBlankDetails | src/pages/Admin.tsx:268-270 | a create leaves out blank details |
| Admin.UpdateSendsRequiredFields | src/pages/Admin.tsx:220-230 | an update sends name, description, price and category as typed |
| Admin.UpdateSendsDefaults | src/pages/Admin.tsx:231-233 | the stock flag as `true`/`false`, an empty rating or count as `0` |
| Admin.CreateSendsRequiredFields | src/pages/Admin.tsx:252-261 | a create sends those fields exactly as an update does |
| Admin.RemoveAt | src/pages/Admin.tsx:655-661 | `splice(idx, 1)` takes out the element at `idx` and keeps the rest in order |
| Admin.RemovePreview | src/pages/Admin.tsx:655-661 | removing a preview drops that preview and the file at the same index, keeping the order of the rest, and nothing else changes |
| Admin.RemovalKeepsPairing | src/pages/Admin.tsx:655-661 | files and previews stay paired index by index |
| Admin.RemovingStoredPreviewKeepsBody | src/pages/Admin.tsx:655-661 | removing a stored image's preview while editing changes nothing that is sent |
| Admin.SaveErrorToast | src/pages/Admin.tsx:298-303 | a failed save shows the error's message, or the fallback when it is empty |
| Admin.SaveResult | src/pages/Admin.tsx:281-288 | without a token the save rejects with "Not authenticated"; a rejected fetch is rethrown; an ok reply gives its body; a non-ok reply rejects, whether creating or updating |
| Admin.HandleSubmit | src/pages/Admin.tsx:211-307 | one request with the built body; success resets and closes the editor, failure keeps it and shows the error |
| Admin.HandleDelete | src/pages/Admin.tsx:309-330 | no id, no request; otherwise one delete, a toast for its outcome, and the id cleared |
| Catalog.GetProductById | src/data/products.ts:285-287 | no result iff no entry has the id; a result is a listed entry with that id |
| Catalog.GetProductsByCategory | src/data/products.ts:289-291 | the entries of the category, no more than the catalogue |
| Catalog.FirstMatchWins | src/data/products.ts:285-287 | `find` returns the first entry with the id |
| Catalog.LookupListedProduct | src/data/products.ts:285-287 | with distinct ids, looking up a listed entry's id gives that entry |
| Catalog.CategoryKeepsOrder | src/data/products.ts:289-291 | a category's entries keep the catalogue order |
| Catalog.CategoriesPartition | src/data/products.ts:289-291 | the five category lists together hold the whole catalogue |
| Catalog.CatalogueWellFormed | src/data/products.ts:31-283 | the twelve entries have distinct ids, and each entry's image is among its images |
| Catalog.CatalogueLookup | src/data/products.ts:31-287 | every catalogue entry is found by its own id |

## Left out

- Python `float`/`int` parsing and JavaScript's number-to-text conversion are parameters, not defined here.
- JSON numbers are whole numbers only; fractions, exponents and lone surrogate escapes are not modelled.
- Json.ParseValue: rejects `NaN`, `Infinity` and `-Infinity`, which Python's `json.loads` accepts by default, so a stored text such as `[NaN]` is read as unparsable by `Backend.Reserialized` and `Backend.StoredImages` where Python would parse it.
- `lower()` is ASCII-only; Unicode case mapping is not modelled.
- File system effects: the file writes of `save_uploaded_file` and the `os.remove` calls. The delete handlers return the paths of the files to remove instead.
- Backend.ProductTable.DeleteProductCorrected: the table's delete reports the corrected removal list (`Backend.DeletedPaths`); the handler as written removes only the main image (`Backend.DeletedPathsAsWritten`), as the Findings table explains.
- Backend.SaveUploads: generic over the save function; the write of the file's bytes is I/O and is left out.
- `uuid4`, the database session and its commit, and timestamps (`created_at`, `updated_at`) are not modelled.
- Authentication (`verify_token`, JWT creation and expiry) and the 401 responses are not modelled.
- Pydantic coercions (numbers given as strings, integers given as floats) are not modelled: values must carry the declared JSON type.
- JSON values are modelled as decoded dictionaries hold them, with each key once; a text with a repeated key decodes to its last value, as in Python, and the round trip covers values without repeats only.
- Checkout.Submit: the two-second delay, `clearCart`, navigation and toasts are not modelled; the verdict stands for them.
- The cart store (`CartContext`) is not part of this model; only the item the pages hand to it is.
- `Object.entries` order is modelled as insertion order; integer-like keys, which JavaScript lists first, are not distinguished.
- Api.HttpErrorNeverRethrown: states that the message is the unreachable or timeout text, not which of the two, because that depends on the status text.
- Backend.CorsOrigins: takes the built-in origin list as a parameter; Backend.DefaultsClean states the list's own property.
- Backend.ProductTable.ListProducts: rows are listed in the order the table holds them; `query.all()` (backend/main.py:140) has no `ORDER BY`, so the database itself promises no order.
- Backend.DeletedPaths: the corrected delete skips list items that are not strings; with `json` imported, `os.path.basename` on a non-empty non-string item would raise a `TypeError` (a 500, and the row is kept). Create and update never store such items, so only a row edited by hand could hold one.
- A failing `response.text()` on a non-ok reply inside `getProducts` is not modelled.
- Admin.OpenEditDialog: number-to-text and pretty JSON formatting are parameters (`numText`, `pretty`).
- Admin.OpenEditDialog: the variants text is printed from `VariantsJson`, which rebuilds each variant as `{name, options}`; the page prints the stored objects as they are, in their own key order and with any extra keys.
- Decoding the form parts into handler parameters (FastAPI `Form(...)`, backend/main.py:152-162 and 264-274) is not modelled: the handlers are modelled from the parameters on, so whether an empty form field arrives as the empty text or as no value, and hence whether the `""` branches of `Admin.UpdateClearsOriginalPrice` and the handlers are reachable from the admin page, is not captured.
- FileReader callbacks are assumed to complete in file order.
- Admin.RemovePreview: modelled on values; React's batched state updates are not modelled.
- Catalogue descriptions, variants, details, ratings, review counts and artisan stories are not reproduced in `Catalog.Products`.
- Loading flags, dialogs, login form state and page reloads after a save are not modelled.
- Api.AssetBase: the image origin ignores the production host that `getApiBaseUrl` detects; this is what the pages do.
- Logging and console output are left out.

## Findings

| source | as written | input that shows it | evidently intended | confidence | as-written member | corrected member |
|---|---|---|---|---|---|---|
| backend/main.py:397-405 | `delete_product` calls `json.loads` without `json` being imported at module level (it is imported only inside the create and update handlers). The `NameError` is swallowed by the bare `except`, so only the main image file is removed. | a product whose `images` is `["/uploads/a.jpg", "/uploads/b.jpg"]` and whose `image` is `/uploads/a.jpg`: `/uploads/b.jpg` stays on disk | remove the main image and every image in the stored list | not executed | Backend.DeleteAsWrittenKeepsFiles | Backend.DeletesListedImages |

/**
 * The browser's API client (`src/lib/api.ts`): the choice of the backend's base URL, the request
 * headers, the admin token kept in `localStorage`, and the product calls with their retry loop and
 * their error messages. The network is an oracle: a call takes the outcome `fetch` would produce
 * (for the retry loop, one outcome per attempt) and returns, beside its result, the requests it sent.
 * A rejected promise is an `Err` carrying the JavaScript error.
 */
module Api {
  import opened Wrappers
  import opened Text
  import opened Dict
  import opened Json
  import Schemas

  // ---------------------------------------------------------------- base URL

  /** `window.location` as far as the client reads it. */
  datatype Location = Location(protocol: string, hostname: string)

  const LocalApi := "http://localhost:8000"

  /** The two host names of the production site, which serves the API on its own origin. */
  predicate ProductionHost(hostname: string) {
    hostname == "kashmiricraft.com" || hostname == "www.kashmiricraft.com"
  }

  /**
   * `getApiBaseUrl`: a non-empty `VITE_API_URL` wins; otherwise a page on a production host talks to
   * its own origin; otherwise (another host, or no `window`) the local development server.
   */
  function GetApiBaseUrl(viteApiUrl: Option<string>, window: Option<Location>): (url: string)
    ensures viteApiUrl.Some? && viteApiUrl.value != "" ==> url == viteApiUrl.value
    ensures (viteApiUrl.None? || viteApiUrl.value == "") && !(window.Some? && ProductionHost(window.value.hostname)) ==>
      url == LocalApi
    ensures (viteApiUrl.None? || viteApiUrl.value == "") && window.Some? && ProductionHost(window.value.hostname) ==>
      url == window.value.protocol + "//" + window.value.hostname
  {
    if viteApiUrl.Some? && viteApiUrl.value != "" then viteApiUrl.value
    else if window.Some? && ProductionHost(window.value.hostname) then
      window.value.protocol + "//" + window.value.hostname
    else LocalApi
  }

  /**
   * `VITE_API_URL || 'http://localhost:8000'`: the origin the pages put in front of a stored image
   * path. Unlike `getApiBaseUrl` it does not look at the page's host.
   */
  function AssetBase(viteApiUrl: Option<string>): (base: string)
    ensures viteApiUrl.Some? && viteApiUrl.value != "" ==> base == viteApiUrl.value
    ensures viteApiUrl.None? || viteApiUrl.value == "" ==> base == LocalApi
  {
    if viteApiUrl.Some? && viteApiUrl.value != "" then viteApiUrl.value else LocalApi
  }

  /** The two agree whenever `VITE_API_URL` is set, whatever the page's location. */
  lemma AssetBaseWhenConfigured(url: string, window: Option<Location>)
    requires url != ""
    ensures AssetBase(Some(url)) == GetApiBaseUrl(Some(url), window)
  {
  }

  /**
   * Without `VITE_API_URL`, a page served from the production host sends its API calls to its own
   * origin but points its images at the local development server.
   */
  lemma AssetBaseIgnoresProductionHost(window: Location)
    requires ProductionHost(window.hostname)
    ensures GetApiBaseUrl(None, Some(window)) == window.protocol + "//" + window.hostname
    ensures AssetBase(None) == LocalApi
    ensures GetApiBaseUrl(None, Some(window)) != AssetBase(None)
  {
    var url := GetApiBaseUrl(None, Some(window));
    assert url[|url| - 1] == 'm' by {
      assert url[|url| - 1] == window.hostname[|window.hostname| - 1];
    }
  }

  // ---------------------------------------------------------------- products

  /** One variant axis of a product: its name (such as a colour or a size) and the options offered. */
  datatype Variant = Variant(name: string, options: seq<string>)

  /**
   * The `Product` interface the pages receive: prices and the rating are JavaScript numbers,
   * `details` is a free-form record, and the optional fields may be missing.
   */
  datatype Product = Product(
    id: string,
    name: string,
    description: string,
    price: real,
    originalPrice: Option<real>,
    image: string,
    images: seq<string>,
    category: Schemas.Category,
    rating: real,
    reviews: int,
    inStock: bool,
    variants: Option<seq<Variant>>,
    details: Option<Entries<Json>>,
    artisanStory: Option<string>)

  // ---------------------------------------------------------------- JavaScript values

  /** A thrown JavaScript error: its `name` and its `message`. */
  datatype JsError = JsError(name: string, message: string)

  /** `new Error(message)`. */
  function Error(message: string): JsError {
    JsError("Error", message)
  }

  /** The `TypeError` reading property `key` of `null` raises. */
  function NullRead(key: string): JsError {
    JsError("TypeError", "Cannot read properties of null (reading '" + key + "')")
  }

  /** JavaScript truthiness of a decoded value; `None` is `undefined`. */
  predicate Truthy(v: Option<Json>) {
    match v
    case None => false
    case Some(JNull) => false
    case Some(JBool(b)) => b
    case Some(JNum(n)) => n != 0
    case Some(JStr(s)) => s != ""
    case Some(_) => true
  }

  /** `String(v)` (and `${v}` in a template) on a decoded value. */
  function JsString(v: Json): string
    decreases v, 1
  {
    match v
    case JNull => "null"
    case JBool(b) => if b then "true" else "false"
    case JNum(n) => IntToString(n)
    case JStr(s) => s
    case JArr(items) => ArrayJoin(items, ",")
    case JObj(_) => "[object Object]"
  }

  /** `items.join(sep)`: each item converted with `String`, `null` items as the empty string. */
  function ArrayJoin(items: seq<Json>, sep: string): string
    decreases items, 0
  {
    Join(seq(|items|, i requires 0 <= i < |items| => if items[i].JNull? then "" else JsString(items[i])), sep)
  }

  /** `v.key` on a decoded value: the member's value, `undefined` on anything but an object, a `TypeError` on `null`. */
  function Prop(v: Json, key: string): (r: Result<Option<Json>, JsError>)
    ensures r.Err? <==> v.JNull?
    ensures r.Ok? && r.value.Some? ==> v.JObj? && HasKey(v.members, key)
  {
    match v
    case JNull => Err(NullRead(key))
    case JObj(ms) => Ok(Lookup(ms, key))
    case _ => Ok(None)
  }

  // ---------------------------------------------------------------- requests and replies

  /** A `FormData` value: a text field, or an uploaded file given by its name. */
  datatype FormValue = Field(text: string) | Attached(filename: string)

  /** A `FormData` builder's entries, in the order they were appended. */
  type FormData = seq<(string, FormValue)>

  datatype RequestBody = NoBody | JsonText(text: string) | Multipart(form: FormData)

  datatype Request = Request(verb: string, url: string, headers: Entries<string>, body: RequestBody)

  /** What `response.json()` would give: the decoded value, or the error it rejects with. */
  datatype Body = Parsed(value: Json) | Unparsable(failure: JsError)

  datatype Reply = Reply(status: int, statusText: string, body: Body)

  /** `response.ok`. */
  predicate ResponseOk(reply: Reply) {
    200 <= reply.status <= 299
  }

  /** What `fetch` settles to: a reply, or the error it rejects with. */
  datatype Fetched = Threw(error: JsError) | Got(reply: Reply)

  /** `await response.json()`. */
  function ReadJson(body: Body): (r: Result<Json, JsError>)
    ensures r.Ok? <==> body.Parsed?
    ensures body.Parsed? ==> r.value == body.value
    ensures body.Unparsable? ==> r.error == body.failure
  {
    match body
    case Parsed(v) => Ok(v)
    case Unparsable(e) => Err(e)
  }

  const TokenKey := "admin_token"

  /** The headers every JSON request carries. */
  const JsonHeaders: Entries<string> := [("Content-Type", "application/json"), ("Accept", "application/json")]

  /** The only header of the admin calls. */
  function BearerHeaders(token: string): Entries<string> {
    [("Authorization", "Bearer " + token)]
  }

  const NotAuthenticated := Error("Not authenticated")

  // ---------------------------------------------------------------- product list with retries

  /** The product-list URL: a query for the category when one is given (a non-empty string). */
  function ProductsUrl(base: string, category: Option<string>): (url: string)
    ensures StartsWith(url, base + "/api/products")
    ensures |url| > |base + "/api/products"| <==> category.Some? && category.value != ""
    ensures category.Some? && category.value != "" ==> url[|base + "/api/products"|..] == "?category=" + category.value
  {
    var path := base + "/api/products";
    if category.Some? && category.value != "" then
      var url := path + "?category=" + category.value;
      assert url[..|path|] == path && url[|path|..] == "?category=" + category.value;
      url
    else
      assert path[..|path|] == path;
      path
  }

  const TimeoutMessage :=
    "Request timeout - the server is taking too long to respond. Please check your connection and try again."

  function UnreachableMessage(base: string): string {
    "Cannot connect to API at " + base + ". Please check if the backend is running and accessible."
  }

  const ExhaustedMessage := "Failed to fetch products after multiple attempts"

  /** The error a failed attempt raises inside the loop's `try`, or None when the reply is ok. */
  function AttemptError(outcome: Fetched): (e: Option<JsError>)
    ensures e.None? <==> outcome.Got? && ResponseOk(outcome.reply)
    ensures outcome.Threw? ==> e == Some(outcome.error)
  {
    match outcome
    case Threw(err) => Some(err)
    case Got(reply) =>
      if ResponseOk(reply) then None
      else Some(Error("Failed to fetch products: " + IntToString(reply.status) + " " + reply.statusText))
  }

  /**
   * The error the last attempt's failure is reported as: an abort or a timeout first, then a
   * network-level failure, and anything else as it was thrown.
   */
  function Classify(e: JsError, base: string): (r: JsError)
    ensures e.name == "AbortError" || Contains(e.message, "timeout") ==> r == Error(TimeoutMessage)
    ensures !(e.name == "AbortError" || Contains(e.message, "timeout"))
      && (Contains(e.message, "Failed to fetch") || Contains(e.message, "NetworkError") || Contains(e.message, "CORS"))
      ==> r == Error(UnreachableMessage(base))
    ensures r != e ==> r == Error(TimeoutMessage) || r == Error(UnreachableMessage(base))
  {
    if e.name == "AbortError" || Contains(e.message, "timeout") then Error(TimeoutMessage)
    else if Contains(e.message, "Failed to fetch") || Contains(e.message, "NetworkError") || Contains(e.message, "CORS") then
      Error(UnreachableMessage(base))
    else e
  }

  /** The result of the loop from attempt `k` on: the first ok reply's body, else the last failure classified. */
  function ProductsFrom(base: string, retries: int, outcomes: nat -> Fetched, k: nat): (r: Result<Json, JsError>)
    ensures k > retries ==> r == Err(Error(ExhaustedMessage))
    ensures k <= retries && AttemptError(outcomes(k)).None? ==> r == ReadJson(outcomes(k).reply.body)
    ensures k == retries && AttemptError(outcomes(k)).Some? ==> r == Err(Classify(AttemptError(outcomes(k)).value, base))
    decreases retries + 1 - k
  {
    if k > retries then Err(Error(ExhaustedMessage))
    else
      match AttemptError(outcomes(k))
      case None => ReadJson(outcomes(k).reply.body)
      case Some(e) => if k == retries then Err(Classify(e, base)) else ProductsFrom(base, retries, outcomes, k + 1)
  }

  /** How many requests the loop sends from attempt `k` on. */
  function AttemptsFrom(retries: int, outcomes: nat -> Fetched, k: nat): (n: nat)
    ensures n == 0 <==> k > retries
    ensures k <= retries && (AttemptError(outcomes(k)).None? || k == retries) ==> n == 1
    decreases retries + 1 - k
  {
    if k > retries then 0
    else if AttemptError(outcomes(k)).None? || k == retries then 1
    else 1 + AttemptsFrom(retries, outcomes, k + 1)
  }

  /** The waits between attempts: `1000 * (k + 1)` ms after failed attempt `k`, linear in `k`. */
  function Backoff(n: nat): (waits: seq<nat>)
    ensures |waits| == n && forall k :: 0 <= k < n ==> waits[k] == 1000 * (k + 1)
  {
    if n == 0 then [] else Backoff(n - 1) + [1000 * n]
  }

  /** Every attempt is a failure, up to (excluding) attempt `j`. */
  predicate FailedBefore(outcomes: nat -> Fetched, j: nat) {
    forall k: nat :: k < j ==> AttemptError(outcomes(k)).Some?
  }

  /** The loop makes at most `retries + 1` attempts, at least one when `retries >= 0`, none otherwise. */
  lemma {:induction false} AttemptsBounded(retries: int, outcomes: nat -> Fetched, k: nat)
    requires k <= retries + 1
    ensures AttemptsFrom(retries, outcomes, k) <= retries + 1 - k
    ensures AttemptsFrom(retries, outcomes, k) == 0 <==> k > retries
    decreases retries + 1 - k
  {
    if k <= retries && AttemptError(outcomes(k)).Some? && k != retries {
      AttemptsBounded(retries, outcomes, k + 1);
    }
  }

  /** The first ok reply ends the loop: its body is the result, and no further request is sent. */
  lemma {:induction false} FirstOkWins(base: string, retries: int, outcomes: nat -> Fetched, k: nat, j: nat)
    requires k <= j <= retries && FailedBefore(outcomes, j) && AttemptError(outcomes(j)).None?
    ensures ProductsFrom(base, retries, outcomes, k) == ReadJson(outcomes(j).reply.body)
    ensures AttemptsFrom(retries, outcomes, k) == j + 1 - k
    decreases j - k
  {
    if k < j {
      assert AttemptError(outcomes(k)).Some?;
      FirstOkWins(base, retries, outcomes, k + 1, j);
    }
  }

  /** When every attempt fails, all `retries + 1` are made and the last failure is reported, classified. */
  lemma {:induction false} AllAttemptsFail(base: string, retries: int, outcomes: nat -> Fetched, k: nat)
    requires k <= retries && FailedBefore(outcomes, retries + 1)
    ensures ProductsFrom(base, retries, outcomes, k) == Err(Classify(AttemptError(outcomes(retries)).value, base))
    ensures AttemptsFrom(retries, outcomes, k) == retries + 1 - k
    decreases retries - k
  {
    assert AttemptError(outcomes(k)).Some?;
    if k < retries {
      AllAttemptsFail(base, retries, outcomes, k + 1);
    }
  }

  /** The default of `getProducts`' `retries` parameter; every page calls it without one. */
  const DefaultRetries := 2

  /**
   * With the default, the loop sends one to three requests, and all three, waiting 1 s and then
   * 2 s between them, when every attempt fails.
   */
  lemma DefaultAttempts(base: string, outcomes: nat -> Fetched)
    ensures 1 <= AttemptsFrom(DefaultRetries, outcomes, 0) <= 3
    ensures FailedBefore(outcomes, 3) ==>
      AttemptsFrom(DefaultRetries, outcomes, 0) == 3
      && ProductsFrom(base, DefaultRetries, outcomes, 0) == Err(Classify(AttemptError(outcomes(2)).value, base))
    ensures Backoff(2) == [1000, 2000]
  {
    AttemptsBounded(DefaultRetries, outcomes, 0);
    if FailedBefore(outcomes, 3) {
      AllAttemptsFail(base, DefaultRetries, outcomes, 0);
    }
  }

  /**
   * A final HTTP error is never reported as itself: the loop's own message for a non-ok reply
   * contains "Failed to fetch", so it comes out as the timeout or the cannot-connect message and
   * the status code is lost.
   */
  lemma HttpErrorNeverRethrown(base: string, reply: Reply)
    requires !ResponseOk(reply)
    ensures Classify(AttemptError(Got(reply)).value, base) in {Error(TimeoutMessage), Error(UnreachableMessage(base))}
  {
    var m := "Failed to fetch products: " + IntToString(reply.status) + " " + reply.statusText;
    assert OccursAt(m, "Failed to fetch", 0);
  }

  // ---------------------------------------------------------------- admin calls' failure messages

  /** One validation entry as `${e.loc?.join('.')}: ${e.msg}`. */
  function EntryMessage(e: Json): (r: Result<string, JsError>)
    ensures r.Err? ==> r.error.name == "TypeError"
    ensures e.JNull? ==> r.Err?
    ensures e.JObj? ==> (r.Err? <==> (Lookup(e.members, "loc").Some?
      && !Lookup(e.members, "loc").value.JNull? && !Lookup(e.members, "loc").value.JArr?))
    ensures !e.JObj? && !e.JNull? ==> r == Ok("undefined: undefined")
  {
    assert "undefined" + ": " + "undefined" == "undefined: undefined";
    match Prop(e, "loc")
    case Err(err) => Err(err)
    case Ok(loc) =>
      var where :=
        match loc
        case None => Ok("undefined")
        case Some(JNull) => Ok("undefined")
        case Some(JArr(parts)) => Ok(ArrayJoin(parts, "."))
        case Some(_) => Err(JsError("TypeError", "e.loc?.join is not a function"));
      match where
      case Err(err) => Err(err)
      case Ok(w) =>
        var msg := Prop(e, "msg").value;
        Ok(w + ": " + (if msg.Some? then JsString(msg.value) else "undefined"))
  }

  /** `detail.map(entry message).join(', ')`, or the first error an entry raises. */
  function EntryMessages(detail: seq<Json>): (r: Result<seq<string>, JsError>)
    ensures r.Ok? ==> |r.value| == |detail|
    ensures r.Ok? ==> forall i :: 0 <= i < |detail| ==> EntryMessage(detail[i]) == Ok(r.value[i])
  {
    if detail == [] then Ok([])
    else
      match EntryMessage(detail[0])
      case Err(err) => Err(err)
      case Ok(m) =>
        match EntryMessages(detail[1..])
        case Err(err) => Err(err)
        case Ok(ms) => Ok([m] + ms)
  }

  /** The error a failed `createProduct` rejects with, given the decoded error body. */
  function CreateError(status: int, error: Json): (r: JsError)
    ensures error.JNull? ==> r == NullRead("detail")
    ensures status != 422 && error.JObj? && Truthy(Lookup(error.members, "detail"))
      ==> r == Error(JsString(Lookup(error.members, "detail").value))
    ensures error.JObj? && !Truthy(Lookup(error.members, "detail")) && Truthy(Lookup(error.members, "message"))
      ==> r == Error(JsString(Lookup(error.members, "message").value))
    ensures error.JObj? && !Truthy(Lookup(error.members, "detail")) && !Truthy(Lookup(error.members, "message"))
      ==> r == Error("Failed to create product")
  {
    match Prop(error, "detail")
    case Err(err) => err
    case Ok(detail) =>
      if status == 422 && Truthy(detail) then
        if detail.value.JArr? then
          match EntryMessages(detail.value.items)
          case Err(err) => err
          case Ok(ms) => Error("Validation error: " + Join(ms, ", "))
        else Error("Validation error: " + Dumps(detail.value, JsStyle))
      else if Truthy(detail) then Error(JsString(detail.value))
      else
        var message := Prop(error, "message").value;
        if Truthy(message) then Error(JsString(message.value)) else Error("Failed to create product")
  }

  /** What `createProduct` settles to once its request is sent. */
  function CreateOutcome(outcome: Fetched): (r: Result<Json, JsError>)
    ensures outcome.Threw? ==> r == Err(outcome.error)
    ensures outcome.Got? && ResponseOk(outcome.reply) ==> r == ReadJson(outcome.reply.body)
    ensures outcome.Got? && !ResponseOk(outcome.reply) ==> r.Err?
    ensures outcome.Got? && !ResponseOk(outcome.reply) && outcome.reply.body.Parsed?
      ==> r == Err(CreateError(outcome.reply.status, outcome.reply.body.value))
  {
    match outcome
    case Threw(e) => Err(e)
    case Got(reply) =>
      if ResponseOk(reply) then ReadJson(reply.body)
      else
        match ReadJson(reply.body)
        case Err(e) => Err(e)
        case Ok(error) => Err(CreateError(reply.status, error))
  }

  /** A FastAPI validation entry: a location path of strings and a message. */
  predicate ValidationEntry(e: Json) {
    && e.JObj? && Lookup(e.members, "msg").Some? && Lookup(e.members, "msg").value.JStr?
    && Lookup(e.members, "loc").Some? && Lookup(e.members, "loc").value.JArr?
    && forall i :: 0 <= i < |Lookup(e.members, "loc").value.items| ==> Lookup(e.members, "loc").value.items[i].JStr?
  }

  /** The message of a validation entry: its location joined with `.`, a colon, its message. */
  function EntryText(e: Json): string
    requires ValidationEntry(e)
  {
    var loc := Lookup(e.members, "loc").value.items;
    Join(seq(|loc|, i requires 0 <= i < |loc| => loc[i].s), ".") + ": " + Lookup(e.members, "msg").value.s
  }

  /** A 422 whose `detail` lists validation entries reads "Validation error: " and the entries' texts joined by ", ". */
  lemma ValidationErrorFlattened(error: Json, detail: seq<Json>)
    requires error.JObj? && Lookup(error.members, "detail") == Some(JArr(detail))
    requires forall i :: 0 <= i < |detail| ==> ValidationEntry(detail[i])
    ensures CreateError(422, error)
      == Error("Validation error: " + Join(seq(|detail|, i requires 0 <= i < |detail| => EntryText(detail[i])), ", "))
  {
    var texts := seq(|detail|, i requires 0 <= i < |detail| => EntryText(detail[i]));
    forall i | 0 <= i < |detail| ensures EntryMessage(detail[i]) == Ok(texts[i]) {
      ValidationEntryMessage(detail[i]);
    }
    EntryMessagesOk(detail, texts);
  }

  /** A validation entry's message is its text. */
  lemma ValidationEntryMessage(e: Json)
    requires ValidationEntry(e)
    ensures EntryMessage(e) == Ok(EntryText(e))
  {
    var loc := Lookup(e.members, "loc").value.items;
    assert seq(|loc|, j requires 0 <= j < |loc| => if loc[j].JNull? then "" else JsString(loc[j]))
      == seq(|loc|, j requires 0 <= j < |loc| => loc[j].s);
  }

  /** Entries that each give their message give the list of messages. */
  lemma {:induction false} EntryMessagesOk(detail: seq<Json>, texts: seq<string>)
    requires |texts| == |detail| && forall i :: 0 <= i < |detail| ==> EntryMessage(detail[i]) == Ok(texts[i])
    ensures EntryMessages(detail) == Ok(texts)
  {
    if detail != [] {
      EntryMessagesOk(detail[1..], texts[1..]);
      assert [texts[0]] + texts[1..] == texts;
    }
  }

  /** A 422 whose `detail` is a non-empty string or an object reads "Validation error: " and the detail as JSON. */
  lemma ValidationDetailStringified(error: Json, detail: Json)
    requires error.JObj? && Lookup(error.members, "detail") == Some(detail)
    requires (detail.JStr? && detail.s != "") || detail.JObj?
    ensures CreateError(422, error) == Error("Validation error: " + Dumps(detail, JsStyle))
  {
  }

  /** What `updateProduct` settles to once its request is sent. */
  function UpdateOutcome(outcome: Fetched): (r: Result<Json, JsError>)
    ensures outcome.Threw? ==> r == Err(outcome.error)
    ensures outcome.Got? && ResponseOk(outcome.reply) ==> r == ReadJson(outcome.reply.body)
    ensures outcome.Got? && !ResponseOk(outcome.reply) ==> r.Err?
    ensures outcome.Got? && !ResponseOk(outcome.reply) && outcome.reply.body.Parsed? && outcome.reply.body.value.JObj?
      ==> var detail := Lookup(outcome.reply.body.value.members, "detail");
          r == Err(if Truthy(detail) then Error(JsString(detail.value)) else Error("Failed to update product"))
  {
    match outcome
    case Threw(e) => Err(e)
    case Got(reply) =>
      if ResponseOk(reply) then ReadJson(reply.body)
      else
        match ReadJson(reply.body)
        case Err(e) => Err(e)
        case Ok(error) =>
          match Prop(error, "detail")
          case Err(e) => Err(e)
          case Ok(detail) =>
            Err(if Truthy(detail) then Error(JsString(detail.value)) else Error("Failed to update product"))
  }

  /** What `deleteProduct` settles to once its request is sent; the reply's body is not read. */
  function DeleteOutcome(outcome: Fetched): (r: Result<(), JsError>)
    ensures r.Ok? <==> outcome.Got? && ResponseOk(outcome.reply)
    ensures outcome.Got? && !ResponseOk(outcome.reply) ==> r == Err(Error("Failed to delete product"))
  {
    match outcome
    case Threw(e) => Err(e)
    case Got(reply) => if ResponseOk(reply) then Ok(()) else Err(Error("Failed to delete product"))
  }

  /** The value `localStorage.setItem` stores for a login reply's `access_token` (`String` of it, "undefined" when missing). */
  function StoredToken(data: Json): (r: Result<string, JsError>)
    ensures r.Err? <==> data.JNull?
    ensures data.JObj? && Lookup(data.members, "access_token") == None ==> r == Ok("undefined")
  {
    match Prop(data, "access_token")
    case Err(e) => Err(e)
    case Ok(None) => Ok("undefined")
    case Ok(Some(v)) => Ok(JsString(v))
  }

  /** A reply carrying a string `access_token` stores exactly that string. */
  lemma AccessTokenStored(data: Json, token: string)
    requires data.JObj? && Lookup(data.members, "access_token") == Some(JStr(token))
    ensures StoredToken(data) == Ok(token)
  {
  }

  /** The login request's body, `JSON.stringify({ username, password })`. */
  function Credentials(username: string, password: string): string {
    Dumps(JObj([("username", JStr(username)), ("password", JStr(password))]), JsStyle)
  }

  /** What `login` settles to: the decoded reply and the token to store, or the error it rejects with. */
  function LoginOutcome(outcome: Fetched): (r: Result<(Json, string), JsError>)
    ensures outcome.Threw? ==> r == Err(outcome.error)
    ensures outcome.Got? && !ResponseOk(outcome.reply) ==> r == Err(Error("Invalid credentials"))
    ensures r.Ok? <==> outcome.Got? && ResponseOk(outcome.reply) && outcome.reply.body.Parsed? && !outcome.reply.body.value.JNull?
    ensures r.Ok? ==> r.value.0 == outcome.reply.body.value && Ok(r.value.1) == StoredToken(r.value.0)
  {
    match outcome
    case Threw(e) => Err(e)
    case Got(reply) =>
      if !ResponseOk(reply) then Err(Error("Invalid credentials"))
      else
        match ReadJson(reply.body)
        case Err(e) => Err(e)
        case Ok(data) =>
          match StoredToken(data)
          case Err(e) => Err(e)
          case Ok(token) => Ok((data, token))
  }

  /** The credentials travel as a JSON object that decodes back to the user name and password. */
  lemma CredentialsRoundTrip(username: string, password: string)
    ensures Loads(Credentials(username, password)) == Some(JObj([("username", JStr(username)), ("password", JStr(password))]))
  {
    var j := JObj([("username", JStr(username)), ("password", JStr(password))]);
    assert DistinctKeys(j.members);
    assert WellFormed(j);
    LoadsDumps(j, JsStyle);
  }

  /** A successful login whose reply carries a non-empty string token leaves the client authenticated with it. */
  lemma LoginAuthenticates(outcome: Fetched, token: string)
    requires outcome.Got? && ResponseOk(outcome.reply) && outcome.reply.body.Parsed?
    requires outcome.reply.body.value.JObj? && Lookup(outcome.reply.body.value.members, "access_token") == Some(JStr(token))
    ensures LoginOutcome(outcome).Ok? && LoginOutcome(outcome).value.1 == token
  {
    AccessTokenStored(outcome.reply.body.value, token);
  }

  // ---------------------------------------------------------------- the client

  /** `ApiService` with the page's `localStorage` (a string map) and the base URL it was loaded with. */
  class ApiService {
    const base: string
    var storage: map<string, string>

    constructor(base: string, storage: map<string, string>)
      ensures this.base == base && this.storage == storage
    {
      this.base := base;
      this.storage := storage;
    }

    /** `getAuthToken`: the stored token, if any. */
    function AuthToken(): (t: Option<string>)
      reads this
      ensures t.Some? <==> TokenKey in storage
      ensures t.Some? ==> t.value == storage[TokenKey]
    {
      if TokenKey in storage then Some(storage[TokenKey]) else None
    }

    /** `isAuthenticated`: a token is stored and it is not the empty string. */
    predicate IsAuthenticated()
      reads this
      ensures IsAuthenticated() <==> TokenKey in storage && storage[TokenKey] != ""
    {
      AuthToken().Some? && AuthToken().value != ""
    }

    /** `getHeaders`: the JSON headers, plus the bearer token when asked for and a token is stored. */
    method GetHeaders(includeAuth: bool) returns (headers: Entries<string>)
      ensures headers == JsonHeaders + (if includeAuth && IsAuthenticated() then BearerHeaders(AuthToken().value) else [])
    {
      headers := [("Content-Type", "application/json"), ("Accept", "application/json")];
      if includeAuth {
        var token := AuthToken();
        if token.Some? && token.value != "" {
          assert !HasKey(headers, "Authorization") by {
            assert headers[0].0 != "Authorization" && headers[1].0 != "Authorization";
          }
          headers := Put(headers, "Authorization", "Bearer " + token.value);
        }
      }
    }

    /** `login`: posts the credentials as JSON; an ok reply's `access_token` is stored and the reply returned. */
    method Login(username: string, password: string, outcome: Fetched) returns (r: Result<Json, JsError>, sent: seq<Request>)
      modifies this
      ensures sent == [Request("POST", base + "/api/auth/login", JsonHeaders, JsonText(Credentials(username, password)))]
      ensures LoginOutcome(outcome).Ok? ==> (r == Ok(LoginOutcome(outcome).value.0)
        && storage == old(storage)[TokenKey := LoginOutcome(outcome).value.1])
      ensures LoginOutcome(outcome).Err? ==> r == Err(LoginOutcome(outcome).error) && storage == old(storage)
    {
      var headers := GetHeaders(false);
      assert headers == JsonHeaders;
      sent := [Request("POST", base + "/api/auth/login", headers, JsonText(Credentials(username, password)))];
      match LoginOutcome(outcome) {
        case Err(e) =>
          r := Err(e);
        case Ok((data, token)) =>
          storage := storage[TokenKey := token];
          r := Ok(data);
      }
    }

    /** `logout`: removes the token; the client is then not authenticated. */
    method Logout()
      modifies this
      ensures storage == old(storage) - {TokenKey}
      ensures !IsAuthenticated()
    {
      storage := storage - {TokenKey};
    }

    /** `checkHealth`: whether the health endpoint answered ok; a rejected fetch counts as unhealthy. */
    method CheckHealth(outcome: Fetched) returns (healthy: bool, sent: seq<Request>)
      ensures healthy <==> outcome.Got? && ResponseOk(outcome.reply)
      ensures sent == [Request("GET", base + "/api/health", [], NoBody)]
    {
      sent := [Request("GET", base + "/api/health", [], NoBody)];
      match outcome {
        case Threw(_) => healthy := false;
        case Got(reply) => healthy := ResponseOk(reply);
      }
    }

    /**
     * `getProducts`: attempt `k` gets `outcomes(k)`. Up to `retries + 1` attempts, each a GET of the
     * same URL; after every failed attempt but the last the client waits (`waits`, in ms).
     */
    method GetProducts(category: Option<string>, retries: int, outcomes: nat -> Fetched)
      returns (r: Result<Json, JsError>, sent: seq<Request>, waits: seq<nat>)
      ensures r == ProductsFrom(base, retries, outcomes, 0)
      ensures |sent| == AttemptsFrom(retries, outcomes, 0)
      ensures forall i :: 0 <= i < |sent| ==> sent[i] == Request("GET", ProductsUrl(base, category), JsonHeaders, NoBody)
      ensures waits == Backoff(if sent == [] then 0 else |sent| - 1)
    {
      var url := ProductsUrl(base, category);
      sent := [];
      waits := [];
      var attempt: nat := 0;
      while attempt <= retries
        invariant attempt == 0 || attempt <= retries
        invariant |sent| == attempt && waits == Backoff(attempt)
        invariant forall i :: 0 <= i < |sent| ==> sent[i] == Request("GET", url, JsonHeaders, NoBody)
        invariant ProductsFrom(base, retries, outcomes, 0) == ProductsFrom(base, retries, outcomes, attempt)
        invariant AttemptsFrom(retries, outcomes, 0) == attempt + AttemptsFrom(retries, outcomes, attempt)
        decreases retries - attempt
      {
        var headers := GetHeaders(false);
        assert headers == JsonHeaders;
        sent := sent + [Request("GET", url, headers, NoBody)];
        var failure := AttemptError(outcomes(attempt));
        if failure.None? {
          r := ReadJson(outcomes(attempt).reply.body);
          return;
        }
        if attempt == retries {
          r := Err(Classify(failure.value, base));
          return;
        }
        waits := waits + [1000 * (attempt + 1)];
        attempt := attempt + 1;
      }
      r := Err(Error(ExhaustedMessage));
    }

    /** `getProducts(category)` as the pages call it: with the default of two retries. */
    method GetProductsDefault(category: Option<string>, outcomes: nat -> Fetched)
      returns (r: Result<Json, JsError>, sent: seq<Request>, waits: seq<nat>)
      ensures r == ProductsFrom(base, DefaultRetries, outcomes, 0)
      ensures 1 <= |sent| <= 3 && |sent| == AttemptsFrom(DefaultRetries, outcomes, 0)
      ensures forall i :: 0 <= i < |sent| ==> sent[i] == Request("GET", ProductsUrl(base, category), JsonHeaders, NoBody)
      ensures waits == [1000, 2000][..|sent| - 1]
    {
      r, sent, waits := GetProducts(category, DefaultRetries, outcomes);
      DefaultAttempts(base, outcomes);
      assert Backoff(1) == [1000];
    }

    /** `getProduct`: one GET of the product's URL; a non-ok reply rejects with a fixed message. */
    method GetProduct(id: string, outcome: Fetched) returns (r: Result<Json, JsError>, sent: seq<Request>)
      ensures sent == [Request("GET", base + "/api/products/" + id, JsonHeaders, NoBody)]
      ensures outcome.Threw? ==> r == Err(outcome.error)
      ensures outcome.Got? && !ResponseOk(outcome.reply) ==> r == Err(Error("Failed to fetch product"))
      ensures outcome.Got? && ResponseOk(outcome.reply) ==> r == ReadJson(outcome.reply.body)
    {
      var headers := GetHeaders(false);
      assert headers == JsonHeaders;
      sent := [Request("GET", base + "/api/products/" + id, headers, NoBody)];
      match outcome {
        case Threw(e) => r := Err(e);
        case Got(reply) => r := if ResponseOk(reply) then ReadJson(reply.body) else Err(Error("Failed to fetch product"));
      }
    }

    /** `createProduct`: without a token it rejects before any request; otherwise one authorised multipart POST. */
    method CreateProduct(form: FormData, outcome: Fetched) returns (r: Result<Json, JsError>, sent: seq<Request>)
      ensures !IsAuthenticated() ==> r == Err(NotAuthenticated) && sent == []
      ensures IsAuthenticated() ==>
        sent == [Request("POST", base + "/api/products", BearerHeaders(AuthToken().value), Multipart(form))]
        && r == CreateOutcome(outcome)
    {
      var token := AuthToken();
      if token.None? || token.value == "" {
        return Err(NotAuthenticated), [];
      }
      sent := [Request("POST", base + "/api/products", BearerHeaders(token.value), Multipart(form))];
      r := CreateOutcome(outcome);
    }

    /** `updateProduct`: the same token guard, then one authorised multipart PUT of the product's URL. */
    method UpdateProduct(id: string, form: FormData, outcome: Fetched) returns (r: Result<Json, JsError>, sent: seq<Request>)
      ensures !IsAuthenticated() ==> r == Err(NotAuthenticated) && sent == []
      ensures IsAuthenticated() ==>
        sent == [Request("PUT", base + "/api/products/" + id, BearerHeaders(AuthToken().value), Multipart(form))]
        && r == UpdateOutcome(outcome)
    {
      var token := AuthToken();
      if token.None? || token.value == "" {
        return Err(NotAuthenticated), [];
      }
      sent := [Request("PUT", base + "/api/products/" + id, BearerHeaders(token.value), Multipart(form))];
      r := UpdateOutcome(outcome);
    }

    /** `deleteProduct`: the same token guard, then one authorised DELETE of the product's URL. */
    method DeleteProduct(id: string, outcome: Fetched) returns (r: Result<(), JsError>, sent: seq<Request>)
      ensures !IsAuthenticated() ==> r == Err(NotAuthenticated) && sent == []
      ensures IsAuthenticated() ==>
        sent == [Request("DELETE", base + "/api/products/" + id, BearerHeaders(AuthToken().value), NoBody)]
        && r == DeleteOutcome(outcome)
    {
      var token := AuthToken();
      if token.None? || token.value == "" {
        return Err(NotAuthenticated), [];
      }
      sent := [Request("DELETE", base + "/api/products/" + id, BearerHeaders(token.value), NoBody)];
      r := DeleteOutcome(outcome);
    }
  }
}

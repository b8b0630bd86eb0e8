/**
 * A category page's product grid (`src/components/ProductGallery.tsx`): the image address of a
 * card, the item a card's bag button hands to the cart, and what a finished load leaves on screen.
 * The admin table (`src/pages/Admin.tsx`) resolves its thumbnails with the same rule.
 */
module Gallery {
  import opened Wrappers
  import opened Text
  import opened Api
  import opened Cart
  import ProductDetail

  // ---------------------------------------------------------------- image address

  /** An address with its own scheme. */
  predicate Absolute(image: string) {
    StartsWith(image, "http://") || StartsWith(image, "https://")
  }

  /**
   * A card's image: an absolute address as it is; any other path after the asset base, with a `/`
   * put between them only when the path does not begin with one.
   */
  function ResolveImage(base: string, image: string): (url: string)
    ensures Absolute(image) ==> url == image
    ensures !Absolute(image) ==> StartsWith(url, base + "/")
    ensures !Absolute(image) && StartsWith(image, "/") ==> url == base + image
    ensures !Absolute(image) && !StartsWith(image, "/") ==> url == base + "/" + image
  {
    if Absolute(image) then image
    else base + (if StartsWith(image, "/") then "" else "/") + image
  }

  /** With an absolute base, resolving twice is resolving once. */
  lemma ResolveImageIdempotent(base: string, image: string)
    requires Absolute(base)
    ensures ResolveImage(base, ResolveImage(base, image)) == ResolveImage(base, image)
  {
    var url := ResolveImage(base, image);
    if !Absolute(image) {
      var b := base + (if StartsWith(image, "/") then "" else "/");
      assert url == b + image;
      if StartsWith(base, "http://") {
        assert url[..7] == base[..7];
      } else {
        assert url[..8] == base[..8];
      }
    }
  }

  /** For a path starting with `/`, the grid and the product page show the same address. */
  lemma AgreesWithDetailOnRootedPaths(base: string, image: string)
    requires StartsWith(image, "/")
    ensures ResolveImage(base, image) == ProductDetail.DetailImageUrl(base, image)
  {
    assert !Absolute(image) by {
      assert image[0] == '/';
    }
  }

  /**
   * For a relative path they differ: the grid puts the base and a `/` in front, the product page
   * uses the path as it is.
   */
  lemma DiffersFromDetailOnRelativePaths(base: string, image: string)
    requires !Absolute(image) && !StartsWith(image, "/")
    ensures ResolveImage(base, image) == base + "/" + image
    ensures ProductDetail.DetailImageUrl(base, image) == image
    ensures ResolveImage(base, image) != ProductDetail.DetailImageUrl(base, image)
  {
    assert |base + "/" + image| > |image|;
  }

  // ---------------------------------------------------------------- add to cart

  /** The item a card hands to the cart: never a variant. */
  function AddToCartPayload(p: Product): (item: CartItem)
    ensures item.variant.None?
    ensures item.id == p.id && item.name == p.name && item.price == p.price
    ensures item.image == p.image && item.category == p.category
  {
    CartItem(p.id, p.name, p.price, p.image, p.category, None)
  }

  /** It is the item the product page hands over when no variant is chosen. */
  lemma SameAsDetailWithoutVariant(p: Product)
    ensures AddToCartPayload(p) == ProductDetail.AddToCartPayload(p, [])
  {
  }

  // ---------------------------------------------------------------- loading

  const LoadFallback := "Failed to load products. Please check your connection."

  /** The grid's state once a load has finished, and the message of the toast it raised, if any. */
  datatype Loaded = Loaded(products: seq<Product>, loading: bool, toast: Option<string>)

  /**
   * The end of `loadProducts`: the products on success; on any failure an empty list and a toast
   * with the error's message, or the fallback text when the message is empty. Loading is over
   * either way.
   */
  function LoadProducts(result: Result<seq<Product>, JsError>): (st: Loaded)
    ensures !st.loading
    ensures result.Ok? ==> st.products == result.value && st.toast.None?
    ensures result.Err? ==> st.products == [] && st.toast.Some? && st.toast.value != ""
    ensures result.Err? && result.error.message != "" ==> st.toast == Some(result.error.message)
  {
    match result
    case Ok(products) => Loaded(products, false, None)
    case Err(e) => Loaded([], false, Some(if e.message != "" then e.message else LoadFallback))
  }

  datatype View = Spinner | NoProducts(message: string) | Grid(cards: seq<Product>)

  const NoProductsMessage := "No products added yet."

  /** What the component renders: the spinner while loading, the empty notice for no products, else the cards. */
  function Render(st: Loaded): (v: View)
    ensures st.loading <==> v == Spinner
    ensures v.Grid? ==> v.cards == st.products && st.products != []
    ensures !st.loading && st.products != [] ==> v == Grid(st.products)
    ensures !st.loading && st.products == [] ==> v == NoProducts(NoProductsMessage)
  {
    if st.loading then Spinner
    else if st.products == [] then NoProducts(NoProductsMessage)
    else Grid(st.products)
  }

  /** A failed load does not throw: it shows the same notice as an empty category. */
  lemma FailedLoadShowsNoProducts(e: JsError)
    ensures Render(LoadProducts(Err(e))) == NoProducts(NoProductsMessage)
    ensures Render(LoadProducts(Err(e))) == Render(LoadProducts(Ok([])))
  {
  }
}

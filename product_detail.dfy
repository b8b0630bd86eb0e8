/**
 * The product page (`src/pages/ProductDetail.tsx`): the variant choice and the text it turns into,
 * the quantity buttons, the item handed to the cart, the breadcrumb's category tables, the related
 * products and the image addresses.
 */
module ProductDetail {
  import opened Wrappers
  import opened Text
  import opened Dict
  import opened Schemas
  import opened Api
  import opened Cart

  // ---------------------------------------------------------------- variants

  /** `selectedVariants`: variant name to chosen option, in the order the names were first chosen. */
  type Selection = Entries<string>

  /** An option button: `{ ...prev, [name]: option }`. */
  function SelectVariant(sel: Selection, name: string, option: string): (r: Selection)
    ensures Keys(r) == if HasKey(sel, name) then Keys(sel) else Keys(sel) + [name]
  {
    Put(sel, name, option)
  }

  /** Choosing an option sets that variant's entry and leaves every other variant's entry as it was. */
  lemma SelectOverwritesOnlyThatVariant(sel: Selection, name: string, option: string, other: string)
    ensures Lookup(SelectVariant(sel, name, option), name) == Some(option)
    ensures other != name ==> Lookup(SelectVariant(sel, name, option), other) == Lookup(sel, other)
  {
    PutLookupSame(sel, name, option);
    if other != name {
      PutLookupOther(sel, name, option, other);
    }
  }

  /** Each entry as `key: value`, in selection order. */
  function EntryTexts(sel: Selection): (texts: seq<string>)
    ensures |texts| == |sel|
    ensures forall i :: 0 <= i < |sel| ==> texts[i] == sel[i].0 + ": " + sel[i].1
  {
    if sel == [] then [] else [sel[0].0 + ": " + sel[0].1] + EntryTexts(sel[1..])
  }

  /** The variant text of `handleAddToCart`: the entries as `key: value`, joined by `, `. */
  function VariantString(sel: Selection): (s: string)
    ensures s == "" <==> sel == []
    ensures |sel| == 1 ==> s == sel[0].0 + ": " + sel[0].1
  {
    var texts := EntryTexts(sel);
    assert texts != [] ==> |Join(texts, ", ")| >= |texts[0]| >= 2;
    Join(texts, ", ")
  }

  /** `variantString || undefined`: no variant exactly when nothing was selected. */
  function VariantOf(sel: Selection): (v: Option<string>)
    ensures v.None? <==> sel == []
    ensures |sel| == 1 ==> v == Some(sel[0].0 + ": " + sel[0].1)
    ensures v.Some? ==> v.value == VariantString(sel)
  {
    var texts := EntryTexts(sel);
    assert texts != [] ==> |Join(texts, ", ")| >= |texts[0]| >= 2;
    var s := VariantString(sel);
    if s == "" then None else Some(s)
  }

  /** Two selected variants read back as both entries, first-chosen first. */
  lemma TwoVariantsText(k1: string, v1: string, k2: string, v2: string)
    ensures VariantOf([(k1, v1), (k2, v2)]) == Some(k1 + ": " + v1 + ", " + k2 + ": " + v2)
  {
    var sel := [(k1, v1), (k2, v2)];
    var texts := EntryTexts(sel);
    assert texts == [k1 + ": " + v1, k2 + ": " + v2];
    assert |texts| == 2;
    assert Join(texts[1..], ", ") == texts[1];
    assert Join(texts, ", ") == texts[0] + ", " + Join(texts[1..], ", ");
    assert VariantOf(sel) == Some(VariantString(sel));
    assert (k1 + ": " + v1) + ", " + (k2 + ": " + v2) == k1 + ": " + v1 + ", " + k2 + ": " + v2;
  }

  // ---------------------------------------------------------------- quantity

  datatype QuantityStep = Decrease | Increase

  /** The minus button: `Math.max(1, q - 1)`. */
  function Decrement(q: int): (r: int)
    ensures r >= 1
    ensures q >= 2 ==> r == q - 1
    ensures q <= 2 ==> r == 1
  {
    if q - 1 >= 1 then q - 1 else 1
  }

  /** One press of either button. */
  function Press(q: int, step: QuantityStep): int {
    match step
    case Decrease => Decrement(q)
    case Increase => q + 1
  }

  /** The quantity after a run of presses. */
  function Presses(q: int, steps: seq<QuantityStep>): int
    decreases |steps|
  {
    if steps == [] then q else Presses(Press(q, steps[0]), steps[1..])
  }

  /** From the initial quantity 1, no run of presses takes the quantity below 1. */
  lemma {:induction false} QuantityStaysPositive(q: int, steps: seq<QuantityStep>)
    requires q >= 1
    ensures Presses(q, steps) >= 1
    decreases |steps|
  {
    if steps != [] {
      QuantityStaysPositive(Press(q, steps[0]), steps[1..]);
    }
  }

  /** Each plus press adds exactly one. */
  lemma {:induction false} IncreasesCount(q: int, steps: seq<QuantityStep>)
    requires forall i :: 0 <= i < |steps| ==> steps[i] == Increase
    ensures Presses(q, steps) == q + |steps|
    decreases |steps|
  {
    if steps != [] {
      IncreasesCount(q + 1, steps[1..]);
    }
  }

  // ---------------------------------------------------------------- add to cart

  /** The item `handleAddToCart` hands to the cart; the page's quantity is not part of it. */
  function AddToCartPayload(p: Product, sel: Selection): (item: CartItem)
    ensures item.id == p.id && item.name == p.name && item.price == p.price
    ensures item.image == p.image && item.category == p.category
    ensures item.variant.None? <==> sel == []
  {
    CartItem(p.id, p.name, p.price, p.image, p.category, VariantOf(sel))
  }

  // ---------------------------------------------------------------- breadcrumb

  /** `getCategoryPath`: a category's own page, or the home page for anything else. */
  function CategoryPath(category: string): (path: string)
    ensures ParseCategory(category).Some? ==> path == "/" + category
    ensures ParseCategory(category).None? ==> path == "/"
  {
    if category == "shawls" then "/shawls"
    else if category == "pherans" then "/pherans"
    else if category == "handbags" then "/handbags"
    else if category == "dry-fruits" then "/dry-fruits"
    else if category == "gift-hampers" then "/gift-hampers"
    else "/"
  }

  /** The display name of each category. */
  function DisplayName(c: Category): (name: string)
    ensures name != "" && name != CategoryValue(c)
  {
    match c
    case Shawls => "Shawls"
    case Pherans => "Pherans"
    case Handbags => "Handbags"
    case DryFruits => "Dry Fruits"
    case GiftHampers => "Gift Hampers"
  }

  /** `getCategoryName`: a category's display name; any other text is shown unchanged. */
  function CategoryName(category: string): (name: string)
    ensures ParseCategory(category).Some? ==> name == DisplayName(ParseCategory(category).value)
    ensures ParseCategory(category).None? ==> name == category
  {
    if category == "shawls" then "Shawls"
    else if category == "pherans" then "Pherans"
    else if category == "handbags" then "Handbags"
    else if category == "dry-fruits" then "Dry Fruits"
    else if category == "gift-hampers" then "Gift Hampers"
    else category
  }

  /**
   * A product's breadcrumb always links to its category page (never the home-page fallback) and
   * always shows a display name other than the raw value.
   */
  lemma BreadcrumbOfProduct(p: Product)
    ensures CategoryPath(CategoryValue(p.category)) == "/" + CategoryValue(p.category) != "/"
    ensures CategoryName(CategoryValue(p.category)) == DisplayName(p.category) != CategoryValue(p.category)
  {
    CategoryRoundTrip(p.category);
  }

  // ---------------------------------------------------------------- related products

  /** `a` is `b` with some elements left out, the rest kept in order. */
  predicate IsSubsequence<T(==)>(a: seq<T>, b: seq<T>)
    decreases |b|
  {
    if a == [] then true
    else if b == [] then false
    else (a[0] == b[0] && IsSubsequence(a[1..], b[1..])) || IsSubsequence(a, b[1..])
  }

  /** `filter(p => p.id !== id)`. */
  function Others(all: seq<Product>, id: string): (r: seq<Product>)
    ensures forall p :: p in r <==> p in all && p.id != id
    ensures |r| <= |all|
  {
    if all == [] then []
    else if all[0].id != id then [all[0]] + Others(all[1..], id)
    else Others(all[1..], id)
  }

  /** The related products: the category's products other than this one, the first four of them. */
  function RelatedProducts(all: seq<Product>, current: Product): (r: seq<Product>)
    ensures |r| == if |Others(all, current.id)| < 4 then |Others(all, current.id)| else 4
    ensures forall p :: p in r ==> p in all && p.id != current.id
    ensures r == Others(all, current.id)[..|r|]
  {
    var others := Others(all, current.id);
    var r := if |others| < 4 then others else others[..4];
    assert forall p :: p in r ==> p in others;
    r
  }

  /** The filter keeps the survivors in their original order. */
  lemma {:induction false} OthersKeepsOrder(all: seq<Product>, id: string)
    ensures IsSubsequence(Others(all, id), all)
    decreases |all|
  {
    if all != [] {
      OthersKeepsOrder(all[1..], id);
    }
  }

  /** A prefix of a subsequence is a subsequence. */
  lemma {:induction false} PrefixKeepsSubsequence(a: seq<Product>, b: seq<Product>, k: nat)
    requires IsSubsequence(a, b) && k <= |a|
    ensures IsSubsequence(a[..k], b)
    decreases |b|
  {
    if k > 0 {
      assert b != [];
      if a[0] == b[0] && IsSubsequence(a[1..], b[1..]) {
        PrefixKeepsSubsequence(a[1..], b[1..], k - 1);
        assert a[..k][1..] == a[1..][..k - 1];
      } else {
        PrefixKeepsSubsequence(a, b[1..], k);
      }
    }
  }

  /** The related products appear in the order the category listing gave them. */
  lemma RelatedKeepsOrder(all: seq<Product>, current: Product)
    ensures IsSubsequence(RelatedProducts(all, current), all)
  {
    var others := Others(all, current.id);
    OthersKeepsOrder(all, current.id);
    PrefixKeepsSubsequence(others, all, |RelatedProducts(all, current)|);
  }

  // ---------------------------------------------------------------- images

  /**
   * The main image and the thumbnails: a path starting with `/` (the `/uploads` test is subsumed by
   * it) is put after the asset base; any other text is used as it is.
   */
  function DetailImageUrl(base: string, image: string): (url: string)
    ensures StartsWith(image, "/") ==> url == base + image
    ensures !StartsWith(image, "/") ==> url == image
  {
    if StartsWith(image, "/uploads") || StartsWith(image, "/") then base + image else image
  }

  /** Resolving an already resolved address changes nothing, as long as the base is not itself a path. */
  lemma DetailImageUrlIdempotent(base: string, image: string)
    requires !StartsWith(base, "/")
    ensures DetailImageUrl(base, DetailImageUrl(base, image)) == DetailImageUrl(base, image)
  {
    if StartsWith(image, "/") && base != [] {
      assert (base + image)[0] == base[0];
    }
  }

  /** The thumbnails: at most the first four images, each resolved like the main image. */
  function Thumbnails(base: string, images: seq<string>): (urls: seq<string>)
    ensures |urls| == if |images| < 4 then |images| else 4
    ensures forall i :: 0 <= i < |urls| ==> urls[i] == DetailImageUrl(base, images[i])
  {
    var n := if |images| < 4 then |images| else 4;
    seq(n, i requires 0 <= i < n => DetailImageUrl(base, images[i]))
  }
}

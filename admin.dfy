/**
 * The admin page (`src/pages/Admin.tsx`): the product editor's state, the mapping of a product
 * into the form when it is opened for editing, the reset to an empty form, the removal of a picked
 * image, and the multipart body the save button builds, which differs between creating and
 * updating. A stored product keeps what the update does not mention, so the update sends every
 * clearable field; the create leaves blank optional fields out.
 */
module Admin {
  import opened Wrappers
  import opened Text
  import opened Json
  import Schemas
  import opened Api

  // ---------------------------------------------------------------- editor state

  /** The product form: every input as typed text, except the stock switch. */
  datatype ProductForm = ProductForm(
    name: string,
    description: string,
    price: string,
    originalPrice: string,
    category: string,
    inStock: bool,
    rating: string,
    reviews: string,
    artisanStory: string,
    variants: string,
    details: string)

  /**
   * The editor: the form, the picked main image and additional images (by file name), their
   * previews, and the product being edited, if any.
   */
  datatype Editor = Editor(
    form: ProductForm,
    mainImage: Option<string>,
    additionalImages: seq<string>,
    imagePreview: string,
    additionalPreviews: seq<string>,
    editing: Option<Product>)

  /** The editor as the page first renders it. */
  const InitialEditor := Editor(
    ProductForm("", "", "", "", "", true, "0", "0", "", "", ""), None, [], "", [], None)

  /** `resetForm`: an empty form, no files, no previews, nothing being edited. */
  function ResetForm(e: Editor): (r: Editor)
    ensures r.mainImage.None? && r.additionalImages == [] && r.editing.None?
    ensures r.imagePreview == "" && r.additionalPreviews == []
  {
    Editor(ProductForm("", "", "", "", "", true, "0", "0", "", "", ""), None, [], "", [], None)
  }

  /** Resetting restores exactly the state the page starts in, whatever was there before. */
  lemma ResetRestoresInitialState(e: Editor)
    ensures ResetForm(e) == InitialEditor
  {
  }

  /** The variants list as `JSON.stringify` sees it. */
  function VariantsJson(vs: seq<Variant>): (j: Json)
    ensures j.JArr? && |j.items| == |vs|
  {
    JArr(seq(|vs|, i requires 0 <= i < |vs| =>
      JObj([("name", JStr(vs[i].name)), ("options", JArr(seq(|vs[i].options|, k requires 0 <= k < |vs[i].options| => JStr(vs[i].options[k]))))])))
  }

  /**
   * `openEditDialog`: the product's fields as text (`numText` is JavaScript's number-to-string,
   * `pretty` is `JSON.stringify(_, null, 2)`), a missing optional field as the empty text; the
   * previews are the stored main image and the other stored images. Picked files stay as they were.
   */
  function OpenEditDialog(e: Editor, p: Product, numText: real -> string, pretty: Json -> string): (r: Editor)
    ensures r.editing == Some(p) && r.imagePreview == p.image
    ensures r.additionalPreviews == if p.images == [] then [] else p.images[1..]
    ensures r.mainImage == e.mainImage && r.additionalImages == e.additionalImages
    ensures r.form.name == p.name && r.form.description == p.description && r.form.inStock == p.inStock
    ensures r.form.category == Schemas.CategoryValue(p.category) && r.form.reviews == IntToString(p.reviews)
    ensures p.originalPrice.None? ==> r.form.originalPrice == ""
    ensures p.artisanStory.None? ==> r.form.artisanStory == ""
    ensures p.artisanStory.Some? ==> r.form.artisanStory == p.artisanStory.value
    ensures p.variants.None? ==> r.form.variants == ""
    ensures p.details.None? ==> r.form.details == ""
    ensures r.form.price == numText(p.price) && r.form.rating == numText(p.rating)
    ensures p.originalPrice.Some? ==> r.form.originalPrice == numText(p.originalPrice.value)
    ensures p.variants.Some? ==> r.form.variants == pretty(VariantsJson(p.variants.value))
    ensures p.details.Some? ==> r.form.details == pretty(JObj(p.details.value))
  {
    var form := ProductForm(
      p.name,
      p.description,
      numText(p.price),
      if p.originalPrice.Some? && numText(p.originalPrice.value) != "" then numText(p.originalPrice.value) else "",
      Schemas.CategoryValue(p.category),
      p.inStock,
      numText(p.rating),
      IntToString(p.reviews),
      if p.artisanStory.Some? then p.artisanStory.value else "",
      if p.variants.Some? then pretty(VariantsJson(p.variants.value)) else "",
      if p.details.Some? then pretty(JObj(p.details.value)) else "");
    e.(form := form, imagePreview := p.image, additionalPreviews := if p.images == [] then [] else p.images[1..],
       editing := Some(p))
  }

  // ---------------------------------------------------------------- the multipart body

  /** The parts the save button can send. */
  datatype PartName = Name | Description | Price | OriginalPrice | Category | InStock | Rating | Reviews
    | ArtisanStory | Variants | Details | Image | AdditionalImages

  /** Each part's name on the wire, as the backend's form parameters are called. */
  function Wire(n: PartName): string {
    match n
    case Name => "name"
    case Description => "description"
    case Price => "price"
    case OriginalPrice => "original_price"
    case Category => "category"
    case InStock => "in_stock"
    case Rating => "rating"
    case Reviews => "reviews"
    case ArtisanStory => "artisan_story"
    case Variants => "variants"
    case Details => "details"
    case Image => "image"
    case AdditionalImages => "additional_images"
  }

  /** The part a wire name stands for, if any. */
  function PartOf(key: string): (n: Option<PartName>)
    ensures n.Some? ==> Wire(n.value) == key
  {
    if key == "name" then Some(Name)
    else if key == "description" then Some(Description)
    else if key == "price" then Some(Price)
    else if key == "original_price" then Some(OriginalPrice)
    else if key == "category" then Some(Category)
    else if key == "in_stock" then Some(InStock)
    else if key == "rating" then Some(Rating)
    else if key == "reviews" then Some(Reviews)
    else if key == "artisan_story" then Some(ArtisanStory)
    else if key == "variants" then Some(Variants)
    else if key == "details" then Some(Details)
    else if key == "image" then Some(Image)
    else if key == "additional_images" then Some(AdditionalImages)
    else None
  }

  /** Every part has a wire name of its own: reading the name back gives the part. */
  lemma WireRoundTrip(n: PartName)
    ensures PartOf(Wire(n)) == Some(n)
  {
  }

  lemma WireInjective(a: PartName, b: PartName)
    ensures Wire(a) == Wire(b) ==> a == b
  {
    WireRoundTrip(a);
    WireRoundTrip(b);
  }

  /** Where each part is appended: the text parts in the order the handler appends them, then the files. */
  function Pos(n: PartName): nat {
    match n
    case Name => 0
    case Description => 1
    case Price => 2
    case OriginalPrice => 3
    case Category => 4
    case InStock => 5
    case Rating => 6
    case Reviews => 7
    case ArtisanStory => 8
    case Variants => 9
    case Details => 10
    case Image => 11
    case AdditionalImages => 12
  }

  lemma PosInjective(a: PartName, b: PartName)
    ensures Pos(a) == Pos(b) ==> a == b
  {
  }

  /** `value || "0"`. */
  function OrZero(value: string): string {
    if value == "" then "0" else value
  }

  function StockText(inStock: bool): string {
    if inStock then "true" else "false"
  }

  /** `value && value.trim()`: the text has something other than whitespace. */
  predicate Filled(value: string) {
    JsTrim(value) != ""
  }

  /** One `append` of the handler: the text `value` under `name`, made only when `when` holds. */
  datatype TextPart = TextPart(when: bool, name: PartName, value: string)

  /** The text fields in the order the handler appends them; the files follow them. */
  const TextOrder: seq<PartName> := [Name, Description, Price, OriginalPrice, Category, InStock, Rating, Reviews,
    ArtisanStory, Variants, Details]

  /**
   * The append an update makes for each field: every field, always; an original price that is
   * blank after trimming is sent as the empty text. The files are not text appends.
   */
  function UpdatePart(f: ProductForm, n: PartName): (p: TextPart)
    ensures p.name == n
  {
    match n
    case Name => TextPart(true, Name, f.name)
    case Description => TextPart(true, Description, f.description)
    case Price => TextPart(true, Price, f.price)
    case OriginalPrice => TextPart(true, OriginalPrice, if Filled(f.originalPrice) then f.originalPrice else "")
    case Category => TextPart(true, Category, f.category)
    case InStock => TextPart(true, InStock, StockText(f.inStock))
    case Rating => TextPart(true, Rating, OrZero(f.rating))
    case Reviews => TextPart(true, Reviews, OrZero(f.reviews))
    case ArtisanStory => TextPart(true, ArtisanStory, f.artisanStory)
    case Variants => TextPart(true, Variants, f.variants)
    case Details => TextPart(true, Details, f.details)
    case Image => TextPart(false, Image, "")
    case AdditionalImages => TextPart(false, AdditionalImages, "")
  }

  /**
   * The append a create makes for each field: the original price only when filled in after
   * trimming, the artisan story only when not empty (untrimmed), variants and details only when
   * filled in after trimming; the other fields always.
   */
  function CreatePart(f: ProductForm, n: PartName): (p: TextPart)
    ensures p.name == n
  {
    match n
    case Name => TextPart(true, Name, f.name)
    case Description => TextPart(true, Description, f.description)
    case Price => TextPart(true, Price, f.price)
    case OriginalPrice => TextPart(Filled(f.originalPrice), OriginalPrice, f.originalPrice)
    case Category => TextPart(true, Category, f.category)
    case InStock => TextPart(true, InStock, StockText(f.inStock))
    case Rating => TextPart(true, Rating, OrZero(f.rating))
    case Reviews => TextPart(true, Reviews, OrZero(f.reviews))
    case ArtisanStory => TextPart(f.artisanStory != "", ArtisanStory, f.artisanStory)
    case Variants => TextPart(Filled(f.variants), Variants, f.variants)
    case Details => TextPart(Filled(f.details), Details, f.details)
    case Image => TextPart(false, Image, "")
    case AdditionalImages => TextPart(false, AdditionalImages, "")
  }

  /** The appends of the path taken, in order: an update when a product is being edited, else a create. */
  function TextParts(f: ProductForm, editing: bool): (parts: seq<TextPart>)
    ensures |parts| == |TextOrder|
  {
    seq(|TextOrder|, i requires 0 <= i < |TextOrder| => if editing then UpdatePart(f, TextOrder[i]) else CreatePart(f, TextOrder[i]))
  }

  /** Each text part stands at its own position. */
  predicate InOrder(parts: seq<TextPart>) {
    forall i :: 0 <= i < |parts| ==> Pos(parts[i].name) == i
  }

  lemma PartsInOrder(f: ProductForm, editing: bool)
    ensures InOrder(TextParts(f, editing))
  {
    assert forall i :: 0 <= i < |TextOrder| ==> Pos(TextOrder[i]) == i;
  }

  /** Each text field's place in the order holds that field. */
  lemma OrderAt(m: PartName)
    requires m != Image && m != AdditionalImages
    ensures Pos(m) < |TextOrder| && TextOrder[Pos(m)] == m
  {
  }

  /** What the path taken delivers to a text field: the text of that field's own append, when it is made. */
  lemma DeliveredPart(f: ProductForm, editing: bool, m: PartName)
    requires m != Image && m != AdditionalImages
    ensures var p := if editing then UpdatePart(f, m) else CreatePart(f, m);
      Delivered(TextParts(f, editing), m) == if p.when then [p.value] else []
  {
    OrderAt(m);
  }

  /** The form entries one append adds. */
  function Append(p: TextPart): FormData {
    if p.when then [(Wire(p.name), Field(p.value))] else []
  }

  /** The form entries a run of appends builds, the first append first. */
  function Render(parts: seq<TextPart>): FormData
    decreases |parts|
  {
    if parts == [] then [] else Render(parts[..|parts| - 1]) + Append(parts[|parts| - 1])
  }

  /** Each additional image as an `additional_images` part, in order. */
  function AttachAll(files: seq<string>): (fd: FormData)
    ensures |fd| == |files|
    ensures forall i :: 0 <= i < |files| ==> fd[i] == (Wire(AdditionalImages), Attached(files[i]))
  {
    seq(|files|, i requires 0 <= i < |files| => (Wire(AdditionalImages), Attached(files[i])))
  }

  /** The main image part, when a file was picked. */
  function MainImagePart(mainImage: Option<string>): FormData {
    if mainImage.Some? then [(Wire(Image), Attached(mainImage.value))] else []
  }

  /** A body: the text appends, the main image if one was picked, then the additional images. */
  function Body(parts: seq<TextPart>, mainImage: Option<string>, additionalImages: seq<string>): FormData {
    Render(parts) + MainImagePart(mainImage) + AttachAll(additionalImages)
  }

  /** `handleSubmit`'s body for the editor's form and files. */
  function ProductFormData(f: ProductForm, editing: bool, mainImage: Option<string>, additionalImages: seq<string>): FormData {
    Body(TextParts(f, editing), mainImage, additionalImages)
  }

  /** The text appends in turn, each made only when its condition holds. */
  method AppendTexts(parts: seq<TextPart>) returns (fd: FormData)
    ensures fd == Render(parts)
  {
    fd := [];
    for i := 0 to |parts|
      invariant fd == Render(parts[..i])
    {
      assert parts[..i + 1][..i] == parts[..i];
      if parts[i].when {
        fd := fd + [(Wire(parts[i].name), Field(parts[i].value))];
      }
    }
    assert parts[..|parts|] == parts;
  }

  /**
   * `handleSubmit`'s body, built append by append: the text parts of the path taken, then the main
   * image when one was picked, then each additional image in turn.
   */
  /** The loop over the additional images: each picked file appended in turn. */
  method AppendFiles(start: FormData, files: seq<string>) returns (fd: FormData)
    ensures fd == start + AttachAll(files)
  {
    fd := start;
    for i := 0 to |files|
      invariant fd == start + AttachAll(files[..i])
    {
      assert AttachAll(files[..i + 1]) == AttachAll(files[..i]) + [(Wire(AdditionalImages), Attached(files[i]))];
      fd := fd + [(Wire(AdditionalImages), Attached(files[i]))];
    }
    assert files[..|files|] == files;
  }

  method BuildFormData(f: ProductForm, editing: bool, mainImage: Option<string>, additionalImages: seq<string>)
    returns (fd: FormData)
    ensures fd == ProductFormData(f, editing, mainImage, additionalImages)
  {
    var parts := TextParts(f, editing);
    fd := AppendTexts(parts);
    if mainImage.Some? {
      fd := fd + [(Wire(Image), Attached(mainImage.value))];
    }
    fd := AppendFiles(fd, additionalImages);
  }

  // ---------------------------------------------------------------- what the backend receives

  /** The texts sent under `key`, in order. */
  function TextsUnder(fd: FormData, key: string): seq<string> {
    if fd == [] then []
    else (if fd[0].0 == key && fd[0].1.Field? then [fd[0].1.text] else []) + TextsUnder(fd[1..], key)
  }

  /** The files sent under `key`, in order. */
  function FilesUnder(fd: FormData, key: string): seq<string> {
    if fd == [] then []
    else (if fd[0].0 == key && fd[0].1.Attached? then [fd[0].1.filename] else []) + FilesUnder(fd[1..], key)
  }

  lemma {:induction false} UnderConcat(a: FormData, b: FormData, key: string)
    ensures TextsUnder(a + b, key) == TextsUnder(a, key) + TextsUnder(b, key)
    ensures FilesUnder(a + b, key) == FilesUnder(a, key) + FilesUnder(b, key)
  {
    if a != [] {
      assert (a + b)[0] == a[0];
      assert (a + b)[1..] == a[1..] + b;
      UnderConcat(a[1..], b, key);
      var t := if a[0].0 == key && a[0].1.Field? then [a[0].1.text] else [];
      assert t + (TextsUnder(a[1..], key) + TextsUnder(b, key)) == (t + TextsUnder(a[1..], key)) + TextsUnder(b, key);
      var u := if a[0].0 == key && a[0].1.Attached? then [a[0].1.filename] else [];
      assert u + (FilesUnder(a[1..], key) + FilesUnder(b, key)) == (u + FilesUnder(a[1..], key)) + FilesUnder(b, key);
    } else {
      assert a + b == b;
    }
  }

  /** What one append delivers under a name: its text when it is made under that name, and never a file. */
  lemma AppendUnder(p: TextPart, key: string)
    ensures TextsUnder(Append(p), key) == if p.when && Wire(p.name) == key then [p.value] else []
    ensures FilesUnder(Append(p), key) == []
  {
    if p.when {
      assert Append(p)[1..] == [];
    }
  }

  /** The same, under a part's own name: its text reaches the part it is made for, and no other. */
  lemma AppendUnderPart(p: TextPart, m: PartName)
    ensures TextsUnder(Append(p), Wire(m)) == if p.when && p.name == m then [p.value] else []
    ensures FilesUnder(Append(p), Wire(m)) == []
  {
    AppendUnder(p, Wire(m));
    WireInjective(p.name, m);
  }

  /** The text the part named `m` receives from a run of appends in order: its own append's text, if made. */
  function Delivered(parts: seq<TextPart>, m: PartName): seq<string> {
    if Pos(m) < |parts| && parts[Pos(m)].when then [parts[Pos(m)].value] else []
  }

  /** A run of appends in order delivers to each part exactly its own text, and no file. */
  lemma {:induction false} RenderUnder(parts: seq<TextPart>, m: PartName)
    requires InOrder(parts)
    ensures TextsUnder(Render(parts), Wire(m)) == Delivered(parts, m)
    decreases |parts|
  {
    if parts != [] {
      var init := parts[..|parts| - 1];
      var last := parts[|parts| - 1];
      assert InOrder(init) by {
        forall i | 0 <= i < |init| ensures Pos(init[i].name) == i {
          assert init[i] == parts[i];
        }
      }
      RenderUnder(init, m);
      assert Render(parts) == Render(init) + Append(last);
      UnderConcat(Render(init), Append(last), Wire(m));
      AppendUnderPart(last, m);
      PosInjective(last.name, m);
      var before := Delivered(init, m);
      var now := TextsUnder(Append(last), Wire(m));
      assert TextsUnder(Render(parts), Wire(m)) == before + now;
      if Pos(m) < |init| {
        assert init[Pos(m)] == parts[Pos(m)];
        assert before == Delivered(parts, m) && now == [];
      } else if Pos(m) == |init| {
        assert before == [] && now == Delivered(parts, m);
      } else {
        assert before == [] && now == [] && Delivered(parts, m) == [];
      }
    }
  }

  /** A run of appends carries no file. */
  lemma {:induction false} RenderCarriesNoFiles(parts: seq<TextPart>, key: string)
    ensures FilesUnder(Render(parts), key) == []
    decreases |parts|
  {
    if parts != [] {
      var last := parts[|parts| - 1];
      RenderCarriesNoFiles(parts[..|parts| - 1], key);
      UnderConcat(Render(parts[..|parts| - 1]), Append(last), key);
      AppendUnder(last, key);
    }
  }

  /** Nothing at all is sent under a name that is not one of the parts'. */
  lemma {:induction false} RenderUnderOther(parts: seq<TextPart>, key: string)
    requires PartOf(key).None?
    ensures TextsUnder(Render(parts), key) == [] && FilesUnder(Render(parts), key) == []
    decreases |parts|
  {
    if parts != [] {
      var last := parts[|parts| - 1];
      RenderUnderOther(parts[..|parts| - 1], key);
      UnderConcat(Render(parts[..|parts| - 1]), Append(last), key);
      AppendUnder(last, key);
      WireRoundTrip(last.name);
    }
  }

  /** The attached images come back, in order, under `additional_images` and under no other name. */
  lemma {:induction false} AttachAllUnder(files: seq<string>, key: string)
    ensures FilesUnder(AttachAll(files), key) == if key == Wire(AdditionalImages) then files else []
    ensures TextsUnder(AttachAll(files), key) == []
  {
    if files != [] {
      assert AttachAll(files)[1..] == AttachAll(files[1..]);
      AttachAllUnder(files[1..], key);
    }
  }

  /** The picked main image comes back under `image` and under no other name, and carries no text. */
  lemma MainImageUnder(mainImage: Option<string>, key: string)
    ensures FilesUnder(MainImagePart(mainImage), key) == if mainImage.Some? && key == Wire(Image) then [mainImage.value] else []
    ensures TextsUnder(MainImagePart(mainImage), key) == []
  {
    if mainImage.Some? {
      assert MainImagePart(mainImage)[1..] == [];
    }
  }

  /** The three segments of a body, seen under one name. */
  lemma BodyUnder(parts: seq<TextPart>, mainImage: Option<string>, additionalImages: seq<string>, key: string)
    ensures TextsUnder(Body(parts, mainImage, additionalImages), key) == TextsUnder(Render(parts), key)
    ensures FilesUnder(Body(parts, mainImage, additionalImages), key)
      == FilesUnder(Render(parts), key)
      + (if mainImage.Some? && key == Wire(Image) then [mainImage.value] else [])
      + (if key == Wire(AdditionalImages) then additionalImages else [])
  {
    UnderConcat(Render(parts), MainImagePart(mainImage), key);
    UnderConcat(Render(parts) + MainImagePart(mainImage), AttachAll(additionalImages), key);
    MainImageUnder(mainImage, key);
    AttachAllUnder(additionalImages, key);
  }

  /** In any body whose text parts are in order, each part receives the text of its own append and nothing else. */
  lemma BodyDelivers(parts: seq<TextPart>, mainImage: Option<string>, additionalImages: seq<string>, m: PartName)
    requires InOrder(parts)
    ensures TextsUnder(Body(parts, mainImage, additionalImages), Wire(m)) == Delivered(parts, m)
  {
    BodyUnder(parts, mainImage, additionalImages, Wire(m));
    RenderUnder(parts, m);
  }

  /**
   * Each text part's value arrives under its own name, once, exactly when its append is made;
   * the files carry no text.
   */
  lemma BodyTexts(f: ProductForm, editing: bool, mainImage: Option<string>, additionalImages: seq<string>, m: PartName)
    ensures TextsUnder(ProductFormData(f, editing, mainImage, additionalImages), Wire(m)) == Delivered(TextParts(f, editing), m)
  {
    PartsInOrder(f, editing);
    BodyDelivers(TextParts(f, editing), mainImage, additionalImages, m);
  }

  /** In any body, the files come back as picked. */
  lemma BodyFiles(parts: seq<TextPart>, mainImage: Option<string>, additionalImages: seq<string>)
    ensures FilesUnder(Body(parts, mainImage, additionalImages), Wire(Image)) == if mainImage.Some? then [mainImage.value] else []
    ensures FilesUnder(Body(parts, mainImage, additionalImages), Wire(AdditionalImages)) == additionalImages
  {
    BodyUnder(parts, mainImage, additionalImages, Wire(Image));
    BodyUnder(parts, mainImage, additionalImages, Wire(AdditionalImages));
    RenderCarriesNoFiles(parts, Wire(Image));
    RenderCarriesNoFiles(parts, Wire(AdditionalImages));
    WireInjective(Image, AdditionalImages);
    var main := if mainImage.Some? then [mainImage.value] else [];
    assert [] + main + [] == main;
    assert [] + [] + additionalImages == additionalImages;
  }

  /**
   * The main image is sent only when a file was picked, and each additional image exactly once,
   * in the order picked; this holds for a create and an update alike.
   */
  lemma FilesSent(f: ProductForm, editing: bool, mainImage: Option<string>, additionalImages: seq<string>)
    ensures FilesUnder(ProductFormData(f, editing, mainImage, additionalImages), Wire(Image)) ==
      if mainImage.Some? then [mainImage.value] else []
    ensures FilesUnder(ProductFormData(f, editing, mainImage, additionalImages), Wire(AdditionalImages)) == additionalImages
  {
    BodyFiles(TextParts(f, editing), mainImage, additionalImages);
  }

  /** No body sends anything under a name the backend does not read. */
  lemma NothingElseSent(parts: seq<TextPart>, mainImage: Option<string>, additionalImages: seq<string>, key: string)
    requires PartOf(key).None?
    ensures TextsUnder(Body(parts, mainImage, additionalImages), key) == []
    ensures FilesUnder(Body(parts, mainImage, additionalImages), key) == []
  {
    BodyUnder(parts, mainImage, additionalImages, key);
    RenderUnderOther(parts, key);
    WireRoundTrip(Image);
    WireRoundTrip(AdditionalImages);
    var none: seq<string> := [];
    assert none + none + none == none;
  }

  /** An update sends every text field exactly once, so the stored product is overwritten field by field. */
  lemma UpdateSendsEveryField(f: ProductForm, m: PartName)
    requires m != Image && m != AdditionalImages
    ensures |Delivered(TextParts(f, true), m)| == 1
  {
    DeliveredPart(f, true, m);
  }

  /** An update always sends the original price, a blank one as the empty text. */
  lemma UpdateClearsOriginalPrice(f: ProductForm)
    ensures Delivered(TextParts(f, true), OriginalPrice) == [if Filled(f.originalPrice) then f.originalPrice else ""]
  {
    DeliveredPart(f, true, OriginalPrice);
  }

  /** An update sends the story, variants and details even when they are empty. */
  lemma UpdateSendsClearableFields(f: ProductForm)
    ensures Delivered(TextParts(f, true), ArtisanStory) == [f.artisanStory]
    ensures Delivered(TextParts(f, true), Variants) == [f.variants]
    ensures Delivered(TextParts(f, true), Details) == [f.details]
  {
    DeliveredPart(f, true, ArtisanStory);
    DeliveredPart(f, true, Variants);
    DeliveredPart(f, true, Details);
  }

  /** A create leaves out an original price that is blank after trimming. */
  lemma CreateOmitsBlankOriginalPrice(f: ProductForm)
    ensures Delivered(TextParts(f, false), OriginalPrice) == if Filled(f.originalPrice) then [f.originalPrice] else []
  {
    DeliveredPart(f, false, OriginalPrice);
  }

  /** A create leaves out an empty artisan story; a story of spaces is sent. */
  lemma CreateOmitsEmptyStory(f: ProductForm)
    ensures Delivered(TextParts(f, false), ArtisanStory) == if f.artisanStory != "" then [f.artisanStory] else []
  {
    DeliveredPart(f, false, ArtisanStory);
  }

  /** A create leaves out variants that are blank after trimming. */
  lemma CreateOmitsBlankVariants(f: ProductForm)
    ensures Delivered(TextParts(f, false), Variants) == if Filled(f.variants) then [f.variants] else []
  {
    DeliveredPart(f, false, Variants);
  }

  /** A create leaves out details that are blank after trimming. */
  lemma CreateOmitsBlankDetails(f: ProductForm)
    ensures Delivered(TextParts(f, false), Details) == if Filled(f.details) then [f.details] else []
  {
    DeliveredPart(f, false, Details);
  }

  /** An update sends the name, description, price and category as typed. */
  lemma UpdateSendsRequiredFields(f: ProductForm)
    ensures Delivered(TextParts(f, true), Name) == [f.name]
    ensures Delivered(TextParts(f, true), Description) == [f.description]
    ensures Delivered(TextParts(f, true), Price) == [f.price]
    ensures Delivered(TextParts(f, true), Category) == [f.category]
  {
    DeliveredPart(f, true, Name);
    DeliveredPart(f, true, Description);
    DeliveredPart(f, true, Price);
    DeliveredPart(f, true, Category);
  }

  /** An update sends the stock flag as `true`/`false` and an empty rating or review count as `0`. */
  lemma UpdateSendsDefaults(f: ProductForm)
    ensures Delivered(TextParts(f, true), InStock) == [if f.inStock then "true" else "false"]
    ensures Delivered(TextParts(f, true), Rating) == [if f.rating == "" then "0" else f.rating]
    ensures Delivered(TextParts(f, true), Reviews) == [if f.reviews == "" then "0" else f.reviews]
  {
    DeliveredPart(f, true, InStock);
    DeliveredPart(f, true, Rating);
    DeliveredPart(f, true, Reviews);
  }

  /** A create sends those fields exactly as an update does; only the optional ones differ. */
  lemma CreateSendsRequiredFields(f: ProductForm, m: PartName)
    requires m !in {OriginalPrice, ArtisanStory, Variants, Details}
    ensures Delivered(TextParts(f, false), m) == Delivered(TextParts(f, true), m)
  {
    if m != Image && m != AdditionalImages {
      DeliveredPart(f, false, m);
      DeliveredPart(f, true, m);
    }
  }

  // ---------------------------------------------------------------- removing a picked image

  /** `splice(idx, 1)` on a copy: the element at `idx` taken out; an index past the end removes nothing. */
  function RemoveAt<T>(s: seq<T>, idx: nat): (r: seq<T>)
    ensures idx >= |s| ==> r == s
    ensures idx < |s| ==> |r| == |s| - 1
    ensures idx < |s| ==> forall i :: 0 <= i < |r| ==> r[i] == if i < idx then s[i] else s[i + 1]
  {
    if idx < |s| then s[..idx] + s[idx + 1..] else s
  }

  /**
   * A preview's remove button (shown for each preview, so `idx` is a preview's index): the preview
   * at `idx` goes, and so does the picked file at the same index when there is one.
   */
  function RemovePreview(e: Editor, idx: nat): (r: Editor)
    requires idx < |e.additionalPreviews|
    ensures |r.additionalPreviews| == |e.additionalPreviews| - 1
    ensures r.additionalPreviews == RemoveAt(e.additionalPreviews, idx)
    ensures r.additionalImages == RemoveAt(e.additionalImages, idx)
    ensures r.form == e.form && r.mainImage == e.mainImage && r.editing == e.editing && r.imagePreview == e.imagePreview
  {
    e.(additionalPreviews := RemoveAt(e.additionalPreviews, idx), additionalImages := RemoveAt(e.additionalImages, idx))
  }

  /** Each picked file has its preview at the same index. */
  predicate Paired(e: Editor) {
    |e.additionalPreviews| == |e.additionalImages|
  }

  /**
   * When every picked file has its preview, removing a preview removes its own file: the pairs that
   * remain are the others, in order.
   */
  lemma RemovalKeepsPairing(e: Editor, idx: nat)
    requires idx < |e.additionalPreviews| && Paired(e)
    ensures Paired(RemovePreview(e, idx))
    ensures var r := RemovePreview(e, idx);
      forall i :: 0 <= i < |r.additionalImages| ==>
        var j := if i < idx then i else i + 1;
        r.additionalPreviews[i] == e.additionalPreviews[j] && r.additionalImages[i] == e.additionalImages[j]
  {
  }

  /**
   * After opening a product for editing with no files picked, the previews show the stored images
   * but there are no picked files to remove: taking a stored image's preview away leaves the update's
   * body as it was, so the stored image stays on the product.
   */
  lemma RemovingStoredPreviewKeepsBody(e: Editor, p: Product, numText: real -> string, pretty: Json -> string, idx: nat)
    requires e.additionalImages == []
    requires idx < |OpenEditDialog(e, p, numText, pretty).additionalPreviews|
    ensures var shown := OpenEditDialog(e, p, numText, pretty);
      var removed := RemovePreview(shown, idx);
      ProductFormData(removed.form, true, removed.mainImage, removed.additionalImages)
        == ProductFormData(shown.form, true, shown.mainImage, shown.additionalImages)
  {
  }

  // ---------------------------------------------------------------- saving and deleting

  /** A toast: its title, its text, and whether it is shown as an error. */
  datatype Toast = Toast(title: string, description: string, destructive: bool)

  const SaveFallback := "Failed to save product"
  const DeleteFailed := "Failed to delete product"

  /**
   * What the awaited service call settles to: the token guard's error when no token is stored,
   * else the update's outcome when a product is being edited, else the create's.
   */
  function SaveResult(authenticated: bool, editing: bool, outcome: Fetched): (r: Result<Json, JsError>)
    ensures !authenticated ==> r == Err(NotAuthenticated)
    ensures authenticated && outcome.Threw? ==> r == Err(outcome.error)
    ensures authenticated && outcome.Got? && ResponseOk(outcome.reply) ==> r == ReadJson(outcome.reply.body)
    ensures authenticated && outcome.Got? && !ResponseOk(outcome.reply) ==> r.Err?
  {
    if !authenticated then Err(NotAuthenticated)
    else if editing then UpdateOutcome(outcome)
    else CreateOutcome(outcome)
  }

  /** The toast of a failed save: the error's message, or the fallback text when it is empty. */
  function SaveErrorToast(error: JsError): (t: Toast)
    ensures t.destructive && t.description != ""
    ensures error.message != "" ==> t.description == error.message
  {
    Toast("Error", if error.message != "" then error.message else SaveFallback, true)
  }

  /**
   * `handleSubmit`: builds the body, sends it as an update of the edited product or as a create,
   * and on success resets the editor and says which it was; on failure the editor is kept as it
   * was (nothing typed or picked is lost) and the error is shown.
   */
  method HandleSubmit(api: ApiService, e: Editor, outcome: Fetched) returns (r: Editor, toast: Toast, sent: seq<Request>)
    ensures var fd := ProductFormData(e.form, e.editing.Some?, e.mainImage, e.additionalImages);
      sent == if !api.IsAuthenticated() then []
        else if e.editing.Some? then
          [Request("PUT", api.base + "/api/products/" + e.editing.value.id, BearerHeaders(api.AuthToken().value), Multipart(fd))]
        else [Request("POST", api.base + "/api/products", BearerHeaders(api.AuthToken().value), Multipart(fd))]
    ensures SaveResult(api.IsAuthenticated(), e.editing.Some?, outcome).Ok? ==>
      r == InitialEditor
      && toast == Toast("Success", if e.editing.Some? then "Product updated successfully" else "Product created successfully", false)
    ensures SaveResult(api.IsAuthenticated(), e.editing.Some?, outcome).Err? ==>
      r == e && toast == SaveErrorToast(SaveResult(api.IsAuthenticated(), e.editing.Some?, outcome).error)
  {
    var fd := BuildFormData(e.form, e.editing.Some?, e.mainImage, e.additionalImages);
    var result: Result<Json, JsError>;
    if e.editing.Some? {
      result, sent := api.UpdateProduct(e.editing.value.id, fd, outcome);
    } else {
      result, sent := api.CreateProduct(fd, outcome);
    }
    if result.Err? {
      return e, SaveErrorToast(result.error), sent;
    }
    toast := Toast("Success", if e.editing.Some? then "Product updated successfully" else "Product created successfully", false);
    r := ResetForm(e);
  }

  /**
   * `handleDelete`: with no product chosen it returns at once, sending nothing and keeping the
   * choice; otherwise it deletes the product, reports success or the one fixed failure text (the
   * error's own message is not shown), and clears the choice either way.
   */
  method HandleDelete(api: ApiService, deleteId: Option<string>, outcome: Fetched)
    returns (toast: Option<Toast>, sent: seq<Request>, after: Option<string>)
    ensures deleteId.None? || deleteId.value == "" ==> toast.None? && sent == [] && after == deleteId
    ensures deleteId.Some? && deleteId.value != "" ==>
      after.None?
      && sent == (if api.IsAuthenticated() then
          [Request("DELETE", api.base + "/api/products/" + deleteId.value, BearerHeaders(api.AuthToken().value), NoBody)]
        else [])
      && toast == Some(if api.IsAuthenticated() && DeleteOutcome(outcome).Ok? then Toast("Success", "Product deleted successfully", false)
        else Toast("Error", DeleteFailed, true))
  {
    if deleteId.None? || deleteId.value == "" {
      return None, [], deleteId;
    }
    var result;
    result, sent := api.DeleteProduct(deleteId.value, outcome);
    if result.Ok? {
      toast := Some(Toast("Success", "Product deleted successfully", false));
    } else {
      toast := Some(Toast("Error", DeleteFailed, true));
    }
    after := None;
  }
}

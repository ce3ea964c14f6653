/**
  The transformation of a published Prismic document into an Algolia search
  record: the webhook secret check, locale normalisation, flattening of the
  document body into text and images, and the recipe and blog-post builders.

  Prismic's `RichText.asText` renderer is not part of this model: every member
  that renders rich text takes it as the parameter `asText`, about which
  nothing is assumed.
 */
module PrismicFunctions {
  import opened TextJoin

  datatype Option<T> = None | Some(value: T)

  /** One block of Prismic structured text (paragraph, heading, ...). */
  datatype RichTextBlock = RichTextBlock(blockType: string, text: string)
  type RichText = seq<RichTextBlock>

  datatype Dimensions = Dimensions(width: int, height: int)

  datatype ThumbnailObject = ThumbnailObject(dimensions: Dimensions, alt: string, url: string, copyright: string)

  datatype ImageObject = ImageObject(
    dimensions: Dimensions, alt: string, url: string, copyright: string,
    caption: Option<string>, thumbnail: ThumbnailObject)

  /** A slice of a document body, by its `slice_type`: `text`, `quote`,
      `image`, `image_with_caption`, or any other type. */
  datatype Slice =
    | Text(text: RichText)
    | Quote(text: RichText)
    | Image(image: ImageObject)
    | ImageWithCaption(image: ImageObject)
    | Other(sliceType: string)  // a type outside KnownSliceTypes; see SliceOf
  {
    predicate IsTextSlice() { Text? || Quote? }
    predicate IsImageSlice() { Image? || ImageWithCaption? }
  }

  /** The slice types the flattening switch recognises. */
  const KnownSliceTypes: set<string> := {"text", "quote", "image", "image_with_caption"}

  /** The slice a `slice_type` tag and its primary content denote: the four
      recognised tags give their constructor, every other tag gives `Other`. */
  function SliceOf(sliceType: string, text: RichText, image: ImageObject): (s: Slice)
    ensures s.Other? <==> sliceType !in KnownSliceTypes
    ensures s.Other? ==> s.sliceType == sliceType
    ensures s.IsTextSlice() ==> s.text == text
    ensures s.IsImageSlice() ==> s.image == image
    ensures s.IsTextSlice() <==> sliceType == "text" || sliceType == "quote"
    ensures s.IsImageSlice() <==> sliceType == "image" || sliceType == "image_with_caption"
  {
    if sliceType == "text" then Text(text)
    else if sliceType == "quote" then Quote(text)
    else if sliceType == "image_with_caption" then ImageWithCaption(image)
    else if sliceType == "image" then Image(image)
    else Other(sliceType)
  }

  /** A slice is well tagged when an `Other` slice does not carry one of the
      recognised tags. */
  predicate WellTagged(s: Slice)
  {
    s.Other? ==> s.sliceType !in KnownSliceTypes
  }

  /** The `data` of a document: the fields either builder reads. */
  datatype DocumentData = DocumentData(
    title: RichText, subtitle: RichText, date: string, mainImage: ImageObject, body: seq<Slice>,
    introduction: RichText, recipeType: string, insectOfChoice: string,
    ingredients: RichText, prep: RichText,
    tlDr: string, tags: string)

  /** A Prismic document; `docType` is its `type` tag (`recipe`, `post`, ...). */
  datatype Document = Document(id: string, uid: string, docType: string, lang: string, data: DocumentData)

  datatype FlattenedBody = FlattenedBody(texts: string, images: seq<ImageObject>)

  /** The fields every search record has. */
  datatype AlgoliaIndex = AlgoliaIndex(
    objectID: string, uid: string, lang: string, subtitle: string, title: string, date: string, text: string)

  datatype AlgoliaRecipeIndex = AlgoliaRecipeIndex(
    objectID: string, uid: string, lang: string, title: string, subtitle: string, date: string,
    introduction: string, recipeType: string, insectOfChoice: string, ingredients: string,
    mainImage: ImageObject, prep: string, text: string)
  {
    function Base(): AlgoliaIndex {
      AlgoliaIndex(objectID, uid, lang, subtitle, title, date, text)
    }
  }

  datatype AlgoliaBlogPostIndex = AlgoliaBlogPostIndex(
    objectID: string, uid: string, lang: string, title: string, subtitle: string, date: string,
    tlDr: string, tags: string, mainImage: ImageObject, text: string)
  {
    function Base(): AlgoliaIndex {
      AlgoliaIndex(objectID, uid, lang, subtitle, title, date, text)
    }
  }

  // ---------------------------------------------------------------------------
  // Secret and language

  /** The webhook secret check against the configured secret. */
  function VerifySecret(configured: string, secret: string): (ok: bool)
    ensures ok <==> secret == configured
  {
    if secret == configured then true else false
  }

  /** The coarse language code of a locale tag: `de` for `de-de` only, `en`
      for every other tag (`en-au`, `en-us` and anything unrecognised). */
  function ProcessLanguage(lang: string): (code: string)
    ensures code == "en" || code == "de"
    ensures code == "de" <==> lang == "de-de"
  {
    if lang == "en-au" || lang == "en-us" then "en"
    else if lang == "de-de" then "de"
    else "en"
  }

  // ---------------------------------------------------------------------------
  // Flattening the body

  /** What one slice adds to the text list. */
  function SliceTexts(s: Slice, asText: RichText -> string): seq<string>
  {
    match s
    case Text(t) => [asText(t)]
    case Quote(t) => [asText(t)]
    case _ => []
  }

  /** What one slice adds to the image list. */
  function SliceImages(s: Slice): seq<ImageObject>
  {
    match s
    case Image(img) => [img]
    case ImageWithCaption(img) => [img]
    case _ => []
  }

  /** The renderings of the text and quote slices, in body order. */
  function TextsOf(body: seq<Slice>, asText: RichText -> string): (texts: seq<string>)
    ensures |texts| <= |body|
  {
    if body == [] then []
    else TextsOf(body[..|body| - 1], asText) + SliceTexts(body[|body| - 1], asText)
  }

  /** The images of the image slices, in body order. */
  function ImagesOf(body: seq<Slice>): (images: seq<ImageObject>)
    ensures |images| <= |body|
  {
    if body == [] then []
    else ImagesOf(body[..|body| - 1]) + SliceImages(body[|body| - 1])
  }

  /** The flattened body: the texts joined by single spaces, and the images. */
  function Flatten(body: seq<Slice>, asText: RichText -> string): (flat: FlattenedBody)
    ensures body == [] ==> flat == FlattenedBody("", [])
    ensures |flat.images| <= |body|
  {
    FlattenedBody(Join(TextsOf(body, asText), ' '), ImagesOf(body))
  }

  /** One pass over the body that pushes onto a text list and an image list,
      then joins the text list. */
  method FlattenBody(body: seq<Slice>, asText: RichText -> string) returns (flat: FlattenedBody)
    ensures flat == Flatten(body, asText)
  {
    var textArray: seq<string> := [];
    var imageArray: seq<ImageObject> := [];
    for i := 0 to |body|
      invariant textArray == TextsOf(body[..i], asText)
      invariant imageArray == ImagesOf(body[..i])
    {
      assert body[..i + 1][..i] == body[..i];
      match body[i]
      case Text(t) =>
        textArray := textArray + [asText(t)];
      case Quote(t) =>
        textArray := textArray + [asText(t)];
      case ImageWithCaption(img) =>
        imageArray := imageArray + [img];
      case Image(img) =>
        imageArray := imageArray + [img];
      case Other(_) =>
    }
    assert body[..|body|] == body;
    flat := FlattenedBody(Join(textArray, ' '), imageArray);
  }

  // ---------------------------------------------------------------------------
  // Record builders

  /** The search record of a recipe: keyed by the document id, language
      normalised, rich-text fields rendered, the rest copied verbatim, and the
      flattened body text; the body's images are not part of the record. */
  function ProcessRecipe(doc: Document, asText: RichText -> string): (r: AlgoliaRecipeIndex)
    ensures r.objectID == doc.id && r.uid == doc.uid
    ensures r.lang == ProcessLanguage(doc.lang)
    ensures r.title == asText(doc.data.title) && r.subtitle == asText(doc.data.subtitle)
    ensures r.introduction == asText(doc.data.introduction)
    ensures r.ingredients == asText(doc.data.ingredients) && r.prep == asText(doc.data.prep)
    ensures r.date == doc.data.date && r.mainImage == doc.data.mainImage
    ensures r.recipeType == doc.data.recipeType && r.insectOfChoice == doc.data.insectOfChoice
    ensures r.text == Flatten(doc.data.body, asText).texts
  {
    var title := asText(doc.data.title);
    var subtitle := asText(doc.data.subtitle);
    var intro := asText(doc.data.introduction);
    var ingredients := asText(doc.data.ingredients);
    var prep := asText(doc.data.prep);
    var mainImage := doc.data.mainImage;
    var texts := Flatten(doc.data.body, asText).texts;
    AlgoliaRecipeIndex(
      doc.id, doc.uid, ProcessLanguage(doc.lang), title, subtitle, doc.data.date,
      intro, doc.data.recipeType, doc.data.insectOfChoice, ingredients,
      mainImage, prep, texts)
  }

  /** The search record of a blog post: the same common fields as a recipe,
      with the TL;DR, tags and main image copied verbatim. */
  function ProcessBlogPost(doc: Document, asText: RichText -> string): (r: AlgoliaBlogPostIndex)
    ensures r.objectID == doc.id && r.uid == doc.uid
    ensures r.lang == ProcessLanguage(doc.lang)
    ensures r.title == asText(doc.data.title) && r.subtitle == asText(doc.data.subtitle)
    ensures r.date == doc.data.date && r.mainImage == doc.data.mainImage
    ensures r.tlDr == doc.data.tlDr && r.tags == doc.data.tags
    ensures r.text == Flatten(doc.data.body, asText).texts
  {
    var title := asText(doc.data.title);
    var subtitle := asText(doc.data.subtitle);
    var mainImage := doc.data.mainImage;
    var texts := Flatten(doc.data.body, asText).texts;
    AlgoliaBlogPostIndex(
      doc.id, doc.uid, ProcessLanguage(doc.lang), title, subtitle, doc.data.date,
      doc.data.tlDr, doc.data.tags, mainImage, texts)
  }
}

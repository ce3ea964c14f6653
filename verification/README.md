# Prismic document → Algolia search record, in Dafny

This project models the part of the allsect Firebase functions that turns a
newly published Prismic CMS document into a record for the Algolia search
index (`functions/src/prismic-functions.ts`), together with the type
dispatch in the Prismic webhook handler that picks the builder and the index
(`functions/src/index.ts`).

- `TextJoin` (`text_join.dfy`): `Array.prototype.join` with a one-character
  separator, which assembles the flattened body text, and its inverse `Split`.
- `PrismicFunctions` (`prismic_functions.dfy`): the document, slice, image and
  record shapes; the webhook secret check; locale normalisation; body
  flattening as a one-pass loop (`FlattenBody`) proved equal to its
  specification `Flatten`; the recipe and blog-post record builders.
- `BodyProperties` (`body_properties.dfy`): what flattening promises: order
  within each output list, which slices reach which list, and that
  unrecognised slices contribute nothing.
- `RecordProperties` (`record_properties.dfy`): what the builders promise
  across records: shared common fields, and that a record depends on the body
  only through its text and quote slices.
- `WebhookDispatch` (`webhook_dispatch.dfy`): `post` → `BlogPosts` index,
  `recipe` → `Recipes` index, any other type → an `UnknownDocumentType` error.

Modelling choices:

- Prismic's `RichText.asText` is a foreign renderer. Every member that renders
  rich text takes it as a parameter `asText: RichText -> string`. Nothing is
  assumed about it, so each property holds for every renderer.
- The configured webhook secret (read from `functions.config()` in the source)
  is the parameter `configured` of `VerifySecret`.
- A body slice is a datatype with one constructor per recognised
  `slice_type` (`text`, `quote`, `image`, `image_with_caption`) and `Other`
  for any other type. `SliceOf` maps a tag to its slice, as the flattening
  switch does. The lemmas about ignored slices apply only to `Other` slices
  whose tag is not one of the recognised four.
- Dafny field names are camelCase versions of the JSON fields:
  `recipeType` is `recipe_type`, `insectOfChoice` is `insect_of_choice`,
  `tlDr` is `tl_dr` and `mainImage` is `main_image`.
- The recipe record is modelled with every field the source's object literal
  sets. That includes `ingredients`, `prep` and `main_image`, which the
  `AlgoliaRecipeIndex` interface does not declare.
- A slice missing its content field is not given an empty
  contribution. The code has no such fallback, so neither does the model.
- The builders and the dispatch are functions, so calling them twice on the
  same input gives equal records by construction.

## Model

| member | source | states |
|---|---|---|
| PrismicFunctions.VerifySecret | functions/src/prismic-functions.ts:48-54 | the check succeeds exactly when the received secret equals the configured one, and fails for every other string; it never errors |
| PrismicFunctions.ProcessLanguage | functions/src/prismic-functions.ts:56-68 | the result is always `en` or `de`, and it is `de` exactly for `de-de`; so `en-au`, `en-us` and every unrecognised tag give `en` |
| PrismicFunctions.FlattenBody | functions/src/prismic-functions.ts:71-95 | the one-pass loop that pushes onto a text list and an image list and then joins the texts produces exactly `Flatten(body)`: the space-joined renderings of the text and quote slices and the images of the image slices |
| PrismicFunctions.ProcessRecipe | functions/src/prismic-functions.ts:97-125 | the recipe record is keyed by the document id, carries its uid and the normalised language, renders title, subtitle, introduction, ingredients and prep, copies date, recipe type, insect of choice and main image, and takes the flattened body text |
| PrismicFunctions.ProcessBlogPost | functions/src/prismic-functions.ts:128-150 | the blog-post record is keyed by the document id, carries its uid and the normalised language, renders title and subtitle, copies date, TL;DR, tags and main image, and takes the flattened body text |
| PrismicFunctions.SliceOf | functions/src/prismic-functions.ts:76-90 | a slice tag gives an `Other` slice exactly when it is not `text`, `quote`, `image` or `image_with_caption`; `text` and `quote` give text slices holding the primary text, and the two image tags give image slices holding the primary image |
| PrismicFunctions.Flatten | functions/src/prismic-functions.ts:71-94 | the reference definition of the flattened body: the renderings of the text and quote slices joined by single spaces, and the images of the image slices. An empty body gives empty text and no images, and there are never more images than slices |
| TextJoin.Join | functions/src/prismic-functions.ts:94 | `join` with a one-character separator: no parts give the empty string; otherwise the result starts with the first part and its length is the total length of the parts plus one separator between each pair of neighbours |
| TextJoin.JoinSplit | functions/src/prismic-functions.ts:94 | joining the pieces of a split at single spaces gives back the original string |
| TextJoin.SplitJoin | functions/src/prismic-functions.ts:94 | a non-empty list of space-free texts joined with single spaces splits back into exactly that list |
| TextJoin.JoinAppend | functions/src/prismic-functions.ts:94 | joining two non-empty lists puts exactly one separator between their joins |
| BodyProperties.TextsOfAppend | functions/src/prismic-functions.ts:75-81 | the text renderings of a concatenated body are those of the first part followed by those of the second, so body order is kept |
| BodyProperties.ImagesOfAppend | functions/src/prismic-functions.ts:82-86 | the images of a concatenated body are those of the first part followed by those of the second, so body order is kept |
| BodyProperties.FlattenEmpty | functions/src/prismic-functions.ts:72-94 | an empty body flattens to the empty text and no images |
| BodyProperties.FlattenAppend | functions/src/prismic-functions.ts:71-94 | flattening a concatenation concatenates the image lists and joins the two texts with one space, or takes the one that has texts |
| BodyProperties.OtherSliceIgnored | functions/src/prismic-functions.ts:87-90 | inserting or removing a slice whose tag is not one of the four recognised types, anywhere in the body, changes neither the text nor the images |
| BodyProperties.ImagesCount | functions/src/prismic-functions.ts:82-86 | the image list has one entry per image or image-with-caption slice |
| BodyProperties.TextsCount | functions/src/prismic-functions.ts:77-80 | the text list has one entry per text or quote slice |
| BodyProperties.ImagesOfMembers | functions/src/prismic-functions.ts:82-86 | an image is in the image list exactly when some image or image-with-caption slice of the body holds it |
| BodyProperties.TextsOfMembers | functions/src/prismic-functions.ts:77-80 | a string is in the text list exactly when it is the rendering of some text or quote slice of the body |
| BodyProperties.FlattenTextsRecoverable | functions/src/prismic-functions.ts:77-94 | when the body has a text slice and no rendering contains a space, splitting the flattened text at spaces gives the renderings in body order |
| BodyProperties.FlattenExample | functions/src/prismic-functions.ts:71-94 | text "A", image 1, quote "B", an unrecognised slice and image 2 flatten to "A B" and the images [1, 2] |
| RecordProperties.BuildersAgreeOnBase | functions/src/prismic-functions.ts:107-145 | the recipe builder and the blog-post builder give the same id, uid, language, title, subtitle, date and text for the same document, and the language is `en` or `de` |
| RecordProperties.RecordsIgnoreNonTextSlice | functions/src/prismic-functions.ts:105-121 | inserting or removing an image slice, or a slice whose tag is not recognised, leaves both records unchanged: images are not emitted |
| RecordProperties.NoTextSlicesEmptyText | functions/src/prismic-functions.ts:105-120 | a body without text or quote slices gives both records an empty text |
| WebhookDispatch.ProcessDocument | functions/src/index.ts:247-259 | a document is indexed exactly when its type is `post` or `recipe`; posts become blog-post records in `BlogPosts`, recipes become recipe records in `Recipes`; each record is exactly what `ProcessBlogPost` or `ProcessRecipe` builds for the document, so it is keyed by the document id; any other type is rejected with that type |
| WebhookDispatch.RecipeExample | functions/src/index.ts:253-256 | a recipe `r1` tagged `en-au` with title "Ant Stew" and type `main` is indexed in `Recipes` with id `r1`, language `en`, that title and that type |

## Left out

- The Firebase handlers in `functions/src/index.ts` (`getLatestNews`, `emailLatestNews`, `prismicWebhook` apart from its type dispatch, `postComment`, `backupFirestore`): they are I/O calls to NewsAPI, SendGrid, Pub/Sub, Firestore, Algolia, the Prismic query API and Cloud Storage.
- The webhook's promise chain and HTTP responses. This includes the missing early return after a failed secret check and the success response sent before indexing finishes. These are asynchronous ordering, not the transformation.
- After an unknown document type the handler still calls `partialUpdateObject` on an undefined index. That fails inside the promise chain and is only logged. The model stops at `UnknownDocumentType`.
- Clock-dependent code (the three-day news look-back, the backup file name) and the author split and comment routing inline in the handlers.
- The internals of `RichText.asText` from `prismic-dom`: it is a parameter with no assumed behaviour. Structured-text spans are not modelled.
- Reading the secret from `functions.config()`: the secret is a parameter.
- Documents typed `any` in the source may lack fields, which JavaScript reads as `undefined`. The model gives every document every field the builders read.
- Image dimensions are JavaScript numbers, modelled as `int`. They are only copied, never computed.

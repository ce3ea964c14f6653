/**
  The choice the Prismic webhook makes for a newly published document: blog
  posts go to the `BlogPosts` index, recipes to the `Recipes` index, and any
  other document type is rejected.
 */
module WebhookDispatch {
  import opened PrismicFunctions

  datatype IndexRecord =
    | RecipeRecord(recipe: AlgoliaRecipeIndex)
    | BlogPostRecord(post: AlgoliaBlogPostIndex)
  {
    function Base(): AlgoliaIndex
    {
      match this
      case RecipeRecord(r) => r.Base()
      case BlogPostRecord(p) => p.Base()
    }
  }

  datatype Outcome =
    | Indexed(indexName: string, record: IndexRecord)
    | UnknownDocumentType(docType: string)

  /** Builds the record for a document by its type tag. */
  function ProcessDocument(doc: Document, asText: RichText -> string): (out: Outcome)
    ensures out.Indexed? <==> doc.docType == "post" || doc.docType == "recipe"
    ensures out.UnknownDocumentType? ==> out.docType == doc.docType
    ensures out.Indexed? ==> out.record.Base().objectID == doc.id
    ensures out.Indexed? ==> (out.record.BlogPostRecord? <==> doc.docType == "post")
    ensures out.Indexed? ==> out.indexName == (if doc.docType == "post" then "BlogPosts" else "Recipes")
    ensures doc.docType == "post" ==> out == Indexed("BlogPosts", BlogPostRecord(ProcessBlogPost(doc, asText)))
    ensures doc.docType == "recipe" ==> out == Indexed("Recipes", RecipeRecord(ProcessRecipe(doc, asText)))
  {
    if doc.docType == "post" then
      Indexed("BlogPosts", BlogPostRecord(ProcessBlogPost(doc, asText)))
    else if doc.docType == "recipe" then
      Indexed("Recipes", RecipeRecord(ProcessRecipe(doc, asText)))
    else
      UnknownDocumentType(doc.docType)
  }

  /** A recipe tagged `en-au` whose title renders as "Ant Stew" is indexed
      under its id in `Recipes`, in English, with its title and recipe type. */
  lemma RecipeExample(doc: Document, asText: RichText -> string)
    requires doc.id == "r1" && doc.docType == "recipe" && doc.lang == "en-au"
    requires asText(doc.data.title) == "Ant Stew" && doc.data.recipeType == "main"
    ensures ProcessDocument(doc, asText).Indexed?
    ensures ProcessDocument(doc, asText).indexName == "Recipes"
    ensures ProcessDocument(doc, asText).record.RecipeRecord?
    ensures var r := ProcessDocument(doc, asText).record.recipe;
      r.objectID == "r1" && r.lang == "en" && r.title == "Ant Stew" && r.recipeType == "main"
  {
  }
}

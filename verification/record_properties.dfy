/**
  What the two record builders promise beyond their field-by-field contracts:
  they agree on the common fields, and the record depends on the body only
  through its text and quote slices.
 */
module RecordProperties {
  import opened PrismicFunctions
  import opened BodyProperties

  /** A document with its body replaced. */
  function WithBody(doc: Document, body: seq<Slice>): Document
  {
    doc.(data := doc.data.(body := body))
  }

  /** Both builders produce the same common fields from the same document. */
  lemma BuildersAgreeOnBase(doc: Document, asText: RichText -> string)
    ensures ProcessRecipe(doc, asText).Base() == ProcessBlogPost(doc, asText).Base()
    ensures ProcessRecipe(doc, asText).Base().lang in {"en", "de"}
  {
  }

  /** Adding or removing an image slice or a slice of an unrecognised type
      leaves both records unchanged: the images are not emitted. */
  lemma {:induction false} RecordsIgnoreNonTextSlice(
    doc: Document, a: seq<Slice>, b: seq<Slice>, s: Slice, asText: RichText -> string)
    requires !s.IsTextSlice() && WellTagged(s)
    ensures ProcessRecipe(WithBody(doc, a + [s] + b), asText) == ProcessRecipe(WithBody(doc, a + b), asText)
    ensures ProcessBlogPost(WithBody(doc, a + [s] + b), asText) == ProcessBlogPost(WithBody(doc, a + b), asText)
  {
    assert TextsOf([s], asText) == [] by {
      assert [s][..0] == [];
    }
    TextsOfAppend(a, [s], asText);
    TextsOfAppend(a + [s], b, asText);
    TextsOfAppend(a, b, asText);
    assert TextsOf(a + [s], asText) == TextsOf(a, asText);
    assert TextsOf(a + [s] + b, asText) == TextsOf(a + b, asText);
  }

  /** A body without text or quote slices gives both records an empty text. */
  lemma {:induction false} NoTextSlicesEmptyText(doc: Document, asText: RichText -> string)
    requires TextSliceCount(doc.data.body) == 0
    ensures ProcessRecipe(doc, asText).text == ""
    ensures ProcessBlogPost(doc, asText).text == ""
  {
    TextsCount(doc.data.body, asText);
  }
}

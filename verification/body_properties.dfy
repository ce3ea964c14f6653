/**
  What flattening promises about a document body: order is kept within each
  list, only text and quote slices reach the text, only image slices reach the
  images, and every other slice contributes nothing.
 */
module BodyProperties {
  import opened TextJoin
  import opened PrismicFunctions

  /** The number of image and image-with-caption slices, counted from the front. */
  function ImageSliceCount(body: seq<Slice>): nat
  {
    if body == [] then 0
    else (if body[0].IsImageSlice() then 1 else 0) + ImageSliceCount(body[1..])
  }

  /** The number of text and quote slices, counted from the front. */
  function TextSliceCount(body: seq<Slice>): nat
  {
    if body == [] then 0
    else (if body[0].IsTextSlice() then 1 else 0) + TextSliceCount(body[1..])
  }

  /** Flattening a concatenation concatenates the text lists. */
  lemma {:induction false} TextsOfAppend(a: seq<Slice>, b: seq<Slice>, asText: RichText -> string)
    ensures TextsOf(a + b, asText) == TextsOf(a, asText) + TextsOf(b, asText)
  {
    if b == [] {
      assert a + b == a;
    } else {
      var c := a + b;
      var front := b[..|b| - 1];
      assert c[..|c| - 1] == a + front;
      assert c[|c| - 1] == b[|b| - 1];
      TextsOfAppend(a, front, asText);
    }
  }

  /** Flattening a concatenation concatenates the image lists. */
  lemma {:induction false} ImagesOfAppend(a: seq<Slice>, b: seq<Slice>)
    ensures ImagesOf(a + b) == ImagesOf(a) + ImagesOf(b)
  {
    if b == [] {
      assert a + b == a;
    } else {
      var c := a + b;
      var front := b[..|b| - 1];
      assert c[..|c| - 1] == a + front;
      assert c[|c| - 1] == b[|b| - 1];
      ImagesOfAppend(a, front);
    }
  }

  /** An empty body flattens to empty text and no images. */
  lemma FlattenEmpty(asText: RichText -> string)
    ensures Flatten([], asText) == FlattenedBody("", [])
  {
  }

  /** Flattening is compositional: the images of a concatenation are the
      images of each part, and the texts are the texts of each part with one
      space between them when both are non-empty lists. */
  lemma FlattenAppend(a: seq<Slice>, b: seq<Slice>, asText: RichText -> string)
    ensures Flatten(a + b, asText).images == Flatten(a, asText).images + Flatten(b, asText).images
    ensures Flatten(a + b, asText).texts ==
      if TextsOf(a, asText) == [] then Flatten(b, asText).texts
      else if TextsOf(b, asText) == [] then Flatten(a, asText).texts
      else Flatten(a, asText).texts + " " + Flatten(b, asText).texts
  {
    TextsOfAppend(a, b, asText);
    ImagesOfAppend(a, b);
    var ta, tb := TextsOf(a, asText), TextsOf(b, asText);
    if ta == [] {
      assert ta + tb == tb;
    } else if tb == [] {
      assert ta + tb == ta;
    } else {
      JoinAppend(ta, tb, ' ');
    }
  }

  /** Inserting a slice of an unrecognised type anywhere in the body changes
      neither the text nor the images. */
  lemma OtherSliceIgnored(a: seq<Slice>, b: seq<Slice>, sliceType: string, asText: RichText -> string)
    requires sliceType !in KnownSliceTypes
    ensures Flatten(a + [Other(sliceType)] + b, asText) == Flatten(a + b, asText)
  {
    var o := [Other(sliceType)];
    assert TextsOf(o, asText) == [] && ImagesOf(o) == [] by {
      assert o[..0] == [];
    }
    assert TextsOf(a + o + b, asText) == TextsOf(a + b, asText) by {
      TextsOfAppend(a, o, asText);
      TextsOfAppend(a + o, b, asText);
      TextsOfAppend(a, b, asText);
      assert TextsOf(a, asText) + [] == TextsOf(a, asText);
    }
    assert ImagesOf(a + o + b) == ImagesOf(a + b) by {
      ImagesOfAppend(a, o);
      ImagesOfAppend(a + o, b);
      ImagesOfAppend(a, b);
      assert ImagesOf(a) + [] == ImagesOf(a);
    }
  }

  /** One image per image slice. */
  lemma {:induction false} ImagesCount(body: seq<Slice>)
    ensures |ImagesOf(body)| == ImageSliceCount(body)
  {
    if body != [] {
      var head := [body[0]];
      assert head + body[1..] == body;
      assert head[..0] == [];
      ImagesOfAppend(head, body[1..]);
      ImagesCount(body[1..]);
    }
  }

  /** One rendering per text slice. */
  lemma {:induction false} TextsCount(body: seq<Slice>, asText: RichText -> string)
    ensures |TextsOf(body, asText)| == TextSliceCount(body)
  {
    if body != [] {
      var head := [body[0]];
      assert head + body[1..] == body;
      assert head[..0] == [];
      TextsOfAppend(head, body[1..], asText);
      TextsCount(body[1..], asText);
    }
  }

  /** An image is in the flattened images exactly when some image slice of
      the body holds it. */
  lemma {:induction false} ImagesOfMembers(body: seq<Slice>, x: ImageObject)
    ensures x in ImagesOf(body) <==>
      exists i :: 0 <= i < |body| && body[i].IsImageSlice() && body[i].image == x
  {
    if body != [] {
      var n := |body| - 1;
      var front := body[..n];
      ImagesOfMembers(front, x);
      if x in ImagesOf(body) {
        if x in ImagesOf(front) {
          var i :| 0 <= i < |front| && front[i].IsImageSlice() && front[i].image == x;
          assert body[i] == front[i];
        } else {
          assert x in SliceImages(body[n]);
          assert body[n].IsImageSlice() && body[n].image == x;
        }
      }
      if exists i :: 0 <= i < |body| && body[i].IsImageSlice() && body[i].image == x {
        var i :| 0 <= i < |body| && body[i].IsImageSlice() && body[i].image == x;
        if i < n {
          assert front[i] == body[i];
        } else {
          assert x in SliceImages(body[n]);
        }
      }
    }
  }

  /** A string is among the text renderings exactly when it is the rendering
      of some text or quote slice of the body. */
  lemma {:induction false} TextsOfMembers(body: seq<Slice>, asText: RichText -> string, t: string)
    ensures t in TextsOf(body, asText) <==>
      exists i :: 0 <= i < |body| && body[i].IsTextSlice() && asText(body[i].text) == t
  {
    if body != [] {
      var n := |body| - 1;
      var front := body[..n];
      TextsOfMembers(front, asText, t);
      if t in TextsOf(body, asText) {
        if t in TextsOf(front, asText) {
          var i :| 0 <= i < |front| && front[i].IsTextSlice() && asText(front[i].text) == t;
          assert body[i] == front[i];
        } else {
          assert t in SliceTexts(body[n], asText);
          assert body[n].IsTextSlice() && asText(body[n].text) == t;
        }
      }
      if exists i :: 0 <= i < |body| && body[i].IsTextSlice() && asText(body[i].text) == t {
        var i :| 0 <= i < |body| && body[i].IsTextSlice() && asText(body[i].text) == t;
        if i < n {
          assert front[i] == body[i];
        } else {
          assert t in SliceTexts(body[n], asText);
        }
      }
    }
  }

  /** When no rendering contains a space, the flattened text can be cut back
      into the renderings of the text slices, in body order. */
  lemma FlattenTextsRecoverable(body: seq<Slice>, asText: RichText -> string)
    requires TextSliceCount(body) >= 1
    requires forall i :: 0 <= i < |body| && body[i].IsTextSlice() ==> ' ' !in asText(body[i].text)
    ensures Split(Flatten(body, asText).texts, ' ') == TextsOf(body, asText)
  {
    var texts := TextsOf(body, asText);
    TextsCount(body, asText);
    forall k | 0 <= k < |texts| ensures ' ' !in texts[k] {
      TextsOfMembers(body, asText, texts[k]);
    }
    SplitJoin(texts, ' ');
  }

  /** Text, image, quote, an unrecognised slice and a second image flatten
      to the two renderings joined by a space and the two images in order. */
  lemma FlattenExample(ta: RichText, tb: RichText, r1: ImageObject, r2: ImageObject, asText: RichText -> string)
    requires asText(ta) == "A" && asText(tb) == "B"
    ensures Flatten([Text(ta), Image(r1), Quote(tb), Other("event"), Image(r2)], asText)
      == FlattenedBody("A B", [r1, r2])
  {
    var body := [Text(ta), Image(r1), Quote(tb), Other("event"), Image(r2)];
    var s1 := [Text(ta)];
    var s2 := s1 + [Image(r1)];
    var s3 := s2 + [Quote(tb)];
    var s4 := s3 + [Image(r2)];
    assert Flatten(body, asText) == Flatten(s4, asText) by {
      assert body == s3 + [Other("event")] + [Image(r2)];
      assert s4 == s3 + [Image(r2)];
      OtherSliceIgnored(s3, [Image(r2)], "event", asText);
    }
    assert TextsOf(s4, asText) == ["A", "B"] by {
      assert s1[..0] == [] && s2[..1] == s1 && s3[..2] == s2 && s4[..3] == s3;
      assert TextsOf(s1, asText) == ["A"];
      assert TextsOf(s2, asText) == ["A"];
      assert TextsOf(s3, asText) == ["A", "B"];
    }
    assert ImagesOf(s4) == [r1, r2] by {
      assert s1[..0] == [] && s2[..1] == s1 && s3[..2] == s2 && s4[..3] == s3;
      assert ImagesOf(s1) == [];
      assert ImagesOf(s2) == [r1];
      assert ImagesOf(s3) == [r1];
    }
    assert Join(["A", "B"], ' ') == "A B" by {
      assert ["A", "B"][1..] == ["B"];
    }
  }
}

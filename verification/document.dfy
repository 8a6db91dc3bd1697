/** The text of the optional uploaded document. Page-level text extraction belongs to the
    PDF library; this module takes the per-page texts it yields as given. */
module Document {
  import opened Wrappers

  /** The page texts joined in page order. */
  function Concat(pages: seq<string>): string {
    if pages == [] then "" else pages[0] + Concat(pages[1..])
  }

  /** The document text a run works with: empty when nothing was uploaded. */
  function DocumentText(upload: Option<seq<string>>): string {
    match upload
    case None => ""
    case Some(pages) => Concat(pages)
  }

  /** Appending a page appends its text. */
  lemma {:induction false} ConcatAppend(pages: seq<string>, page: string)
    ensures Concat(pages + [page]) == Concat(pages) + page
  {
    if pages == [] {
      assert pages + [page] == [page];
    } else {
      assert (pages + [page])[1..] == pages[1..] + [page];
      ConcatAppend(pages[1..], page);
    }
  }

  /** Every page's text occurs in the document text, and pages keep their order. */
  lemma {:induction false} ConcatSplit(pages: seq<string>, i: nat)
    requires i <= |pages|
    ensures Concat(pages) == Concat(pages[..i]) + Concat(pages[i..])
  {
    if i == 0 {
      assert pages[..0] == [] && pages[0..] == pages;
    } else {
      assert pages[1..][..i - 1] == pages[1..i];
      assert pages[1..][i - 1..] == pages[i..];
      ConcatSplit(pages[1..], i - 1);
      assert pages[..i][1..] == pages[1..i];
    }
  }

  /** Builds the document text page by page, starting from the empty string. */
  method ExtractText(upload: Option<seq<string>>) returns (text: string)
    ensures text == DocumentText(upload)
    ensures upload.Some? ==> forall k :: 0 <= k < |upload.value| ==>
      var off := |Concat(upload.value[..k])|;
      off + |upload.value[k]| <= |text| && text[off..off + |upload.value[k]|] == upload.value[k]
  {
    text := "";
    if upload.Some? {
      var pages := upload.value;
      var i := 0;
      while i < |pages|
        invariant 0 <= i <= |pages|
        invariant text == Concat(pages[..i])
      {
        ConcatAppend(pages[..i], pages[i]);
        assert pages[..i + 1] == pages[..i] + [pages[i]];
        text := text + pages[i];
        i := i + 1;
      }
      assert pages[..i] == pages;
      forall k | 0 <= k < |pages|
        ensures var off := |Concat(pages[..k])|;
          off + |pages[k]| <= |text| && text[off..off + |pages[k]|] == pages[k]
      {
        ConcatSplit(pages, k);
        assert pages[k..] == [pages[k]] + pages[k + 1..];
      }
    }
  }
}

/** `extract_text_from_pdf`: the texts of the pages, each followed by a line break, then stripped.
    Parsing the PDF itself is not modelled: a document is the sequence of what each page's
    `extract_text()` returned, `None` for a page without a text layer. */
module PdfText {
  import opened Wrappers
  import opened Text

  /** What one page adds to the text: nothing when its text is `None` or `""` (both falsy in
      Python), otherwise the text and a line break. */
  function PageText(page: Option<string>): string
  {
    match page
    case None => ""
    case Some(text) => if text == "" then "" else text + "\n"
  }

  /** The accumulated text before the final strip, for the pages in order. */
  function Joined(pages: seq<Option<string>>): string
  {
    if pages == [] then "" else Joined(pages[..|pages| - 1]) + PageText(pages[|pages| - 1])
  }

  /** The value `extract_text_from_pdf` returns. */
  function Extracted(pages: seq<Option<string>>): (text: string)
    ensures Unpadded(text)
  {
    Trim(Joined(pages))
  }

  /** The page loop of `extract_text_from_pdf`. */
  method ExtractText(pages: seq<Option<string>>) returns (text: string)
    ensures text == Extracted(pages)
  {
    var acc := "";
    for k := 0 to |pages|
      invariant acc == Joined(pages[..k])
    {
      assert pages[..k + 1][..k] == pages[..k];
      var pageText := pages[k];
      if pageText.Some? && pageText.value != "" {
        acc := acc + pageText.value + "\n";
      }
    }
    assert pages[..|pages|] == pages;
    text := Trim(acc);
  }

  /** A page whose text is missing or only white space. */
  predicate BlankPage(page: Option<string>)
  {
    page.None? || AllSpace(page.value)
  }

  /** Joining distributes over splitting the document anywhere. */
  lemma {:induction false} JoinedConcat(a: seq<Option<string>>, b: seq<Option<string>>)
    ensures Joined(a + b) == Joined(a) + Joined(b)
  {
    if b == [] {
      assert a + b == a;
    } else {
      var b', last := b[..|b| - 1], b[|b| - 1];
      assert (a + b)[..|a + b| - 1] == a + b' && (a + b)[|a + b| - 1] == last;
      assert Joined(a + b) == Joined(a + b') + PageText(last);
      JoinedConcat(a, b');
      assert Joined(b) == Joined(b') + PageText(last);
    }
  }

  /** A page with text contributes that text, then a line break, between the pages before it
      and the pages after it. */
  lemma PageInOrder(a: seq<Option<string>>, text: string, b: seq<Option<string>>)
    requires text != ""
    ensures Joined(a + [Some(text)] + b) == Joined(a) + text + "\n" + Joined(b)
  {
    JoinedConcat(a + [Some(text)], b);
    JoinedConcat(a, [Some(text)]);
    assert [Some(text)][..0] == [];
  }

  /** A page whose text is `None` or empty contributes nothing. */
  lemma EmptyPageContributesNothing(a: seq<Option<string>>, page: Option<string>, b: seq<Option<string>>)
    requires page == None || page == Some("")
    ensures Joined(a + [page] + b) == Joined(a + b)
  {
    JoinedConcat(a + [page], b);
    JoinedConcat(a, [page]);
    JoinedConcat(a, b);
    assert [page][..0] == [];
  }

  lemma {:induction false} JoinedAllSpace(pages: seq<Option<string>>)
    ensures AllSpace(Joined(pages)) <==> forall k :: 0 <= k < |pages| ==> BlankPage(pages[k])
  {
    if pages != [] {
      var init := pages[..|pages| - 1];
      var last := pages[|pages| - 1];
      JoinedAllSpace(init);
      AllSpaceConcat(Joined(init), PageText(last));
      if last.Some? && last.value != "" {
        AllSpaceConcat(last.value, "\n");
      }
      assert forall k :: 0 <= k < |init| ==> init[k] == pages[k];
    }
  }

  /** The extracted text is empty exactly when no page has a character other than white space:
      the case the pipeline rejects. */
  lemma ExtractedEmptyIff(pages: seq<Option<string>>)
    ensures Extracted(pages) == "" <==> forall k :: 0 <= k < |pages| ==> BlankPage(pages[k])
  {
    BlankIffAllSpace(Joined(pages));
    JoinedAllSpace(pages);
  }

  /** A one-page document whose text is already stripped comes back unchanged: the line break
      added after the last page is stripped again. */
  lemma SinglePageRoundTrip(text: string)
    requires text != "" && Unpadded(text)
    ensures Extracted([Some(text)]) == text
  {
    var s := text + "\n";
    assert Joined([Some(text)]) == s by {
      assert [Some(text)][..0] == [];
    }
    assert s[0..|text|] == text;
    TrimUnique(s, 0, text);
  }
}

/**
 * benchmark/pdf_generation/chromedp.go: `GenerateWithChromedp` writes the
 * card fragments into a `strings.Builder`, wraps them in a document template
 * and has a headless browser print the page at a `data:text/html,` URL.
 * The browser is a capability passed in as `Browser`.
 */
module PdfGeneration {
  import opened Wrappers
  import opened Strings
  import opened Data
  import ImageHelper
  import GeneratePdf

  /** Go's `strings.Builder`: an append-only text buffer. */
  class StringBuilder {
    var buf: string

    constructor ()
      ensures buf == ""
    {
      buf := "";
    }

    method WriteString(s: string)
      modifies this
      ensures buf == old(buf) + s
    {
      buf := buf + s;
    }

    function String(): string
      reads this
    {
      buf
    }
  }

  /**
   * Navigating to a URL and printing the page to PDF, with the browser's own
   * context and its 10-second timeout folded into the failure case.
   */
  datatype Browser = Browser(printToPdf: string -> Result<Bytes, Error>)

  /** The test this file uses instead of `isURL`: a bare "http" prefix. */
  predicate LooksLikeUrl(s: string)
  {
    HasPrefix(s, "http")
  }

  /** The `src` attribute of an image card. */
  function ImageSource(source: string): string
  {
    if LooksLikeUrl(source) then source else GeneratePdf.DataUriPrefix + source
  }

  /**
   * What one card writes into the builder. The card `div`, its end tag and the
   * `<img>` element are the same text as in to_pdf's templates, so they are
   * `GeneratePdf`'s; here they are written with no indentation between them.
   */
  function Fragment(card: Card): string
  {
    if card.IsHtml() then GeneratePdf.CardDiv + card.source + GeneratePdf.EndDiv
    else GeneratePdf.CardDiv + GeneratePdf.ImgTag(ImageSource(card.source), card.face) + GeneratePdf.EndDiv
  }

  /** The builder's content after the loop has visited every card of `idCards`. */
  function Body(idCards: seq<Card>): string
  {
    if idCards == [] then ""
    else Body(idCards[..|idCards| - 1]) + Fragment(idCards[|idCards| - 1])
  }

  /** The template before `%s`, up to the first `100%` of the style sheet. */
  const HeadStart :=
    "\n\t<!DOCTYPE html>\n\t<html>\n\t<head>\n\t\t<style>\n"
    + "\t\t\tbody {\n\t\t\t\tmargin: 0;\n\t\t\t\tpadding: 0;\n\t\t\t\tfont-family: Arial, sans-serif;\n\t\t\t}\n"
    + "\t\t\t.card {\n\t\t\t\t"

  /** The rest of the template before `%s`. */
  const HeadRest :=
    "\n\t\t\t\tmargin-bottom: 20px;\n\t\t\t}\n"
    + "\t\t\timg {\n\t\t\t\t" + GeneratePdf.FullWidth + "\n\t\t\t\theight: auto;\n\t\t\t}\n"
    + "\t\t\t.card-info {\n\t\t\t\tmargin-top: 5px;\n\t\t\t\tfont-size: 12px;\n\t\t\t}\n"
    + "\t\t</style>\n\t</head>\n\t<body>\n\t\t"

  const DocumentHead := HeadStart + GeneratePdf.FullWidth + HeadRest
  const DocumentTail := "\n\t</body>\n\t</html>"

  function Document(idCards: seq<Card>): string
  {
    DocumentHead + Body(idCards) + DocumentTail
  }

  const HtmlDataUrlPrefix := "data:text/html,"

  /**
   * `GenerateWithChromedp`: one builder write per piece of each card, in card
   * order; the browser is sent to `data:text/html,` followed by the whole
   * document, and its PDF (or its error) is the result.
   */
  method GenerateWithChromedp(browser: Browser, idCards: seq<Card>) returns (r: Result<Bytes, Error>)
    ensures r == browser.printToPdf(HtmlDataUrlPrefix + Document(idCards))
  {
    var sb := new StringBuilder();
    for i := 0 to |idCards|
      invariant sb.String() == Body(idCards[..i])
    {
      WriteCard(sb, idCards[i]);
      BodyStep(idCards, i);
    }
    assert idCards[..|idCards|] == idCards;

    var html := DocumentHead + sb.String() + DocumentTail;
    var dataUrl := HtmlDataUrlPrefix + html;
    r := browser.printToPdf(dataUrl);
  }

  /** The body of the builder loop: the writes for one card add exactly its fragment. */
  method WriteCard(sb: StringBuilder, card: Card)
    modifies sb
    ensures sb.String() == old(sb.String()) + Fragment(card)
  {
    if card.kind == Html {
      sb.WriteString(GeneratePdf.CardDiv);
      sb.WriteString(card.source);
      sb.WriteString(GeneratePdf.EndDiv);
      assert sb.String() == old(sb.String()) + (GeneratePdf.CardDiv + card.source + GeneratePdf.EndDiv);
    } else {
      var imgSrc;
      if HasPrefix(card.source, "http") {
        imgSrc := card.source;
      } else {
        imgSrc := GeneratePdf.DataUriPrefix + card.source;
      }
      sb.WriteString(GeneratePdf.CardDiv + GeneratePdf.ImgTag(imgSrc, card.face) + GeneratePdf.EndDiv);
    }
  }

  /** The builder step of one card. */
  lemma BodyStep(idCards: seq<Card>, i: nat)
    requires i < |idCards|
    ensures Body(idCards[..i + 1]) == Body(idCards[..i]) + Fragment(idCards[i])
  {
    assert idCards[..i + 1][..i] == idCards[..i];
  }

  /** Everything `isURL` accepts passes the "http" test. */
  lemma UrlLooksLikeUrl(s: string)
    requires ImageHelper.IsUrl(s)
    ensures LooksLikeUrl(s)
  {
    if HasPrefix(s, "http://") {
      PrefixTransitive(s, "http://", "http");
    } else {
      PrefixTransitive(s, "https://", "http");
    }
  }

  /** ... but not conversely: "httpX..." passes the "http" test and is not a URL for `isURL`. */
  lemma LooksLikeUrlIsWeaker()
    ensures LooksLikeUrl("httpX") && !ImageHelper.IsUrl("httpX")
  {
    assert "httpX"[..4] == "http";
  }

  /**
   * The `src` written here and the one to_pdf writes differ exactly for the
   * sources that start with "http" without being URLs.
   */
  lemma ImageSourceAgreesWithPdf(source: string)
    ensures ImageSource(source) == GeneratePdf.ImageSource(source)
            <==> !(LooksLikeUrl(source) && !ImageHelper.IsUrl(source))
  {
    if ImageHelper.IsUrl(source) {
      UrlLooksLikeUrl(source);
    } else if LooksLikeUrl(source) {
      assert |GeneratePdf.ImageSource(source)| != |source|;
    }
  }

  /** The card source can always be read back from the `src` written for it. */
  lemma ImageSourceRoundTrip(source: string)
    ensures GeneratePdf.SourceOfImageSource(ImageSource(source)) == source
  {
    var prefix := GeneratePdf.DataUriPrefix;
    if LooksLikeUrl(source) {
      assert source[0] == 'h' != prefix[0];
    } else {
      assert (prefix + source)[..|prefix|] == prefix;
      assert (prefix + source)[|prefix|..] == source;
    }
  }

  /** `b` sits right after `a` in `a + b + c`, which starts with `a` and ends with `c`. */
  lemma ThreePieces(a: string, b: string, c: string)
    ensures HasPrefix(a + b + c, a) && HasSuffix(a + b + c, c)
    ensures GeneratePdf.OccursAt(a + b + c, b, |a|)
  {
    var s := a + b + c;
    assert s[..|a|] == a;
    assert s[|s| - |c|..] == c;
    assert s[|a|..|a| + |b|] == b;
  }

  /** An HTML card writes exactly its source between `<div class="card">` and `</div>`. */
  lemma HtmlFragmentShape(card: Card)
    requires card.IsHtml()
    ensures HasPrefix(Fragment(card), GeneratePdf.CardDiv) && HasSuffix(Fragment(card), GeneratePdf.EndDiv)
    ensures GeneratePdf.OccursAt(Fragment(card), card.source, |GeneratePdf.CardDiv|)
    ensures |Fragment(card)| == |GeneratePdf.CardDiv| + |card.source| + |GeneratePdf.EndDiv|
  {
    ThreePieces(GeneratePdf.CardDiv, card.source, GeneratePdf.EndDiv);
  }

  /** An image card writes one `<img>` with its `src` and "<face> Card" alt text, inside a card `div`. */
  lemma ImageFragmentShape(card: Card)
    requires !card.IsHtml()
    ensures HasPrefix(Fragment(card), GeneratePdf.CardDiv) && HasSuffix(Fragment(card), GeneratePdf.EndDiv)
    ensures GeneratePdf.OccursAt(Fragment(card), GeneratePdf.ImgTag(ImageSource(card.source), card.face), |GeneratePdf.CardDiv|)
    ensures GeneratePdf.OccursAt(GeneratePdf.ImgTag(ImageSource(card.source), card.face), ImageSource(card.source), 10)
    ensures GeneratePdf.OccursAt(GeneratePdf.ImgTag(ImageSource(card.source), card.face), card.face + " Card\">",
                                 10 + |ImageSource(card.source)| + 7)
  {
    var src := ImageSource(card.source);
    ThreePieces(GeneratePdf.CardDiv, GeneratePdf.ImgTag(src, card.face), GeneratePdf.EndDiv);
    ThreePieces("<img src=\"", src, "\" alt=\"" + card.face + " Card\">");
    var before := "<img src=\"" + src + "\" alt=\"";
    assert GeneratePdf.ImgTag(src, card.face) == before + (card.face + " Card\">") + "";
    ThreePieces(before, card.face + " Card\">", "");
  }

  /** One fragment per card, in card order. */
  lemma {:induction false} BodyAppend(a: seq<Card>, b: seq<Card>)
    ensures Body(a + b) == Body(a) + Body(b)
    decreases |b|
  {
    if b == [] {
      assert a + b == a;
    } else {
      var b' := b[..|b| - 1];
      assert (a + b)[..|a + b| - 1] == a + b';
      BodyAppend(a, b');
    }
  }

  /** The navigated document: fixed head, the cards, fixed tail, with a literal `100%` in its style. */
  lemma DocumentShape(idCards: seq<Card>)
    ensures HasPrefix(Document(idCards), DocumentHead)
    ensures HasSuffix(Document(idCards), DocumentTail)
    ensures GeneratePdf.OccursAt(Document(idCards), Body(idCards), |DocumentHead|)
    ensures GeneratePdf.Contains(Document(idCards), GeneratePdf.FullWidth)
  {
    GeneratePdf.DocumentPieces(HeadStart, GeneratePdf.FullWidth, HeadRest, Body(idCards), DocumentTail);
  }
}

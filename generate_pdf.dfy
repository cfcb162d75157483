/**
 * to_pdf/generate_pdf.go: `GeneratePDFFromIDCards` assembles one HTML page
 * from the cards (one fragment per card, in order, inside a fixed document
 * template), configures a wkhtmltopdf generator and asks it for the PDF.
 * The generator itself is a capability passed in as `PdfEngine`.
 */
module GeneratePdf {
  import opened Wrappers
  import opened Strings
  import opened Data

  datatype PageSize = Letter

  /** The generator options; `None` is an option left at the generator's default. */
  datatype Settings = Settings(
    dpi: Option<nat>,
    pageSize: Option<PageSize>,
    marginTop: Option<nat>,
    marginBottom: Option<nat>,
    marginLeft: Option<nat>,
    marginRight: Option<nat>)

  /**
   * wkhtmltopdf as seen from the core: `NewPDFGenerator` either fails with
   * `initError` or yields a generator, and `Create` renders the added pages
   * under the given settings.
   */
  datatype PdfEngine = PdfEngine(
    initError: Option<Error>,
    create: (Settings, seq<string>) -> Result<Bytes, Error>)

  datatype GeneratePdfResponse = GeneratePdfResponse(pdfContent: Bytes, fileName: string)

  /** The generator object whose option fields the source sets one by one, and its page list. */
  class PdfGenerator {
    var dpi: Option<nat>
    var pageSize: Option<PageSize>
    var marginTop: Option<nat>
    var marginBottom: Option<nat>
    var marginLeft: Option<nat>
    var marginRight: Option<nat>
    var pages: seq<string>

    constructor ()
      ensures Options() == Settings(None, None, None, None, None, None)
      ensures pages == []
    {
      dpi, pageSize := None, None;
      marginTop, marginBottom, marginLeft, marginRight := None, None, None, None;
      pages := [];
    }

    /** The option values currently set. */
    function Options(): Settings
      reads this
    {
      Settings(dpi, pageSize, marginTop, marginBottom, marginLeft, marginRight)
    }

    /** `pdfg.AddPage(page)`: appends a page and leaves every option as it was. */
    method AddPage(page: string)
      modifies this
      ensures pages == old(pages) + [page]
      ensures Options() == old(Options())
    {
      pages := pages + [page];
    }
  }

  /** The options `GeneratePDFFromIDCards` sets: 300 dpi, Letter, 40 on every margin. */
  const Configured := Settings(Some(300), Some(Letter), Some(40), Some(40), Some(40), Some(40))

  /** `isURL` of this package. */
  predicate IsUrl(s: string)
  {
    HasPrefix(s, "http://") || HasPrefix(s, "https://")
  }

  const DataUriPrefix := "data:image/png;base64,"

  /** The `src` attribute of an image card: a URL as it is, anything else as a PNG data URI. */
  function ImageSource(source: string): string
  {
    if IsUrl(source) then source else DataUriPrefix + source
  }

  /** Reads the card source back out of an image `src` attribute. */
  function SourceOfImageSource(src: string): string
  {
    if HasPrefix(src, DataUriPrefix) then src[|DataUriPrefix|..] else src
  }

  const CardDiv := "<div class=\"card\">"
  const EndDiv := "</div>"
  const HtmlIndent := "\n\t\t\t   "
  const HtmlSourceIndent := "\n\t\t\t\t\t"
  const ImageIndent := "\n\t\t   "
  const ImageTagIndent := "\n\t\t\t"
  const ImgTagOpen := "<img src=\""
  const AltOpen := "\" alt=\""
  const AltClose := " Card\">"

  /** The first `Sprintf` template of the loop, applied to an HTML card's source. */
  function HtmlFragment(source: string): string
  {
    HtmlIndent + CardDiv + HtmlSourceIndent + source + HtmlIndent + EndDiv
  }

  /** The `<img>` element: `src` attribute, then the face followed by " Card" as alt text. */
  function ImgTag(src: string, face: string): string
  {
    ImgTagOpen + src + AltOpen + face + AltClose
  }

  /** The second `Sprintf` template of the loop, applied to an image source and a face. */
  function ImageFragment(src: string, face: string): string
  {
    ImageIndent + CardDiv + ImageTagIndent + ImgTag(src, face) + ImageIndent + EndDiv
  }

  /** The text one card adds to `cards`. */
  function Fragment(card: Card): string
  {
    if card.IsHtml() then HtmlFragment(card.source)
    else ImageFragment(ImageSource(card.source), card.face)
  }

  /** The `cards` string after the loop has visited every card of `idCards`. */
  function CardsMarkup(idCards: seq<Card>): string
  {
    if idCards == [] then ""
    else CardsMarkup(idCards[..|idCards| - 1]) + Fragment(idCards[|idCards| - 1])
  }

  const FullWidth := "width: 100%;"

  /** The document template before `%s`, up to the first `100%` of the style sheet. */
  const HeadStart :=
    "\n\t  <!DOCTYPE html>\n\t  <html>\n\t  <head>\n\t   <style>\n"
    + "\t\tbody {\n\t\t margin: 0;\n\t\t padding: 0;\n\t\t font-family: Arial, sans-serif;\n\t\t}\n"
    + "\t\t.card {\n\t\t "

  /** The rest of the template before `%s`. */
  const HeadRest :=
    "\n\t\t margin-bottom: 20px;\n\t\t}\n"
    + "\t\timg {\n\t\t " + FullWidth + "\n\t\t height: auto;\n\t\t}\n"
    + "\t\t.card-info {\n\t\t margin-top: 5px;\n\t\t font-size: 12px;\n\t\t}\n"
    + "\t   </style>\n\t  </head>\n\t  <body>\n\t   "

  /** The document template before `%s`, with each `%%` already turned into `%`. */
  const DocumentHead := HeadStart + FullWidth + HeadRest
  const DocumentTail := "\n\t  </body>\n\t  </html>"

  function Document(idCards: seq<Card>): string
  {
    DocumentHead + CardsMarkup(idCards) + DocumentTail
  }

  /** `fmt.Sprintf("id_cards_%s.pdf", ...)` of a formatted timestamp. */
  function FileName(timestamp: string): string
  {
    "id_cards_" + timestamp + ".pdf"
  }

  /** What `GeneratePDFFromIDCards` returns, as a function of the engine, the cards and the clock reading. */
  function PdfResult(engine: PdfEngine, idCards: seq<Card>, timestamp: string): Result<GeneratePdfResponse, Error>
  {
    if engine.initError.Some? then
      Failure("failed to initialize PDF generator: " + engine.initError.value)
    else
      match engine.create(Configured, [Document(idCards)])
      case Failure(e) => Failure("failed to generate PDF: " + e)
      case Success(pdf) => Success(GeneratePdfResponse(pdf, FileName(timestamp)))
  }

  /**
   * `GeneratePDFFromIDCards`: sets the generator options, builds `cards` with one
   * `+=` per card, wraps it in the template and hands the single page to the engine.
   */
  method GeneratePdfFromIdCards(engine: PdfEngine, idCards: seq<Card>, timestamp: string)
    returns (r: Result<GeneratePdfResponse, Error>)
    ensures r == PdfResult(engine, idCards, timestamp)
  {
    if engine.initError.Some? {
      return Failure("failed to initialize PDF generator: " + engine.initError.value);
    }
    var pdfg := new PdfGenerator();
    pdfg.dpi := Some(300);
    pdfg.pageSize := Some(Letter);
    pdfg.marginTop := Some(40);
    pdfg.marginBottom := Some(40);
    pdfg.marginLeft := Some(40);
    pdfg.marginRight := Some(40);

    var cards := "";
    for i := 0 to |idCards|
      invariant cards == CardsMarkup(idCards[..i])
    {
      var card := idCards[i];
      if card.kind == Html {
        var pageContent := card.source;
        cards := cards + HtmlFragment(pageContent);
      } else {
        var imgSrc;
        if IsUrl(card.source) {
          imgSrc := card.source;
        } else {
          imgSrc := DataUriPrefix + card.source;
        }
        cards := cards + ImageFragment(imgSrc, card.face);
      }
      assert idCards[..i + 1][..i] == idCards[..i];
    }
    assert idCards[..|idCards|] == idCards;

    var html := DocumentHead + cards + DocumentTail;
    pdfg.AddPage(html);
    assert pdfg.Options() == Configured;
    assert pdfg.pages == [Document(idCards)];
    var created := engine.create(pdfg.Options(), pdfg.pages);
    match created {
      case Failure(e) =>
        r := Failure("failed to generate PDF: " + e);
      case Success(pdfBytes) =>
        var fileName := "id_cards_" + timestamp + ".pdf";
        r := Success(GeneratePdfResponse(pdfBytes, fileName));
    }
  }

  /** `t` occurs somewhere in `s`. */
  ghost predicate Contains(s: string, t: string)
  {
    exists k :: 0 <= k <= |s| && OccursAt(s, t, k)
  }

  /** `t` occurs in `s` starting at index `k`. */
  predicate OccursAt(s: string, t: string, k: nat)
  {
    k + |t| <= |s| && s[k..k + |t|] == t
  }

  /** `m` sits right after `x` in `x + m + y`. */
  lemma MiddleAt(x: string, m: string, y: string)
    ensures OccursAt(x + m + y, m, |x|) && Contains(x + m + y, m)
  {
    assert (x + m + y)[|x|..|x| + |m|] == m;
    assert OccursAt(x + m + y, m, |x|);
  }

  /** Where the pieces of a six-part concatenation sit in it. */
  lemma SixPieces(a: string, b: string, c: string, d: string, e: string, f: string)
    ensures OccursAt(a + b + c + d + e + f, b, |a|) && Contains(a + b + c + d + e + f, b)
    ensures OccursAt(a + b + c + d + e + f, d, |a| + |b| + |c|) && Contains(a + b + c + d + e + f, d)
    ensures HasSuffix(a + b + c + d + e + f, f)
  {
    var s := a + b + c + d + e + f;
    assert s == a + b + (c + d + e + f);
    MiddleAt(a, b, c + d + e + f);
    assert s == (a + b + c) + d + (e + f);
    MiddleAt(a + b + c, d, e + f);
    assert s[|s| - |f|..] == f;
  }

  /** Head, body and tail of the document, and a piece inside the head. */
  lemma DocumentPieces(p: string, w: string, q: string, m: string, t: string)
    ensures HasPrefix(p + w + q + m + t, p + w + q)
    ensures HasSuffix(p + w + q + m + t, t)
    ensures OccursAt(p + w + q + m + t, m, |p + w + q|)
    ensures OccursAt(p + w + q + m + t, w, |p|) && Contains(p + w + q + m + t, w)
  {
    var s := p + w + q + m + t;
    assert s[..|p + w + q|] == p + w + q;
    assert s[|s| - |t|..] == t;
    assert s[|p + w + q|..|p + w + q| + |m|] == m by {
      assert s == (p + w + q) + m + t;
    }
    assert s[|p|..|p| + |w|] == w by {
      assert s == p + w + (q + m + t);
    }
    assert OccursAt(s, w, |p|);
  }

  /** The card source can always be recovered from the image `src` it produced. */
  lemma ImageSourceRoundTrip(source: string)
    ensures SourceOfImageSource(ImageSource(source)) == source
    ensures IsUrl(source) ==> ImageSource(source) == source
    ensures !IsUrl(source) ==> HasPrefix(ImageSource(source), DataUriPrefix)
  {
    if IsUrl(source) {
      assert source[0] == 'h' != DataUriPrefix[0];
    } else {
      assert (DataUriPrefix + source)[..|DataUriPrefix|] == DataUriPrefix;
      assert (DataUriPrefix + source)[|DataUriPrefix|..] == source;
    }
  }

  /** An HTML card's fragment holds its source verbatim, inside a `<div class="card">` ... `</div>`. */
  lemma HtmlFragmentEmbedsSource(card: Card)
    requires card.IsHtml()
    ensures OccursAt(Fragment(card), card.source, |HtmlIndent| + |CardDiv| + |HtmlSourceIndent|)
    ensures OccursAt(Fragment(card), CardDiv, |HtmlIndent|)
    ensures HasSuffix(Fragment(card), EndDiv)
  {
    SixPieces(HtmlIndent, CardDiv, HtmlSourceIndent, card.source, HtmlIndent, EndDiv);
  }

  /**
   * An image card's fragment is an `<img>` inside a card `div`, whose `src` is
   * `ImageSource(source)` and whose alt text is the face followed by " Card".
   */
  lemma ImageFragmentShape(card: Card)
    requires !card.IsHtml()
    ensures OccursAt(Fragment(card), ImgTag(ImageSource(card.source), card.face),
                     |ImageIndent| + |CardDiv| + |ImageTagIndent|)
    ensures OccursAt(Fragment(card), CardDiv, |ImageIndent|)
    ensures HasSuffix(Fragment(card), EndDiv)
    ensures OccursAt(ImgTag(ImageSource(card.source), card.face), ImageSource(card.source), |ImgTagOpen|)
    ensures OccursAt(ImgTag(ImageSource(card.source), card.face), card.face + AltClose,
                     |ImgTagOpen| + |ImageSource(card.source)| + |AltOpen|)
  {
    var src := ImageSource(card.source);
    SixPieces(ImageIndent, CardDiv, ImageTagIndent, ImgTag(src, card.face), ImageIndent, EndDiv);
    DocumentPieces(ImgTagOpen, src, AltOpen, card.face + AltClose, "");
    assert ImgTag(src, card.face) == ImgTagOpen + src + AltOpen + (card.face + AltClose) + "";
  }

  /** The `cards` string of two runs of cards is the one of the first run followed by the one of the second. */
  lemma {:induction false} CardsMarkupAppend(a: seq<Card>, b: seq<Card>)
    ensures CardsMarkup(a + b) == CardsMarkup(a) + CardsMarkup(b)
    decreases |b|
  {
    if b == [] {
      assert a + b == a;
    } else {
      var b' := b[..|b| - 1];
      assert (a + b)[..|a + b| - 1] == a + b';
      CardsMarkupAppend(a, b');
    }
  }

  /** One fragment per card, in order: a single card contributes exactly its own fragment. */
  lemma CardsMarkupOne(prefix: seq<Card>, card: Card)
    ensures CardsMarkup(prefix + [card]) == CardsMarkup(prefix) + Fragment(card)
  {
    assert (prefix + [card])[..|prefix|] == prefix;
  }

  /** The document is the fixed head, the card fragments, then the fixed tail; `%%` became a literal `100%`. */
  lemma DocumentShape(idCards: seq<Card>)
    ensures HasPrefix(Document(idCards), DocumentHead)
    ensures HasSuffix(Document(idCards), DocumentTail)
    ensures OccursAt(Document(idCards), CardsMarkup(idCards), |DocumentHead|)
    ensures Contains(Document(idCards), FullWidth)
  {
    DocumentPieces(HeadStart, FullWidth, HeadRest, CardsMarkup(idCards), DocumentTail);
  }

  /** A generator that cannot be created, or a failing `Create`, gives an error and no response. */
  lemma PdfResultFailures(engine: PdfEngine, idCards: seq<Card>, timestamp: string)
    ensures engine.initError.Some? ==> PdfResult(engine, idCards, timestamp).Failure?
    ensures PdfResult(engine, idCards, timestamp).Success? <==>
      engine.initError.None? && engine.create(Configured, [Document(idCards)]).Success?
  {
  }

  /** On success the PDF is what the engine rendered for the single page, and the name is `id_cards_*.pdf`. */
  lemma PdfResultSuccess(engine: PdfEngine, idCards: seq<Card>, timestamp: string)
    requires PdfResult(engine, idCards, timestamp).Success?
    ensures PdfResult(engine, idCards, timestamp).value.pdfContent ==
      engine.create(Configured, [Document(idCards)]).value
    ensures HasPrefix(PdfResult(engine, idCards, timestamp).value.fileName, "id_cards_")
    ensures HasSuffix(PdfResult(engine, idCards, timestamp).value.fileName, ".pdf")
  {
    var name := PdfResult(engine, idCards, timestamp).value.fileName;
    assert name == "id_cards_" + (timestamp + ".pdf");
    ConcatPrefixSuffix("id_cards_", timestamp + ".pdf", ".pdf");
  }
}

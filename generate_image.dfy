/**
 * to_image/generate_image.go: collecting one image per loadable card
 * (`MergeImages`), turning all HTML cards into one image through the PDF
 * generator (`ConvertHTMLCardsToImage`), and stacking the images into one
 * canvas of fixed card-sized slots (`mergeImagesVertically`).
 *
 * A canvas is modelled by its size and the list of rectangles drawn into it,
 * in drawing order; pixels are not modelled.
 */
module GenerateImage {
  import opened Wrappers
  import opened Strings
  import opened Data
  import ImageHelper
  import GeneratePdf

  // ---------------------------------------------------------------------
  // Layout constants (a credit-card-sized slot at 300 DPI)
  // ---------------------------------------------------------------------

  const CardWidth := 1012
  const CardHeight := 638
  /** Gap between two consecutive slots. */
  const Margin := 30
  /** Margin around the column of slots. */
  const SideMargin := 60

  datatype Size = Size(width: nat, height: nat)

  /** `image.Rect(x, y, x + width, y + height)`. */
  datatype Rect = Rect(x: int, y: int, width: nat, height: nat)
  {
    function Right(): int { x + width }
    function Bottom(): int { y + height }

    predicate Inside(outer: Rect)
    {
      outer.x <= x && Right() <= outer.Right() && outer.y <= y && Bottom() <= outer.Bottom()
    }

    /** The two rectangles share no pixel. */
    predicate DisjointFrom(other: Rect)
    {
      Right() <= other.x || other.Right() <= x || Bottom() <= other.y || other.Bottom() <= y
    }
  }

  /** One `draw.Draw` call: the destination rectangle and the index of the image drawn into it. */
  datatype DrawOp = DrawOp(dst: Rect, image: nat)

  /** A canvas of the given size and the drawing calls made on it, in order. */
  datatype Canvas = Canvas(width: nat, height: nat, drawn: seq<DrawOp>)
  {
    function Bounds(): Rect { Rect(0, 0, width, height) }
  }

  // ---------------------------------------------------------------------
  // Fit-within scaling
  // ---------------------------------------------------------------------

  /**
   * An image the layout can scale. With one side zero the source's float ratio
   * for that side is +Inf and the other side decides; a 0x0 image makes the
   * source compute `int(NaN)`, which the model does not give a meaning to.
   */
  predicate Scalable(img: Image)
  {
    img.width > 0 || img.height > 0
  }

  /** `heightRatio < widthRatio`, that is 638/h < 1012/w, cleared of division. */
  predicate HeightConstrains(img: Image)
  {
    CardHeight * img.width < CardWidth * img.height
  }

  /** The scale ratio `min(1012/w, 638/h)` of the source, with x/0 read as +Inf as float64 does. */
  function Ratio(img: Image): real
    requires Scalable(img)
  {
    var widthRatio := if img.width == 0 then 0.0 else (CardWidth as real) / (img.width as real);
    var heightRatio := if img.height == 0 then 0.0 else (CardHeight as real) / (img.height as real);
    if img.width == 0 then heightRatio
    else if img.height == 0 then widthRatio
    else if heightRatio < widthRatio then heightRatio
    else widthRatio
  }

  lemma DivAtMost(a: nat, b: nat, c: nat)
    requires 0 < b && a <= c * b
    ensures a / b <= c
  {
  }

  lemma MulDivCancel(x: nat, b: nat)
    requires 0 < b
    ensures (x * b) / b == x
  {
    var q, r := (x * b) / b, (x * b) % b;
    assert x * b == q * b + r;
    assert (x - q) * b == r;
    if x > q {
      MulAtLeast(x - q, 1, b);
    } else if x < q {
      MulAtLeast(q - x, 1, b);
    }
  }

  lemma MulAtLeast(a: int, c: int, b: nat)
    requires a >= c
    ensures a * b >= c * b
  {
  }

  lemma RealOrderScaled(x: real, y: real, p: real)
    requires 0.0 < p
    ensures x < y <==> x * p < y * p
  {
  }

  /**
   * The scaled size: the constraining side fills the slot exactly, and the
   * other one is the largest whole number of pixels keeping the aspect ratio
   * (the exact rational value rounded down).
   */
  function FitWithin(img: Image): (s: Size)
    requires Scalable(img)
    ensures s.width <= CardWidth && s.height <= CardHeight
    ensures HeightConstrains(img) ==>
      s.height == CardHeight && s.width * img.height <= img.width * CardHeight < (s.width + 1) * img.height
    ensures !HeightConstrains(img) ==>
      s.width == CardWidth && s.height * img.width <= img.height * CardWidth < (s.height + 1) * img.width
  {
    if HeightConstrains(img) then
      DivAtMost(img.width * CardHeight, img.height, CardWidth);
      Size(img.width * CardHeight / img.height, CardHeight)
    else
      DivAtMost(img.height * CardWidth, img.width, CardHeight);
      Size(CardWidth, img.height * CardWidth / img.width)
  }

  lemma RealDivFloor(a: nat, b: nat)
    requires 0 < b
    ensures ((a as real) / (b as real)).Floor == a / b
  {
    var q, r := a / b, a % b;
    assert a == q * b + r;
    assert (a as real) / (b as real) == q as real + (r as real) / (b as real);
    assert 0.0 <= (r as real) / (b as real) < 1.0;
  }

  /** For positive denominators, `a/h < b/w` exactly when `a*w < b*h`. */
  lemma QuotientOrder(a: real, b: real, w: real, h: real)
    requires 0.0 < w && 0.0 < h
    ensures a / h < b / w <==> a * w < b * h
  {
    assert (a / h) * h == a;
    assert (b / w) * w == b;
    assert w * h > 0.0;
    RealOrderScaled(a / h, b / w, w * h);
    assert (a / h) * (w * h) == a * w;
    assert (b / w) * (w * h) == b * h;
  }

  /** Which ratio is smaller is decided by `HeightConstrains`. */
  lemma RatioComparison(img: Image)
    requires img.width > 0 && img.height > 0
    ensures (CardHeight as real) / (img.height as real) < (CardWidth as real) / (img.width as real)
            <==> HeightConstrains(img)
  {
    QuotientOrder(CardHeight as real, CardWidth as real, img.width as real, img.height as real);
    assert (CardHeight * img.width) as real == (CardHeight as real) * (img.width as real);
    assert (CardWidth * img.height) as real == (CardWidth as real) * (img.height as real);
  }

  /** `side * (slot / divisor)`, rounded down, is the integer quotient `side * slot / divisor`. */
  lemma ScaledSideFloor(side: nat, slot: nat, divisor: nat)
    requires 0 < divisor
    ensures ((side as real) * ((slot as real) / (divisor as real))).Floor == side * slot / divisor
  {
    assert (side as real) * ((slot as real) / (divisor as real)) == ((side * slot) as real) / (divisor as real);
    RealDivFloor(side * slot, divisor);
  }

  /** `divisor * (slot / divisor)` is exactly `slot`. */
  lemma ScaledSideExact(slot: nat, divisor: nat)
    requires 0 < divisor
    ensures ((divisor as real) * ((slot as real) / (divisor as real))).Floor == slot
  {
  }

  /**
   * The integer formulation is the source's `int(float64(side) * ratio)`
   * computed exactly: each scaled side is that side times `Ratio`, rounded down.
   */
  lemma FitWithinIsFlooredRatio(img: Image)
    requires Scalable(img)
    ensures FitWithin(img).width == ((img.width as real) * Ratio(img)).Floor
    ensures FitWithin(img).height == ((img.height as real) * Ratio(img)).Floor
  {
    if img.width == 0 {
      ScaledSideExact(CardHeight, img.height);
    } else if img.height == 0 {
      ScaledSideExact(CardWidth, img.width);
    } else {
      RatioComparison(img);
      if HeightConstrains(img) {
        ScaledSideExact(CardHeight, img.height);
        ScaledSideFloor(img.width, CardHeight, img.height);
      } else {
        ScaledSideExact(CardWidth, img.width);
        ScaledSideFloor(img.height, CardWidth, img.width);
      }
    }
  }

  /** An image with exactly the slot's aspect ratio fills the slot. */
  lemma SlotShapedImageFillsSlot(img: Image)
    requires Scalable(img) && img.width * CardHeight == img.height * CardWidth
    ensures FitWithin(img) == Size(CardWidth, CardHeight)
  {
    assert !HeightConstrains(img);
    assert img.width > 0;
    assert img.height * CardWidth == CardHeight * img.width;
    MulDivCancel(CardHeight, img.width);
  }

  // ---------------------------------------------------------------------
  // Slots and placement
  // ---------------------------------------------------------------------

  /** Slot `i` (0-based): its top is `currentY` after `i` advances of 638 + 30. */
  function Slot(i: nat): Rect
  {
    Rect(SideMargin, SideMargin + i * (CardHeight + Margin), CardWidth, CardHeight)
  }

  /** Where image `img` goes in slot `i`: scaled to fit, centred with offsets rounded down. */
  function Placement(i: nat, img: Image): (r: Rect)
    requires Scalable(img)
    ensures Size(r.width, r.height) == FitWithin(img)
    ensures r.Inside(Slot(i))
    ensures r.x - Slot(i).x <= Slot(i).Right() - r.Right() <= r.x - Slot(i).x + 1
    ensures r.y - Slot(i).y <= Slot(i).Bottom() - r.Bottom() <= r.y - Slot(i).y + 1
  {
    var s := FitWithin(img);
    Rect(SideMargin + (CardWidth - s.width) / 2, Slot(i).y + (CardHeight - s.height) / 2, s.width, s.height)
  }

  /** `totalHeight` for `n` images. */
  function CanvasHeight(n: nat): int
  {
    CardHeight * n + Margin * (n - 1) + SideMargin * 2
  }

  /** `totalWidth`. */
  const CanvasWidth := CardWidth + SideMargin * 2

  predicate AllScalable(images: seq<Image>)
  {
    forall i :: 0 <= i < |images| ==> Scalable(images[i])
  }

  /** The canvas `mergeImagesVertically` produces for a non-empty list of images. */
  function Stacked(images: seq<Image>): (c: Canvas)
    requires |images| > 0 && AllScalable(images)
    ensures c.width == 1132 && c.height == 638 * |images| + 30 * (|images| - 1) + 120
    ensures |c.drawn| == |images|
    ensures forall i :: 0 <= i < |images| ==>
      c.drawn[i].image == i && c.drawn[i].dst == Placement(i, images[i])
  {
    Canvas(CanvasWidth, CanvasHeight(|images|),
      seq(|images|, i requires 0 <= i < |images| => DrawOp(Placement(i, images[i]), i)))
  }

  /**
   * Each of the `n` slots lies inside a canvas of `n` slots, whose bottom
   * margin below the last slot is 60 px.
   */
  lemma SlotInsideCanvas(n: nat, i: nat)
    requires i < n
    ensures Slot(i).Inside(Rect(0, 0, CanvasWidth, CanvasHeight(n)))
    ensures Slot(n - 1).Bottom() + SideMargin == CanvasHeight(n)
  {
  }

  /**
   * The slots run top to bottom in list order, each 30 px below the previous
   * one, and are pairwise disjoint.
   */
  lemma SlotsStack(i: nat, j: nat)
    requires i < j
    ensures Slot(i).Bottom() + Margin <= Slot(j).y
    ensures j == i + 1 ==> Slot(j).y - Slot(i).Bottom() == Margin
    ensures Slot(i).DisjointFrom(Slot(j))
  {
    assert Slot(j).y - Slot(i).y == (j - i) * (CardHeight + Margin);
  }

  /** On the stacked canvas image `i` is drawn inside its own slot and inside the canvas. */
  lemma StackedDrawsInsideOwnSlot(images: seq<Image>, i: nat)
    requires |images| > 0 && AllScalable(images)
    requires i < |images|
    ensures Stacked(images).drawn[i].dst.Inside(Slot(i))
    ensures Stacked(images).drawn[i].dst.Inside(Stacked(images).Bounds())
  {
    SlotInsideCanvas(|images|, i);
  }

  /** What is drawn on the stacked canvas for two different images never overlaps. */
  lemma StackedDrawsDisjoint(images: seq<Image>, i: nat, j: nat)
    requires |images| > 0 && AllScalable(images)
    requires i < j < |images|
    ensures Stacked(images).drawn[i].dst.DisjointFrom(Stacked(images).drawn[j].dst)
  {
    var c := Stacked(images);
    SlotsStack(i, j);
    assert c.drawn[i].dst.Inside(Slot(i));
    assert c.drawn[j].dst.Inside(Slot(j));
  }

  /** For a slot-shaped image the centring offsets inside its slot are (0, 0). */
  lemma SlotShapedImageAtSlotOrigin(i: nat, img: Image)
    requires Scalable(img) && img.width * CardHeight == img.height * CardWidth
    ensures Placement(i, img) == Slot(i)
  {
    SlotShapedImageFillsSlot(img);
  }

  /**
   * One iteration of the drawing loop: the ratio, the new size and the
   * centred position of an image whose slot starts at `currentY`.
   */
  method ScaledDestination(k: nat, currentY: int, img: Image) returns (dst: Rect)
    requires Scalable(img) && currentY == Slot(k).y
    ensures dst == Placement(k, img)
  {
    var cardWidth, cardHeight, sideMargin := 1012, 638, 60;
    var origWidth, origHeight := img.width, img.height;
    var newWidth, newHeight;
    if cardHeight * origWidth < cardWidth * origHeight {
      newWidth, newHeight := origWidth * cardHeight / origHeight, cardHeight;
    } else {
      newWidth, newHeight := cardWidth, origHeight * cardWidth / origWidth;
    }
    assert Size(newWidth, newHeight) == FitWithin(img);
    var xPos := sideMargin + ((cardWidth - newWidth) / 2);
    var yPos := currentY + ((cardHeight - newHeight) / 2);
    dst := Rect(xPos, yPos, newWidth, newHeight);
  }

  /** The canvas the drawing loop builds is the stacked layout. */
  lemma StackedCanvas(images: seq<Image>, drawn: seq<DrawOp>)
    requires |images| > 0 && AllScalable(images) && |drawn| == |images|
    requires forall j :: 0 <= j < |images| ==> drawn[j] == DrawOp(Placement(j, images[j]), j)
    ensures Canvas(1012 + 60 * 2, 638 * |images| + 30 * (|images| - 1) + 60 * 2, drawn) == Stacked(images)
  {
    var stacked := Stacked(images);
    assert drawn == stacked.drawn;
  }

  /**
   * `mergeImagesVertically`: an empty list is an error; otherwise the canvas is
   * sized for the images and each image is drawn, scaled and centred, into the
   * next slot, `currentY` moving down one slot per image.
   */
  method MergeImagesVertically(images: seq<Image>) returns (r: Result<Canvas, Error>)
    requires AllScalable(images)
    ensures |images| == 0 <==> r.Failure?
    ensures |images| == 0 ==> r == Failure("no images to merge")
    ensures |images| > 0 ==> r == Success(Stacked(images))
  {
    if |images| == 0 {
      return Failure("no images to merge");
    }
    var cardWidth, cardHeight, margin, sideMargin := 1012, 638, 30, 60;
    var totalHeight := (cardHeight * |images|) + (margin * (|images| - 1)) + (sideMargin * 2);
    var totalWidth := cardWidth + (sideMargin * 2);
    var drawn: seq<DrawOp> := [];

    var currentY := sideMargin;
    for k := 0 to |images|
      invariant |drawn| == k
      invariant currentY == Slot(k).y
      invariant forall j :: 0 <= j < k ==> drawn[j] == DrawOp(Placement(j, images[j]), j)
    {
      var dst := ScaledDestination(k, currentY, images[k]);
      drawn := drawn + [DrawOp(dst, k)];
      currentY := currentY + cardHeight + margin;
    }
    StackedCanvas(images, drawn);
    r := Success(Canvas(totalWidth, totalHeight, drawn));
  }

  // ---------------------------------------------------------------------
  // Collecting the images of a request
  // ---------------------------------------------------------------------

  /**
   * The collaborators of `MergeImages`: the raster loaders, the PDF generator,
   * `convertPDFToImage` (first page rendered by unipdf) and the PNG encoder.
   */
  datatype Env = Env(
    loaders: ImageHelper.Loaders,
    pdf: GeneratePdf.PdfEngine,
    pdfToImage: Bytes -> Result<Image, Error>,
    encodePng: Canvas -> Result<Bytes, Error>)
  {
    /** Every image the decoders hand back can be laid out. */
    ghost predicate Decodable()
    {
      && (forall b :: loaders.decodeImage(b).Success? ==> Scalable(loaders.decodeImage(b).value))
      && (forall b :: pdfToImage(b).Success? ==> Scalable(pdfToImage(b).value))
    }
  }

  datatype GenerateImageResponse = GenerateImageResponse(imageContent: Bytes, fileName: string)

  const NoValidImages := "no valid images found to merge"

  /** The raster load of a non-HTML card: by URL when `isURL(Source)`, from base64 otherwise. */
  function LoadCard(l: ImageHelper.Loaders, card: Card): Result<Image, Error>
    requires !card.IsHtml()
  {
    if ImageHelper.IsUrl(card.source) then ImageHelper.LoadImageFromUrl(l, card.source)
    else ImageHelper.LoadImageFromBase64(l, card.source)
  }

  /** The images loaded directly, in card order, failures dropped. */
  function DirectImages(l: ImageHelper.Loaders, cards: seq<Card>): seq<Image>
  {
    if cards == [] then []
    else
      var last := cards[|cards| - 1];
      var earlier := DirectImages(l, cards[..|cards| - 1]);
      if last.IsHtml() then earlier
      else match LoadCard(l, last)
        case Success(img) => earlier + [img]
        case Failure(_) => earlier
  }

  /** The HTML cards set aside, in card order. */
  function HtmlCards(cards: seq<Card>): seq<Card>
  {
    if cards == [] then []
    else
      var last := cards[|cards| - 1];
      HtmlCards(cards[..|cards| - 1]) + (if last.IsHtml() then [last] else [])
  }

  /**
   * `ConvertHTMLCardsToImage`: one PDF for all the HTML cards, its first page
   * rendered to an image. It fails when either step fails, and otherwise
   * yields exactly one image, however many cards it was given.
   */
  function ConvertHtmlCardsToImage(env: Env, htmlCards: seq<Card>, timestamp: string): (r: Result<seq<Image>, Error>)
    ensures r.Success? ==> |r.value| == 1
    ensures r.Success? ==>
      && GeneratePdf.PdfResult(env.pdf, htmlCards, timestamp).Success?
      && env.pdfToImage(GeneratePdf.PdfResult(env.pdf, htmlCards, timestamp).value.pdfContent).Success?
      && r.value[0] == env.pdfToImage(GeneratePdf.PdfResult(env.pdf, htmlCards, timestamp).value.pdfContent).value
    ensures r.Failure? <==>
      GeneratePdf.PdfResult(env.pdf, htmlCards, timestamp).Failure? ||
      env.pdfToImage(GeneratePdf.PdfResult(env.pdf, htmlCards, timestamp).value.pdfContent).Failure?
  {
    match GeneratePdf.PdfResult(env.pdf, htmlCards, timestamp)
    case Failure(e) => Failure("failed to generate PDF from HTML cards: " + e)
    case Success(pdfResponse) =>
      match env.pdfToImage(pdfResponse.pdfContent)
      case Failure(e) => Failure("failed to convert PDF to image: " + e)
      case Success(img) => Success([img])
  }

  /**
   * What the HTML cards add when they are handed to the converter in the order
   * `htmlCards`: nothing without HTML cards or when conversion fails.
   */
  function HtmlImagesOf(env: Env, htmlCards: seq<Card>, timestamp: string): seq<Image>
  {
    if htmlCards == [] then []
    else match ConvertHtmlCardsToImage(env, htmlCards, timestamp)
      case Success(imgs) => imgs
      case Failure(_) => []
  }

  /** What the HTML cards add when they are set aside in card order. */
  function HtmlImages(env: Env, cards: seq<Card>, timestamp: string): seq<Image>
  {
    HtmlImagesOf(env, HtmlCards(cards), timestamp)
  }

  /** Every image `MergeImages` collects for a request, before stacking. */
  function Collected(env: Env, cards: seq<Card>, timestamp: string): seq<Image>
  {
    DirectImages(env.loaders, cards) + HtmlImages(env, cards, timestamp)
  }

  /** `fmt.Sprintf("id_cards_%s.png", ...)` of a formatted timestamp. */
  function ImageFileName(timestamp: string): string
  {
    "id_cards_" + timestamp + ".png"
  }

  lemma {:induction false} DirectImagesScalable(env: Env, cards: seq<Card>)
    requires env.Decodable()
    ensures AllScalable(DirectImages(env.loaders, cards))
    decreases |cards|
  {
    if cards != [] {
      DirectImagesScalable(env, cards[..|cards| - 1]);
    }
  }

  lemma HtmlImagesOfScalable(env: Env, htmlCards: seq<Card>, timestamp: string)
    requires env.Decodable()
    ensures AllScalable(HtmlImagesOf(env, htmlCards, timestamp))
  {
  }

  /** A reordering of images that can all be laid out can be laid out. */
  lemma PermutationScalable(images: seq<Image>, original: seq<Image>)
    requires multiset(images) == multiset(original) && AllScalable(original)
    ensures AllScalable(images)
  {
    forall i | 0 <= i < |images|
      ensures Scalable(images[i])
    {
      assert images[i] in multiset(original);
    }
  }

  lemma CollectedScalable(env: Env, cards: seq<Card>, timestamp: string)
    requires env.Decodable()
    ensures AllScalable(Collected(env, cards, timestamp))
  {
    DirectImagesScalable(env, cards);
  }

  /**
   * The per-card loop of `MergeImages`, one card after another: HTML cards are
   * set aside in order, the others go to the URL or the base64 loader and are
   * kept when they load.
   */
  method LoadCards(l: ImageHelper.Loaders, idCards: seq<Card>) returns (images: seq<Image>, pdfCards: seq<Card>)
    ensures images == DirectImages(l, idCards)
    ensures pdfCards == HtmlCards(idCards)
  {
    images, pdfCards := [], [];
    for i := 0 to |idCards|
      invariant images == DirectImages(l, idCards[..i])
      invariant pdfCards == HtmlCards(idCards[..i])
    {
      var card := idCards[i];
      assert idCards[..i + 1][..i] == idCards[..i];
      if card.kind == Html {
        pdfCards := pdfCards + [card];
      } else {
        var loaded;
        if ImageHelper.IsUrl(card.source) {
          loaded := ImageHelper.LoadImageFromUrl(l, card.source);
        } else {
          loaded := ImageHelper.LoadImageFromBase64(l, card.source);
        }
        if loaded.Success? {
          images := images + [loaded.value];
        }
      }
    }
    assert idCards[..|idCards|] == idCards;
  }

  /**
   * The orders the source's goroutines can produce: the loaded images appended
   * in any order (`direct`), and the HTML cards set aside in any order
   * (`htmlCards`), which is the order they reach the PDF page in.
   */
  ghost predicate IsArrangement(env: Env, cards: seq<Card>, direct: seq<Image>, htmlCards: seq<Card>)
  {
    && multiset(direct) == multiset(DirectImages(env.loaders, cards))
    && multiset(htmlCards) == multiset(HtmlCards(cards))
  }

  /**
   * What `MergeImages` returns once the images are collected: an error for none,
   * the encoder's error, or the PNG of the stacked canvas under the file name.
   */
  function MergeOutcome(env: Env, images: seq<Image>, timestamp: string): Result<GenerateImageResponse, Error>
    requires AllScalable(images)
  {
    if |images| == 0 then Failure(NoValidImages)
    else match env.encodePng(Stacked(images))
      case Failure(e) => Failure("failed to encode merged image: " + e)
      case Success(png) => Success(GenerateImageResponse(png, ImageFileName(timestamp)))
  }

  /**
   * `MergeImages`, with the goroutines run one after the other: HTML cards are
   * set aside, the others loaded (failures dropped), the HTML cards converted to
   * one image (a failure dropped) that is appended after all the loaded ones,
   * and an empty result is an error. Since the source's goroutines append in
   * whatever order they finish, the contract states the result for some
   * arrangement of the loaded images and of the HTML cards.
   */
  method MergeImages(env: Env, idCards: seq<Card>, timestamp: string)
    returns (r: Result<GenerateImageResponse, Error>)
    requires env.Decodable()
    ensures DirectImages(env.loaders, idCards) == [] && HtmlCards(idCards) == [] ==> r == Failure(NoValidImages)
    ensures r.Success? ==> r.value.fileName == ImageFileName(timestamp)
    ensures exists direct, htmlCards ::
      && IsArrangement(env, idCards, direct, htmlCards)
      && AllScalable(direct + HtmlImagesOf(env, htmlCards, timestamp))
      && r == MergeOutcome(env, direct + HtmlImagesOf(env, htmlCards, timestamp), timestamp)
  {
    var images, pdfCards := LoadCards(env.loaders, idCards);
    ghost var direct := images;

    if |pdfCards| > 0 {
      var htmlImages := ConvertHtmlCardsToImage(env, pdfCards, timestamp);
      if htmlImages.Success? {
        images := images + htmlImages.value;
      }
    }
    assert images == direct + HtmlImagesOf(env, pdfCards, timestamp);
    assert images == Collected(env, idCards, timestamp);
    CollectedScalable(env, idCards, timestamp);
    assert IsArrangement(env, idCards, direct, pdfCards);

    if |images| == 0 {
      r := Failure(NoValidImages);
    } else {
      var merged := MergeImagesVertically(images);
      match merged {
        case Success(mergedImg) =>
          var encoded := env.encodePng(mergedImg);
          if encoded.Failure? {
            r := Failure("failed to encode merged image: " + encoded.error);
          } else {
            r := Success(GenerateImageResponse(encoded.value, "id_cards_" + timestamp + ".png"));
          }
      }
    }
    assert r == MergeOutcome(env, images, timestamp);
  }

  // ---------------------------------------------------------------------
  // Properties of the collection
  // ---------------------------------------------------------------------

  /** `isURL` of to_image and `isURL` of to_pdf are the same test. */
  lemma IsUrlSameInBothPackages(s: string)
    ensures ImageHelper.IsUrl(s) == GeneratePdf.IsUrl(s)
  {
  }

  /** The url/base64 tag of a card is never consulted: only its source decides how it loads. */
  lemma LoadCardIgnoresKindTag(l: ImageHelper.Loaders, card: Card, kind: Kind)
    requires !card.IsHtml() && kind != Html
    ensures LoadCard(l, card) == LoadCard(l, card.(kind := kind))
  {
  }

  /** A card whose source is a URL goes to the URL loader: the base64 decoder plays no part. */
  lemma UrlCardUsesUrlLoader(l: ImageHelper.Loaders, card: Card, decodeBase64: string -> Result<Bytes, Error>)
    requires !card.IsHtml() && ImageHelper.IsUrl(card.source)
    ensures LoadCard(l, card) == ImageHelper.LoadImageFromUrl(l, card.source)
    ensures LoadCard(l, card) == LoadCard(l.(decodeBase64 := decodeBase64), card)
  {
  }

  /** Any other non-HTML card goes to the base64 loader: nothing is fetched. */
  lemma OtherCardUsesBase64Loader(l: ImageHelper.Loaders, card: Card, fetch: string -> Result<Bytes, Error>)
    requires !card.IsHtml() && !ImageHelper.IsUrl(card.source)
    ensures LoadCard(l, card) == ImageHelper.LoadImageFromBase64(l, card.source)
    ensures LoadCard(l, card) == LoadCard(l.(fetch := fetch), card)
  {
  }

  /** Indices of the cards that are raster-loaded successfully. */
  function LoadedIndices(l: ImageHelper.Loaders, cards: seq<Card>): set<nat>
  {
    set i: nat | i < |cards| && !cards[i].IsHtml() && LoadCard(l, cards[i]).Success?
  }

  /** The loaded indices of a list are those of all but its last card, plus the last one if it loads. */
  lemma LoadedIndicesStep(l: ImageHelper.Loaders, cards: seq<Card>)
    requires |cards| > 0
    ensures var n := |cards| - 1;
      LoadedIndices(l, cards) ==
        LoadedIndices(l, cards[..n]) + (if !cards[n].IsHtml() && LoadCard(l, cards[n]).Success? then {n} else {})
  {
    var n := |cards| - 1;
    var earlier := cards[..n];
    var extra: set<nat> := if !cards[n].IsHtml() && LoadCard(l, cards[n]).Success? then {n} else {};
    forall i | i in LoadedIndices(l, cards)
      ensures i in LoadedIndices(l, earlier) + extra
    {
      if i < n {
        assert cards[i] == earlier[i];
      }
    }
    forall i | i in LoadedIndices(l, earlier) + extra
      ensures i in LoadedIndices(l, cards)
    {
      if i < n {
        assert cards[i] == earlier[i];
      }
    }
  }

  /** One image per successfully loaded card: the direct images are exactly as many as those cards. */
  lemma {:induction false} DirectImagesCount(l: ImageHelper.Loaders, cards: seq<Card>)
    ensures |DirectImages(l, cards)| == |LoadedIndices(l, cards)|
    decreases |cards|
  {
    if cards == [] {
      assert LoadedIndices(l, cards) == {};
    } else {
      var n := |cards| - 1;
      var earlier := cards[..n];
      DirectImagesCount(l, earlier);
      LoadedIndicesStep(l, cards);
      assert n !in LoadedIndices(l, earlier);
    }
  }

  /**
   * In every arrangement the number of collected images is the number of
   * successful direct loads, plus one when there are HTML cards and their
   * conversion, in the order they were set aside, succeeds; HTML cards never
   * add more than one image, and a conversion failure adds none.
   */
  lemma CollectedCount(env: Env, cards: seq<Card>, timestamp: string, direct: seq<Image>, htmlCards: seq<Card>)
    requires IsArrangement(env, cards, direct, htmlCards)
    ensures |direct + HtmlImagesOf(env, htmlCards, timestamp)| ==
      |LoadedIndices(env.loaders, cards)| +
      (if HtmlCards(cards) != [] && ConvertHtmlCardsToImage(env, htmlCards, timestamp).Success? then 1 else 0)
  {
    DirectImagesCount(env.loaders, cards);
    assert |direct| == |multiset(direct)| == |DirectImages(env.loaders, cards)|;
    assert |htmlCards| == |multiset(htmlCards)| == |HtmlCards(cards)|;
  }

  /** The card-order run of the loop is one of the arrangements. */
  lemma InputOrderIsArrangement(env: Env, cards: seq<Card>)
    ensures IsArrangement(env, cards, DirectImages(env.loaders, cards), HtmlCards(cards))
  {
  }

  /**
   * The outcome of an arrangement: no image gives "no valid images found to
   * merge", a success is the encoder's PNG of the stacked canvas under the PNG
   * file name, and any other failure is the encoder's.
   */
  lemma MergeOutcomeCases(env: Env, images: seq<Image>, timestamp: string)
    requires AllScalable(images)
    ensures MergeOutcome(env, images, timestamp) == Failure(NoValidImages) <==> |images| == 0
    ensures MergeOutcome(env, images, timestamp).Success? <==>
      |images| > 0 && env.encodePng(Stacked(images)).Success?
    ensures MergeOutcome(env, images, timestamp).Success? ==>
      MergeOutcome(env, images, timestamp).value ==
        GenerateImageResponse(env.encodePng(Stacked(images)).value, ImageFileName(timestamp))
  {
    if |images| > 0 && env.encodePng(Stacked(images)).Failure? {
      var e := env.encodePng(Stacked(images)).error;
      assert ("failed to encode merged image: " + e)[0] == 'f' != NoValidImages[0];
    }
  }

  /** Every arrangement can be laid out. */
  lemma ArrangementScalable(env: Env, cards: seq<Card>, timestamp: string, direct: seq<Image>, htmlCards: seq<Card>)
    requires env.Decodable() && IsArrangement(env, cards, direct, htmlCards)
    ensures AllScalable(direct + HtmlImagesOf(env, htmlCards, timestamp))
  {
    DirectImagesScalable(env, cards);
    PermutationScalable(direct, DirectImages(env.loaders, cards));
    HtmlImagesOfScalable(env, htmlCards, timestamp);
  }

  /** When every card is an image card that loads, every card yields one image. */
  lemma {:induction false} AllDirectCardsLoaded(env: Env, cards: seq<Card>, timestamp: string)
    requires forall i :: 0 <= i < |cards| ==> !cards[i].IsHtml() && LoadCard(env.loaders, cards[i]).Success?
    ensures |Collected(env, cards, timestamp)| == |cards|
    decreases |cards|
  {
    if cards != [] {
      var earlier := cards[..|cards| - 1];
      AllDirectCardsLoaded(env, earlier, timestamp);
    }
    NoHtmlCards(cards);
  }

  lemma {:induction false} NoHtmlCards(cards: seq<Card>)
    requires forall i :: 0 <= i < |cards| ==> !cards[i].IsHtml()
    ensures HtmlCards(cards) == []
    decreases |cards|
  {
    if cards != [] {
      NoHtmlCards(cards[..|cards| - 1]);
    }
  }

  /** The converse of `NoHtmlCards`: an HTML card anywhere in the list is set aside. */
  lemma {:induction false} SomeHtmlCard(cards: seq<Card>, i: nat)
    requires i < |cards| && cards[i].IsHtml()
    ensures HtmlCards(cards) != []
    ensures cards[i] in HtmlCards(cards)
    decreases |cards|
  {
    if i < |cards| - 1 {
      SomeHtmlCard(cards[..|cards| - 1], i);
    }
  }

  /**
   * HTML cards are never raster-loaded: loaders that agree on the loads of the
   * non-HTML cards, whatever they would do with the HTML ones, collect the same images.
   */
  lemma {:induction false} HtmlCardsNeverLoaded(env: Env, cards: seq<Card>, timestamp: string, other: ImageHelper.Loaders)
    requires forall i :: 0 <= i < |cards| && !cards[i].IsHtml() ==> LoadCard(other, cards[i]) == LoadCard(env.loaders, cards[i])
    ensures DirectImages(other, cards) == DirectImages(env.loaders, cards)
    ensures Collected(env, cards, timestamp) == Collected(env.(loaders := other), cards, timestamp)
    decreases |cards|
  {
    if cards != [] {
      var earlier := cards[..|cards| - 1];
      forall i | 0 <= i < |earlier| && !earlier[i].IsHtml()
        ensures LoadCard(other, earlier[i]) == LoadCard(env.loaders, earlier[i])
      {
        assert earlier[i] == cards[i];
      }
      HtmlCardsNeverLoaded(env, earlier, timestamp, other);
    }
  }

  /** A list of HTML cards alone yields no directly loaded image. */
  lemma {:induction false} OnlyHtmlCardsLoadNothing(l: ImageHelper.Loaders, cards: seq<Card>)
    requires forall i :: 0 <= i < |cards| ==> cards[i].IsHtml()
    ensures DirectImages(l, cards) == []
    decreases |cards|
  {
    if cards != [] {
      OnlyHtmlCardsLoadNothing(l, cards[..|cards| - 1]);
    }
  }

  /** The image file is named `id_cards_<timestamp>.png`. */
  lemma ImageFileNameShape(timestamp: string)
    ensures HasPrefix(ImageFileName(timestamp), "id_cards_")
    ensures HasSuffix(ImageFileName(timestamp), ".png")
  {
    assert ImageFileName(timestamp) == "id_cards_" + (timestamp + ".png");
    ConcatPrefixSuffix("id_cards_", timestamp + ".png", ".png");
  }

  /**
   * An image card of 1000x600 and one HTML card, everything succeeding, give
   * two images and a 1132 x 1426 canvas.
   */
  lemma TwoCardScenario(env: Env, imageCard: Card, htmlCard: Card, timestamp: string)
    requires env.Decodable()
    requires !imageCard.IsHtml() && htmlCard.IsHtml()
    requires LoadCard(env.loaders, imageCard) == Success(Image(1000, 600))
    requires ConvertHtmlCardsToImage(env, [htmlCard], timestamp).Success?
    ensures |Collected(env, [imageCard, htmlCard], timestamp)| == 2
    ensures AllScalable(Collected(env, [imageCard, htmlCard], timestamp))
    ensures Stacked(Collected(env, [imageCard, htmlCard], timestamp)).height == 1426
    ensures Stacked(Collected(env, [imageCard, htmlCard], timestamp)).width == 1132
  {
    var cards := [imageCard, htmlCard];
    assert cards[..1] == [imageCard];
    assert [imageCard][..0] == [];
    assert HtmlCards([imageCard]) == [];
    assert HtmlCards(cards) == [htmlCard];
    assert DirectImages(env.loaders, [imageCard]) == [Image(1000, 600)];
    assert DirectImages(env.loaders, cards) == [Image(1000, 600)];
    CollectedScalable(env, cards, timestamp);
  }
}

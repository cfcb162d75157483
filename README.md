# downloadIdCards in Dafny

A model of the core of `downloadIdCards`, a Go service that turns a list of ID
cards into one PDF or one PNG. Each card has a face, a type (`url`, `base64` or
`html`) and a source. The model covers two parts:

- **Layout arithmetic.** This is the vertical-stack compositor that places the
  card images on one canvas: `mergeImagesVertically` and its two benchmark
  copies, plus the simpler `imaging` variant that pastes images edge to edge.
- **String assembly.** This turns the cards into an HTML page for wkhtmltopdf
  (`GeneratePDFFromIDCards`) or for a headless browser (`GenerateWithChromedp`).

The model also covers how `MergeImages` sends each card to a loader, drops the
cards that fail, and adds the single image rendered from all the HTML cards.

The outside world is passed in as function-valued fields of datatypes:

- `ImageHelper.Loaders`: the HTTP fetch, the base64 decoder and the image decoder;
- `GeneratePdf.PdfEngine`: wkhtmltopdf's constructor and its `Create`;
- `GenerateImage.Env`: those two, plus the PDF-to-raster step and the PNG encoder;
- `PdfGeneration.Browser`: chromedp navigating and printing.

The timestamp from `time.Now()` is an opaque string parameter.

The modules are:

- `Wrappers`, `Strings`, `Data`: `Result`/`Option`, Go's `strings.HasPrefix`
  and `HasSuffix`, and the card and image records.
- `ImageHelper` (to_image/helper.go): `isURL` and the two loaders.
- `GeneratePdf` (to_pdf/generate_pdf.go):
  - a `PdfGenerator` class, whose option fields and page list the source sets
    one by one;
  - the fragment templates and the document template;
  - the method `GeneratePdfFromIdCards`, whose `+=` loop is proved equal to the
    specification function `PdfResult`.
- `GenerateImage` (to_image/generate_image.go):
  - the fit-within scaling, stated in exact integer arithmetic and proved equal
    to the floor of the real-valued `min` ratio;
  - the slot layout;
  - the method `MergeImagesVertically`, whose `currentY` loop is proved to build
    the specification canvas `Stacked`;
  - the method `MergeImages`, proved against the specification functions
    `DirectImages`, `HtmlCards`, `HtmlImagesOf` and `MergeOutcome`, for any
    order in which the source's goroutines can append.
- `ImageMerging` (benchmark/image_merging/*.go):
  - `MergeWithDraw` and `MergeWithImgconv`, both proved to build exactly
    `Stacked`, so their geometry is identical to `mergeImagesVertically`;
  - `MergeWithImaging`, whose two loops are proved to build `Pasted`.
- `PdfGeneration` (benchmark/pdf_generation/chromedp.go):
  - a `StringBuilder` class;
  - the `"http"` prefix test;
  - the method `GenerateWithChromedp`, proved to navigate to
    `data:text/html,` followed by the document function `Document`.

A canvas is a value `Canvas(width, height, drawn)`. `drawn` lists the
destination rectangle of each image, in drawing order. Pixels are not modelled.

## Model

| member | source | states |
|---|---|---|
| ImageHelper.IsUrl | to_image/helper.go:13-15 | defines `isURL`: the string starts with `http://` or `https://` |
| ImageHelper.SchemePlusAnythingIsUrl | to_image/helper.go:13-15 | every string that starts with `http://` or `https://` is a URL |
| ImageHelper.UrlIsSchemePlusRest | to_image/helper.go:13-15 | a URL is `http://` or `https://` followed by the rest of the string, the converse of the previous row |
| ImageHelper.ShortIsNotUrl | to_image/helper.go:14 | no string shorter than 7 characters is a URL |
| ImageHelper.IsUrlExamples | to_image/helper.go:13-15 | the test is case-sensitive and prefix-only: `HTTP://a`, `ftp://a`, `https:/` and a data URI are rejected, while `https://` alone and `http://x` are accepted |
| ImageHelper.LoadImageFromUrl | to_image/helper.go:17-24 | a fetch error is returned as is; after a successful fetch the result is exactly the decoder's result on the body |
| ImageHelper.LoadImageFromBase64 | to_image/helper.go:27-34 | a base64 error is returned as is; after a successful decode the result is exactly the image decoder's result on the bytes |
| ImageHelper.UrlFailureSkipsDecoder | to_image/helper.go:18-21 | when the fetch fails the image decoder is never consulted: replacing it changes nothing, and the result is a failure |
| ImageHelper.Base64FailureSkipsDecoder | to_image/helper.go:28-31 | when base64 decoding fails the image decoder is never consulted, and the result is a failure |
| GeneratePdf.IsUrl | to_pdf/generate_pdf.go:117-119 | defines to_pdf's own `isURL`, the same two-prefix test |
| GeneratePdf.ImageSource | to_pdf/generate_pdf.go:49-54 | defines the `src` of an image card: the source itself when it is a URL, otherwise `data:image/png;base64,` followed by the source |
| GeneratePdf.HtmlFragment | to_pdf/generate_pdf.go:43-47 | defines the HTML-card template: indentation, the card `div`, indentation, the source, indentation, `</div>` |
| GeneratePdf.ImgTag | to_pdf/generate_pdf.go:59 | defines the `<img>` element: `<img src="`, the `src`, `" alt="`, the face, ` Card">`; chromedp.go:40 writes the same element |
| GeneratePdf.ImageFragment | to_pdf/generate_pdf.go:57-61 | defines the image-card template: indentation, the card `div`, indentation, the `<img>` element, indentation, `</div>` |
| GeneratePdf.Fragment | to_pdf/generate_pdf.go:40-61 | defines one card's `+=` text: the HTML template around the source for an HTML card, otherwise the image template with the `src` and the face |
| GeneratePdf.CardsMarkup | to_pdf/generate_pdf.go:37-63 | defines the `cards` string: the fragments of the cards, concatenated in card order |
| GeneratePdf.Document | to_pdf/generate_pdf.go:65-93 | defines the page: the fixed head, the cards string, the fixed tail |
| GeneratePdf.FileName | to_pdf/generate_pdf.go:108 | defines the file name `id_cards_<timestamp>.pdf` |
| GeneratePdf.PdfResult | to_pdf/generate_pdf.go:22-114 | defines the outcome: the init error wrapped as "failed to initialize PDF generator: ", the Create error wrapped as "failed to generate PDF: ", or the engine's bytes for the single document page under the file name |
| GeneratePdf.Configured | to_pdf/generate_pdf.go:30-35 | defines the six option settings: 300 dpi, Letter page size, and 40 for the top, bottom, left and right margins |
| GeneratePdf.PdfGenerator.constructor | to_pdf/generate_pdf.go:24 | a new generator has no options set and no pages |
| GeneratePdf.PdfGenerator.AddPage | to_pdf/generate_pdf.go:95-96 | adds the page at the end of the page list and leaves every option unchanged |
| GeneratePdf.GeneratePdfFromIdCards | to_pdf/generate_pdf.go:22-114 | the loop, the option setting, AddPage and Create together give exactly `PdfResult`: an init error, a create error, or the engine's bytes with the file name for the timestamp |
| GeneratePdf.ImageSourceRoundTrip | to_pdf/generate_pdf.go:49-54 | the `src` is the source itself for a URL and `data:image/png;base64,` + source otherwise; in both cases the source can be read back from the `src` |
| GeneratePdf.HtmlFragmentEmbedsSource | to_pdf/generate_pdf.go:40-47 | an HTML card's fragment has the card `div`'s opening tag right after the leading indentation, then the source verbatim after the next indentation, and ends with the closing `</div>` |
| GeneratePdf.ImageFragmentShape | to_pdf/generate_pdf.go:56-61 | an image card's fragment has the card `div`'s opening tag right after the leading indentation and the `<img>` element after the next indentation, and ends with `</div>`; the element carries the computed `src`, and its alt text is the face followed by ` Card` |
| GeneratePdf.CardsMarkupAppend | to_pdf/generate_pdf.go:37-63 | the cards string is a concatenation of one fragment per card, in card order |
| GeneratePdf.CardsMarkupOne | to_pdf/generate_pdf.go:39-62 | one loop iteration appends exactly that card's fragment |
| GeneratePdf.DocumentShape | to_pdf/generate_pdf.go:65-93 | the document is the fixed head, then the cards string at the head's length, then the fixed tail; the `%%` of the template gives a literal `width: 100%;` |
| GeneratePdf.PdfResultFailures | to_pdf/generate_pdf.go:24-102 | an init failure always gives an error; the result is a success exactly when init and Create both succeed |
| GeneratePdf.PdfResultSuccess | to_pdf/generate_pdf.go:104-113 | on success the content is Create's output on the configured settings and the single document page, and the file name starts with `id_cards_` and ends with `.pdf` (the assertion at to_pdf/generate_pdf_test.go:56) |
| GenerateImage.HeightConstrains | to_image/generate_image.go:135 | defines the branch test `heightRatio < widthRatio`, that is 638/h < 1012/w, cleared of division as 638·w < 1012·h |
| GenerateImage.Ratio | to_image/generate_image.go:130-137 | defines the real scale ratio min(1012/w, 638/h), where a zero side's ratio is +Inf under float64, so the ratio is the other side's |
| GenerateImage.FitWithin | to_image/generate_image.go:130-141 | the scaled size never exceeds 1012×638; when the height constrains, the height is 638 and the width is the floor of w·638/h, and otherwise the width is 1012 and the height is the floor of h·1012/w |
| GenerateImage.RatioComparison | to_image/generate_image.go:134-137 | the source's float test `heightRatio < widthRatio` holds exactly when the integer test `638·w < 1012·h` does |
| GenerateImage.FitWithinIsFlooredRatio | to_image/generate_image.go:130-141 | each integer side equals the floor of the original side times min(1012/w, 638/h), computed over the reals |
| GenerateImage.SlotShapedImageFillsSlot | to_image/generate_image.go:130-141 | an image with the slot's 1012:638 shape is scaled to exactly 1012×638 |
| GenerateImage.Slot | to_image/generate_image.go:108-163 | defines slot i: 1012×638 at x = 60 and y = 60 + 668·i, the value of `currentY` after i advances |
| GenerateImage.CanvasWidth | to_image/generate_image.go:115 | defines `totalWidth`: 1012 + 2·60 = 1132 |
| GenerateImage.CanvasHeight | to_image/generate_image.go:114 | defines `totalHeight` for n images: 638·n + 30·(n−1) + 120 |
| GenerateImage.Placement | to_image/generate_image.go:150-156 | the destination has the scaled size, lies inside image i's slot, and is floor-centred: the right gap equals the left gap or exceeds it by one, and the same holds for bottom and top |
| GenerateImage.Stacked | to_image/generate_image.go:108-163 | for n images the canvas is 1132 wide and 638·n + 30·(n−1) + 120 tall whatever their sizes, and the i-th drawing puts image i at its placement in slot i |
| GenerateImage.SlotInsideCanvas | to_image/generate_image.go:108-163 | for any n ≥ 1, every slot of an n-image canvas lies inside the canvas, and the last slot ends 60 px above the bottom |
| GenerateImage.SlotsStack | to_image/generate_image.go:122-163 | slots run top to bottom in list order: an earlier slot ends at least 30 px above a later one begins, neighbours are exactly 30 px apart, and two slots never overlap |
| GenerateImage.StackedDrawsInsideOwnSlot | to_image/generate_image.go:150-163 | for any non-empty list, including a single image, each drawn rectangle is inside its own slot and inside the canvas |
| GenerateImage.StackedDrawsDisjoint | to_image/generate_image.go:150-163 | no two drawn rectangles overlap |
| GenerateImage.SlotShapedImageAtSlotOrigin | to_image/generate_image.go:150-151 | an image with the slot's shape is drawn exactly over its slot |
| GenerateImage.ScaledDestination | to_image/generate_image.go:125-151 | one loop iteration computes exactly the placement of image k, given that `currentY` is the top of slot k |
| GenerateImage.StackedCanvas | to_image/generate_image.go:113-163 | a canvas of the source's computed size, with image j drawn at its placement for every j, is the `Stacked` canvas |
| GenerateImage.MergeImagesVertically | to_image/generate_image.go:102-167 | an empty list gives the error "no images to merge"; any non-empty list succeeds with exactly the `Stacked` canvas |
| GenerateImage.ConvertHtmlCardsToImage | to_image/generate_image.go:170-192 | a success holds exactly one image, and that image is the rasteriser's output on the PDF bytes of the HTML cards; the call fails exactly when PDF generation fails or the PDF cannot be turned into an image |
| GenerateImage.LoadCard | to_image/generate_image.go:47-51 | defines one non-HTML card's load: the URL loader when `isURL` accepts the source, the base64 loader otherwise |
| GenerateImage.DirectImages | to_image/generate_image.go:34-64 | defines the loaded images in card order: the image of every non-HTML card whose load succeeds |
| GenerateImage.HtmlCards | to_image/generate_image.go:41-45 | defines the HTML cards set aside, in card order |
| GenerateImage.HtmlImagesOf | to_image/generate_image.go:66-74 | defines what the HTML cards add in a given order: nothing when there are none or their conversion fails, otherwise the converted image |
| GenerateImage.HtmlImages | to_image/generate_image.go:66-74 | defines what the HTML cards add when they are set aside in card order |
| GenerateImage.Collected | to_image/generate_image.go:34-74 | defines the card-order collection: the loaded images followed by the HTML image |
| GenerateImage.IsArrangement | to_image/generate_image.go:34-64 | defines the orders the goroutines can produce: any permutation of the loaded images, with any permutation of the HTML cards |
| GenerateImage.MergeOutcome | to_image/generate_image.go:76-98 | defines the result for the collected images: "no valid images found to merge" for none, the wrapped encoder error, or the PNG of the stacked canvas under the PNG file name |
| GenerateImage.ImageFileName | to_image/generate_image.go:93 | defines the file name `id_cards_<timestamp>.png` |
| GenerateImage.DirectImagesScalable | to_image/generate_image.go:47-61 | every image the loaders produce can be laid out |
| GenerateImage.CollectedScalable | to_image/generate_image.go:59-74 | every collected image, loaded or rendered from HTML, can be laid out |
| GenerateImage.HtmlImagesOfScalable | to_image/generate_image.go:67-74 | the image rendered from the HTML cards, in any order, can be laid out |
| GenerateImage.PermutationScalable | to_image/generate_image.go:59-61 | images appended in another order can still all be laid out |
| GenerateImage.LoadCards | to_image/generate_image.go:34-64 | the per-card loop collects exactly the direct images, with failures dropped and each card sent to the loader `isURL` chooses, and sets aside exactly the HTML cards |
| GenerateImage.MergeImages | to_image/generate_image.go:27-99 | the result is `MergeOutcome` of some order of the loaded images followed by the image rendered from some order of the HTML cards, with no image at all giving "no valid images found to merge"; without loaded images and HTML cards it is that error, and a success carries the PNG file name |
| GenerateImage.MergeOutcomeCases | to_image/generate_image.go:76-98 | the outcome is "no valid images found to merge" exactly when no image was collected; it is a success exactly when there are images and the encoder succeeds, and then it is the PNG of the stacked canvas under the PNG file name |
| GenerateImage.ArrangementScalable | to_image/generate_image.go:34-74 | every order the goroutines can produce can be laid out |
| GenerateImage.InputOrderIsArrangement | to_image/generate_image.go:34-64 | the card-order run is one of the orders the goroutines can produce |
| GenerateImage.IsUrlSameInBothPackages | to_pdf/generate_pdf.go:117-119 | to_pdf's `isURL` agrees with to_image's on every string |
| GenerateImage.LoadCardIgnoresKindTag | to_image/generate_image.go:41-52 | the `url`/`base64` type tag is never consulted: changing it between the two leaves the outcome unchanged |
| GenerateImage.UrlCardUsesUrlLoader | to_image/generate_image.go:47-48 | a non-HTML card whose source is a URL goes to the URL loader, and the base64 decoder plays no part |
| GenerateImage.OtherCardUsesBase64Loader | to_image/generate_image.go:49-50 | a non-HTML card whose source is not a URL goes to the base64 loader, and the fetch plays no part |
| GenerateImage.DirectImagesCount | to_image/generate_image.go:54-61 | the directly loaded images are as many as the non-HTML cards whose load succeeded; failures are dropped |
| GenerateImage.CollectedCount | to_image/generate_image.go:54-74 | in every order the goroutines can produce, the collected count is the number of successful direct loads, plus one when there are HTML cards and their conversion, in the order they were set aside, succeeded |
| GenerateImage.AllDirectCardsLoaded | to_image/generate_image.go:54-61 | when every card is a non-HTML card that loads, one image is collected per card |
| GenerateImage.NoHtmlCards | to_image/generate_image.go:41-45 | without HTML-type cards nothing is set aside for conversion |
| GenerateImage.SomeHtmlCard | to_image/generate_image.go:41-45 | conversely, any HTML-type card in the list is set aside, so the set-aside list is non-empty |
| GenerateImage.HtmlCardsNeverLoaded | to_image/generate_image.go:41-52 | HTML-type cards are never raster-loaded: for any list of cards, loaders that agree on every non-HTML card collect the same images, whatever they would do with the HTML cards |
| GenerateImage.OnlyHtmlCardsLoadNothing | to_image/generate_image.go:41-45 | a list of HTML cards alone yields no directly loaded image |
| GenerateImage.ImageFileNameShape | to_image/generate_image.go:93 | the file name starts with `id_cards_` and ends with `.png` |
| GenerateImage.TwoCardScenario | to_image/generate_image.go:67-116 | with one 1000×600 image card and one HTML card that converts, two images are collected, giving a 1132×1426 canvas |
| ImageMerging.MergeWithDraw | benchmark/image_merging/draw.go:11-64 | an empty list gives "no images provided"; otherwise the canvas and every destination rectangle are exactly those of `mergeImagesVertically` (`Stacked`) |
| ImageMerging.MergeWithImgconv | benchmark/image_merging/imgconv.go:13-57 | an empty list gives "no images provided"; otherwise the canvas and every destination rectangle are exactly those of `mergeImagesVertically` (`Stacked`) |
| ImageMerging.TotalHeight | benchmark/image_merging/imaging.go:16-24 | defines `totalHeight`: the sum of the image heights |
| ImageMerging.MaxWidth | benchmark/image_merging/imaging.go:17-23 | defines `maxWidth`: the largest image width, 0 for no images |
| ImageMerging.PasteAt | benchmark/image_merging/imaging.go:27-31 | defines image i's paste rectangle: its own size, at x = 0 and y = the sum of the heights before it |
| ImageMerging.Pasted | benchmark/image_merging/imaging.go:16-31 | defines the canvas: `maxWidth` by `totalHeight`, with each image at its paste rectangle, in list order |
| ImageMerging.MergeWithImaging | benchmark/image_merging/imaging.go:11-34 | an empty list gives "no images provided"; otherwise both loops build exactly `Pasted`, which is max-width by sum-of-heights with image i pasted unscaled at the prefix sum of the heights before it |
| ImageMerging.MaxWidthIsMaximum | benchmark/image_merging/imaging.go:19-23 | no image is wider than the canvas, and some image has exactly the canvas width |
| ImageMerging.PrefixHeightStep | benchmark/image_merging/imaging.go:30 | each paste moves the offset down by exactly that image's height |
| ImageMerging.PrefixHeightMonotone | benchmark/image_merging/imaging.go:27-31 | paste offsets never decrease along the list |
| ImageMerging.PastedImagesAbut | benchmark/image_merging/imaging.go:26-31 | the first image starts at the top; each image ends where the next begins; the last ends at the canvas height; every image is inside the canvas |
| ImageMerging.PastedImagesDisjoint | benchmark/image_merging/imaging.go:27-31 | an earlier image ends at or above where any later image begins |
| PdfGeneration.LooksLikeUrl | benchmark/pdf_generation/chromedp.go:34 | defines the bare `"http"` prefix test |
| PdfGeneration.ImageSource | benchmark/pdf_generation/chromedp.go:33-38 | defines the `src` of an image card: the source itself when it passes that test, otherwise `data:image/png;base64,` followed by the source |
| PdfGeneration.Fragment | benchmark/pdf_generation/chromedp.go:28-41 | defines one card's writes: `<div class="card">`, the source and `</div>` for an HTML card, otherwise the one-line image template |
| PdfGeneration.Body | benchmark/pdf_generation/chromedp.go:26-43 | defines the builder's final text: the fragments of the cards, in card order |
| PdfGeneration.Document | benchmark/pdf_generation/chromedp.go:45-72 | defines the page: the fixed head, the body, the fixed tail |
| PdfGeneration.StringBuilder.constructor | benchmark/pdf_generation/chromedp.go:26 | a new builder is empty |
| PdfGeneration.StringBuilder.WriteString | benchmark/pdf_generation/chromedp.go:29-31 | appends the text to the buffer |
| PdfGeneration.StringBuilder.String | benchmark/pdf_generation/chromedp.go:72 | defines `sb.String()`: the text written so far |
| PdfGeneration.GenerateWithChromedp | benchmark/pdf_generation/chromedp.go:16-90 | the builder loop produces exactly `Body`; the browser is sent to `data:text/html,` followed by the document, and its PDF or its error is the result |
| PdfGeneration.WriteCard | benchmark/pdf_generation/chromedp.go:28-41 | the writes for one card add exactly that card's fragment to the builder |
| PdfGeneration.BodyStep | benchmark/pdf_generation/chromedp.go:27-43 | one loop iteration adds exactly that card's fragment to the builder |
| PdfGeneration.UrlLooksLikeUrl | benchmark/pdf_generation/chromedp.go:34 | everything `isURL` accepts also passes the bare `"http"` test |
| PdfGeneration.LooksLikeUrlIsWeaker | benchmark/pdf_generation/chromedp.go:34 | the converse fails: `httpX` passes the `"http"` test but is not a URL for `isURL` |
| PdfGeneration.ImageSourceAgreesWithPdf | benchmark/pdf_generation/chromedp.go:33-38 | this `src` and to_pdf's differ exactly for the sources that start with "http" without being URLs |
| PdfGeneration.ImageSourceRoundTrip | benchmark/pdf_generation/chromedp.go:33-38 | the card source can always be read back from the `src` written for it |
| PdfGeneration.HtmlFragmentShape | benchmark/pdf_generation/chromedp.go:28-31 | an HTML card contributes `<div class="card">`, then its source verbatim, then `</div>`, and nothing else |
| PdfGeneration.ImageFragmentShape | benchmark/pdf_generation/chromedp.go:39-41 | an image card contributes `<div class="card">`, then an `<img>` element, then `</div>`; the element's `src` comes right after `<img src="`, and right after the `src` and `" alt="` comes the alt text, the face followed by ` Card`, closing the tag |
| PdfGeneration.BodyAppend | benchmark/pdf_generation/chromedp.go:26-43 | the builder receives one fragment per card, in card order |
| PdfGeneration.DocumentShape | benchmark/pdf_generation/chromedp.go:45-72 | the document is the fixed head, then the cards, then the fixed tail, and its style holds a literal `width: 100%;` |

## Left out

- Goroutines, `sync.WaitGroup` and the mutex in `MergeImages` (to_image/generate_image.go:32-64):
  - the model loads the cards one after another;
  - because the source's appends to `images` and to `pdfCards` race (to_image/generate_image.go:42-44,59-61), `GenerateImage.MergeImages` states its result for some order of the loaded images and some order of the HTML cards. The second order matters too: it is the order of the cards on the PDF page that is rendered into the HTML image, so a PDF engine that depends on it can make the conversion succeed for one order and fail for another;
  - the HTML image is always appended after `wg.Wait()`, after every loaded image (to_image/generate_image.go:64-74), and the contract keeps it last;
  - the sequential run the method performs is the card-order arrangement (`GenerateImage.InputOrderIsArrangement`). Interleavings themselves are not modelled.
- Floating point:
  - the scale ratio is computed exactly in integers. `GenerateImage.FitWithinIsFlooredRatio` proves it equal to the floor over the reals;
  - float64 rounding of `1012/w` or `638/h` followed by truncation can make the Go result one pixel smaller. For example, the constrained side can come out as 637;
  - `GenerateImage.FitWithin` therefore states the exact result, not the float one.
- `GenerateImage.Scalable`:
  - a 0×0 image makes the source compute `int(NaN)`, so the layout methods require every image to have a non-zero side;
  - an image with exactly one zero side is modelled; its +Inf ratio gives the same result as the integer formula.
- Pixels:
  - the white fill, resampling (`imgconv.Resize`, `draw.NearestNeighbor.Scale`) and `draw.Over` compositing;
  - the `bounds.Min` source point used with the resized image (to_image/generate_image.go:158 and benchmark/image_merging/imgconv.go:53);
  - a canvas records only where each image is drawn.
- `imaging.Paste` clipping and `imaging.New` with a zero size:
  - `Pasted` records the paste rectangles, which lie inside the canvas, so clipping never changes them;
  - when the widest image has width 0 or the heights sum to 0, `imaging.New` returns an empty 0×0 image, while `Pasted` keeps the computed sides: for `[Image(0, 5)]` it is `Canvas(0, 5, …)`. Only the zero-area case differs;
  - images whose bounds do not start at the origin are not distinguished.
- Encoding and decoding:
  - image decoding, PNG encoding and base64 decoding (RFC 4648, section 4) are parameters;
  - so is the PDF-to-raster step `convertPDFToImage` (unipdf). Its `Env.Decodable` assumption says that the decoders only produce images with a non-zero side.
- HTTP:
  - `http.Get` is a parameter;
  - the source does not check the status code, so an error page that decodes as an image is accepted. The model only follows the fetch's own success or failure.
- wkhtmltopdf:
  - the internals of `NewPDFGenerator`, `NewPageReader`, `Create` and `Bytes` are folded into `PdfEngine`;
  - the page reader is modelled as the page's HTML text.
- chromedp:
  - `chromedp.NewContext`, the 10-second timeout, `Navigate`, `PrintToPDF` and the closure assigning `pdfContent` (benchmark/pdf_generation/chromedp.go:18-23,77-87) are one `Browser` call;
  - a timeout or a browser start failure appears only as that call's error.
- `time.Now().Format(...)` is an opaque timestamp string.
- Not part of this model:
  - main.go (the HTTP server) and benchmark/main.go (timing and reporting);
  - benchmark/pdf_generation/wkhtmltopdf.go and benchmark/pdf_to_image/*.go;
  - the fixtures under data/ and benchmark/data/;
  - to_pdf/generate_pdf_test.go, apart from its file-name assertion, because it refers to packages and fields that do not exist.
- Logging (`log.Printf`) of dropped cards is left out.
- `ConvertHTMLCardsToImage` renders all HTML cards into one page image (to_image/generate_image.go:188-191), as `GenerateImage.ConvertHtmlCardsToImage` states; there is no per-card HTML image.
- The "failed to merge images" branch (to_image/generate_image.go:81-84) cannot be taken: `MergeImages` calls the merge only with a non-empty list, and the merge fails only on an empty one. The model leaves the branch out.

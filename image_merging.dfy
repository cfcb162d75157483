/**
 * benchmark/image_merging: three alternative vertical mergers.
 * `MergeWithDraw` (draw.go) and `MergeWithImgconv` (imgconv.go) repeat the
 * slot layout of to_image's `mergeImagesVertically` with a different scaler;
 * `MergeWithImaging` (imaging.go) pastes the images unscaled, one under the other.
 */
module ImageMerging {
  import opened Wrappers
  import opened Data
  import opened GenerateImage

  const NoImages := "no images provided"

  // ---------------------------------------------------------------------
  // draw.go and imgconv.go: the fixed slot layout
  // ---------------------------------------------------------------------

  /**
   * `MergeWithDraw`: an empty list is an error; otherwise every destination
   * rectangle passed to `draw.NearestNeighbor.Scale`, and the canvas size, are
   * those of `mergeImagesVertically` for the same images.
   */
  method MergeWithDraw(images: seq<Image>) returns (r: Result<Canvas, Error>)
    requires AllScalable(images)
    ensures |images| == 0 ==> r == Failure(NoImages)
    ensures |images| > 0 ==> r == Success(Stacked(images))
  {
    if |images| == 0 {
      return Failure(NoImages);
    }
    var cardWidth, cardHeight, margin, sideMargin := 1012, 638, 30, 60;
    var totalHeight := (cardHeight * |images|) + (margin * (|images| - 1)) + (sideMargin * 2);
    var totalWidth := cardWidth + (sideMargin * 2);
    var drawn: seq<DrawOp> := [];

    var currentY := sideMargin;
    for k := 0 to |images|
      invariant |drawn| == k
      invariant currentY == Slot(k).y
      invariant forall j :: 0 <= j < k ==> drawn[j] == DrawOp(Placement(j, images[j]), j)
    {
      var dst := ScaledDestination(k, currentY, images[k]);
      drawn := drawn + [DrawOp(dst, k)];
      currentY := currentY + cardHeight + margin;
    }
    StackedCanvas(images, drawn);
    r := Success(Canvas(totalWidth, totalHeight, drawn));
  }

  /**
   * `MergeWithImgconv`: the same layout, the images resized by `imgconv.Resize`
   * before `draw.Draw`; the rectangles and the canvas size are again those of
   * `mergeImagesVertically`.
   */
  method MergeWithImgconv(images: seq<Image>) returns (r: Result<Canvas, Error>)
    requires AllScalable(images)
    ensures |images| == 0 ==> r == Failure(NoImages)
    ensures |images| > 0 ==> r == Success(Stacked(images))
  {
    if |images| == 0 {
      return Failure(NoImages);
    }
    var cardWidth, cardHeight, margin, sideMargin := 1012, 638, 30, 60;
    var totalHeight := (cardHeight * |images|) + (margin * (|images| - 1)) + (sideMargin * 2);
    var totalWidth := cardWidth + (sideMargin * 2);
    var drawn: seq<DrawOp> := [];

    var currentY := sideMargin;
    for k := 0 to |images|
      invariant |drawn| == k
      invariant currentY == Slot(k).y
      invariant forall j :: 0 <= j < k ==> drawn[j] == DrawOp(Placement(j, images[j]), j)
    {
      var dst := ScaledDestination(k, currentY, images[k]);
      drawn := drawn + [DrawOp(dst, k)];
      currentY := currentY + cardHeight + margin;
    }
    StackedCanvas(images, drawn);
    r := Success(Canvas(totalWidth, totalHeight, drawn));
  }

  // ---------------------------------------------------------------------
  // imaging.go: unscaled pasting
  // ---------------------------------------------------------------------

  /** The sum of the image heights. */
  function TotalHeight(images: seq<Image>): nat
  {
    if images == [] then 0
    else TotalHeight(images[..|images| - 1]) + images[|images| - 1].height
  }

  /** The largest image width, 0 for no images (the loop starts from `maxWidth := 0`). */
  function MaxWidth(images: seq<Image>): nat
  {
    if images == [] then 0
    else
      var earlier := MaxWidth(images[..|images| - 1]);
      var w := images[|images| - 1].width;
      if w > earlier then w else earlier
  }

  /** Where `imaging.Paste` puts image `i`: at x = 0, below all earlier images, unscaled. */
  function PasteAt(images: seq<Image>, i: nat): Rect
    requires i < |images|
  {
    Rect(0, TotalHeight(images[..i]), images[i].width, images[i].height)
  }

  /** The canvas `MergeWithImaging` produces. */
  function Pasted(images: seq<Image>): Canvas
  {
    Canvas(MaxWidth(images), TotalHeight(images),
      seq(|images|, i requires 0 <= i < |images| => DrawOp(PasteAt(images, i), i)))
  }

  /**
   * `MergeWithImaging`: an empty list is an error; otherwise the first loop
   * sums the heights and takes the largest width, and the second pastes each
   * image at `offsetY`, which then moves down by that image's height.
   */
  method MergeWithImaging(images: seq<Image>) returns (r: Result<Canvas, Error>)
    ensures |images| == 0 ==> r == Failure(NoImages)
    ensures |images| > 0 ==> r == Success(Pasted(images))
  {
    if |images| == 0 {
      return Failure(NoImages);
    }
    var totalHeight := 0;
    var maxWidth := 0;
    for k := 0 to |images|
      invariant totalHeight == TotalHeight(images[..k])
      invariant maxWidth == MaxWidth(images[..k])
    {
      assert images[..k + 1][..k] == images[..k];
      totalHeight := totalHeight + images[k].height;
      if images[k].width > maxWidth {
        maxWidth := images[k].width;
      }
    }
    assert images[..|images|] == images;

    var drawn: seq<DrawOp> := [];
    var offsetY := 0;
    for k := 0 to |images|
      invariant |drawn| == k
      invariant offsetY == TotalHeight(images[..k])
      invariant forall j :: 0 <= j < k ==> drawn[j] == DrawOp(PasteAt(images, j), j)
    {
      assert images[..k + 1][..k] == images[..k];
      drawn := drawn + [DrawOp(Rect(0, offsetY, images[k].width, images[k].height), k)];
      offsetY := offsetY + images[k].height;
    }
    assert drawn == Pasted(images).drawn;
    r := Success(Canvas(maxWidth, totalHeight, drawn));
  }

  /** Every image fits the canvas width, and some image is exactly as wide as the canvas. */
  lemma {:induction false} MaxWidthIsMaximum(images: seq<Image>)
    ensures forall i :: 0 <= i < |images| ==> images[i].width <= MaxWidth(images)
    ensures |images| > 0 ==> exists i :: 0 <= i < |images| && images[i].width == MaxWidth(images)
    decreases |images|
  {
    if images != [] {
      var n := |images| - 1;
      var earlier := images[..n];
      MaxWidthIsMaximum(earlier);
      assert forall i :: 0 <= i < n ==> images[i] == earlier[i];
      if n > 0 && MaxWidth(images) != images[n].width {
        var i :| 0 <= i < n && earlier[i].width == MaxWidth(earlier);
        assert images[i].width == MaxWidth(images);
      }
    }
  }

  /** Taking one more image adds exactly its height. */
  lemma PrefixHeightStep(images: seq<Image>, i: nat)
    requires i < |images|
    ensures TotalHeight(images[..i + 1]) == TotalHeight(images[..i]) + images[i].height
  {
    assert images[..i + 1][..i] == images[..i];
  }

  /** A longer prefix is never shorter in height. */
  lemma {:induction false} PrefixHeightMonotone(images: seq<Image>, i: nat, j: nat)
    requires i <= j <= |images|
    ensures TotalHeight(images[..i]) <= TotalHeight(images[..j])
    decreases j - i
  {
    if i < j {
      PrefixHeightStep(images, j - 1);
      PrefixHeightMonotone(images, i, j - 1);
    }
  }

  /**
   * The pasted images abut: the first starts at the top, each next one starts
   * where the previous one ends, the last ends at the canvas height, and each
   * one lies inside the canvas.
   */
  lemma PastedImagesAbut(images: seq<Image>, i: nat)
    requires i < |images|
    ensures Pasted(images).drawn[0].dst.y == 0
    ensures i + 1 < |images| ==> Pasted(images).drawn[i].dst.Bottom() == Pasted(images).drawn[i + 1].dst.y
    ensures i + 1 == |images| ==> Pasted(images).drawn[i].dst.Bottom() == Pasted(images).height
    ensures Pasted(images).drawn[i].dst.Inside(Pasted(images).Bounds())
  {
    var c := Pasted(images);
    assert images[..0] == [];
    PrefixHeightStep(images, i);
    PrefixHeightMonotone(images, i + 1, |images|);
    assert images[..|images|] == images;
    MaxWidthIsMaximum(images);
  }

  /** Two different pasted images never overlap: the earlier one ends above the later one. */
  lemma PastedImagesDisjoint(images: seq<Image>, i: nat, j: nat)
    requires i < j < |images|
    ensures Pasted(images).drawn[i].dst.Bottom() <= Pasted(images).drawn[j].dst.y
  {
    PrefixHeightStep(images, i);
    PrefixHeightMonotone(images, i + 1, j);
  }
}

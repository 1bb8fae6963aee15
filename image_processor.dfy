/** The image guard of the image processor: an array image is described by
    its shape, and `None` stands for a missing image. The resizing and
    normalisation helpers work on pixel data of the image library and are
    not part of this model. */
module ImageProcessor {
  import opened Common

  /** `image.size`: the product of the dimensions (1 for the empty shape). */
  function Size(shape: seq<nat>): nat {
    if |shape| == 0 then 1 else Size(shape[..|shape| - 1]) * shape[|shape| - 1]
  }

  /** An image has no elements exactly when one of its dimensions is 0. */
  lemma {:induction false} SizeZeroIffZeroDimension(shape: seq<nat>)
    ensures Size(shape) == 0 <==> exists i :: 0 <= i < |shape| && shape[i] == 0
  {
    if |shape| > 0 {
      var init := shape[..|shape| - 1];
      SizeZeroIffZeroDimension(init);
      if exists i :: 0 <= i < |init| && init[i] == 0 {
        var i :| 0 <= i < |init| && init[i] == 0;
        assert shape[i] == 0;
      }
      if exists i :: 0 <= i < |shape| && shape[i] == 0 {
        var i :| 0 <= i < |shape| && shape[i] == 0;
        if i < |init| {
          assert init[i] == 0;
        }
      }
    }
  }

  /** `validate_image`: a present, non-empty, three-dimensional image with
      three channels in its last dimension. */
  function ValidateImage(image: Option<seq<nat>>): (ok: bool)
    ensures ok <==>
      image.Some? && |image.value| == 3 && image.value[2] == 3
      && image.value[0] > 0 && image.value[1] > 0
  {
    match image
    case None => false
    case Some(shape) =>
      SizeZeroIffZeroDimension(shape);
      if Size(shape) == 0 then false
      else if |shape| != 3 || shape[2] != 3 then false
      else true
  }

  /** A zero-size image is refused whatever its rank; a grey-scale or
      four-channel image is refused however large. */
  lemma RefusedShapes(h: nat, w: nat)
    ensures !ValidateImage(Some([h, 0, 3]))
    ensures !ValidateImage(Some([h, w]))
    ensures !ValidateImage(Some([h, w, 4]))
    ensures !ValidateImage(Some([]))
  {
  }
}

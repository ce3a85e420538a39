/** Client-side checks on product images before upload, and the arithmetic
    that scales an image down before it is re-encoded. */
module ImageUtils {
  import opened Js
  import opened Strings

  /** The `type` and `size` (in bytes) of a selected `File`. */
  datatype ImageFile = ImageFile(mimeType: string, size: nat)

  /** The result of `validateImageFile`: `{ valid, error }`. */
  datatype Validation = Validation(valid: bool, error: Option<string>)

  /** The default size limit, in megabytes. */
  const DefaultMaxSizeMB: nat := 5

  /** The MIME types the dashboard accepts, in the order the source lists them. */
  const ValidTypes: seq<string> := ["image/jpeg", "image/jpg", "image/png", "image/webp", "image/gif"]

  function MaxBytes(maxSizeMB: nat): nat {
    maxSizeMB * 1024 * 1024
  }

  /** `validateImageFile(file, maxSizeMB)`: missing file, then type, then size; the first failure is reported. */
  function ValidateImageFile(file: Option<ImageFile>, maxSizeMB: nat): (v: Validation)
    ensures v.valid <==> v.error.None?
    ensures v.valid <==> file.Some? && file.value.mimeType in ValidTypes && file.value.size <= MaxBytes(maxSizeMB)
    ensures file.None? ==> v.error == Some("No file selected")
    ensures file.Some? && file.value.mimeType !in ValidTypes ==>
      v.error == Some("Invalid file type. Only JPEG, PNG, WebP, and GIF are allowed.")
    ensures file.Some? && file.value.mimeType in ValidTypes && file.value.size > MaxBytes(maxSizeMB) ==>
      v.error == Some("File size must be less than " + NatToString(maxSizeMB) + "MB")
  {
    if file.None? then Validation(false, Some("No file selected"))
    else if file.value.mimeType !in ValidTypes then
      Validation(false, Some("Invalid file type. Only JPEG, PNG, WebP, and GIF are allowed."))
    else if file.value.size > MaxBytes(maxSizeMB) then
      Validation(false, Some("File size must be less than " + NatToString(maxSizeMB) + "MB"))
    else Validation(true, None)
  }

  /** The limit is inclusive: a file of exactly `maxSizeMB` megabytes passes, one byte more fails. */
  lemma SizeLimitInclusive(t: string, maxSizeMB: nat)
    requires t in ValidTypes
    ensures ValidateImageFile(Some(ImageFile(t, MaxBytes(maxSizeMB))), maxSizeMB).valid
    ensures !ValidateImageFile(Some(ImageFile(t, MaxBytes(maxSizeMB) + 1)), maxSizeMB).valid
  {
  }

  /** A wrong type hides an oversized file: the type error is the one reported. */
  lemma TypeCheckedBeforeSize(f: ImageFile, maxSizeMB: nat)
    requires f.mimeType !in ValidTypes && f.size > MaxBytes(maxSizeMB)
    ensures ValidateImageFile(Some(f), maxSizeMB).error
      == Some("Invalid file type. Only JPEG, PNG, WebP, and GIF are allowed.")
  {
  }

  /** One message per invalid file, in file order, numbered from 1. */
  function FileErrors(files: seq<ImageFile>, maxSizeMB: nat): (errs: seq<string>)
    ensures |errs| <= |files|
  {
    if files == [] then []
    else
      var n := |files| - 1;
      var v := ValidateImageFile(Some(files[n]), maxSizeMB);
      FileErrors(files[..n], maxSizeMB)
        + (if v.valid then [] else ["File " + NatToString(n + 1) + ": " + v.error.value])
  }

  /** No error message exactly when every file is valid. */
  lemma {:induction false} NoErrorsIffAllValid(files: seq<ImageFile>, maxSizeMB: nat)
    ensures FileErrors(files, maxSizeMB) == [] <==>
      forall i :: 0 <= i < |files| ==> ValidateImageFile(Some(files[i]), maxSizeMB).valid
  {
    if files != [] {
      var n := |files| - 1;
      NoErrorsIffAllValid(files[..n], maxSizeMB);
      assert forall i :: 0 <= i < n ==> files[..n][i] == files[i];
    }
  }

  /** An invalid file's message is numbered by its position and carries its own error. */
  lemma LastFileMessage(files: seq<ImageFile>, f: ImageFile, maxSizeMB: nat)
    requires !ValidateImageFile(Some(f), maxSizeMB).valid
    ensures FileErrors(files + [f], maxSizeMB) == FileErrors(files, maxSizeMB)
      + ["File " + NatToString(|files| + 1) + ": " + ValidateImageFile(Some(f), maxSizeMB).error.value]
  {
    assert (files + [f])[..|files|] == files;
  }

  /** `validateImageFiles(files, maxSizeMB)`: the `forEach` over the files, collecting messages. */
  method ValidateImageFiles(files: seq<ImageFile>, maxSizeMB: nat) returns (valid: bool, errors: seq<string>)
    ensures errors == FileErrors(files, maxSizeMB)
    ensures valid <==> forall i :: 0 <= i < |files| ==> ValidateImageFile(Some(files[i]), maxSizeMB).valid
  {
    errors := [];
    var i := 0;
    while i < |files|
      invariant 0 <= i <= |files|
      invariant errors == FileErrors(files[..i], maxSizeMB)
    {
      var v := ValidateImageFile(Some(files[i]), maxSizeMB);
      assert files[..i + 1][..i] == files[..i];
      if !v.valid {
        errors := errors + ["File " + NatToString(i + 1) + ": " + v.error.value];
      }
      i := i + 1;
    }
    assert files[..i] == files;
    NoErrorsIffAllValid(files, maxSizeMB);
    valid := |errors| == 0;
  }

  // ----- Resizing -----

  /** `Math.round(a / b)` for `a >= 0`, `b > 0`: halves round up. */
  function RoundDiv(a: nat, b: nat): (q: nat)
    requires b > 0
    ensures 2 * q * b <= 2 * a + b < 2 * q * b + 2 * b
  {
    (2 * a + b) / (2 * b)
  }

  /** The rounding error is at most half a unit: `|q - a/b| <= 1/2`. */
  lemma RoundDivClose(a: nat, b: nat)
    requires b > 0
    ensures 2 * a <= 2 * RoundDiv(a, b) * b + b && 2 * RoundDiv(a, b) * b <= 2 * a + b
  {
  }

  lemma MulMono(a: nat, b: nat, m: nat)
    requires a <= b
    ensures a * m <= b * m
  {
  }

  /** If `a <= b` then `round(a * m / b) <= m`. */
  lemma RoundDivScaledBound(a: nat, b: nat, m: nat)
    requires 0 < b && a <= b
    ensures RoundDiv(a * m, b) <= m
  {
    var q := RoundDiv(a * m, b);
    MulMono(a, b, m);
    assert q * b < (m + 1) * b;
    FactorBound(q, b, m);
  }

  lemma FactorBound(q: nat, b: nat, m: nat)
    requires b > 0 && q * b < (m + 1) * b
    ensures q <= m
  {
    if q > m {
      MulMono(m + 1, q, b);
    }
  }

  datatype Size = Size(width: nat, height: nat)

  /** The capping of `compressImageToBase64`: a landscape image is capped in
      width, a portrait or square one in height; the other side is scaled by the same ratio. */
  function Fit(w: nat, h: nat, maxWidth: nat, maxHeight: nat): (s: Size)
    ensures w > h && w > maxWidth ==> s.width == maxWidth && s.height == RoundDiv(h * maxWidth, w)
    ensures w <= h && h > maxHeight ==> s.height == maxHeight && s.width == RoundDiv(w * maxHeight, h)
    ensures w > h && w <= maxWidth ==> s == Size(w, h)
    ensures w <= h && h <= maxHeight ==> s == Size(w, h)
  {
    if w > h then
      if w > maxWidth then Size(maxWidth, RoundDiv(h * maxWidth, w)) else Size(w, h)
    else
      if h > maxHeight then Size(RoundDiv(w * maxHeight, h), maxHeight) else Size(w, h)
  }

  /** The capped image keeps the aspect ratio to within half a pixel on the scaled side. */
  lemma FitKeepsRatio(w: nat, h: nat, maxWidth: nat, maxHeight: nat)
    ensures w > h && w > maxWidth ==> (var s := Fit(w, h, maxWidth, maxHeight);
      2 * h * maxWidth <= 2 * s.height * w + w && 2 * s.height * w <= 2 * h * maxWidth + w)
    ensures w <= h && h > maxHeight ==> (var s := Fit(w, h, maxWidth, maxHeight);
      2 * w * maxHeight <= 2 * s.width * h + h && 2 * s.width * h <= 2 * w * maxHeight + h)
  {
    if w > h && w > maxWidth {
      RoundDivClose(h * maxWidth, w);
    } else if w <= h && h > maxHeight {
      RoundDivClose(w * maxHeight, h);
    }
  }

  /** With the same bound on both sides, as every caller uses (1200 by 1200 on
      the product pages, 1920 by 1920 by default), the result fits the box. */
  lemma FitSquareBox(w: nat, h: nat, m: nat)
    ensures Fit(w, h, m, m).width <= m && Fit(w, h, m, m).height <= m
  {
    if w > h && w > m {
      RoundDivScaledBound(h, w, m);
    } else if w <= h && h > m {
      RoundDivScaledBound(w, h, m);
    }
  }

  /** A capped image never grows: neither side is larger than before. */
  lemma FitNeverEnlarges(w: nat, h: nat, maxWidth: nat, maxHeight: nat)
    ensures Fit(w, h, maxWidth, maxHeight).width <= w && Fit(w, h, maxWidth, maxHeight).height <= h
  {
    if w > h && w > maxWidth {
      RoundDivScaledBound(maxWidth, w, h);
      assert h * maxWidth == maxWidth * h;
    } else if w <= h && h > maxHeight {
      RoundDivScaledBound(maxHeight, h, w);
      assert w * maxHeight == maxHeight * w;
    }
  }

  /** With different bounds only one side is capped: a landscape image can keep a height above `maxHeight`. */
  lemma UnequalBoundsCapOneSide()
    ensures Fit(2000, 1900, 1920, 100) == Size(1920, 1824)
  {
  }
}

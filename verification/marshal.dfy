/**
 * `proc_image` and `convert_image`: normalise the channel layout, describe the
 * input and output buffers to the engine, copy the engine's output out, free
 * it, and rebuild a typed image from the copied bytes.
 */
module Marshal {
  import opened Results
  import opened MachineInts
  import opened NativeAbi
  import opened Engine
  import opened TilePlanner

  /** The pixel layouts `convert_image` can build. */
  datatype ImageKind = Gray | GrayAlpha | Rgb | Rgba

  function ChannelCount(kind: ImageKind): nat {
    match kind
    case Gray => 1
    case GrayAlpha => 2
    case Rgb => 3
    case Rgba => 4
  }

  /** The caller's image, seen through its size and its bytes per pixel; pixel values are not modelled. */
  datatype InputImage = InputImage(width: u32, height: u32, bytesPerPixel: u8)

  /** A typed image over row-major interleaved bytes. */
  datatype TypedImage = TypedImage(kind: ImageKind, width: u32, height: u32, data: seq<u8>)

  /** The panics of `proc_image` and `convert_image`. */
  datatype ProcError =
    | DimensionTooLarge  // width or height does not fit in i32
    | Overflow           // an i32 product of the output size overflows
    | NegativeLength     // the buffer length is negative, so it is no usize
    | UnexpectedChannel  // `convert_image` has no layout for the channel count
    | BufferTooSmall     // `from_raw` gets fewer bytes than the layout needs

  /** The native calls `proc_image` made, in order, and how it ended. */
  datatype ProcRun = ProcRun(calls: seq<NativeCall>, outcome: Result<TypedImage, ProcError>)

  /**
   * Channel count handed to the engine: one byte per pixel is widened to RGB,
   * two to RGBA, anything else is passed on as its own count.
   */
  function NormaliseChannels(bytesPerPixel: u8): (c: u8)
    ensures c != 1 && c != 2
    ensures bytesPerPixel == 1 ==> c == 3
    ensures bytesPerPixel == 2 ==> c == 4
    ensures bytesPerPixel !in {1, 2} ==> c == bytesPerPixel
  {
    if bytesPerPixel == 1 then 3
    else if bytesPerPixel == 2 then 4
    else bytesPerPixel
  }

  /** The layout `convert_image` picks for a channel count. */
  function KindFor(channels: u8): (k: Option<ImageKind>)
    ensures k.Some? <==> 1 <= channels <= 4
    ensures k.Some? ==> ChannelCount(k.value) == channels
  {
    match channels
    case 4 => Some(Rgba)
    case 3 => Some(Rgb)
    case 2 => Some(GrayAlpha)
    case 1 => Some(Gray)
    case _ => None
  }

  /**
   * `convert_image`: the layout for `channels`, then `from_raw`, which needs at
   * least `width * height * channels` bytes.
   */
  function ConvertImage(width: u32, height: u32, channels: u8, bytes: seq<u8>): (r: Result<TypedImage, ProcError>)
    ensures r.Ok? <==> 1 <= channels <= 4 && width * height * channels <= |bytes|
    ensures !(1 <= channels <= 4) ==> r == Err(UnexpectedChannel)
    ensures r.Ok? ==>
              && ChannelCount(r.value.kind) == channels
              && r.value.width == width && r.value.height == height
              && r.value.data == bytes
  {
    match KindFor(channels)
    case None => Err(UnexpectedChannel)
    case Some(kind) =>
      if width * height * channels <= |bytes| then Ok(TypedImage(kind, width, height, bytes))
      else Err(BufferTooSmall)
  }

  /** A typed image is rebuilt from its own size, channel count and bytes. */
  lemma ConvertImageRoundTrip(img: TypedImage)
    requires img.width * img.height * ChannelCount(img.kind) <= |img.data|
    ensures ConvertImage(img.width, img.height, ChannelCount(img.kind), img.data) == Ok(img)
  {
  }

  /**
   * The output descriptor: the input scaled by `scale` in both dimensions (width
   * first), channels kept; scale 1 copies the input descriptor.
   */
  function OutputDesc(input: ImageDesc, scale: u32): (out: Option<ImageDesc>)
    ensures scale == 1 ==> out == Some(input)
    ensures scale != 1 ==>
              (out.Some? <==> InI32(input.w * U32AsI32(scale)) && InI32(input.h * U32AsI32(scale)))
    ensures scale != 1 && out.Some? ==>
              out.value == ImageDesc(input.w * U32AsI32(scale), input.h * U32AsI32(scale), input.c)
  {
    if scale == 1 then Some(input)
    else
      match MulI32(input.w, U32AsI32(scale))
      case None => None
      case Some(w) =>
        match MulI32(input.h, U32AsI32(scale))
        case None => None
        case Some(h) => Some(ImageDesc(w, h, input.c))
  }

  /** `h * w * channels` in `i32`, then converted to `usize`. */
  function CopyLength(out: ImageDesc, channels: u8): (r: Result<nat, ProcError>)
    ensures r.Ok? <==> InI32(out.h * out.w) && InI32(out.h * out.w * channels) && out.h * out.w * channels >= 0
    ensures r.Ok? ==> r.value == out.h * out.w * channels
  {
    match MulI32(out.h, out.w)
    case None => Err(Overflow)
    case Some(area) =>
      match MulI32(area, channels)
      case None => Err(Overflow)
      case Some(length) => if length < 0 then Err(NegativeLength) else Ok(length)
  }

  /** The first `length` bytes of the engine's output buffer, copied into an owned buffer. */
  function CopyOut(pixels: nat -> u8, length: nat): (bytes: seq<u8>)
    ensures |bytes| == length
    ensures forall i :: 0 <= i < length ==> bytes[i] == pixels(i)
  {
    seq(length, i requires 0 <= i => pixels(i))
  }

  /**
   * `proc_image`. `pixels` stands for the engine's output buffer and `status`
   * for the value `realcugan_process` returns, which is never inspected.
   */
  function ProcImage(handle: Handle, img: InputImage, pixels: nat -> u8, status: i32): (run: ProcRun)
    ensures run.outcome == Err(DimensionTooLarge) <==> img.width > I32_MAX || img.height > I32_MAX
    ensures |run.calls| <= 2
    ensures run.calls == [] ==> run.outcome.Err?
    ensures run.calls != [] ==>
              && run.calls[0].Process?
              && run.calls[0].input.w == img.width && run.calls[0].input.h == img.height
              && run.calls[0].input.c == NormaliseChannels(img.bytesPerPixel)
    ensures |run.calls| == 2 ==> run.calls[1] == FreeImage
  {
    var channels := NormaliseChannels(img.bytesPerPixel);
    if img.width > I32_MAX || img.height > I32_MAX then ProcRun([], Err(DimensionTooLarge))
    else
      var input := ImageDesc(img.width, img.height, channels);
      match OutputDesc(input, handle.scale)
      case None => ProcRun([], Err(Overflow))
      case Some(output) =>
        var processed := [Process(input, output)];
        match CopyLength(output, channels)
        case Err(e) => ProcRun(processed, Err(e))
        case Ok(length) =>
          var copied := CopyOut(pixels, length);
          ProcRun(processed + [FreeImage], ConvertImage(I32AsU32(output.w), I32AsU32(output.h), channels, copied))
  }

  /** Every size `proc_image` computes for a scaled output fits in `i32`. */
  predicate FitsI32(img: InputImage, scale: nat, channels: nat) {
    && img.width <= I32_MAX && img.height <= I32_MAX
    && img.width * scale <= I32_MAX && img.height * scale <= I32_MAX
    && (img.height * scale) * (img.width * scale) <= I32_MAX
    && (img.height * scale) * (img.width * scale) * channels <= I32_MAX
  }

  /**
   * What `proc_image` is meant to return for a scale of 2 to 4, stated without
   * descriptors: the size checks, then the channel count, then the input scaled
   * in both dimensions over the engine's first `height * width * channels` bytes.
   */
  function ScaledImage(img: InputImage, scale: nat, pixels: nat -> u8): Result<TypedImage, ProcError>
    requires 2 <= scale <= 4
  {
    var channels := NormaliseChannels(img.bytesPerPixel);
    if img.width > I32_MAX || img.height > I32_MAX then Err(DimensionTooLarge)
    else if !FitsI32(img, scale, channels) then Err(Overflow)
    else if !(1 <= img.bytesPerPixel <= 4) then Err(UnexpectedChannel)
    else
      var w, h := img.width * scale, img.height * scale;
      assert 0 <= h * w;
      assert 0 <= h * w * channels;
      Ok(TypedImage(KindFor(channels).value, w, h, CopyOut(pixels, h * w * channels)))
  }

  /** For the scales a handle can have, `proc_image` returns `ScaledImage`. */
  lemma ProcImageOutcome(handle: Handle, img: InputImage, pixels: nat -> u8, status: i32)
    requires SupportedScale(handle.scale)
    ensures ProcImage(handle, img, pixels, status).outcome == ScaledImage(img, handle.scale, pixels)
  {
    if img.width <= I32_MAX && img.height <= I32_MAX {
      var input := ImageDesc(img.width, img.height, NormaliseChannels(img.bytesPerPixel));
      ScaledOutputDesc(input, handle.scale);
      if img.width * handle.scale <= I32_MAX && img.height * handle.scale <= I32_MAX {
        ScaledProcOutcome(handle, img, pixels, status);
      }
    }
  }

  /** `ProcImageOutcome` once the scaled width and height are known to fit. */
  lemma ScaledProcOutcome(handle: Handle, img: InputImage, pixels: nat -> u8, status: i32)
    requires SupportedScale(handle.scale)
    requires img.width * handle.scale <= I32_MAX && img.height * handle.scale <= I32_MAX
    ensures ProcImage(handle, img, pixels, status).outcome == ScaledImage(img, handle.scale, pixels)
  {
    var channels := NormaliseChannels(img.bytesPerPixel);
    var w, h := img.width * handle.scale, img.height * handle.scale;
    ScaledOutputDesc(ImageDesc(img.width, img.height, channels), handle.scale);
    CopyLengthOfSizes(w, h, channels);
    if h * w <= I32_MAX && h * w * channels <= I32_MAX {
      ConvertCopied(w, h, channels, CopyOut(pixels, h * w * channels));
    }
  }

  lemma ScaledOutputDesc(input: ImageDesc, scale: u32)
    requires 2 <= scale <= 4 && 0 <= input.w && 0 <= input.h
    ensures OutputDesc(input, scale) ==
              if input.w * scale <= I32_MAX && input.h * scale <= I32_MAX
              then Some(ImageDesc(input.w * scale, input.h * scale, input.c))
              else None
  {
    assert U32AsI32(scale) == scale;
  }

  lemma CopyLengthOfSizes(w: i32, h: i32, channels: u8)
    requires 0 <= w && 0 <= h
    ensures CopyLength(ImageDesc(w, h, channels), channels) ==
              if h * w <= I32_MAX && h * w * channels <= I32_MAX then Ok(h * w * channels) else Err(Overflow)
  {
    var area := h * w;
    MulNonNegative(h, w);
    MulNonNegative(area, channels);
    if area <= I32_MAX {
      assert MulI32(h, w) == Some(area);
    } else {
      assert MulI32(h, w) == None;
    }
  }

  lemma MulNonNegative(a: int, b: int)
    requires 0 <= a && 0 <= b
    ensures 0 <= a * b
  {
  }

  lemma ConvertCopied(w: i32, h: i32, channels: u8, bytes: seq<u8>)
    requires 0 <= w && 0 <= h && |bytes| == h * w * channels
    ensures ConvertImage(I32AsU32(w), I32AsU32(h), channels, bytes) ==
              if 1 <= channels <= 4 then Ok(TypedImage(KindFor(channels).value, w, h, bytes))
              else Err(UnexpectedChannel)
  {
    assert w * h == h * w;
  }

  /**
   * For the scales a handle can have, `proc_image` succeeds exactly when the
   * sizes fit and the caller's image has 1 to 4 bytes per pixel; the result is
   * the input scaled in both dimensions, with the normalised channel count, over
   * the first `height * width * channels` bytes of the engine's output.
   */
  lemma ProcImageShape(handle: Handle, img: InputImage, pixels: nat -> u8, status: i32)
    requires SupportedScale(handle.scale)
    ensures var run := ProcImage(handle, img, pixels, status);
      var channels := NormaliseChannels(img.bytesPerPixel);
      && (run.outcome.Ok? <==> FitsI32(img, handle.scale, channels) && 1 <= img.bytesPerPixel <= 4)
      && (run.outcome.Ok? ==>
            var out := run.outcome.value;
            && ChannelCount(out.kind) == channels
            && out.width == img.width * handle.scale
            && out.height == img.height * handle.scale
            && |out.data| == out.height * out.width * channels
            && forall i :: 0 <= i < |out.data| ==> out.data[i] == pixels(i))
  {
    ProcImageOutcome(handle, img, pixels, status);
  }

  /**
   * For the scales a handle can have, the failures of `proc_image` are the
   * size checks and the channel count; a short or negative copy cannot happen.
   */
  lemma ProcImageErrors(handle: Handle, img: InputImage, pixels: nat -> u8, status: i32)
    requires SupportedScale(handle.scale)
    ensures var run := ProcImage(handle, img, pixels, status);
      var channels := NormaliseChannels(img.bytesPerPixel);
      && (run.outcome == Err(DimensionTooLarge) <==> img.width > I32_MAX || img.height > I32_MAX)
      && (run.outcome == Err(Overflow) <==>
            img.width <= I32_MAX && img.height <= I32_MAX && !FitsI32(img, handle.scale, channels))
      && (run.outcome == Err(UnexpectedChannel) <==>
            FitsI32(img, handle.scale, channels) && !(1 <= img.bytesPerPixel <= 4))
      && run.outcome != Err(NegativeLength)
      && run.outcome != Err(BufferTooSmall)
  {
    ProcImageOutcome(handle, img, pixels, status);
  }

  /**
   * The engine's buffer is freed at most once, and exactly when the copy length
   * could be computed; the free comes right after the single process call. When
   * the length computation panics after processing, the buffer is never freed.
   */
  lemma ProcImageFreesOnceAfterCopy(handle: Handle, img: InputImage, pixels: nat -> u8, status: i32)
    ensures var run := ProcImage(handle, img, pixels, status);
      && Count(run.calls, EngineProcess) <= 1
      && Count(run.calls, ImageFree) <= 1
      && (Count(run.calls, ImageFree) == 1 ==>
            OnlyAt(run.calls, EngineProcess, 0) && OnlyAt(run.calls, ImageFree, 1))
      && (Count(run.calls, ImageFree) == 1 <==>
            run.outcome.Ok? || run.outcome.error in {UnexpectedChannel, BufferTooSmall})
      && (Count(run.calls, EngineProcess) == 1 && Count(run.calls, ImageFree) == 0 ==>
            run.outcome.Err? && run.outcome.error in {Overflow, NegativeLength})
  {
    var run := ProcImage(handle, img, pixels, status);
    if |run.calls| == 2 {
      assert run.calls[..1] == [run.calls[0]];
    }
  }

  /** The status `realcugan_process` returns changes nothing. */
  lemma ProcImageIgnoresStatus(handle: Handle, img: InputImage, pixels: nat -> u8, s1: i32, s2: i32)
    ensures ProcImage(handle, img, pixels, s1) == ProcImage(handle, img, pixels, s2)
  {
  }

  /** Channel normalisation makes the gray and gray-alpha layouts of `convert_image` unreachable from `proc_image`. */
  lemma ProcImageNeverGray(handle: Handle, img: InputImage, pixels: nat -> u8, status: i32)
    ensures ProcImage(handle, img, pixels, status).outcome.Ok? ==>
              ProcImage(handle, img, pixels, status).outcome.value.kind in {Rgb, Rgba}
  {
  }

  /** No handle `new` returns has scale 1, so the scale-1 branch of `proc_image` is dead. */
  lemma ScaleOneBranchDead(args: NewArgs, order: Scale3Order, device: Device)
    requires New(args, order, device).outcome.Ok?
    ensures New(args, order, device).outcome.value.scale != 1
  {
  }
}

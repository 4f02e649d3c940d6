/** The image-load bridge: `load_image` calls the SOIL decoder and packs
    its outcome into an OCaml `option` of an image record. */
module SoilWrapper {
  import opened MlValues

  /** What `SOIL_load_image` reports: a null buffer, or the image's size,
      the channel count the file really has, and the bytes it allocated. */
  datatype SoilResult =
    | NullBuffer
    | Pixels(width: int, height: int, realChannels: int, data: seq<bv8>)

  /** The decoder: `SOIL_load_image` applied to `String_val(path)` (the path
      up to its first NUL byte) and the requested channel count. */
  type Decoder = (string, int) -> SoilResult

  /** The OCaml `option`: `Val_none` is `None`, `Val_some(v)` is `Some(v)`. */
  datatype Option<+T> = None | Some(value: T)

  /** `caml_ba_alloc(CAML_BA_UINT8, 1, data, size)`: a one-dimensional
      uint8 bigarray of declared length `dim` over the memory `data`,
      which is wrapped and not copied. */
  datatype Bigarray = Uint8Array1(dim: int, data: seq<bv8>)

  /** The four-field record `load_image` fills in. */
  datatype ImageData = ImageData(width: int, height: int, channels: int, data: Bigarray)

  /** The channel count used for the record and the buffer size: the
      forced count, or the real one when 0 ("auto") was requested. */
  function ResolveChannels(forceChannels: int, realChannels: int): (c: int) {
    if forceChannels != 0 then forceChannels else realChannels
  }

  /** `load_image`. */
  function LoadImage(path: string, forceChannels: int, decode: Decoder): (r: Option<ImageData>)
    ensures var out := decode(path, IntVal(forceChannels));
      (r.None? <==> out.NullBuffer?) &&
      (r.Some? ==>
        r.value.width == out.width &&
        r.value.height == out.height &&
        (IntVal(forceChannels) != 0 ==> r.value.channels == IntVal(forceChannels)) &&
        (IntVal(forceChannels) == 0 ==> r.value.channels == out.realChannels) &&
        r.value.data.dim == r.value.width * r.value.height * r.value.channels &&
        r.value.data.data == out.data)
  {
    var force := IntVal(forceChannels);
    match decode(path, force)
    case NullBuffer => None
    case Pixels(width, height, realChannels, data) =>
      var channels := ResolveChannels(force, realChannels);
      Some(ImageData(width, height, channels, Uint8Array1(width * height * channels, data)))
  }

  /** What SOIL promises of a successful decode: a non-negative size and a
      buffer holding width * height * channels bytes, where channels is
      the requested count if one was forced and the real count otherwise. */
  predicate SoilContract(out: SoilResult, forceChannels: int) {
    out.Pixels? ==>
      out.width >= 0 && out.height >= 0 &&
      |out.data| == out.width * out.height *
        (if forceChannels != 0 then forceChannels else out.realChannels)
  }

  /** A record the bridge returns describes its buffer exactly: the
      declared length is the number of bytes behind it. */
  predicate WellFormed(image: ImageData) {
    image.width >= 0 && image.height >= 0 &&
    image.data.dim == image.width * image.height * image.channels &&
    |image.data.data| == image.data.dim
  }

  /** Whenever the decoder keeps SOIL's promise, every `Some` result is well formed. */
  lemma LoadImageWellFormed(path: string, forceChannels: int, decode: Decoder)
    requires SoilContract(decode(path, IntVal(forceChannels)), IntVal(forceChannels))
    ensures LoadImage(path, forceChannels, decode).Some? ==>
      WellFormed(LoadImage(path, forceChannels, decode).value)
  {
  }

  /** With a forced channel count, what the file really has makes no difference. */
  lemma ForcedChannelsIgnoreRealChannels(path: string, forceChannels: int, d1: Decoder, d2: Decoder)
    requires IntVal(forceChannels) != 0
    requires var o1, o2 := d1(path, IntVal(forceChannels)), d2(path, IntVal(forceChannels));
      o1.Pixels? && o2.Pixels? &&
      o1.width == o2.width && o1.height == o2.height && o1.data == o2.data
    ensures LoadImage(path, forceChannels, d1) == LoadImage(path, forceChannels, d2)
  {
  }
}

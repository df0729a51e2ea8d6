/** The format registry of src/lib/media.ts: the format tags of each media type, the option
    lists offered to the user, and the MIME table. Everything here is constant data and
    total functions over it. */
module Media {
  import opened Wrappers

  datatype MediaType = Audio | Image | Video

  /** The error `inferMediaType` and `getMimeType` throw, whose message is
      "Unknown Media Format: " followed by the tag. */
  datatype MediaError = UnknownMediaFormat(format: string)

  /** A converted file as the cache stores it (the `ConvertedMediaItem` record). The blob is its
      bytes, `size` its length in bytes, and `date` its creation time in milliseconds. */
  datatype MediaItem = MediaItem(
    id: string,
    originalName: string,
    convertedName: string,
    blob: seq<int>,
    mediaType: MediaType,
    size: nat,
    date: int)

  /** An entry of a format drop-down: the label shown (`label`) and the tag selected. */
  datatype FormatOption = FormatOption(name: string, value: string)

  const AudioFormats: seq<string> := [
    "mp3", "wav", "aac", "ogg", "flac", "wma", "m4a", "aiff", "alac", "ac3", "amr", "au", "mka",
    "mid", "mp2", "mpa", "ra", "wv", "opus", "dts", "eac3", "mpc", "tak", "tta", "w64"]

  const ImageFormats: seq<string> := ["jpeg", "png", "gif", "webp", "avif", "tiff", "bmp", "ico", "svg"]

  const VideoFormats: seq<string> := [
    "mp4", "avi", "mkv", "mov", "wmv", "flv", "webm", "mpeg", "3gp", "ts", "m4v", "m2v", "m2ts",
    "mts", "vob", "mpg", "asf", "rm", "swf", "rmvb", "divx", "xvid", "h264", "h265", "vp9", "av1"]

  /** The tag list `mediaFormats[t]`. */
  function FormatsOf(t: MediaType): seq<string>
  {
    match t
    case Audio => AudioFormats
    case Image => ImageFormats
    case Video => VideoFormats
  }

  predicate IsAudioFormat(format: string) { format in AudioFormats }
  predicate IsImageFormat(format: string) { format in ImageFormats }
  predicate IsVideoFormat(format: string) { format in VideoFormats }

  /** A tag of some media type. */
  predicate IsRegistered(format: string)
  {
    IsAudioFormat(format) || IsImageFormat(format) || IsVideoFormat(format)
  }

  // The disjointness facts are split into small lemmas so that each compares few literals.

  lemma AudioImageDisjoint()
    ensures forall i :: 0 <= i < |AudioFormats| ==> AudioFormats[i] !in ImageFormats
  {
  }

  lemma AudioVideoDisjointLow()
    ensures forall i :: 0 <= i < 8 ==> AudioFormats[i] !in VideoFormats
  {
  }

  lemma AudioVideoDisjointMid()
    ensures forall i :: 8 <= i < 16 ==> AudioFormats[i] !in VideoFormats
  {
  }

  lemma AudioVideoDisjointHigh()
    ensures forall i :: 16 <= i < |AudioFormats| ==> AudioFormats[i] !in VideoFormats
  {
  }

  lemma ImageVideoDisjoint()
    ensures forall i :: 0 <= i < |ImageFormats| ==> ImageFormats[i] !in VideoFormats
  {
  }

  /** The three tag lists have no tag in common. */
  lemma FormatListsDisjoint()
    ensures forall f :: f in AudioFormats ==> f !in ImageFormats && f !in VideoFormats
    ensures forall f :: f in ImageFormats ==> f !in VideoFormats
  {
    AudioImageDisjoint();
    AudioVideoDisjointLow();
    AudioVideoDisjointMid();
    AudioVideoDisjointHigh();
    ImageVideoDisjoint();
  }

  /** The owning type of a tag; the lists are tested audio first, then image, then video. */
  function InferMediaType(format: string): (r: Result<MediaType, MediaError>)
    ensures r.Ok? <==> IsRegistered(format)
    ensures r.Ok? ==> format in FormatsOf(r.value)
    ensures r.Err? ==> r.error == UnknownMediaFormat(format)
  {
    if IsAudioFormat(format) then Ok(Audio)
    else if IsImageFormat(format) then Ok(Image)
    else if IsVideoFormat(format) then Ok(Video)
    else Err(UnknownMediaFormat(format))
  }

  /** Every registered tag belongs to exactly one type, and that is the type inferred for it. */
  lemma InferMediaTypeOwner(t: MediaType, format: string)
    requires format in FormatsOf(t)
    ensures InferMediaType(format) == Ok(t)
    ensures forall u :: format in FormatsOf(u) ==> u == t
  {
    FormatListsDisjoint();
  }

  // ---------------------------------------------------------------- option lists

  const BaseImageFormats: seq<FormatOption> := [
    FormatOption("JPEG", "jpeg"), FormatOption("PNG", "png"), FormatOption("GIF", "gif"),
    FormatOption("WEBP", "webp")]

  const AdvancedImageFormats: seq<FormatOption> := [
    FormatOption("TIFF", "tiff"), FormatOption("BMP", "bmp"), FormatOption("ICO", "ico"),
    FormatOption("SVG", "svg")]

  const ExtendedImageFormats: seq<FormatOption> := BaseImageFormats + AdvancedImageFormats

  const BaseVideoFormats: seq<FormatOption> := [
    FormatOption("MP4", "mp4"), FormatOption("AVI", "avi"), FormatOption("MKV", "mkv"),
    FormatOption("MOV", "mov")]

  const AdvancedVideoFormats: seq<FormatOption> := [
    FormatOption("WMV", "wmv"), FormatOption("FLV", "flv"), FormatOption("WEBM", "webm"),
    FormatOption("MPEG", "mpeg"), FormatOption("3GP", "3gp"), FormatOption("TS", "ts"),
    FormatOption("M4V", "m4v"), FormatOption("M2V", "m2v"), FormatOption("M2TS", "m2ts"),
    FormatOption("MTS", "mts"), FormatOption("VOB", "vob"), FormatOption("MPG", "mpg"),
    FormatOption("ASF", "asf"), FormatOption("RM", "rm"), FormatOption("SWF", "swf"),
    FormatOption("RMVB", "rmvb"), FormatOption("DIVX", "divx"), FormatOption("XVID", "xvid"),
    FormatOption("H264", "h264"), FormatOption("H265", "h265"), FormatOption("VP9", "vp9"),
    FormatOption("AV1", "av1")]

  const ExtendedVideoFormats: seq<FormatOption> := BaseVideoFormats + AdvancedVideoFormats

  const BaseAudioFormats: seq<FormatOption> := [
    FormatOption("MP3", "mp3"), FormatOption("WAV", "wav"), FormatOption("AAC", "aac"),
    FormatOption("OGG", "ogg")]

  const AdvancedAudioFormats: seq<FormatOption> := [
    FormatOption("FLAC", "flac"), FormatOption("WMA", "wma"), FormatOption("M4A", "m4a"),
    FormatOption("AIFF", "aiff"), FormatOption("ALAC", "alac"), FormatOption("AC3", "ac3"),
    FormatOption("AMR", "amr"), FormatOption("AU", "au"), FormatOption("MKA", "mka"),
    FormatOption("MID", "mid"), FormatOption("MP2", "mp2"), FormatOption("MPA", "mpa"),
    FormatOption("RA", "ra"), FormatOption("WV", "wv"), FormatOption("OPUS", "opus"),
    FormatOption("DTS", "dts"), FormatOption("EAC3", "eac3"), FormatOption("MPC", "mpc"),
    FormatOption("TAK", "tak"), FormatOption("TTA", "tta"), FormatOption("W64", "w64"),
    FormatOption("WV", "wv"), FormatOption("WMA", "wma")]

  const ExtendedAudioFormats: seq<FormatOption> := BaseAudioFormats + AdvancedAudioFormats

  /** The short list a type offers outside advanced mode. */
  function BaseOptions(t: MediaType): seq<FormatOption>
  {
    match t
    case Audio => BaseAudioFormats
    case Image => BaseImageFormats
    case Video => BaseVideoFormats
  }

  /** The entries advanced mode adds. */
  function AdvancedOptions(t: MediaType): seq<FormatOption>
  {
    match t
    case Audio => AdvancedAudioFormats
    case Image => AdvancedImageFormats
    case Video => AdvancedVideoFormats
  }

  /** The full list a type offers in advanced mode. */
  function ExtendedOptions(t: MediaType): seq<FormatOption>
  {
    match t
    case Audio => ExtendedAudioFormats
    case Image => ExtendedImageFormats
    case Video => ExtendedVideoFormats
  }

  /** Each extended list is its base list followed by its advanced list, so it starts with the
      base list and is longer than it. */
  lemma ExtendedIsBaseThenAdvanced(t: MediaType)
    ensures ExtendedOptions(t) == BaseOptions(t) + AdvancedOptions(t)
    ensures BaseOptions(t) < ExtendedOptions(t)
  {
  }

  /** Every tag offered in any list of a type is a registered tag of that type. */
  lemma OptionValuesRegistered(t: MediaType)
    ensures forall o :: o in ExtendedOptions(t) ==> o.value in FormatsOf(t)
    ensures forall o :: o in BaseOptions(t) ==> o.value in FormatsOf(t)
  {
    var opts := ExtendedOptions(t);
    assert forall i :: 0 <= i < |opts| ==> opts[i].value in FormatsOf(t);
  }

  /** The advanced audio list repeats the WV and WMA entries; lists are data and are not
      deduplicated. */
  lemma AdvancedAudioRepeats()
    ensures |AdvancedAudioFormats| == 23
    ensures AdvancedAudioFormats[1] == AdvancedAudioFormats[22] == FormatOption("WMA", "wma")
    ensures AdvancedAudioFormats[13] == AdvancedAudioFormats[21] == FormatOption("WV", "wv")
  {
  }

  /** `avif` is a registered image tag that no option list offers. */
  lemma AvifNeverOffered()
    ensures "avif" in ImageFormats
    ensures forall t, o :: o in ExtendedOptions(t) ==> o.value != "avif"
  {
    forall t ensures forall o :: o in ExtendedOptions(t) ==> o.value != "avif" {
      var opts := ExtendedOptions(t);
      assert forall i :: 0 <= i < |opts| ==> opts[i].value != "avif";
    }
  }

  // ---------------------------------------------------------------- MIME table

  const AudioMimeTypes: map<string, string> := map[
    "mp3" := "audio/mpeg", "wav" := "audio/wav", "aac" := "audio/aac", "ogg" := "audio/ogg",
    "flac" := "audio/flac", "wma" := "audio/x-ms-wma", "m4a" := "audio/mp4",
    "aiff" := "audio/aiff", "alac" := "audio/mp4", "ac3" := "audio/ac3", "amr" := "audio/amr",
    "au" := "audio/basic", "mka" := "audio/x-matroska", "mid" := "audio/midi",
    "mp2" := "audio/mpeg", "mpa" := "audio/mpeg", "ra" := "audio/x-realaudio",
    "wv" := "audio/wavpack", "opus" := "audio/opus", "dts" := "audio/vnd.dts",
    "eac3" := "audio/eac3", "mpc" := "audio/x-musepack", "tak" := "audio/x-tak",
    "tta" := "audio/x-tta", "w64" := "audio/x-w64"]

  const ImageMimeTypes: map<string, string> := map[
    "jpeg" := "image/jpeg", "png" := "image/png", "gif" := "image/gif", "webp" := "image/webp",
    "avif" := "image/avif", "tiff" := "image/tiff", "bmp" := "image/bmp",
    "ico" := "image/vnd.microsoft.icon", "svg" := "image/svg+xml"]

  const VideoMimeTypes: map<string, string> := map[
    "mp4" := "video/mp4", "avi" := "video/x-msvideo", "mkv" := "video/x-matroska",
    "mov" := "video/quicktime", "wmv" := "video/x-ms-wmv", "flv" := "video/x-flv",
    "webm" := "video/webm", "mpeg" := "video/mpeg", "3gp" := "video/3gpp", "ts" := "video/mp2t",
    "m4v" := "video/x-m4v", "m2v" := "video/mpeg", "m2ts" := "video/mp2t",
    "mts" := "video/mp2t", "vob" := "video/dvd", "mpg" := "video/mpeg",
    "asf" := "video/x-ms-asf", "rm" := "application/vnd.rn-realmedia",
    "swf" := "application/x-shockwave-flash", "rmvb" := "application/vnd.rn-realmedia-vbr",
    "divx" := "video/divx", "xvid" := "video/xvid", "h264" := "video/h264",
    "h265" := "video/h265", "vp9" := "video/vp9", "av1" := "video/av1"]

  /** The table `mimeTypeMap[t]`. */
  function MimeTable(t: MediaType): map<string, string>
  {
    match t
    case Audio => AudioMimeTypes
    case Image => ImageMimeTypes
    case Video => VideoMimeTypes
  }

  lemma AudioTableCovers()
    ensures forall f :: f in AudioFormats ==> f in AudioMimeTypes
  {
    assert forall i :: 0 <= i < |AudioFormats| ==> AudioFormats[i] in AudioMimeTypes;
  }

  lemma AudioTableKeys()
    ensures forall f :: f in AudioMimeTypes ==> f in AudioFormats
  {
  }

  lemma ImageTableCovers()
    ensures forall f :: f in ImageFormats ==> f in ImageMimeTypes
  {
    assert forall i :: 0 <= i < |ImageFormats| ==> ImageFormats[i] in ImageMimeTypes;
  }

  lemma ImageTableKeys()
    ensures forall f :: f in ImageMimeTypes ==> f in ImageFormats
  {
  }

  lemma VideoTableCovers()
    ensures forall f :: f in VideoFormats ==> f in VideoMimeTypes
  {
    assert forall i :: 0 <= i < |VideoFormats| ==> VideoFormats[i] in VideoMimeTypes;
  }

  lemma VideoTableKeys()
    ensures forall f :: f in VideoMimeTypes ==> f in VideoFormats
  {
  }

  /** Each type's table has an entry for exactly the tags of that type. */
  lemma MimeTablesCoverFormats(t: MediaType)
    ensures forall f :: f in FormatsOf(t) <==> f in MimeTable(t)
  {
    match t
    case Audio => AudioTableCovers(); AudioTableKeys();
    case Image => ImageTableCovers(); ImageTableKeys();
    case Video => VideoTableCovers(); VideoTableKeys();
  }

  /** The MIME type of a tag, looked up in the table of the type `InferMediaType` gives it. */
  function GetMimeType(format: string): (r: Result<string, MediaError>)
    ensures r.Ok? <==> IsRegistered(format)
    ensures r.Err? ==> r.error == UnknownMediaFormat(format)
    ensures r.Ok? ==> var t := InferMediaType(format).value;
                        format in MimeTable(t) && r.value == MimeTable(t)[format]
  {
    if IsAudioFormat(format) then
      AudioTableCovers();
      Ok(AudioMimeTypes[format])
    else if IsImageFormat(format) then
      ImageTableCovers();
      Ok(ImageMimeTypes[format])
    else if IsVideoFormat(format) then
      VideoTableCovers();
      Ok(VideoMimeTypes[format])
    else
      Err(UnknownMediaFormat(format))
  }

  /** The video tags whose MIME type is an `application/` one. */
  const ApplicationVideoFormats: seq<string> := ["rm", "swf", "rmvb"]

  lemma AudioMimePrefixLow()
    ensures forall i :: 0 <= i < 13 ==>
              AudioFormats[i] in AudioMimeTypes && "audio/" <= AudioMimeTypes[AudioFormats[i]]
  {
  }

  lemma AudioMimePrefixHigh()
    ensures forall i :: 13 <= i < |AudioFormats| ==>
              AudioFormats[i] in AudioMimeTypes && "audio/" <= AudioMimeTypes[AudioFormats[i]]
  {
  }

  lemma ImageMimePrefixAt()
    ensures forall i :: 0 <= i < |ImageFormats| ==>
              ImageFormats[i] in ImageMimeTypes && "image/" <= ImageMimeTypes[ImageFormats[i]]
  {
  }

  lemma VideoMimePrefixLow()
    ensures forall i :: 0 <= i < 13 ==>
              VideoFormats[i] in VideoMimeTypes && "video/" <= VideoMimeTypes[VideoFormats[i]]
  {
  }

  lemma VideoMimePrefixHigh()
    ensures forall i :: 13 <= i < |VideoFormats| ==>
              VideoFormats[i] in VideoMimeTypes &&
              if 17 <= i < 20 then "application/" <= VideoMimeTypes[VideoFormats[i]]
              else "video/" <= VideoMimeTypes[VideoFormats[i]]
  {
  }

  /** Every audio tag's MIME type starts with `audio/`. */
  lemma AudioMimePrefix()
    ensures forall f :: f in AudioFormats ==> f in AudioMimeTypes && "audio/" <= AudioMimeTypes[f]
  {
    AudioMimePrefixLow();
    AudioMimePrefixHigh();
  }

  /** Every image tag's MIME type starts with `image/`. */
  lemma ImageMimePrefix()
    ensures forall f :: f in ImageFormats ==> f in ImageMimeTypes && "image/" <= ImageMimeTypes[f]
  {
    ImageMimePrefixAt();
  }

  /** Video MIME types start with `video/` except for `rm`, `swf` and `rmvb`, which start with
      `application/`. */
  lemma VideoMimePrefix()
    ensures forall f :: f in VideoFormats && f !in ApplicationVideoFormats ==>
              f in VideoMimeTypes && "video/" <= VideoMimeTypes[f]
    ensures forall f :: f in ApplicationVideoFormats ==>
              f in VideoFormats && "application/" <= VideoMimeTypes[f]
  {
    VideoMimePrefixLow();
    VideoMimePrefixHigh();
    assert VideoFormats[17..20] == ApplicationVideoFormats;
  }
}

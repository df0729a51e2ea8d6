/** The helpers of src/lib/utils.ts that the converter page and the media list use: the date
    buckets of the media list, grouping by bucket, the format drop-down and the preview of the
    selected file. Dates are milliseconds since the epoch, already shifted to local time, so a
    calendar day is a whole number of days. */
module Utils {
  import opened Wrappers
  import opened Media
  import Grouping

  // ---------------------------------------------------------------- date buckets

  const MsPerDay: int := 1000 * 60 * 60 * 24

  /** The day number of a time: `new Date(y, m, d)` drops the time of day. */
  function Day(ms: int): int
  {
    ms / MsPerDay
  }

  const Labels: seq<string> := ["Today", "Yesterday", "Last Week", "Last Month", "Older"]

  /** `getDateGroup(date)` at time `now`: the label of the whole number of days from the date's
      midnight to today's. */
  function DateGroup(now: int, date: int): (group: string)
    ensures var d := Day(now) - Day(date);
      && group in Labels
      && (group == "Today" <==> d == 0)
      && (group == "Yesterday" <==> d == 1)
      && (group == "Last Week" <==> d < 7 && d != 0 && d != 1)
      && (group == "Last Month" <==> 7 <= d < 30)
      && (group == "Older" <==> 30 <= d)
  {
    var diffDays := Day(now) - Day(date);
    if diffDays == 0 then "Today"
    else if diffDays == 1 then "Yesterday"
    else if diffDays < 7 then "Last Week"
    else if diffDays < 30 then "Last Month"
    else "Older"
  }

  /** A date later than today fails the first two tests and lands in "Last Week". */
  lemma FutureIsLastWeek(now: int, date: int)
    requires Day(date) > Day(now)
    ensures DateGroup(now, date) == "Last Week"
  {
  }

  /** The time of day is discarded: every moment of the date's calendar day gets its label. */
  lemma TimeOfDayIgnored(now: int, date: int, offset: int)
    requires 0 <= offset < MsPerDay
    ensures DateGroup(now, Day(date) * MsPerDay + offset) == DateGroup(now, date)
  {
    var m := Day(date) * MsPerDay + offset;
    assert m / MsPerDay == Day(date);
  }

  /** The position of a label from newest to oldest. */
  function Rank(group: string): nat
  {
    if group == "Today" then 0
    else if group == "Yesterday" then 1
    else if group == "Last Week" then 2
    else if group == "Last Month" then 3
    else 4
  }

  /** For dates up to today the buckets follow the calendar: an older date never gets a newer
      label. */
  lemma DateGroupChronological(now: int, newer: int, older: int)
    requires Day(older) <= Day(newer) <= Day(now)
    ensures Rank(DateGroup(now, newer)) <= Rank(DateGroup(now, older))
  {
  }

  /** No label is a property name a plain object inherits, so grouping by label never throws. */
  lemma LabelsNotInherited()
    ensures forall l :: l in Labels ==> l !in Grouping.InheritedKeys
  {
  }

  /** `groupConvertedMedia(media)` at time `now`: one non-empty group per label that occurs,
      holding the items with that label in input order. The source reads the clock once per
      item; here every item is labelled against the same `now`. */
  method GroupConvertedMedia(media: seq<MediaItem>, now: int)
    returns (groups: map<string, seq<MediaItem>>)
    ensures var key := (item: MediaItem) => DateGroup(now, item.date);
      && (forall k :: k in groups <==> exists i :: 0 <= i < |media| && key(media[i]) == k)
      && (forall k :: k in groups ==> groups[k] == Grouping.Select(media, key, k))
      && (forall k :: k in groups ==> groups[k] != [] && k in Labels)
  {
    var key := (item: MediaItem) => DateGroup(now, item.date);
    LabelsNotInherited();
    var grouped := Grouping.GroupBy(media, key);
    assert grouped.Some?;
    groups := grouped.value;
  }

  // ---------------------------------------------------------------- the converter page

  /** The list `updateFormatOptions` offers for the selected type and mode. */
  function OptionsFor(mediaType: Option<MediaType>, advanced: bool): (r: seq<FormatOption>)
    ensures mediaType.None? ==> r == []
    ensures mediaType.Some? ==> BaseOptions(mediaType.value) <= r
    ensures mediaType.Some? && advanced ==> r == ExtendedOptions(mediaType.value)
    ensures mediaType.Some? && !advanced ==> r == BaseOptions(mediaType.value)
    ensures forall o :: o in r ==> InferMediaType(o.value) == Ok(mediaType.value)
  {
    match mediaType
    case None => []
    case Some(t) =>
      ExtendedIsBaseThenAdvanced(t);
      OptionValuesRegistered(t);
      forall o | o in ExtendedOptions(t) ensures InferMediaType(o.value) == Ok(t) {
        InferMediaTypeOwner(t, o.value);
      }
      if advanced then ExtendedOptions(t) else BaseOptions(t)
  }

  /** The type `updatePreview` reads off a MIME type, testing `image/`, `video/` and `audio/`
      in that order; at most one of them can match. */
  function ClassifyMime(mime: string): (r: Option<MediaType>)
    ensures r == Some(Image) <==> "image/" <= mime
    ensures r == Some(Video) <==> "video/" <= mime
    ensures r == Some(Audio) <==> "audio/" <= mime
    ensures r.None? <==> !("image/" <= mime || "video/" <= mime || "audio/" <= mime)
  {
    if "image/" <= mime then
      assert mime[0] == 'i';
      Some(Image)
    else if "video/" <= mime then
      assert mime[0] == 'v';
      Some(Video)
    else if "audio/" <= mime then Some(Audio)
    else None
  }

  /** The MIME type the registry gives a tag is read back as the tag's own type, except for
      the three video tags whose MIME type is an `application/` one, which show no preview. */
  lemma RegistryMimeClassifies(t: MediaType, f: string)
    requires f in FormatsOf(t)
    ensures GetMimeType(f).Ok?
    ensures ClassifyMime(GetMimeType(f).value) == if f in ApplicationVideoFormats then None else Some(t)
  {
    InferMediaTypeOwner(t, f);
    var m := GetMimeType(f).value;
    assert m == MimeTable(t)[f];
    match t
    case Audio => AudioMimeClassifies(f, m);
    case Image => ImageMimeClassifies(f, m);
    case Video => VideoMimeClassifies(f, m);
  }

  lemma AudioMimeClassifies(f: string, m: string)
    requires f in AudioFormats && f in AudioMimeTypes && m == AudioMimeTypes[f]
    ensures ClassifyMime(m) == Some(Audio) && f !in ApplicationVideoFormats
  {
    AudioMimePrefix();
    FormatListsDisjoint();
    assert forall i :: 0 <= i < |ApplicationVideoFormats| ==> ApplicationVideoFormats[i] in VideoFormats;
  }

  lemma ImageMimeClassifies(f: string, m: string)
    requires f in ImageFormats && f in ImageMimeTypes && m == ImageMimeTypes[f]
    ensures ClassifyMime(m) == Some(Image) && f !in ApplicationVideoFormats
  {
    ImageMimePrefix();
    FormatListsDisjoint();
    assert forall i :: 0 <= i < |ApplicationVideoFormats| ==> ApplicationVideoFormats[i] in VideoFormats;
  }

  lemma VideoMimeClassifies(f: string, m: string)
    requires f in VideoFormats && f in VideoMimeTypes && m == VideoMimeTypes[f]
    ensures ClassifyMime(m) == if f in ApplicationVideoFormats then None else Some(Video)
  {
    VideoMimePrefix();
    if f in ApplicationVideoFormats {
      assert m[0] == 'a' && m[1] == 'p';
    }
  }

  /** The stores `updatePreview` and `updateFormatOptions` read and set. The preview URL is
      `URL.createObjectURL(file)`, which is a parameter here. */
  class ConverterUi {
    var mediaType: Option<MediaType>
    var advancedMode: bool
    var formatOptions: seq<FormatOption>
    var previewUrl: Option<string>

    constructor ()
      ensures mediaType == None && !advancedMode && formatOptions == [] && previewUrl == None
    {
      mediaType, advancedMode, formatOptions, previewUrl := None, false, [], None;
    }

    /** `updatePreview(selectedFiles, previewUrl)`, given the MIME types of the selected files. */
    method UpdatePreview(selectedTypes: seq<string>, objectUrl: string)
      modifies this`mediaType, this`previewUrl
      ensures mediaType == if |selectedTypes| > 0 then ClassifyMime(selectedTypes[0]) else None
      ensures previewUrl.Some? <==> mediaType.Some?
      ensures previewUrl.Some? ==> previewUrl.value == objectUrl
    {
      if |selectedTypes| > 0 {
        var fileType := selectedTypes[0];
        if "image/" <= fileType {
          mediaType, previewUrl := Some(Image), Some(objectUrl);
        } else if "video/" <= fileType {
          mediaType, previewUrl := Some(Video), Some(objectUrl);
        } else if "audio/" <= fileType {
          mediaType, previewUrl := Some(Audio), Some(objectUrl);
        } else {
          mediaType, previewUrl := None, None;
        }
      } else {
        mediaType, previewUrl := None, None;
      }
    }

    /** `updateFormatOptions`. */
    method UpdateFormatOptions()
      modifies this`formatOptions
      ensures formatOptions == OptionsFor(mediaType, advancedMode)
    {
      match mediaType
      case Some(Audio) =>
        formatOptions := if advancedMode then ExtendedAudioFormats else BaseAudioFormats;
      case Some(Image) =>
        formatOptions := if advancedMode then ExtendedImageFormats else BaseImageFormats;
      case Some(Video) =>
        formatOptions := if advancedMode then ExtendedVideoFormats else BaseVideoFormats;
      case None =>
        formatOptions := [];
    }
  }
}

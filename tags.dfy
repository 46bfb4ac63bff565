/** The audio fields both metadata extractors derive from mutagen's reading
    of an MP3 or FLAC file. The reading itself is an input. */
module Tags {
  import opened Outcomes
  import opened Paths

  datatype TagFormat = Mp3 | Flac

  /** What `MP3(path)` or `FLAC(path)` reports. `tags` is None when the file
      has no tag block; a tag maps to its first value. `durationMs` stands for
      `int(info.length * 1000)` and `bitrateKbps` for `int(info.bitrate / 1000)`. */
  datatype TagReading = TagReading(
    tags: Option<map<string, string>>,
    durationMs: int,
    bitrateKbps: int,
    sampleRate: int,
    channelCount: int)

  datatype AudioFields = AudioFields(
    title: string, artist: string, album: string, year: string, genre: string, isrc: string,
    durationMs: int, bitrate: int, sampleRate: int, channels: string)

  datatype TagKeys = TagKeys(title: string, artist: string, album: string, year: string, genre: string, isrc: string)

  /** ID3 frame names for MP3, Vorbis comment names for FLAC. */
  function KeysOf(format: TagFormat): TagKeys
  {
    match format
    case Mp3 => TagKeys("TIT2", "TPE1", "TALB", "TDRC", "TCON", "TSRC")
    case Flac => TagKeys("title", "artist", "album", "date", "genre", "isrc")
  }

  /** Which reader the extractor calls: chosen by the lower-cased suffix; any
      other suffix reads no tags at all. */
  function FormatOf(path: string): (f: Option<TagFormat>)
    ensures f == Some(Mp3) <==> Lower(Suffix(path)) == Mp3Suffix
    ensures f == Some(Flac) <==> Lower(Suffix(path)) == FlacSuffix
    ensures f.Some? <==> IsAudioFile(path)
  {
    if Lower(Suffix(path)) == Mp3Suffix then Some(Mp3)
    else if Lower(Suffix(path)) == FlacSuffix then Some(Flac)
    else None
  }

  /** `tags.get(key, [''])[0]` */
  function Get(tags: map<string, string>, key: string): string
  {
    if key in tags then tags[key] else ""
  }

  /** `"Stereo" if info.channels == 2 else "Mono"` */
  function ChannelLabel(channelCount: int): (text: string)
    ensures text == "Stereo" <==> channelCount == 2
    ensures text == "Stereo" || text == "Mono"
  {
    if channelCount == 2 then "Stereo" else "Mono"
  }

  /** The tag and stream fields of the metadata record. */
  function FieldsOf(format: TagFormat, reading: TagReading): AudioFields
  {
    var keys := KeysOf(format);
    var tagged := reading.tags.Some? && |reading.tags.value| != 0;   // `if mp3.tags`
    AudioFields(
      title := if tagged then Get(reading.tags.value, keys.title) else "",
      artist := if tagged then Get(reading.tags.value, keys.artist) else "",
      album := if tagged then Get(reading.tags.value, keys.album) else "",
      year := if tagged then Get(reading.tags.value, keys.year) else "",
      genre := if tagged then Get(reading.tags.value, keys.genre) else "",
      isrc := if tagged && keys.isrc in reading.tags.value then reading.tags.value[keys.isrc] else "",
      durationMs := reading.durationMs,
      bitrate := reading.bitrateKbps,
      sampleRate := reading.sampleRate,
      channels := ChannelLabel(reading.channelCount))
  }

  /** The value a tag field gets: the tag's first value when the tag is
      present, the empty string when it is missing or there is no tag block. */
  function TagField(reading: TagReading, key: string): string
  {
    if reading.tags.Some? then Get(reading.tags.value, key) else ""
  }

  /** Missing tags become empty strings, never absent fields; each field is
      read from its own format-specific key; the stream values are copied. */
  lemma FieldsOfShape(format: TagFormat, reading: TagReading)
    ensures var a, keys := FieldsOf(format, reading), KeysOf(format);
      && a.title == TagField(reading, keys.title)
      && a.artist == TagField(reading, keys.artist)
      && a.album == TagField(reading, keys.album)
      && a.year == TagField(reading, keys.year)
      && a.genre == TagField(reading, keys.genre)
      && a.isrc == TagField(reading, keys.isrc)
      && (reading.tags.None? ==> a.title == a.artist == a.album == a.year == a.genre == a.isrc == "")
      && a.durationMs == reading.durationMs && a.bitrate == reading.bitrateKbps
      && a.sampleRate == reading.sampleRate
      && (a.channels == "Stereo" <==> reading.channelCount == 2)
      && (a.channels == "Stereo" || a.channels == "Mono")
  {
    var keys := KeysOf(format);
    if reading.tags.Some? && |reading.tags.value| == 0 {
      assert keys.title !in reading.tags.value && keys.artist !in reading.tags.value;
      assert keys.album !in reading.tags.value && keys.year !in reading.tags.value;
      assert keys.genre !in reading.tags.value && keys.isrc !in reading.tags.value;
    }
  }
}

/**
  The track type (vkmusix/types/track.py): titles, the full title, lyrics
  flags, the release track read from "release_audio_id", and the
  "owner_track" id and url. `html.unescape` is the parameter `unescape`.
 */
module TrackType {
  import opened Wrappers
  import opened PyValue
  import opened Errors
  import Text
  import Naming
  import Genres
  import ApiClient
  import ApiTracks

  datatype TrackRecord = TrackRecord(
    title: Option<string>,
    subtitle: Option<string>,
    fullTitle: Option<string>,
    artist: Option<string>,
    album: Option<ApiClient.Finalized>,
    genre: Option<Genres.GenreRecord>,
    lyrics: Value,
    hasLyrics: Value,
    fileUrl: Value,
    releaseTrack: Option<TrackRecord>,
    ownerId: Value,
    trackId: Value,
    id: string,
    url: string,
    raw: Value)

  /** `html.unescape(text) if text else None`; unescaping a non-string faults. */
  function CleanText(v: Value, unescape: string -> string): (r: Result<Option<string>>)
    ensures !Truthy(v) ==> r == Ok(None)
    ensures Truthy(v) && v.VStr? ==> r == Ok(Some(unescape(v.s)))
    ensures Truthy(v) && !v.VStr? ==> r == Fail(RuntimeFault)
  {
    if !Truthy(v) then Ok(None)
    else if v.VStr? then Ok(Some(unescape(v.s)))
    else Fail(RuntimeFault)
  }

  /** The subtitle: newlines become spaces before unescaping, so the
      unescaped text is the subtitle's lines joined by single spaces. */
  function CleanSubtitle(v: Value, unescape: string -> string): (r: Result<Option<string>>)
    ensures !Truthy(v) ==> r == Ok(None)
    ensures Truthy(v) && v.VStr? ==> r == Ok(Some(unescape(Text.Join(Text.Split(v.s, '\n'), " "))))
    ensures Truthy(v) && !v.VStr? ==> r == Fail(RuntimeFault)
  {
    if !Truthy(v) then Ok(None)
    else if v.VStr? then
      SubtitleHasNoNewline(v.s);
      Ok(Some(unescape(Text.Replace(v.s, "\n", " "))))
    else Fail(RuntimeFault)
  }

  /** Before unescaping, a subtitle holds no newline. */
  lemma SubtitleHasNoNewline(s: string)
    ensures '\n' !in Text.Replace(s, "\n", " ")
    ensures Text.Replace(s, "\n", " ") == Text.Join(Text.Split(s, '\n'), " ")
  {
    Text.JoinSplit(s, '\n');
    Text.ReplaceJoin(Text.Split(s, '\n'), "\n", " ");
    Text.JoinAvoids(Text.Split(s, '\n'), " ", '\n');
  }

  /** `tuple(map(int, releaseTrackId.split("_")))` unpacked into two ids. */
  function ReleaseIds(v: Value): (r: Result<Option<(int, int)>>)
    ensures !Truthy(v) ==> r == Ok(None)
    ensures r.Ok? && r.value.Some? ==>
              v.VStr? && |Text.Split(v.s, '_')| == 2 &&
              Text.ParseInt(Text.Split(v.s, '_')[0]) == Some(r.value.value.0) &&
              Text.ParseInt(Text.Split(v.s, '_')[1]) == Some(r.value.value.1)
    ensures Truthy(v) && !v.VStr? ==> r == Fail(RuntimeFault)
  {
    if !Truthy(v) then Ok(None)
    else if !v.VStr? then Fail(RuntimeFault)
    else
      var parts := Text.Split(v.s, '_');
      if |parts| != 2 then Fail(RuntimeFault)
      else match (Text.ParseInt(parts[0]), Text.ParseInt(parts[1]))
        case (Some(o), Some(t)) => Ok(Some((o, t)))
        case _ => Fail(RuntimeFault)
  }

  /** `x or y`. */
  function Or(x: Value, y: Value): Value {
    if Truthy(x) then x else y
  }

  /** `Track(track, releaseTrack)`. The release track is built with the
      flag set, so it never has a release track of its own. */
  function Track(raw: Value, isRelease: bool, unescape: string -> string): (r: Result<TrackRecord>)
    ensures r.Ok? ==> CleanText(Get(raw, "title"), unescape) == Ok(r.value.title)
    ensures r.Ok? ==> CleanSubtitle(Get(raw, "subtitle"), unescape) == Ok(r.value.subtitle)
    ensures r.Ok? ==> CleanText(Get(raw, "artist"), unescape) == Ok(r.value.artist)
    ensures r.Ok? && Truthy(Get(raw, "subtitle")) ==>
              Get(raw, "subtitle").VStr? &&
              r.value.subtitle == Some(unescape(Text.Join(Text.Split(Get(raw, "subtitle").s, '\n'), " ")))
    ensures r.Fail? <==>
              CleanText(Get(raw, "title"), unescape).Fail? || CleanSubtitle(Get(raw, "subtitle"), unescape).Fail? ||
              CleanText(Get(raw, "artist"), unescape).Fail? ||
              (!isRelease && ReleaseIds(Get(raw, "release_audio_id")).Fail?)
    ensures r.Ok? ==>
              (r.value.releaseTrack.Some? <==> !isRelease && ReleaseIds(Get(raw, "release_audio_id")).value.Some?)
    ensures r.Ok? && r.value.releaseTrack.Some? ==>
              var ids := ReleaseIds(Get(raw, "release_audio_id")).value.value;
              r.value.releaseTrack.value.ownerId == VInt(ids.0) && r.value.releaseTrack.value.trackId == VInt(ids.1)
    ensures r.Ok? ==> r.value.ownerId == Get(raw, "owner_id")
    ensures r.Ok? ==> r.value.trackId == Or(Get(raw, "id"), Get(raw, "track_id"))
    ensures r.Ok? ==> r.value.id == Naming.JoinedId(r.value.ownerId, r.value.trackId)
    ensures r.Ok? ==> r.value.url == Naming.VK + "audio" + r.value.id
    ensures r.Ok? ==> r.value.fullTitle == Naming.FullTitle(r.value.title, r.value.subtitle)
    ensures r.Ok? && (r.value.subtitle.None? || r.value.subtitle == Some("")) ==> r.value.fullTitle == r.value.title
    ensures r.Ok? ==> (r.value.hasLyrics == if Truthy(Get(raw, "lyrics")) then VNone else Get(raw, "has_lyrics"))
    ensures r.Ok? && isRelease ==> r.value.releaseTrack.None?
    ensures r.Ok? && r.value.releaseTrack.Some? ==> r.value.releaseTrack.value.releaseTrack.None?
    decreases if isRelease then 0 else 1, 1
  {
    var title := CleanText(Get(raw, "title"), unescape);
    var subtitle := CleanSubtitle(Get(raw, "subtitle"), unescape);
    var artist := CleanText(Get(raw, "artist"), unescape);
    if title.Fail? then Fail(title.kind)
    else if subtitle.Fail? then Fail(subtitle.kind)
    else if artist.Fail? then Fail(artist.kind)
    else
      var release := Release(raw, isRelease, unescape);
      if release.Fail? then Fail(release.kind)
      else Ok(Record(raw, title.value, subtitle.value, artist.value, release.value))
  }

  /** The release track: none for a release itself or a falsy
      "release_audio_id", else the track built from the two ids it names. */
  function Release(raw: Value, isRelease: bool, unescape: string -> string): (r: Result<Option<TrackRecord>>)
    ensures r.Fail? <==> !isRelease && ReleaseIds(Get(raw, "release_audio_id")).Fail?
    ensures r.Ok? ==> (r.value.Some? <==> !isRelease && ReleaseIds(Get(raw, "release_audio_id")).value.Some?)
    ensures r.Ok? && r.value.Some? ==>
              var ids := ReleaseIds(Get(raw, "release_audio_id")).value.value;
              r.value.value.ownerId == VInt(ids.0) && r.value.value.trackId == VInt(ids.1) &&
              r.value.value.releaseTrack.None?
    decreases if isRelease then 0 else 1, 0
  {
    if isRelease then Ok(None)
    else match ReleaseIds(Get(raw, "release_audio_id"))
      case Fail(k) => Fail(k)
      case Ok(None) => Ok(None)
      case Ok(Some((o, t))) =>
        var ids := VDict(map["owner_id" := VInt(o), "track_id" := VInt(t)]);
        assert Get(ids, "title") == VNone && Get(ids, "subtitle") == VNone && Get(ids, "artist") == VNone;
        assert Get(ids, "id") == VNone && Get(ids, "owner_id") == VInt(o) && Get(ids, "track_id") == VInt(t);
        match Track(ids, true, unescape)
        case Ok(rt) => Ok(Some(rt))
        case Fail(k) => assert false; Fail(k)
  }

  /** The fields of a track whose texts were cleaned and whose release
      track was built. */
  function Record(raw: Value, title: Option<string>, subtitle: Option<string>, artist: Option<string>,
                  release: Option<TrackRecord>): TrackRecord
  {
    var genreId := Get(raw, "genre_id");
    var lyrics := Get(raw, "lyrics");
    var ownerId := Get(raw, "owner_id");
    var trackId := Or(Get(raw, "id"), Get(raw, "track_id"));
    var id := Naming.JoinedId(ownerId, trackId);
    TrackRecord(
      title, subtitle, Naming.FullTitle(title, subtitle), artist,
      ApiClient.Finalization(Get(raw, "album"), ApiClient.AlbumType),
      if Truthy(genreId) then Some(Genres.Genre(VNone, genreId)) else None,
      lyrics,
      if Truthy(lyrics) then VNone else Get(raw, "has_lyrics"),
      Or(Get(raw, "url"), VNone),
      release,
      ownerId, trackId, id, Naming.VK + "audio" + id, raw)
  }

  /** "owner_track" text read back as the release track's ids. */
  lemma ReleaseIdsRoundTrip(o: int, t: int)
    ensures ReleaseIds(VStr(Naming.JoinedId(VInt(o), VInt(t)))) == Ok(Some((o, t)))
  {
    var a := Text.IntToString(o);
    var b := Text.IntToString(t);
    Text.IntTextHasNoSeparator(o, '_');
    Text.IntTextHasNoSeparator(t, '_');
    Text.SplitAfterHead(a, b, '_');
    Text.SplitWhole(b, '_');
    assert Naming.JoinedId(VInt(o), VInt(t)) == a + ['_'] + b;
    Text.IntRoundTrip(o);
    Text.IntRoundTrip(t);
    assert Truthy(VStr(a + ['_'] + b));
  }

  /** A track whose "release_audio_id" names (o, t) gets a release track
      with owner o, track t and id "o_t", and nothing nested in it. */
  lemma ReleaseTrackNamesItsIds(raw: Value, o: int, t: int, unescape: string -> string)
    requires Get(raw, "release_audio_id") == VStr(Naming.JoinedId(VInt(o), VInt(t)))
    requires Track(raw, false, unescape).Ok?
    ensures var rt := Track(raw, false, unescape).value.releaseTrack;
            rt.Some? && rt.value.ownerId == VInt(o) && rt.value.trackId == VInt(t) &&
            rt.value.id == Naming.JoinedId(VInt(o), VInt(t)) && rt.value.releaseTrack.None?
  {
    ReleaseIdsRoundTrip(o, t);
    var d := VDict(map["owner_id" := VInt(o), "track_id" := VInt(t)]);
    assert Get(d, "owner_id") == VInt(o);
    assert Get(d, "id") == VNone;
    assert Get(d, "track_id") == VInt(t);
  }

  /** Integer ids give a track id that reads back as the same pair. */
  lemma TrackIdRoundTrip(raw: Value, unescape: string -> string, o: int, t: int)
    requires Track(raw, false, unescape).Ok?
    requires Get(raw, "owner_id") == VInt(o) && Or(Get(raw, "id"), Get(raw, "track_id")) == VInt(t)
    ensures ApiTracks.ParseAudioId(Track(raw, false, unescape).value.id) == Ok((o, t))
  {
    Naming.JoinedIdRoundTrip(o, t);
  }
}

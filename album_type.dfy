/**
  The album type (vkmusix/types/album.py): the artist line, the photo map,
  the track count and the album-or-playlist id and url.
 */
module AlbumType {
  import opened Wrappers
  import opened PyValue
  import opened Errors
  import Text
  import Naming
  import ApiClient
  import ApiTracks
  import TrackType

  // ---------------------------------------------------------------------
  // The artist line
  // ---------------------------------------------------------------------

  /** What `_finalizeResponse(..., Artist)` gives, as far as the artist line
      can tell: nothing, a list of nicknames (None for a falsy "name"), or
      one bare Artist object (which has no `len`). */
  datatype Artists = NoArtists | ArtistList(names: seq<Option<string>>) | SingleArtist

  /** Each artist's `html.unescape(name) if name else None`. */
  function Nicknames(items: seq<Value>, unescape: string -> string): Result<seq<Option<string>>>
  {
    if |items| == 0 then Ok([])
    else match (Nicknames(items[..|items| - 1], unescape), TrackType.CleanText(Get(items[|items| - 1], "name"), unescape))
      case (Ok(ns), Ok(n)) => Ok(ns + [n])
      case (Fail(k), _) => Fail(k)
      case (_, Fail(k)) => Fail(k)
  }

  function ArtistsOf(v: Value, unescape: string -> string): Result<Artists>
  {
    if !Truthy(v) || v.VBool? then Ok(NoArtists)
    else if v.VList? then
      match Nicknames(v.items, unescape)
      case Ok(ns) => Ok(ArtistList(ns))
      case Fail(k) => Fail(k)
    else
      match TrackType.CleanText(Get(v, "name"), unescape)
      case Ok(_) => Ok(SingleArtist)
      case Fail(k) => Fail(k)
  }

  /** `", ".join(names[:-1]) + " & " + names[-1]` for several names, the
      name itself for one. */
  function HumanList(names: seq<string>): string
    requires |names| >= 1
  {
    if |names| > 1 then Text.Join(names[..|names| - 1], ", ") + " & " + names[|names| - 1]
    else names[0]
  }

  predicate AllNamed(names: seq<Option<string>>) {
    forall k :: 0 <= k < |names| ==> names[k].Some?
  }

  function Named(names: seq<Option<string>>): (r: seq<string>)
    requires AllNamed(names)
    ensures |r| == |names|
  {
    seq(|names|, k requires 0 <= k < |names| && AllNamed(names) => names[k].value)
  }

  /** The `artist` attribute: None without main artists; the main artists
      as a list; one main artist with " feat. " and the featured artists
      when there are some. A missing nickname or a bare Artist object faults. */
  function ArtistLine(main: Artists, featured: Artists): (r: Result<Option<string>>)
    ensures main == NoArtists ==> r == Ok(None)
    ensures main.ArtistList? && |main.names| > 1 && AllNamed(main.names) ==>
              r == Ok(Some(HumanList(Named(main.names))))
    ensures main.ArtistList? && |main.names| == 1 && main.names[0].Some? && featured == NoArtists ==>
              r == Ok(Some(main.names[0].value))
    ensures main.ArtistList? && |main.names| == 1 && main.names[0].Some? &&
            featured.ArtistList? && |featured.names| >= 1 && AllNamed(featured.names) ==>
              r == Ok(Some(main.names[0].value + " feat. " + HumanList(Named(featured.names))))
    ensures main == SingleArtist ==> r == Fail(RuntimeFault)
  {
    match main
    case NoArtists => Ok(None)
    case SingleArtist => Fail(RuntimeFault)
    case ArtistList(ns) =>
      if |ns| == 0 then Ok(None)
      else if |ns| > 1 then
        if AllNamed(ns) then Ok(Some(HumanList(Named(ns)))) else Fail(RuntimeFault)
      else if ns[0].None? then Fail(RuntimeFault)
      else match featured
        case NoArtists => Ok(Some(ns[0].value))
        case SingleArtist => Fail(RuntimeFault)
        case ArtistList(fs) =>
          if |fs| == 0 then Ok(Some(ns[0].value))
          else if AllNamed(fs) then Ok(Some(ns[0].value + " feat. " + HumanList(Named(fs))))
          else Fail(RuntimeFault)
  }

  /** For names free of "," and "&", a list of n >= 2 names holds exactly
      one "&" and n - 2 commas: the names can be told apart again. */
  lemma HumanListShape(names: seq<string>)
    requires |names| >= 2
    requires forall k :: 0 <= k < |names| ==> ',' !in names[k] && '&' !in names[k]
    ensures Text.CountChar(HumanList(names), '&') == 1
    ensures Text.CountChar(HumanList(names), ',') == |names| - 2
  {
    var init := names[..|names| - 1];
    var last := names[|names| - 1];
    var joined := Text.Join(init, ", ");
    assert Text.CountChar(", ", ',') == 1 && Text.CountChar(", ", '&') == 0;
    assert Text.CountChar(" & ", '&') == 1 && Text.CountChar(" & ", ',') == 0;
    Text.JoinCount(init, ", ", ',');
    Text.JoinAvoids(init, ", ", '&');
    Text.CountCharAbsent(joined, '&');
    Text.CountCharAbsent(last, '&');
    Text.CountCharAbsent(last, ',');
    Text.CountCharAppend(joined, " & ", '&');
    Text.CountCharAppend(joined + " & ", last, '&');
    Text.CountCharAppend(joined, " & ", ',');
    Text.CountCharAppend(joined + " & ", last, ',');
  }

  // ---------------------------------------------------------------------
  // The photo map
  // ---------------------------------------------------------------------

  const UniqMarker: string := "&c_uniq_tag="
  const TypeMarker: string := "&type="

  /** `value[:value.rfind("&c_uniq_tag=")][:value.rfind("&type=")]`: both
      positions are searched in the untrimmed value, and a missing marker
      (-1) cuts the last character. */
  function TrimPhotoUrl(value: string): string {
    Text.PySlice(Text.PySlice(value, 0, Text.RFind(value, UniqMarker)), 0, Text.RFind(value, TypeMarker))
  }

  /** `int(key.split("_")[1])` for a "photo_" key. */
  function PhotoSize(key: string): Result<int>
  {
    var parts := Text.Split(key, '_');
    if |parts| < 2 then Fail(RuntimeFault)
    else match Text.ParseInt(parts[1])
      case Some(n) => Ok(n)
      case None => Fail(RuntimeFault)
  }

  /** The dict comprehension over `photo.items()`, given in iteration order:
      "photo_N" keys map N to the trimmed url, a later duplicate size wins,
      other keys are skipped. */
  function PhotoMap(items: seq<(string, Value)>): Result<map<int, string>>
  {
    if |items| == 0 then Ok(map[])
    else
      var (key, value) := items[|items| - 1];
      match PhotoMap(items[..|items| - 1])
      case Fail(k) => Fail(k)
      case Ok(m) =>
        if !Text.StartsWith(key, "photo_") then Ok(m)
        else match PhotoSize(key)
          case Fail(k) => Fail(k)
          case Ok(n) => if value.VStr? then Ok(m[n := TrimPhotoUrl(value.s)]) else Fail(RuntimeFault)
  }

  /** Every size in the map comes from a "photo_" key, whose url it holds trimmed. */
  lemma {:induction false} PhotoMapSizes(items: seq<(string, Value)>)
    ensures PhotoMap(items).Ok? ==>
              forall n :: n in PhotoMap(items).value ==>
                exists k :: 0 <= k < |items| && Text.StartsWith(items[k].0, "photo_") &&
                            PhotoSize(items[k].0) == Ok(n) && items[k].1.VStr? &&
                            PhotoMap(items).value[n] == TrimPhotoUrl(items[k].1.s)
  {
    if |items| > 0 {
      var prefix := items[..|items| - 1];
      PhotoMapSizes(prefix);
      if PhotoMap(items).Ok? {
        forall n | n in PhotoMap(items).value
          ensures exists k :: 0 <= k < |items| && Text.StartsWith(items[k].0, "photo_") &&
                              PhotoSize(items[k].0) == Ok(n) && items[k].1.VStr? &&
                              PhotoMap(items).value[n] == TrimPhotoUrl(items[k].1.s)
        {
          var last := |items| - 1;
          if Text.StartsWith(items[last].0, "photo_") && PhotoSize(items[last].0) == Ok(n) {
            assert PhotoMap(items).value[n] == TrimPhotoUrl(items[last].1.s);
          } else {
            assert n in PhotoMap(prefix).value;
            var k :| 0 <= k < |prefix| && Text.StartsWith(prefix[k].0, "photo_") &&
                     PhotoSize(prefix[k].0) == Ok(n) && prefix[k].1.VStr? &&
                     PhotoMap(prefix).value[n] == TrimPhotoUrl(prefix[k].1.s);
            assert items[k] == prefix[k];
          }
        }
      }
    }
  }

  /** A "photo_" entry the comprehension cannot take: its key has no integer
      after the first "_", or its value is not a string to slice. */
  predicate BadPhotoEntry(e: (string, Value)) {
    Text.StartsWith(e.0, "photo_") && (PhotoSize(e.0).Fail? || !e.1.VStr?)
  }

  /** The comprehension fails exactly when some entry is a bad "photo_" one. */
  lemma {:induction false} PhotoMapFailsExactly(items: seq<(string, Value)>)
    ensures PhotoMap(items).Fail? <==> exists k :: 0 <= k < |items| && BadPhotoEntry(items[k])
  {
    if |items| > 0 {
      var prefix := items[..|items| - 1];
      var last := |items| - 1;
      PhotoMapFailsExactly(prefix);
      if PhotoMap(prefix).Fail? {
        var k :| 0 <= k < |prefix| && BadPhotoEntry(prefix[k]);
        assert items[k] == prefix[k];
      } else if BadPhotoEntry(items[last]) {
      } else {
        assert PhotoMap(items).Ok?;
        forall k | 0 <= k < |items| ensures !BadPhotoEntry(items[k]) {
          if k < last {
            assert items[k] == prefix[k];
          }
        }
      }
    }
  }

  /** Conversely, when the comprehension succeeds every "photo_N" entry puts
      its size N in the map. */
  lemma {:induction false} PhotoMapHasEverySize(items: seq<(string, Value)>)
    ensures PhotoMap(items).Ok? ==>
              forall k :: 0 <= k < |items| && Text.StartsWith(items[k].0, "photo_") ==>
                PhotoSize(items[k].0).Ok? && items[k].1.VStr? &&
                PhotoSize(items[k].0).value in PhotoMap(items).value
  {
    if |items| > 0 && PhotoMap(items).Ok? {
      var prefix := items[..|items| - 1];
      var last := |items| - 1;
      PhotoMapHasEverySize(prefix);
      assert PhotoMap(prefix).Ok?;
      forall k | 0 <= k < |items| && Text.StartsWith(items[k].0, "photo_")
        ensures PhotoSize(items[k].0).Ok? && items[k].1.VStr? &&
                PhotoSize(items[k].0).value in PhotoMap(items).value
      {
        if k < last {
          assert items[k] == prefix[k];
          assert PhotoSize(items[k].0).value in PhotoMap(prefix).value;
        }
      }
    }
  }

  /** As written, a url holding neither marker loses its last two characters. */
  lemma TrimDropsTwoWithoutMarkers(value: string)
    requires '&' !in value && |value| >= 2
    ensures TrimPhotoUrl(value) == value[..|value| - 2]
  {
    NoMarker(value, UniqMarker);
    NoMarker(value, TypeMarker);
  }

  /** A text without "&" holds no marker. */
  lemma NoMarker(value: string, marker: string)
    requires |marker| > 0 && marker[0] == '&' && '&' !in value
    ensures Text.RFind(value, marker) == -1
  {
  }

  /** `s[:s.rfind(marker)]` only when the marker is there. */
  function CutAt(s: string, marker: string): (r: string)
    requires |marker| > 0
    ensures |r| <= |s| && r == s[..|r|]
  {
    var i := Text.RFind(s, marker);
    if i >= 0 then s[..i] else s
  }

  /** The evidently intended trim: cut at each marker that is present. */
  function TrimPhotoUrlIntended(value: string): string {
    CutAt(CutAt(value, UniqMarker), TypeMarker)
  }

  /** The corrected trim keeps a prefix of the url, and the whole url when
      neither marker is in it. */
  lemma TrimIntendedKeepsUrl(value: string)
    ensures var r := TrimPhotoUrlIntended(value);
            |r| <= |value| && r == value[..|r|]
    ensures '&' !in value ==> TrimPhotoUrlIntended(value) == value
  {
    var c := CutAt(value, UniqMarker);
    var r := CutAt(c, TypeMarker);
    assert r == c[..|r|] && c == value[..|c|];
    assert r == value[..|r|];
    if '&' !in value {
      NoMarker(value, UniqMarker);
      NoMarker(value, TypeMarker);
    }
  }

  // ---------------------------------------------------------------------
  // The album record
  // ---------------------------------------------------------------------

  datatype AlbumRecord = AlbumRecord(
    title: Option<string>,
    subtitle: Option<string>,
    fullTitle: Option<string>,
    artist: Option<string>,
    photo: Option<map<int, string>>,
    trackCount: Value,
    ownerId: Value,
    albumId: Value,
    playlistId: Value,
    id: string,
    url: string)

  /** `album.get("count") or (len(tracks) if tracks else None)`: a truthy
      "count" as given, else the number of tracks, None without tracks, and
      a fault for truthy tracks that have no length. */
  function TrackCount(raw: Value): (r: Result<Value>)
    ensures Truthy(Get(raw, "count")) ==> r == Ok(Get(raw, "count"))
    ensures !Truthy(Get(raw, "count")) && !Truthy(Get(raw, "tracks")) ==> r == Ok(VNone)
    ensures !Truthy(Get(raw, "count")) && Truthy(Get(raw, "tracks")) && Get(raw, "tracks").VList? ==>
              r == Ok(VInt(|Get(raw, "tracks").items|))
    ensures !Truthy(Get(raw, "count")) && Truthy(Get(raw, "tracks")) ==>
              (r.Fail? <==> Len(Get(raw, "tracks")).None?)
    ensures r.Fail? ==> r.kind == RuntimeFault
  {
    var count := Get(raw, "count");
    var tracks := Get(raw, "tracks");
    if Truthy(count) then Ok(count)
    else if !Truthy(tracks) then Ok(VNone)
    else match Len(tracks)
      case Some(n) => Ok(VInt(n))
      case None => Fail(RuntimeFault)
  }

  /** `a or b or c`. */
  function FirstTruthy(a: Value, b: Value, c: Value): Value {
    TrackType.Or(a, TrackType.Or(b, c))
  }

  /** `items` lists the entries of the dict `fields`, each key once, in
      some iteration order. */
  predicate ListsDict(items: seq<(string, Value)>, fields: map<string, Value>) {
    (forall k :: 0 <= k < |items| ==> items[k].0 in fields && fields[items[k].0] == items[k].1) &&
    (forall key :: key in fields ==> exists k :: 0 <= k < |items| && items[k].0 == key) &&
    (forall a, b :: 0 <= a < b < |items| ==> items[a].0 != items[b].0)
  }

  /** `photo or thumb`, the dict the photo map is read from. */
  function PhotoSource(raw: Value): Value {
    TrackType.Or(Get(raw, "photo"), Get(raw, "thumb"))
  }

  /** `self.photo`: None for a falsy source, the comprehension over
      `photoItems` for a dict, and a fault for any other truthy value (it has
      no `items()`). */
  function AlbumPhoto(source: Value, photoItems: seq<(string, Value)>): (r: Result<Option<map<int, string>>>)
    ensures !Truthy(source) ==> r == Ok(None)
    ensures Truthy(source) && !source.VDict? ==> r.Fail?
    ensures Truthy(source) && source.VDict? ==>
              (r.Fail? <==> PhotoMap(photoItems).Fail?) &&
              (r.Ok? ==> r.value == Some(PhotoMap(photoItems).value))
  {
    if !Truthy(source) then Ok(None)
    else if !source.VDict? then Fail(RuntimeFault)
    else match PhotoMap(photoItems)
      case Ok(m) => Ok(Some(m))
      case Fail(k) => Fail(k)
  }

  /** Read against the dict itself: the photo fails exactly when one of its
      "photo_" keys is bad, and otherwise holds the size of every "photo_" key. */
  lemma AlbumPhotoFromDict(source: Value, photoItems: seq<(string, Value)>)
    requires source.VDict? && Truthy(source) && ListsDict(photoItems, source.fields)
    ensures AlbumPhoto(source, photoItems).Fail? <==>
              exists key :: key in source.fields && BadPhotoEntry((key, source.fields[key]))
    ensures AlbumPhoto(source, photoItems).Ok? ==>
              forall key :: key in source.fields && Text.StartsWith(key, "photo_") ==>
                PhotoSize(key).Ok? && PhotoSize(key).value in AlbumPhoto(source, photoItems).value.value
  {
    var fields := source.fields;
    PhotoMapFailsExactly(photoItems);
    PhotoMapHasEverySize(photoItems);
    if exists key :: key in fields && BadPhotoEntry((key, fields[key])) {
      var key :| key in fields && BadPhotoEntry((key, fields[key]));
      var k :| 0 <= k < |photoItems| && photoItems[k].0 == key;
      assert BadPhotoEntry(photoItems[k]);
    }
    if AlbumPhoto(source, photoItems).Ok? {
      forall key | key in fields && Text.StartsWith(key, "photo_")
        ensures PhotoSize(key).Ok? && PhotoSize(key).value in AlbumPhoto(source, photoItems).value.value
      {
        var k :| 0 <= k < |photoItems| && photoItems[k].0 == key;
      }
    }
  }

  /** `Album(album, playlist)`; `photoItems` lists the entries of the photo
      dict in iteration order. */
  function Album(raw: Value, playlistMode: bool, unescape: string -> string,
                 photoItems: seq<(string, Value)>): (r: Result<AlbumRecord>)
    requires PhotoSource(raw).VDict? ==> ListsDict(photoItems, PhotoSource(raw).fields)
    ensures r.Ok? && !playlistMode ==>
              r.value.playlistId == VNone &&
              r.value.albumId == FirstTruthy(Get(raw, "id"), Get(raw, "album_id"), Get(raw, "playlist_id")) &&
              r.value.id == Naming.JoinedId(r.value.ownerId, r.value.albumId) &&
              r.value.url == Naming.VK + "music/album/" + r.value.id
    ensures r.Ok? && playlistMode ==>
              r.value.albumId == VNone &&
              r.value.playlistId == FirstTruthy(Get(raw, "id"), Get(raw, "playlist_id"), Get(raw, "album_id")) &&
              r.value.id == Naming.JoinedId(r.value.ownerId, r.value.playlistId) &&
              r.value.url == Naming.VK + "music/playlist/" + r.value.id
    ensures r.Ok? ==> TrackType.CleanText(Get(raw, "title"), unescape) == Ok(r.value.title)
    ensures r.Ok? ==> TrackType.CleanSubtitle(Get(raw, "subtitle"), unescape) == Ok(r.value.subtitle)
    ensures r.Ok? ==>
              var main := ArtistsOf(Get(raw, "main_artists"), unescape);
              var featured := ArtistsOf(Get(raw, "featured_artists"), unescape);
              main.Ok? && featured.Ok? && ArtistLine(main.value, featured.value) == Ok(r.value.artist)
    ensures r.Ok? ==> TrackCount(raw) == Ok(r.value.trackCount)
    ensures var main := ArtistsOf(Get(raw, "main_artists"), unescape);
            var featured := ArtistsOf(Get(raw, "featured_artists"), unescape);
            r.Fail? <==>
              TrackType.CleanText(Get(raw, "title"), unescape).Fail? ||
              TrackType.CleanSubtitle(Get(raw, "subtitle"), unescape).Fail? ||
              main.Fail? || featured.Fail? ||
              (main.Ok? && featured.Ok? && ArtistLine(main.value, featured.value).Fail?) ||
              AlbumPhoto(PhotoSource(raw), photoItems).Fail? || TrackCount(raw).Fail?
    ensures r.Ok? ==> r.value.fullTitle == Naming.FullTitle(r.value.title, r.value.subtitle)
    ensures r.Ok? && (r.value.subtitle.None? || r.value.subtitle == Some("")) ==> r.value.fullTitle == r.value.title
    ensures r.Ok? ==> (r.value.photo.None? <==> !Truthy(PhotoSource(raw)))
    ensures r.Ok? && r.value.photo.Some? ==> PhotoMap(photoItems) == Ok(r.value.photo.value)
    ensures Truthy(PhotoSource(raw)) && (!PhotoSource(raw).VDict? || PhotoMap(photoItems).Fail?) ==> r.Fail?
  {
    var title := TrackType.CleanText(Get(raw, "title"), unescape);
    var subtitle := TrackType.CleanSubtitle(Get(raw, "subtitle"), unescape);
    var main := ArtistsOf(Get(raw, "main_artists"), unescape);
    var featured := ArtistsOf(Get(raw, "featured_artists"), unescape);
    if title.Fail? then Fail(title.kind)
    else if subtitle.Fail? then Fail(subtitle.kind)
    else if main.Fail? then Fail(main.kind)
    else if featured.Fail? then Fail(featured.kind)
    else
      var artist := ArtistLine(main.value, featured.value);
      var photo := AlbumPhoto(PhotoSource(raw), photoItems);
      var count := TrackCount(raw);
      if artist.Fail? then Fail(artist.kind)
      else if photo.Fail? then Fail(photo.kind)
      else if count.Fail? then Fail(count.kind)
      else
        var ownerId := Get(raw, "owner_id");
        var albumId := if playlistMode then VNone
                       else FirstTruthy(Get(raw, "id"), Get(raw, "album_id"), Get(raw, "playlist_id"));
        var playlistId := if playlistMode then FirstTruthy(Get(raw, "id"), Get(raw, "playlist_id"), Get(raw, "album_id"))
                          else VNone;
        var id := Naming.JoinedId(ownerId, if playlistMode then playlistId else albumId);
        var url := Naming.VK + (if playlistMode then "music/playlist/" else "music/album/") + id;
        Ok(AlbumRecord(title.value, subtitle.value, Naming.FullTitle(title.value, subtitle.value), artist.value,
                       photo.value, count.value,
                       ownerId, albumId, playlistId, id, url))
  }

  /** The same dict read as an album and as a playlist gets two different
      urls, and with integer ids both ids read back as (owner, id). */
  lemma AlbumAndPlaylistUrlsDiffer(raw: Value, unescape: string -> string, photoItems: seq<(string, Value)>)
    requires PhotoSource(raw).VDict? ==> ListsDict(photoItems, PhotoSource(raw).fields)
    requires Album(raw, false, unescape, photoItems).Ok? && Album(raw, true, unescape, photoItems).Ok?
    ensures Album(raw, false, unescape, photoItems).value.url != Album(raw, true, unescape, photoItems).value.url
  {
    var a := Album(raw, false, unescape, photoItems).value.url;
    var p := Album(raw, true, unescape, photoItems).value.url;
    var at := |Naming.VK| + 6;
    assert a[at] == 'a';
    assert p[at] == 'p';
  }

  /** With an integer owner and id, the album id reads back as the pair. */
  lemma AlbumIdRoundTrip(raw: Value, playlistMode: bool, unescape: string -> string,
                         photoItems: seq<(string, Value)>, o: int, n: int)
    requires PhotoSource(raw).VDict? ==> ListsDict(photoItems, PhotoSource(raw).fields)
    requires Album(raw, playlistMode, unescape, photoItems).Ok?
    requires Get(raw, "owner_id") == VInt(o) && Get(raw, "id") == VInt(n) && n != 0
    ensures ApiTracks.ParseAudioId(Album(raw, playlistMode, unescape, photoItems).value.id) == Ok((o, n))
  {
    Naming.JoinedIdRoundTrip(o, n);
  }
}

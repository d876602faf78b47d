/**
  The two parsers of the track blob embedded in a VK web page
  (methods/utils/_getTracks.py and methods/other/_getTracks.py): rewrite the
  JavaScript literals into Python ones, cut out the text from the last "[["
  to the last "]]", evaluate it, map every row of at least 20 fields to a
  track dict by fixed positions and keep the rows that survive, in order.

  Python's `eval` is a parameter: it yields the literal tree, a syntax error
  or any other error.
 */
module TrackBlob {
  import opened Wrappers
  import opened PyValue
  import opened Errors
  import Text
  import ApiClient

  datatype EvalResult = Evaluated(v: Value) | SyntaxError | OtherError

  /** What a parser returns: a list of tracks, None, or (in the utils
      variant) a decoded value that is not a list, handed back unchanged. */
  datatype Parsed = Tracks(tracks: seq<ApiClient.Entity>) | NoTracks | Verbatim(v: Value)

  /** The rows of a blob must have at least this many fields to be mapped. */
  const MinRowLength: nat := 20

  // ---------------------------------------------------------------------
  // Literal rewriting and slicing
  // ---------------------------------------------------------------------

  /** The utils variant: null, true, false, then the escaped slash. */
  function RewriteUtils(s: string): string {
    Text.Replace(Text.Replace(Text.Replace(Text.Replace(s, "null", "None"), "true", "True"), "false", "False"), "\\/", "/")
  }

  /** The other variant: the escaped slash, false, true, then null. */
  function RewriteOther(s: string): string {
    Text.Replace(Text.Replace(Text.Replace(Text.Replace(s, "\\/", "/"), "false", "False"), "true", "True"), "null", "None")
  }

  /** A blob read as a run of JavaScript literals the rewrites touch and
      plain text between them. */
  datatype Lit = Plain(s: string) | Null | TrueLit | FalseLit | EscSlash

  /** How a piece is written in the page. */
  function JsSpelling(l: Lit): string {
    match l
    case Plain(s) => s
    case Null => "null"
    case TrueLit => "true"
    case FalseLit => "false"
    case EscSlash => "\\/"
  }

  /** How a piece is written once rewritten for Python. */
  function PySpelling(l: Lit): string {
    match l
    case Plain(s) => s
    case Null => "None"
    case TrueLit => "True"
    case FalseLit => "False"
    case EscSlash => "/"
  }

  /** A piece with the literals in `done` already rewritten. */
  function Spell(l: Lit, done: set<Lit>): string {
    if l in done then PySpelling(l) else JsSpelling(l)
  }

  /** The text of the pieces `ts`, with the literals in `done` rewritten. */
  function Render(ts: seq<Lit>, done: set<Lit>): string
  {
    if |ts| == 0 then "" else Spell(ts[0], done) + Render(ts[1..], done)
  }

  /** Plain text holding no first character of a JavaScript spelling, so
      that no literal can start inside it. This is a strong condition: the
      plain pieces may not hold 'n', 't', 'f' or a backslash anywhere, so it
      fits pages made almost entirely of literals, digits and punctuation,
      and not ordinary prose, which the rewrites may also change. */
  predicate PlainSafe(ts: seq<Lit>) {
    forall k :: 0 <= k < |ts| && ts[k].Plain? ==>
      'n' !in ts[k].s && 't' !in ts[k].s && 'f' !in ts[k].s && '\\' !in ts[k].s
  }

  /** One replacement of a literal's JavaScript spelling by its Python one
      rewrites exactly the pieces that are that literal. */
  lemma {:induction false} RewriteStep(ts: seq<Lit>, done: set<Lit>, l: Lit)
    requires !l.Plain? && l !in done
    requires forall k :: 0 <= k < |ts| && ts[k] != l ==> JsSpelling(l)[0] !in Spell(ts[k], done)
    ensures Text.Replace(Render(ts, done), JsSpelling(l), PySpelling(l)) == Render(ts, done + {l})
  {
    var pat, rep := JsSpelling(l), PySpelling(l);
    if |ts| > 0 {
      var rest := Render(ts[1..], done);
      forall k | 0 <= k < |ts[1..]| && ts[1..][k] != l ensures pat[0] !in Spell(ts[1..][k], done) {
        assert ts[1..][k] == ts[k + 1];
      }
      RewriteStep(ts[1..], done, l);
      if ts[0] == l {
        Text.ReplaceAtHead(pat, rest, rep);
      } else {
        Text.ReplaceSkips(Spell(ts[0], done), rest, pat, rep);
        assert Spell(ts[0], done + {l}) == Spell(ts[0], done);
      }
    }
  }

  /** No piece other than `l` itself, rewritten or not, holds the first
      character of `l`'s JavaScript spelling. */
  lemma StepIsSafe(ts: seq<Lit>, done: set<Lit>, l: Lit)
    requires PlainSafe(ts) && !l.Plain?
    ensures forall k :: 0 <= k < |ts| && ts[k] != l ==> JsSpelling(l)[0] !in Spell(ts[k], done)
  {
    forall k | 0 <= k < |ts| && ts[k] != l ensures JsSpelling(l)[0] !in Spell(ts[k], done) {
      PieceIsSafe(ts[k], done, l);
    }
  }

  /** `StepIsSafe` for one piece. */
  lemma PieceIsSafe(t: Lit, done: set<Lit>, l: Lit)
    requires t != l && !l.Plain?
    requires t.Plain? ==> 'n' !in t.s && 't' !in t.s && 'f' !in t.s && '\\' !in t.s
    ensures JsSpelling(l)[0] !in Spell(t, done)
  {
  }

  const AllLits: set<Lit> := {Null, TrueLit, FalseLit, EscSlash}

  /** Both rewrites turn every JavaScript literal of the page into its Python
      spelling and leave the plain text between them alone, for plain text
      that avoids 'n', 't', 'f' and the backslash (see `PlainSafe`). */
  lemma RewritesSpellOut(ts: seq<Lit>)
    requires PlainSafe(ts)
    ensures RewriteUtils(Render(ts, {})) == Render(ts, AllLits)
    ensures RewriteOther(Render(ts, {})) == Render(ts, AllLits)
  {
    StepIsSafe(ts, {}, Null);
    RewriteStep(ts, {}, Null);
    StepIsSafe(ts, {Null}, TrueLit);
    RewriteStep(ts, {Null}, TrueLit);
    StepIsSafe(ts, {Null, TrueLit}, FalseLit);
    RewriteStep(ts, {Null, TrueLit}, FalseLit);
    StepIsSafe(ts, {Null, TrueLit, FalseLit}, EscSlash);
    RewriteStep(ts, {Null, TrueLit, FalseLit}, EscSlash);
    assert {} + {Null} == {Null};
    assert {Null} + {TrueLit} == {Null, TrueLit};
    assert {Null, TrueLit} + {FalseLit} == {Null, TrueLit, FalseLit};
    assert {Null, TrueLit, FalseLit} + {EscSlash} == AllLits;

    StepIsSafe(ts, {}, EscSlash);
    RewriteStep(ts, {}, EscSlash);
    StepIsSafe(ts, {EscSlash}, FalseLit);
    RewriteStep(ts, {EscSlash}, FalseLit);
    StepIsSafe(ts, {EscSlash, FalseLit}, TrueLit);
    RewriteStep(ts, {EscSlash, FalseLit}, TrueLit);
    StepIsSafe(ts, {EscSlash, FalseLit, TrueLit}, Null);
    RewriteStep(ts, {EscSlash, FalseLit, TrueLit}, Null);
    assert {} + {EscSlash} == {EscSlash};
    assert {EscSlash} + {FalseLit} == {EscSlash, FalseLit};
    assert {EscSlash, FalseLit} + {TrueLit} == {EscSlash, FalseLit, TrueLit};
    assert {EscSlash, FalseLit, TrueLit} + {Null} == AllLits;
  }

  /** `s[s.rfind("[["): s.rfind("]]") + 2]`. */
  function BlobSlice(s: string): string {
    Text.PySlice(s, Text.RFind(s, "[["), Text.RFind(s, "]]") + 2)
  }

  /** When the last "[[" comes before the last "]]", the slice is exactly the
      text from the one to the other, both included, and no later "[[" is in it. */
  lemma BlobSliceBetweenMarkers(s: string)
    requires 0 <= Text.RFind(s, "[[") && Text.RFind(s, "[[") + 2 <= Text.RFind(s, "]]") + 2
    ensures var a := Text.RFind(s, "[[");
            var b := Text.RFind(s, "]]") + 2;
            var t := BlobSlice(s);
            t == s[a..b] && |t| >= 2 && t[..2] == "[[" && t[|t| - 2..] == "]]" &&
            forall j :: 0 < j ==> !Text.OccursAt(t, "[[", j)
  {
    var a := Text.RFind(s, "[[");
    var b := Text.RFind(s, "]]") + 2;
    var t := BlobSlice(s);
    assert Text.OccursAt(s, "[[", a) && Text.OccursAt(s, "]]", b - 2);
    Text.PySliceWithin(s, a, b);
    SliceBetweenEnds(s, a, b);
    forall j | 0 < j ensures !Text.OccursAt(t, "[[", j) {
      if j + 2 <= |t| {
        LaterMarkerAbsent(s, t, a, b, j);
      }
    }
  }

  /** The text from an occurrence of "[[" to the end of a later "]]" starts
      and ends with them. */
  lemma SliceBetweenEnds(s: string, a: int, b: int)
    requires 0 <= a && a + 2 <= b <= |s|
    requires Text.OccursAt(s, "[[", a) && Text.OccursAt(s, "]]", b - 2)
    ensures var t := s[a..b]; |t| >= 2 && t[..2] == "[[" && t[|t| - 2..] == "]]"
  {
    assert s[a..b][..2] == s[a..a + 2];
    assert s[a..b][b - a - 2..] == s[b - 2..b];
  }

  /** A "[[" inside the slice after its start would be a later "[[" of the text. */
  lemma LaterMarkerAbsent(s: string, t: string, a: int, b: int, j: int)
    requires a == Text.RFind(s, "[[") && 0 <= a <= b <= |s| && t == s[a..b]
    requires 0 < j && j + 2 <= |t|
    ensures !Text.OccursAt(t, "[[", j)
  {
    assert a < a + j <= |s| - 2;
    assert t[j..j + 2] == s[a + j..a + j + 2] by {
      assert t[j] == s[a + j] && t[j + 1] == s[a + j + 1];
    }
    assert !Text.OccursAt(s, "[[", a + j);
  }

  // ---------------------------------------------------------------------
  // Rows
  // ---------------------------------------------------------------------

  /** `dict(zip(["photo_160", "photo_300"], cover.split(",")[::-1]))`. */
  function PhotoSizes(cover: string): (m: map<string, Value>)
    ensures "photo_160" in m
  {
    SizesOf(Text.Split(cover, ','))
  }

  /** The zip of the two size keys with the reversed parts. */
  function SizesOf(parts: seq<string>): map<string, Value>
    requires |parts| >= 1
  {
    var n := |parts|;
    map["photo_160" := VStr(parts[n - 1])] + (if n >= 2 then map["photo_300" := VStr(parts[n - 2])] else map[])
  }

  /** A comma-separated cover list yields its last URL as photo_160 and the
      one before it as photo_300. */
  lemma PhotoSizesFromLastTwo(urls: seq<string>)
    requires |urls| >= 2
    requires forall k :: 0 <= k < |urls| ==> ',' !in urls[k]
    ensures PhotoSizes(Text.Join(urls, ",")) ==
            map["photo_160" := VStr(urls[|urls| - 1]), "photo_300" := VStr(urls[|urls| - 2])]
  {
    CoverSplitsBack(urls);
    SizesOfLastTwo(urls);
  }

  /** Splitting the comma-joined cover list gives the list back. */
  lemma CoverSplitsBack(urls: seq<string>)
    requires |urls| >= 2
    requires forall k :: 0 <= k < |urls| ==> ',' !in urls[k]
    ensures Text.Split(Text.Join(urls, ","), ',') == urls
  {
    Text.SplitJoin(urls, ',');
  }

  /** The sizes of a list of at least two parts: the last two, reversed. */
  lemma SizesOfLastTwo(parts: seq<string>)
    requires |parts| >= 2
    ensures SizesOf(parts) == map["photo_160" := VStr(parts[|parts| - 1]), "photo_300" := VStr(parts[|parts| - 2])]
  {
  }

  /** The album dict of a row, from the album list after the photo dict was
      appended to it: "photo" is set only when that list has four items. */
  function AlbumFields(album: seq<Value>): (m: map<string, Value>)
    requires |album| >= 2
    ensures m.Keys == {"owner_id", "album_id"} + (if |album| == 4 then {"photo"} else {})
    ensures m["owner_id"] == album[0] && m["album_id"] == album[1]
    ensures |album| == 4 ==> m["photo"] == album[3]
  {
    map["owner_id" := album[0], "album_id" := album[1]] + (if |album| == 4 then map["photo" := album[3]] else map[])
  }

  /** `d` is the track dict of the row `t` with the album value `album`:
      exactly the ten keys, each taken from its fixed position. */
  predicate RowFields(t: seq<Value>, d: map<string, Value>, album: Value)
    requires |t| >= MinRowLength
  {
    d.Keys == {"owner_id", "track_id", "title", "artist", "subtitle", "main_artists",
               "featured_artists", "duration", "album", "release_audio_id"} &&
    d["track_id"] == t[0] && d["owner_id"] == t[1] && d["title"] == t[3] && d["artist"] == t[4] &&
    d["duration"] == t[5] && d["subtitle"] == t[16] && d["main_artists"] == t[17] &&
    d["featured_artists"] == t[18] && d["release_audio_id"] == t[|t| - 2] && d["album"] == album
  }

  /** The track dict built from a row of at least 20 fields. */
  function RowDict(row: seq<Value>, album: Value): (d: map<string, Value>)
    requires |row| >= MinRowLength
    ensures RowFields(row, d, album)
  {
    map["owner_id" := row[1], "track_id" := row[0], "title" := row[3], "artist" := row[4],
        "subtitle" := row[16], "main_artists" := row[17], "featured_artists" := row[18],
        "duration" := row[5], "album" := album, "release_audio_id" := row[|row| - 2]]
  }

  /** The handling of one row: None for a row shorter than 20 fields (it is
      dropped, never partly mapped), the track dict otherwise;
      `absentAlbum` is what a row with a falsy album gets. A fault stands
      for the Python exception a malformed row raises. */
  function MapRow(row: Value, absentAlbum: Value): (r: Result<Option<Value>>)
    ensures r == Ok(None) <==> Len(row).Some? && Len(row).value < MinRowLength
    ensures r.Fail? <==>
              Len(row).None? ||
              (Len(row).value >= MinRowLength &&
               (!row.VList? || (Truthy(row.items[19]) && !(row.items[19].VList? && row.items[14].VStr?))))
    ensures r.Ok? && r.value.Some? ==>
              row.VList? && |row.items| >= MinRowLength && r.value.value.VDict? &&
              var d := r.value.value.fields;
              var t := row.items;
              (!Truthy(t[19]) ==> RowFields(t, d, absentAlbum)) &&
              (Truthy(t[19]) ==>
                 t[19].VList? && t[14].VStr? &&
                 RowFields(t, d, VDict(AlbumFields(t[19].items + [VDict(PhotoSizes(t[14].s))]))))
  {
    match row
    case VList(t) =>
      if |t| < MinRowLength then Ok(None)
      else
        var album := t[19];
        if !Truthy(album) then Ok(Some(VDict(RowDict(t, absentAlbum))))
        else if !album.VList? || !t[14].VStr? then Fail(RuntimeFault)  // `.append` / `.split` missing
        else
          var extended := album.items + [VDict(PhotoSizes(t[14].s))];
          Ok(Some(VDict(RowDict(t, VDict(AlbumFields(extended))))))
    case VStr(s) => if |s| < MinRowLength then Ok(None) else Fail(RuntimeFault)
    case VDict(m) => if |m| < MinRowLength then Ok(None) else Fail(RuntimeFault)
    case _ => Fail(RuntimeFault)
  }

  /** The rewriting loop over all rows: each slot becomes None or its track
      dict; a row that faults ends the loop with that fault. */
  function MapRows(rows: seq<Value>, absentAlbum: Value): (r: Result<seq<Option<Value>>>)
    ensures r.Ok? ==> |r.value| == |rows| && forall i :: 0 <= i < |rows| ==> MapRow(rows[i], absentAlbum) == Ok(r.value[i])
    ensures r.Ok? <==> forall i :: 0 <= i < |rows| ==> MapRow(rows[i], absentAlbum).Ok?
  {
    if |rows| == 0 then Ok([])
    else match MapRows(rows[..|rows| - 1], absentAlbum)
      case Fail(k) => Fail(k)
      case Ok(slots) =>
        match MapRow(rows[|rows| - 1], absentAlbum)
        case Fail(k) => Fail(k)
        case Ok(slot) => Ok(slots + [slot])
  }

  /** The list comprehension that keeps the truthy slots, each finalized
      into a Track. */
  function Keep(slots: seq<Option<Value>>): seq<ApiClient.Entity>
  {
    if |slots| == 0 then []
    else Keep(slots[..|slots| - 1]) +
         (if slots[|slots| - 1].Some? then [ApiClient.FinalizeOne(ApiClient.TrackType, slots[|slots| - 1].value)] else [])
  }

  /** Keeping distributes over concatenation: the survivors keep their
      relative order. */
  lemma {:induction false} KeepAppend(a: seq<Option<Value>>, b: seq<Option<Value>>)
    ensures Keep(a + b) == Keep(a) + Keep(b)
    decreases |b|
  {
    if |b| > 0 {
      assert (a + b)[..|a + b| - 1] == a + b[..|b| - 1];
      KeepAppend(a, b[..|b| - 1]);
    } else {
      assert a + b == a;
    }
  }

  /** Nothing survives exactly when every slot is None. */
  lemma {:induction false} KeepEmpty(slots: seq<Option<Value>>)
    ensures |Keep(slots)| == 0 <==> forall i :: 0 <= i < |slots| ==> slots[i] == None
  {
    if |slots| > 0 {
      KeepEmpty(slots[..|slots| - 1]);
      var init := slots[..|slots| - 1];
      if forall i :: 0 <= i < |slots| ==> slots[i] == None {
        forall i | 0 <= i < |init| ensures init[i] == None { assert init[i] == slots[i]; }
      } else if |Keep(init)| == 0 {
        var i :| 0 <= i < |slots| && slots[i] != None;
        if i < |init| { assert init[i] == slots[i]; }
      }
    }
  }

  /** The loop over the decoded rows as the source runs it: the rows are
      overwritten in place, then the surviving ones are collected. */
  method ProcessRows(rows: seq<Value>, absentAlbum: Value) returns (r: Result<seq<ApiClient.Entity>>)
    ensures MapRows(rows, absentAlbum).Fail? ==> r == Fail(MapRows(rows, absentAlbum).kind)
    ensures MapRows(rows, absentAlbum).Ok? ==> r == Ok(Keep(MapRows(rows, absentAlbum).value))
  {
    var slots := OverwriteRows(rows, absentAlbum);
    if slots.Fail? {
      return Fail(slots.kind);
    }
    var kept := KeepSlots(slots.value);
    return Ok(kept);
  }

  /** The first loop: each row is overwritten in place by its slot; a row
      that faults ends the loop. */
  method OverwriteRows(rows: seq<Value>, absentAlbum: Value) returns (r: Result<seq<Option<Value>>>)
    ensures r == MapRows(rows, absentAlbum)
  {
    var slots := new Option<Value>[|rows|](i requires 0 <= i < |rows| => Some(rows[i]));
    for index := 0 to |rows|
      invariant MapRows(rows[..index], absentAlbum) == Ok(slots[..index])
    {
      var mapped := MapRow(rows[index], absentAlbum);
      MapRowsSnoc(rows, absentAlbum, index);
      if mapped.Fail? {
        MapRowsFailureSticks(rows, absentAlbum, index + 1);
        return Fail(mapped.kind);
      }
      slots[index] := mapped.value;
      assert slots[..index + 1] == slots[..index] + [mapped.value];
    }
    assert rows[..|rows|] == rows;
    assert slots[..|rows|] == slots[..];
    return Ok(slots[..]);
  }

  /** One more row: its slot is appended, or its fault ends the loop. */
  lemma MapRowsSnoc(rows: seq<Value>, absentAlbum: Value, index: nat)
    requires index < |rows| && MapRows(rows[..index], absentAlbum).Ok?
    ensures MapRow(rows[index], absentAlbum).Fail? ==>
              MapRows(rows[..index + 1], absentAlbum) == Fail(MapRow(rows[index], absentAlbum).kind)
    ensures MapRow(rows[index], absentAlbum).Ok? ==>
              MapRows(rows[..index + 1], absentAlbum) ==
              Ok(MapRows(rows[..index], absentAlbum).value + [MapRow(rows[index], absentAlbum).value])
  {
    assert rows[..index + 1][..index] == rows[..index];
    assert rows[..index + 1][index] == rows[index];
  }

  /** The comprehension `[track for track in tracks if track]`. */
  method KeepSlots(slots: seq<Option<Value>>) returns (kept: seq<ApiClient.Entity>)
    ensures kept == Keep(slots)
  {
    kept := [];
    for i := 0 to |slots|
      invariant kept == Keep(slots[..i])
    {
      assert slots[..i + 1][..i] == slots[..i];
      if slots[i].Some? {
        kept := kept + [ApiClient.FinalizeOne(ApiClient.TrackType, slots[i].value)];
      }
    }
    assert slots[..|slots|] == slots;
  }

  /** Once a row faults, the whole loop faults. */
  lemma {:induction false} MapRowsFailureSticks(rows: seq<Value>, absentAlbum: Value, n: nat)
    requires n <= |rows| && MapRows(rows[..n], absentAlbum).Fail?
    ensures MapRows(rows, absentAlbum) == MapRows(rows[..n], absentAlbum)
    decreases |rows| - n
  {
    if n < |rows| {
      assert rows[..n + 1][..n] == rows[..n];
      MapRowsFailureSticks(rows, absentAlbum, n + 1);
    } else {
      assert rows[..n] == rows;
    }
  }

  // ---------------------------------------------------------------------
  // The two parsers
  // ---------------------------------------------------------------------

  /** The title of the generic VK music page, served when the request did
      not reach the user's audio. */
  const GenericPageTitle: string :=
    "<title>Музыка ВКонтакте: слушать песни и музыку онлайн бесплатно | ВКонтакте</title>"

  /** The survivors of a decoded list as a parse result: none gives None. */
  function Collect(rows: seq<Value>, absentAlbum: Value): Result<Parsed>
  {
    match MapRows(rows, absentAlbum)
    case Fail(k) => Fail(k)
    case Ok(slots) => if |Keep(slots)| == 0 then Ok(NoTracks) else Ok(Tracks(Keep(slots)))
  }

  /** methods/utils/_getTracks.py. `hasCookieAttribute` says whether the
      client object has a `_cookies` attribute. */
  method ParseTrackBlob(text: string, eval: string -> EvalResult, hasCookieAttribute: bool) returns (r: Result<Parsed>)
    ensures eval(BlobSlice(RewriteUtils(text))) == SyntaxError ==>
              r == Fail(if hasCookieAttribute then AccessDenied else AccessDeniedWithoutCookie)
    ensures eval(BlobSlice(RewriteUtils(text))) == OtherError ==> r == Fail(RuntimeFault)
    ensures eval(BlobSlice(RewriteUtils(text))).Evaluated? ==>
              var v := eval(BlobSlice(RewriteUtils(text))).v;
              (!v.VList? ==> r == Ok(Verbatim(v))) &&
              (v.VList? ==> r == Collect(v.items, VDict(map[])))
  {
    var source := BlobSlice(RewriteUtils(text));
    match eval(source) {
      case SyntaxError =>
        return Fail(if hasCookieAttribute then AccessDenied else AccessDeniedWithoutCookie);
      case OtherError =>
        return Fail(RuntimeFault);
      case Evaluated(v) =>
        if !v.VList? {
          return Ok(Verbatim(v));
        }
        var kept := ProcessRows(v.items, VDict(map[]));
        if kept.Fail? {
          return Fail(kept.kind);
        }
        if |kept.value| == 0 {
          return Ok(NoTracks);
        }
        return Ok(Tracks(kept.value));
    }
  }

  /** methods/other/_getTracks.py. */
  method ParseTrackPage(text: string, eval: string -> EvalResult) returns (r: Result<Parsed>)
    ensures text == "" || Text.Contains(text, GenericPageTitle) ==> r == Ok(NoTracks)
    ensures text != "" && !Text.Contains(text, GenericPageTitle) ==>
              var e := eval(BlobSlice(RewriteOther(text)));
              (e == SyntaxError ==> r == Fail(AccessDenied)) &&
              (e == OtherError ==> r == Fail(RuntimeFault)) &&
              (e.Evaluated? && !e.v.VList? ==> r == Ok(NoTracks)) &&
              (e.Evaluated? && e.v.VList? ==> r == Collect(e.v.items, VNone))
    ensures !r.Ok? || !r.value.Verbatim?
  {
    if text == "" || Text.Contains(text, GenericPageTitle) {
      return Ok(NoTracks);
    }
    var source := BlobSlice(RewriteOther(text));
    match eval(source) {
      case SyntaxError =>
        return Fail(AccessDenied);
      case OtherError =>
        return Fail(RuntimeFault);
      case Evaluated(v) =>
        if !v.VList? {
          return Ok(NoTracks);
        }
        var kept := ProcessRows(v.items, VNone);
        if kept.Fail? {
          return Fail(kept.kind);
        }
        if |kept.value| == 0 {
          return Ok(NoTracks);
        }
        return Ok(Tracks(kept.value));
    }
  }

  /** The track list a parse returns is never empty, and the parse gives None
      exactly when every row was dropped. */
  lemma {:induction false} CollectKeepsLongRowsInOrder(rows: seq<Value>, absentAlbum: Value)
    ensures Collect(rows, absentAlbum).Ok? && Collect(rows, absentAlbum).value.Tracks? ==>
              |Collect(rows, absentAlbum).value.tracks| > 0
    ensures MapRows(rows, absentAlbum).Ok? ==>
              (Collect(rows, absentAlbum) == Ok(NoTracks) <==>
                 forall i :: 0 <= i < |rows| ==> MapRow(rows[i], absentAlbum) == Ok(None))
  {
    if MapRows(rows, absentAlbum).Ok? {
      KeepEmpty(MapRows(rows, absentAlbum).value);
    }
  }
}

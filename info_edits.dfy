/**
  The two editing builders: `edit` (vkmusix/methods/tracks/edit.py) and
  `editPlaylist` (vkmusix/methods/playlists/editPlaylist.py). The reply of
  `_req` is the parameter `reply`; the photo upload helper and `getSelf`
  are not part of this model, their results are parameters.
 */
module InfoEdits {
  import opened Wrappers
  import opened PyValue
  import opened Errors
  import ApiClient
  import TrackEdits

  // ---------------------------------------------------------------------
  // edit
  // ---------------------------------------------------------------------

  /** The optional fields of `edit`. */
  datatype TrackFields = TrackFields(title: Value, artist: Value, lyrics: Value, genreId: Value, noSearch: Value)

  /** Is there anything to change? */
  predicate AnyField(f: TrackFields) {
    Truthy(f.title) || Truthy(f.artist) || f.lyrics != VNone || f.genreId != VNone || f.noSearch != VNone
  }

  /** The parameters of the "edit" request. */
  function EditParams(ownerId: Value, trackId: Value, f: TrackFields): (p: map<string, Value>)
    ensures p.Keys <= {"owner_id", "audio_id", "title", "artist", "lyrics", "genre_id", "no_search"}
    ensures "owner_id" in p && p["owner_id"] == ownerId && "audio_id" in p && p["audio_id"] == trackId
    ensures ("title" in p <==> Truthy(f.title)) && ("title" in p ==> p["title"] == f.title)
    ensures ("artist" in p <==> Truthy(f.artist)) && ("artist" in p ==> p["artist"] == f.artist)
    ensures ("lyrics" in p <==> f.lyrics != VNone) && ("lyrics" in p ==> p["lyrics"] == f.lyrics)
    ensures ("genre_id" in p <==> f.genreId != VNone) && ("genre_id" in p ==> p["genre_id"] == f.genreId)
    ensures ("no_search" in p <==> f.noSearch != VNone) && ("no_search" in p ==> p["no_search"] == f.noSearch)
  {
    var p0 := map["owner_id" := ownerId, "audio_id" := trackId];
    var p1 := if Truthy(f.title) then p0["title" := f.title] else p0;
    var p2 := if Truthy(f.artist) then p1["artist" := f.artist] else p1;
    var p3 := if f.lyrics != VNone then p2["lyrics" := f.lyrics] else p2;
    var p4 := if f.genreId != VNone then p3["genre_id" := f.genreId] else p3;
    if f.noSearch != VNone then p4["no_search" := f.noSearch] else p4
  }

  /** `edit`: False without a request when nothing is to be changed,
      otherwise one "edit" request and the truth of its reply. */
  function Edit(ownerId: Value, trackId: Value, f: TrackFields, reply: Result<Value>)
    : (r: (Result<bool>, seq<TrackEdits.Call>))
    ensures !AnyField(f) ==> r == (Ok(false), [])
    ensures AnyField(f) ==> r.1 == [TrackEdits.Call("edit", EditParams(ownerId, trackId, f))]
    ensures AnyField(f) && reply.Ok? ==> r.0 == Ok(Truthy(reply.value))
    ensures AnyField(f) && reply.Fail? ==> r.0 == Fail(reply.kind)
  {
    if !AnyField(f) then (Ok(false), [])
    else
      var sent := [TrackEdits.Call("edit", EditParams(ownerId, trackId, f))];
      match reply
      case Ok(v) => (Ok(Truthy(v)), sent)
      case Fail(k) => (Fail(k), sent)
  }

  /** The parameter clean-up of `_req` leaves the "edit" parameters as they
      are whenever both ids are given: every optional field it holds is
      already not None. */
  lemma EditParamsSurviveCleanUp(ownerId: Value, trackId: Value, f: TrackFields)
    requires ownerId != VNone && trackId != VNone
    ensures ApiClient.CleanParams(EditParams(ownerId, trackId, f)) == EditParams(ownerId, trackId, f)
  {
    var p := EditParams(ownerId, trackId, f);
    assert "count" !in p;
    assert forall key :: key in p ==> p[key] != VNone;
  }

  // ---------------------------------------------------------------------
  // editPlaylist
  // ---------------------------------------------------------------------

  /** The parameters of the "editPlaylist" request: the title when truthy,
      the description unless it is the empty string (None included). */
  function PlaylistParams(playlistId: Value, owner: Value, title: Value, description: Value): (p: map<string, Value>)
    ensures p.Keys <= {"playlist_id", "owner_id", "title", "description"}
    ensures "playlist_id" in p && p["playlist_id"] == playlistId && "owner_id" in p && p["owner_id"] == owner
    ensures ("title" in p <==> Truthy(title)) && ("title" in p ==> p["title"] == title)
    ensures ("description" in p <==> description != VStr("")) && ("description" in p ==> p["description"] == description)
  {
    var p0 := map["playlist_id" := playlistId, "owner_id" := owner];
    var p1 := if Truthy(title) then p0["title" := title] else p0;
    if description != VStr("") then p1["description" := description] else p1
  }

  /** Is there anything to change on a playlist? */
  predicate AnyPlaylistField(title: Value, description: Value, photo: Value) {
    Truthy(title) || description != VNone || photo != VNone
  }

  /** What `editPlaylist` did: its answer, the info request (if any) and
      whether the photo helper ran. */
  datatype PlaylistEdit = PlaylistEdit(status: Value, info: Option<map<string, Value>>, photoEdited: bool)

  /** `editPlaylist`. `selfId` is the "id" of `getSelf()`, `infoReply` the
      reply to "editPlaylist" and `photoStatus` the photo helper's answer. */
  function EditPlaylist(playlistId: Value, title: Value, description: Value, photo: Value, groupId: Value,
                        selfId: Value, infoReply: Result<Value>, photoStatus: Result<Value>): (r: Result<PlaylistEdit>)
    // Nothing to change: False, and nothing is sent.
    ensures !AnyPlaylistField(title, description, photo) ==>
              r == Ok(PlaylistEdit(VBool(false), None, false))
    // The info request goes out exactly when a title or a description is to be set.
    ensures r.Ok? && r.value.info.Some? ==> Truthy(title) || description != VStr("")
    ensures AnyPlaylistField(title, description, photo) && r.Ok? && (Truthy(title) || description != VStr("")) ==>
              r.value.info.Some?
    ensures r.Ok? && r.value.info.Some? ==>
              r.value.info.value ==
                PlaylistParams(playlistId, if Truthy(groupId) then groupId else selfId, title, description)
    // The photo helper runs only after a successful or absent info edit, and never for "".
    ensures r.Ok? && r.value.photoEdited ==>
              photo != VStr("") && (r.value.info.None? || (infoReply.Ok? && Truthy(infoReply.value)))
    // Without an info edit the answer is the photo status, or None when no photo was edited.
    ensures r.Ok? && r.value.info.None? && r.value.photoEdited ==> photoStatus == Ok(r.value.status)
    ensures r.Ok? && r.value.info.None? && !r.value.photoEdited && AnyPlaylistField(title, description, photo) ==>
              r.value.status == VNone
    ensures r.Ok? && r.value.info.Some? ==> infoReply.Ok? && r.value.status == VBool(Truthy(infoReply.value))
    // The photo helper is due exactly when there is something to change, the
    // photo is not "" and the info edit was skipped or answered truthily; the
    // call fails exactly when a request that went out failed.
    ensures var infoSent := Truthy(title) || description != VStr("");
            var due := AnyPlaylistField(title, description, photo) && photo != VStr("") &&
                       (!infoSent || (infoReply.Ok? && Truthy(infoReply.value)));
            (r.Fail? <==> AnyPlaylistField(title, description, photo) &&
                            ((infoSent && infoReply.Fail?) || (due && photoStatus.Fail?))) &&
            (r.Ok? ==> (r.value.photoEdited <==> due))
  {
    if !AnyPlaylistField(title, description, photo) then Ok(PlaylistEdit(VBool(false), None, false))
    else
      var owner := if Truthy(groupId) then groupId else selfId;
      var params := PlaylistParams(playlistId, owner, title, description);
      var infoSent := "title" in params || "description" in params;
      if infoSent && infoReply.Fail? then Fail(infoReply.kind)
      else
        var status := if infoSent then VBool(Truthy(infoReply.value)) else VNone;
        if (status == VBool(true) || status == VNone) && photo != VStr("") then
          match photoStatus
          case Fail(k) => Fail(k)
          case Ok(ps) => Ok(PlaylistEdit(if status == VNone then ps else status, if infoSent then Some(params) else None, true))
        else Ok(PlaylistEdit(status, if infoSent then Some(params) else None, false))
  }

  /** Clearing the description (None) sends an "editPlaylist" request, but
      the parameter clean-up of `_req` drops the None: the request carries
      no description. */
  lemma ClearedDescriptionIsDropped(playlistId: Value, owner: Value, title: Value)
    ensures "description" in PlaylistParams(playlistId, owner, title, VNone)
    ensures "description" !in ApiClient.CleanParams(PlaylistParams(playlistId, owner, title, VNone))
  {
  }
}

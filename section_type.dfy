/**
  The section type (vkmusix/types/section.py): the subsection blocks kept,
  the tracks and playlists rebuilt from "owner_id" ids, and the removal of
  subsections that are the section itself.
 */
module SectionType {
  import opened Wrappers
  import opened PyValue
  import opened Errors
  import Text
  import Naming
  import ApiClient

  /** `section.get("section", section)`. */
  function Info(section: Value): Value {
    if section.VDict? && "section" in section.fields then section.fields["section"] else section
  }

  /** The id a (sub)section gets. */
  function SectionId(section: Value): Value {
    Get(Info(section), "id")
  }

  predicate Shown(block: Value) {
    Get(block, "data_type") != VStr("none") && Get(block, "data_type") != VStr("audio_stream_mixes")
  }

  /** The blocks whose data type is neither "none" nor "audio_stream_mixes", in order. */
  function ShownBlocks(blocks: seq<Value>): (r: seq<Value>)
    ensures forall b :: b in r <==> b in blocks && Shown(b)
  {
    if |blocks| == 0 then []
    else ShownBlocks(blocks[..|blocks| - 1]) +
         (if Shown(blocks[|blocks| - 1]) then [blocks[|blocks| - 1]] else [])
  }

  /** The subsections before the self-reference clean-up: None without
      blocks, and None when no block is shown (the finalizer's answer for an
      empty list). Iterating anything but a list is not modelled and faults. */
  function Subsections(blocks: Value): (r: Result<Option<seq<Value>>>)
    ensures !Truthy(blocks) ==> r == Ok(None)
    ensures r.Fail? <==> Truthy(blocks) && !blocks.VList?
    ensures r.Ok? && r.value.Some? ==>
              blocks.VList? && r.value.value != [] &&
              forall b :: b in r.value.value <==> b in blocks.items && Shown(b)
    ensures blocks.VList? && (exists b :: b in blocks.items && Shown(b)) ==> r.Ok? && r.value.Some?
  {
    if !Truthy(blocks) then Ok(None)
    else if !blocks.VList? then Fail(RuntimeFault)
    else
      var shown := ShownBlocks(blocks.items);
      Ok(if |shown| == 0 then None else Some(shown))
  }

  /** `[{ownerKey: o, idKey: t} for id in ids for o, t in [id.split("_")]]`:
      each id must split into exactly two halves, which stay strings. */
  function IdDicts(ids: seq<Value>, idKey: string): (r: Result<seq<Value>>)
    ensures r.Ok? ==> |r.value| == |ids|
    ensures r.Ok? <==> forall k :: 0 <= k < |ids| ==> IdSplits(ids[k])
    ensures r.Ok? ==> forall k :: 0 <= k < |ids| ==> r.value[k] == IdDict(ids[k], idKey)
  {
    if |ids| == 0 then Ok([])
    else
      var id := ids[|ids| - 1];
      match IdDicts(ids[..|ids| - 1], idKey)
      case Fail(k) => Fail(k)
      case Ok(ds) =>
        if !id.VStr? then Fail(RuntimeFault)
        else
          var parts := Text.Split(id.s, '_');
          if |parts| != 2 then Fail(RuntimeFault)
          else Ok(ds + [VDict(map["owner_id" := VStr(parts[0]), idKey := VStr(parts[1])])])
  }

  /** An id the comprehension can unpack: a string with exactly one "_". */
  predicate IdSplits(id: Value) {
    id.VStr? && |Text.Split(id.s, '_')| == 2
  }

  /** The dict an unpackable id becomes. */
  function IdDict(id: Value, idKey: string): Value
    requires IdSplits(id)
  {
    VDict(map["owner_id" := VStr(Text.Split(id.s, '_')[0]), idKey := VStr(Text.Split(id.s, '_')[1])])
  }

  /** The "o_t" texts of parallel owner and id lists. */
  function IdTexts(owners: seq<string>, ids: seq<string>): (r: seq<Value>)
    requires |owners| == |ids|
    ensures |r| == |ids|
    ensures forall k :: 0 <= k < |ids| ==> r[k] == VStr(Naming.JoinedId(VStr(owners[k]), VStr(ids[k])))
  {
    if |ids| == 0 then []
    else IdTexts(owners[..|ids| - 1], ids[..|ids| - 1]) + [VStr(Naming.JoinedId(VStr(owners[|ids| - 1]), VStr(ids[|ids| - 1])))]
  }

  /** The dicts `{"owner_id": o, idKey: t}` of parallel owner and id lists. */
  function OwnerDicts(owners: seq<string>, ids: seq<string>, idKey: string): (r: seq<Value>)
    requires |owners| == |ids|
    ensures |r| == |ids|
  {
    if |ids| == 0 then []
    else OwnerDicts(owners[..|ids| - 1], ids[..|ids| - 1], idKey) +
         [VDict(map["owner_id" := VStr(owners[|ids| - 1]), idKey := VStr(ids[|ids| - 1])])]
  }

  /** Every "o_t" id becomes the dict with owner o and id t, in order. */
  lemma {:induction false} IdDictsRoundTrip(owners: seq<string>, ids: seq<string>, idKey: string)
    requires |owners| == |ids|
    requires forall k :: 0 <= k < |ids| ==> '_' !in owners[k] && '_' !in ids[k]
    ensures IdDicts(IdTexts(owners, ids), idKey) == Ok(OwnerDicts(owners, ids, idKey))
  {
    var n := |ids|;
    if n > 0 {
      IdDictsRoundTrip(owners[..n - 1], ids[..n - 1], idKey);
      var texts := IdTexts(owners, ids);
      assert texts[..n - 1] == IdTexts(owners[..n - 1], ids[..n - 1]);
      Naming.JoinedIdSplits(owners[n - 1], ids[n - 1]);
      assert Text.Split(texts[n - 1].s, '_') == [owners[n - 1], ids[n - 1]];
    }
  }

  /** The tracks or playlists: the list given under `key`, or else dicts
      rebuilt from the ids under `idsKey`. */
  function Listing(section: Value, key: string, idsKey: string, idKey: string): (r: Result<Value>)
    ensures Truthy(Get(section, key)) ==> r == Ok(Get(section, key))
    ensures !Truthy(Get(section, key)) && !Truthy(Get(section, idsKey)) ==> r == Ok(Get(section, key))
    ensures r.Fail? <==>
              !Truthy(Get(section, key)) && Truthy(Get(section, idsKey)) &&
              (!Get(section, idsKey).VList? || exists k :: 0 <= k < |Get(section, idsKey).items| && !IdSplits(Get(section, idsKey).items[k]))
    ensures r.Ok? && !Truthy(Get(section, key)) && Truthy(Get(section, idsKey)) ==>
              var ids := Get(section, idsKey).items;
              r.value.VList? && |r.value.items| == |ids| &&
              forall k :: 0 <= k < |ids| ==> r.value.items[k] == IdDict(ids[k], idKey)
  {
    var given := Get(section, key);
    if Truthy(given) then Ok(given)
    else
      var ids := Get(section, idsKey);
      if !Truthy(ids) then Ok(given)
      else if !ids.VList? then Fail(RuntimeFault)
      else match IdDicts(ids.items, idKey)
        case Ok(ds) => Ok(VList(ds))
        case Fail(k) => Fail(k)
  }

  /** The final clean-up: a single subsection that is the section itself
      leaves none; otherwise those equal to the section's id are dropped. */
  function DropSelf(subsections: Option<seq<Value>>, id: Value): (r: Option<seq<Value>>)
    ensures r.Some? ==> forall b :: b in r.value ==> SectionId(b) != id
    ensures r.Some? ==> subsections.Some? && forall b :: b in r.value ==> b in subsections.value
    ensures subsections.Some? ==> forall b :: b in subsections.value && SectionId(b) != id ==> r.Some? && b in r.value
  {
    match subsections
    case None => None
    case Some(subs) =>
      if |subs| == 1 && SectionId(subs[0]) == id then None
      else Some(Without(subs, id))
  }

  function Without(subs: seq<Value>, id: Value): (r: seq<Value>)
    ensures forall b :: b in r <==> b in subs && SectionId(b) != id
  {
    if |subs| == 0 then []
    else Without(subs[..|subs| - 1], id) +
         (if SectionId(subs[|subs| - 1]) != id then [subs[|subs| - 1]] else [])
  }

  /** A self-reference is dropped to None when alone, but two of them leave
      an empty list. */
  lemma SelfReferences(a: Value, b: Value)
    requires SectionId(a) == SectionId(b)
    ensures DropSelf(Some([a]), SectionId(a)) == None
    ensures DropSelf(Some([a, b]), SectionId(a)) == Some([])
  {
    assert [a, b][..1] == [a];
    assert [a][..0] == [];
    assert Without([], SectionId(a)) == [];
    assert Without([a], SectionId(a)) == [];
    assert Without([a, b], SectionId(a)) == [];
  }

  datatype SectionRecord = SectionRecord(
    title: Value,
    subsections: Option<seq<Value>>,
    tracks: Option<ApiClient.Finalized>,
    playlists: Option<ApiClient.Finalized>,
    recommendedPlaylists: Option<ApiClient.Finalized>,
    nextOffset: Value,
    id: Value,
    url: Value)

  /** `Section(section)`. Subsections are kept as their raw blocks, each of
      which becomes a Section of its own. */
  function Section(section: Value): (r: Result<SectionRecord>)
    ensures r.Fail? <==>
              Subsections(Get(Info(section), "blocks")).Fail? ||
              Listing(section, "audios", "audios_ids", "track_id").Fail? ||
              Listing(section, "playlists", "playlists_ids", "playlist_id").Fail?
    ensures r.Ok? ==> r.value.id == SectionId(section)
    ensures r.Ok? ==>
              r.value.title == Get(Info(section), "title") &&
              r.value.nextOffset == Get(Info(section), "next_from") &&
              r.value.url == Get(Info(section), "url")
    ensures r.Ok? ==> r.value.subsections == DropSelf(Subsections(Get(Info(section), "blocks")).value, SectionId(section))
    ensures r.Ok? ==>
              r.value.tracks == ApiClient.Finalization(Listing(section, "audios", "audios_ids", "track_id").value,
                                                       ApiClient.TrackType) &&
              r.value.playlists == ApiClient.Finalization(Listing(section, "playlists", "playlists_ids", "playlist_id").value,
                                                          ApiClient.PlaylistType) &&
              r.value.recommendedPlaylists == ApiClient.Finalization(Get(section, "recommended_playlists"),
                                                                     ApiClient.PlaylistType)
    ensures r.Ok? && r.value.subsections.Some? ==>
              forall b :: b in r.value.subsections.value ==>
                Shown(b) && SectionId(b) != r.value.id &&
                Get(Info(section), "blocks").VList? && b in Get(Info(section), "blocks").items
  {
    var info := Info(section);
    var subs := Subsections(Get(info, "blocks"));
    var tracks := Listing(section, "audios", "audios_ids", "track_id");
    var playlists := Listing(section, "playlists", "playlists_ids", "playlist_id");
    if subs.Fail? then Fail(subs.kind)
    else if tracks.Fail? then Fail(tracks.kind)
    else if playlists.Fail? then Fail(playlists.kind)
    else
      var id := Get(info, "id");
      Ok(SectionRecord(
        Get(info, "title"),
        DropSelf(subs.value, id),
        ApiClient.Finalization(tracks.value, ApiClient.TrackType),
        ApiClient.Finalization(playlists.value, ApiClient.PlaylistType),
        ApiClient.Finalization(Get(section, "recommended_playlists"), ApiClient.PlaylistType),
        Get(info, "next_from"),
        id,
        Get(info, "url")))
  }
}

/**
  `_parseAPITracks` (vkmusix/methods/tracks/_parseAPITracks.py): turn the
  "owner_track[_key[_key]]" ids of an API reply into track records of two
  integers, in place, and finalize them as tracks.
 */
module ApiTracks {
  import opened Wrappers
  import opened PyValue
  import opened Errors
  import Text
  import ApiClient

  /** The "owner_track" text of a pair of integer ids. */
  function IdText(ownerId: int, trackId: int): string {
    Text.IntToString(ownerId) + "_" + Text.IntToString(trackId)
  }

  /** An id with exactly three "_" loses its last "_" segment; the first two
      "_" fields are then read as integers. A fault is the ValueError of a
      missing field or a non-numeric one. */
  function ParseAudioId(id: string): Result<(int, int)>
  {
    var trimmed := if Text.CountChar(id, '_') == 3 then Text.PySlice(id, 0, Text.RFind(id, "_")) else id;
    var fields := Text.Split(trimmed, '_');
    if |fields| < 2 then Fail(RuntimeFault)
    else match (Text.ParseInt(fields[0]), Text.ParseInt(fields[1]))
      case (Some(o), Some(t)) => Ok((o, t))
      case _ => Fail(RuntimeFault)
  }

  /** The digits of an id never hold a "_". */
  lemma IdFieldsSeparatorFree(ownerId: int, trackId: int)
    ensures '_' !in Text.IntToString(ownerId) && '_' !in Text.IntToString(trackId)
    ensures Text.CountChar(Text.IntToString(ownerId), '_') == 0
    ensures Text.CountChar(Text.IntToString(trackId), '_') == 0
  {
    Text.IntTextHasNoSeparator(ownerId, '_');
    Text.IntTextHasNoSeparator(trackId, '_');
    Text.CountCharAbsent(Text.IntToString(ownerId), '_');
    Text.CountCharAbsent(Text.IntToString(trackId), '_');
  }

  /** Parsing reads back the integers of a plain "owner_track" id, negative
      owners included. */
  lemma AudioIdRoundTrip(ownerId: int, trackId: int)
    ensures ParseAudioId(IdText(ownerId, trackId)) == Ok((ownerId, trackId))
  {
    var a := Text.IntToString(ownerId);
    var b := Text.IntToString(trackId);
    IdFieldsSeparatorFree(ownerId, trackId);
    Text.CountCharAppend(a + "_", b, '_');
    Text.CountCharAppend(a, "_", '_');
    assert IdText(ownerId, trackId) == a + ['_'] + b;
    Text.SplitAfterHead(a, b, '_');
    Text.SplitWhole(b, '_');
    Text.IntRoundTrip(ownerId);
    Text.IntRoundTrip(trackId);
  }

  /** Whatever access-key segments follow, the first two fields are the ids. */
  lemma AudioIdWithKeys(ownerId: int, trackId: int, keys: string)
    ensures ParseAudioId(IdText(ownerId, trackId) + "_" + keys) == Ok((ownerId, trackId))
  {
    var a := Text.IntToString(ownerId);
    var b := Text.IntToString(trackId);
    var head := a + ['_'] + b + ['_'];
    var id := IdText(ownerId, trackId) + "_" + keys;
    IdFieldsSeparatorFree(ownerId, trackId);
    assert id == head + keys;
    var tail := keys;
    if Text.CountChar(id, '_') == 3 {
      HeadCount(a, b);
      Text.CountCharAppend(head, keys, '_');
      tail := TrimKeepsHead(head, keys);
    }
    assert head + tail == a + ['_'] + (b + ['_'] + tail);
    FieldsOfHead(ownerId, trackId, tail);
  }

  /** "a_b_" holds two "_" when `a` and `b` hold none. */
  lemma HeadCount(a: string, b: string)
    requires Text.CountChar(a, '_') == 0 && Text.CountChar(b, '_') == 0
    ensures Text.CountChar(a + ['_'] + b + ['_'], '_') == 2
  {
    Text.CountCharAppend(a + ['_'] + b, ['_'], '_');
    Text.CountCharAppend(a + ['_'], b, '_');
    Text.CountCharAppend(a, ['_'], '_');
  }

  /** Cutting `head + keys` at its last "_", when `keys` holds one, keeps
      `head` and a prefix of `keys`. */
  lemma TrimKeepsHead(head: string, keys: string) returns (tail: string)
    requires Text.CountChar(keys, '_') > 0
    ensures Text.PySlice(head + keys, 0, Text.RFind(head + keys, "_")) == head + tail
  {
    var id := head + keys;
    var q := FindChar(keys, '_');
    assert Text.OccursAt(id, "_", |head| + q) by {
      assert id[|head| + q..|head| + q + 1] == keys[q..q + 1];
    }
    var r := Text.RFind(id, "_");
    assert |head| <= r;
    tail := keys[..r - |head|];
    assert id[..r] == head + tail;
  }

  /** An id that starts with "owner_track_" parses to the two integers. */
  lemma FieldsOfHead(ownerId: int, trackId: int, tail: string)
    ensures var fields := Text.Split(Text.IntToString(ownerId) + ['_'] + (Text.IntToString(trackId) + ['_'] + tail), '_');
            |fields| >= 2 && Text.ParseInt(fields[0]) == Some(ownerId) && Text.ParseInt(fields[1]) == Some(trackId)
  {
    var a := Text.IntToString(ownerId);
    var b := Text.IntToString(trackId);
    IdFieldsSeparatorFree(ownerId, trackId);
    Text.SplitAfterHead(a, b + ['_'] + tail, '_');
    Text.SplitAfterHead(b, tail, '_');
    Text.IntRoundTrip(ownerId);
    Text.IntRoundTrip(trackId);
  }

  /** The index of a character a string holds at least once. */
  lemma FindChar(s: string, c: char) returns (q: nat)
    requires Text.CountChar(s, c) > 0
    ensures q < |s| && s[q] == c
  {
    if c !in s {
      Text.CountCharAbsent(s, c);
    }
    q :| q < |s| && s[q] == c;
  }

  /** The record a parsed id is rewritten to. */
  function IdRecord(ids: (int, int)): Value {
    VDict(map["owner_id" := VInt(ids.0), "track_id" := VInt(ids.1)])
  }

  /** The rewrite of one reply item; the "audio_id" must be a string. */
  function ParseItem(item: Value): Result<Value>
  {
    var id := Get(item, "audio_id");
    if !id.VStr? then Fail(RuntimeFault)
    else match ParseAudioId(id.s)
      case Fail(k) => Fail(k)
      case Ok(ids) => Ok(IdRecord(ids))
  }

  /** The loop that replaces each item, in place, by its parsed track;
      the first item that fails to parse ends it with that error. */
  method ParseInPlace(items: seq<Value>) returns (r: Result<seq<Value>>)
    ensures r.Fail? <==> exists i :: 0 <= i < |items| && ParseItem(items[i]).Fail?
    ensures r.Ok? ==> |r.value| == |items| &&
                      forall i :: 0 <= i < |items| ==> r.value[i] == ParseItem(items[i]).value
  {
    var slots := new Value[|items|](i requires 0 <= i < |items| => items[i]);
    for idx := 0 to |items|
      invariant forall i :: 0 <= i < idx ==> ParseItem(items[i]).Ok? && slots[i] == ParseItem(items[i]).value
      invariant forall i :: idx <= i < |items| ==> slots[i] == items[i]
    {
      var parsed := ParseItem(slots[idx]);
      if parsed.Fail? {
        return Fail(parsed.kind);
      }
      slots[idx] := parsed.value;
    }
    return Ok(slots[..]);
  }

  /** `_parseAPITracks`: None for a falsy reply; otherwise every item (a
      non-list reply being one item) is rewritten in place and the list is
      finalized as tracks, one per item and in order. */
  method ParseApiTracks(tracks: Value) returns (r: Result<Option<ApiClient.Finalized>>)
    ensures !Truthy(tracks) ==> r == Ok(None)
    ensures Truthy(tracks) ==>
              var items := if tracks.VList? then tracks.items else [tracks];
              ((exists i :: 0 <= i < |items| && ParseItem(items[i]).Fail?) <==> r.Fail?) &&
              (r.Ok? ==>
                 r.value.Some? && r.value.value.Many? &&
                 |r.value.value.entities| == |items| &&
                 forall i :: 0 <= i < |items| ==>
                   r.value.value.entities[i] == ApiClient.FinalizeOne(ApiClient.TrackType, ParseItem(items[i]).value))
  {
    if !Truthy(tracks) {
      return Ok(None);
    }
    var items := if tracks.VList? then tracks.items else [tracks];
    var parsed := ParseInPlace(items);
    if parsed.Fail? {
      return Fail(parsed.kind);
    }
    assert Truthy(VList(parsed.value));
    var finalized := ApiClient.Finalize(VList(parsed.value), ApiClient.TrackType);
    return Ok(finalized);
  }
}

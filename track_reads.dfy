/**
  The track readers: `get` (vkmusix/methods/tracks/get.py), `getLyrics`
  (vkmusix/methods/tracks/getLyrics.py) and `getTracksFromChat`
  (vkmusix/methods/tracks/getTracksFromChat.py). Request outcomes are the
  oracle `answer`, indexed in the order the requests are created.
 */
module TrackReads {
  import opened Wrappers
  import opened PyValue
  import opened Errors
  import Text
  import opened ApiClient
  import opened TrackEdits
  import ApiTracks

  /** `v.get(key)` where a non-dict `v` raises. */
  function GetStrict(v: Value, key: string): (r: Result<Value>)
    ensures r.Ok? <==> v.VDict?
    ensures r.Ok? ==> r.value == Get(v, key)
    ensures r.Fail? ==> r.kind == RuntimeFault
  {
    if v.VDict? then Ok(Get(v, key)) else Fail(RuntimeFault)
  }

  // ---------------------------------------------------------------------
  // getLyrics
  // ---------------------------------------------------------------------

  /** The "line" texts of the timestamps that have one, in order; a
      timestamp that is not a dict, or a line that is not a string, is a
      fault of the comprehension or of the join. */
  function TimedLines(timestamps: seq<Value>): (r: Result<seq<string>>)
    ensures r.Ok? ==> |r.value| <= |timestamps|
    ensures r.Ok? <==> forall k :: 0 <= k < |timestamps| ==>
                         timestamps[k].VDict? && (Get(timestamps[k], "line") == VNone || Get(timestamps[k], "line").VStr?)
    ensures r.Fail? ==> r.kind == RuntimeFault
  {
    if timestamps == [] then Ok([])
    else
      var t := timestamps[0];
      match TimedLines(timestamps[1..])
      case Fail(e) => Fail(e)
      case Ok(rest) =>
        if !t.VDict? then Fail(RuntimeFault)
        else
          var line := Get(t, "line");
          if line == VNone then Ok(rest)
          else if line.VStr? then Ok([line.s] + rest)
          else Fail(RuntimeFault)
  }

  /** `getLyrics` on the reply to its "getLyrics" request: None without
      lyrics, the timed lines joined by newlines when there are timestamps,
      the plain "text" otherwise. */
  function Lyrics(reply: Value): (r: Result<Value>)
    ensures !Truthy(reply) ==> r == Ok(VNone)
    ensures Truthy(reply) && !reply.VDict? ==> r == Fail(RuntimeFault)
    ensures Truthy(reply) && reply.VDict? && !Truthy(Get(reply, "lyrics")) ==> r == Ok(VNone)
    ensures Truthy(reply) && reply.VDict? && Truthy(Get(reply, "lyrics")) && !Get(reply, "lyrics").VDict? ==>
              r == Fail(RuntimeFault)
    ensures Truthy(reply) && reply.VDict? && Truthy(Get(reply, "lyrics")) && Get(reply, "lyrics").VDict? ==>
              var lyrics := Get(reply, "lyrics");
              var ts := Get(lyrics, "timestamps");
              (!Truthy(ts) ==> r == Ok(Get(lyrics, "text"))) &&
              (Truthy(ts) && !ts.VList? ==> r == Fail(RuntimeFault)) &&
              (Truthy(ts) && ts.VList? && TimedLines(ts.items).Fail? ==> r == Fail(RuntimeFault)) &&
              (Truthy(ts) && ts.VList? && TimedLines(ts.items).Ok? ==>
                 r == Ok(VStr(Text.Join(TimedLines(ts.items).value, "\n"))))
  {
    if !Truthy(reply) then Ok(VNone)
    else match GetStrict(reply, "lyrics")
      case Fail(e) => Fail(e)
      case Ok(lyrics) =>
        if !Truthy(lyrics) then Ok(VNone)
        else match GetStrict(lyrics, "timestamps")
          case Fail(e) => Fail(e)
          case Ok(timestamps) =>
            if !Truthy(timestamps) then Ok(Get(lyrics, "text"))
            else if !timestamps.VList? then Fail(RuntimeFault)
            else match TimedLines(timestamps.items)
              case Fail(e) => Fail(e)
              case Ok(lines) => Ok(VStr(Text.Join(lines, "\n")))
  }

  /** Timed lyrics split back into their lines. */
  lemma TimedLyricsRoundTrip(reply: Value, lines: seq<string>)
    requires Truthy(reply) && reply.VDict? && Truthy(Get(reply, "lyrics")) && Get(reply, "lyrics").VDict?
    requires var ts := Get(Get(reply, "lyrics"), "timestamps"); Truthy(ts) && ts.VList? && TimedLines(ts.items) == Ok(lines)
    requires |lines| >= 1 && forall k :: 0 <= k < |lines| ==> '\n' !in lines[k]
    ensures Lyrics(reply).Ok? && Lyrics(reply).value.VStr?
    ensures Text.Split(Lyrics(reply).value.s, '\n') == lines
  {
    Text.SplitJoin(lines, '\n');
  }

  // ---------------------------------------------------------------------
  // get
  // ---------------------------------------------------------------------

  /** The "getLyrics" requests, one per id, the id split on "_" and joined
      again; an id that does not split in two stops `get` before any
      request is sent. */
  function LyricCalls(pairs: seq<(Value, Value)>): (r: Option<seq<Call>>)
    ensures r.Some? ==> |r.value| == |pairs|
    ensures r.Some? <==> forall k :: 0 <= k < |pairs| ==> SplitsInTwo(pairs[k])
  {
    if pairs == [] then Some([])
    else
      var parts := Text.Split(PairText(pairs[|pairs| - 1]), '_');
      var init := pairs[..|pairs| - 1];
      AllStep(pairs, init, SplitsInTwo);
      match LyricCalls(init)
      case None => None
      case Some(calls) =>
        if |parts| != 2 then None
        else Some(calls + [Call("getLyrics", map["audio_id" := VStr(parts[0] + "_" + parts[1])])])
  }

  /** The id of a pair splits on "_" into exactly two fields. */
  predicate SplitsInTwo(p: (Value, Value)) {
    |Text.Split(PairText(p), '_')| == 2
  }

  /** A property holds of every element when it holds of all but the last
      and of the last. */
  lemma AllStep<T>(xs: seq<T>, init: seq<T>, P: T -> bool)
    requires xs != [] && init == xs[..|xs| - 1]
    ensures (forall k :: 0 <= k < |xs| ==> P(xs[k])) <==>
            (forall k :: 0 <= k < |init| ==> P(init[k])) && P(xs[|xs| - 1])
  {
    assert forall k :: 0 <= k < |init| ==> init[k] == xs[k];
  }

  /** The lyrics of the `n` tracks (`responses[1:]` of the `gather`), or the
      first failure among them. */
  function GatheredLyrics(n: nat, answer: nat -> Result<Value>): (r: Result<seq<Value>>)
    ensures r.Ok? ==> |r.value| == n
    ensures r.Ok? ==> forall k :: 1 <= k <= n ==> answer(k).Ok? && Lyrics(answer(k).value) == Ok(r.value[k - 1])
    ensures r.Ok? <==> forall k :: 1 <= k <= n ==> answer(k).Ok? && Lyrics(answer(k).value).Ok?
  {
    if n == 0 then Ok([])
    else match GatheredLyrics(n - 1, answer)
      case Fail(e) => Fail(e)
      case Ok(ls) =>
        match answer(n)
        case Fail(e) => Fail(e)
        case Ok(reply) =>
          match Lyrics(reply)
          case Fail(e) => Fail(e)
          case Ok(l) => Ok(ls + [l])
  }

  /** `track["lyrics"] = ...` on a dict. */
  function Attach(track: Value, lyric: Value): Value {
    if track.VDict? then VDict(track.fields["lyrics" := lyric]) else track
  }

  /** `lyrics[idx] if lyrics else None`. */
  function LyricAt(lyrics: seq<Value>, idx: nat): Value {
    if idx < |lyrics| then lyrics[idx] else VNone
  }

  /** Can the `idx`-th track take its lyric? It must be a dict, and when
      there are lyrics at all, one must exist for it. */
  predicate Storable(track: Value, lyrics: seq<Value>, idx: nat) {
    track.VDict? && (|lyrics| == 0 || idx < |lyrics|)
  }

  /** The lyrics loop of `get`: every track is a dict given its lyric, or
      the loop faults on a non-dict track or a missing lyric. */
  function WithLyrics(tracks: seq<Value>, lyrics: seq<Value>): (r: Result<seq<Value>>)
    ensures r.Ok? <==> forall i :: 0 <= i < |tracks| ==> Storable(tracks[i], lyrics, i)
    ensures r.Ok? ==> |r.value| == |tracks|
    ensures r.Ok? ==> forall i :: 0 <= i < |tracks| ==>
                        tracks[i].VDict? && r.value[i] == VDict(tracks[i].fields["lyrics" := LyricAt(lyrics, i)])
    ensures r.Fail? ==> r.kind == RuntimeFault
  {
    if forall i :: 0 <= i < |tracks| ==> Storable(tracks[i], lyrics, i) then
      Ok(seq(|tracks|, i requires 0 <= i < |tracks| => Attach(tracks[i], LyricAt(lyrics, i))))
    else Fail(RuntimeFault)
  }

  /** What `get` answers once the replies are in: None for a falsy batch
      reply, otherwise the tracks (with their lyrics when asked for)
      finalized as a list, or as the first track when scalar ids were given. */
  function Response(wasList: bool, reply: Value, includeLyrics: bool, lyrics: seq<Value>): (r: Result<Option<Finalized>>)
    ensures !Truthy(reply) ==> r == Ok(None)
    ensures Truthy(reply) && !includeLyrics ==>
              r == Ok(Finalization(if wasList then VList(Wrap(reply)) else Wrap(reply)[0], TrackType))
    ensures Truthy(reply) && includeLyrics ==>
              var ts := WithLyrics(Wrap(reply), lyrics);
              (r.Ok? <==> ts.Ok?) &&
              (r.Ok? ==> r == Ok(Finalization(if wasList then VList(ts.value) else ts.value[0], TrackType)))
    ensures r.Fail? ==> r == Fail(RuntimeFault)
  {
    if !Truthy(reply) then Ok(None)
    else
      var tracks := Wrap(reply);
      var withLyrics := if includeLyrics then WithLyrics(tracks, lyrics) else Ok(tracks);
      match withLyrics
      case Fail(e) => Fail(e)
      case Ok(ts) => Ok(Finalization(if wasList then VList(ts) else ts[0], TrackType))
  }

  /** What `get` answers, and the requests it sends. */
  function Tracks(ownerIds: Value, trackIds: Value, includeLyrics: bool, answer: nat -> Result<Value>)
    : (r: (Result<Option<Finalized>>, seq<Call>))
    ensures CheckIds(ownerIds, trackIds).Some? ==> r.0 == Fail(CheckIds(ownerIds, trackIds).value) && r.1 == []
    ensures r.1 != [] ==> CheckIds(ownerIds, trackIds).None? && |r.1| == 1 + (if includeLyrics then |Zip(Wrap(ownerIds), Wrap(trackIds))| else 0)
    // An id that does not split in two at "_" faults before anything is sent;
    // otherwise the batch request goes out first, with the lyric requests after it.
    ensures CheckIds(ownerIds, trackIds).None? && includeLyrics && LyricCalls(Zip(Wrap(ownerIds), Wrap(trackIds))).None? ==>
              r == (Fail(RuntimeFault), [])
    ensures CheckIds(ownerIds, trackIds).None? && (!includeLyrics || LyricCalls(Zip(Wrap(ownerIds), Wrap(trackIds))).Some?) ==>
              |r.1| == 1 + (if includeLyrics then |Zip(Wrap(ownerIds), Wrap(trackIds))| else 0) &&
              r.1[0] == Call("getById", map["audios" := VStr(AudioIds(Zip(Wrap(ownerIds), Wrap(trackIds))))])
    // Once sent, a failed batch reply or lyric gathering is the answer, and
    // otherwise the answer is the response built from the replies.
    ensures r.1 != [] && answer(0).Fail? ==> r.0 == Fail(answer(0).kind)
    ensures r.1 != [] && answer(0).Ok? && includeLyrics &&
            GatheredLyrics(|Zip(Wrap(ownerIds), Wrap(trackIds))|, answer).Fail? ==>
              r.0 == Fail(GatheredLyrics(|Zip(Wrap(ownerIds), Wrap(trackIds))|, answer).kind)
    ensures r.1 != [] && answer(0).Ok? &&
            (includeLyrics ==> GatheredLyrics(|Zip(Wrap(ownerIds), Wrap(trackIds))|, answer).Ok?) ==>
              r.0 == Response(ownerIds.VList?, answer(0).value, includeLyrics,
                              if includeLyrics then GatheredLyrics(|Zip(Wrap(ownerIds), Wrap(trackIds))|, answer).value else [])
  {
    match CheckIds(ownerIds, trackIds)
    case Some(e) => (Fail(e), [])
    case None =>
      var pairs := Zip(Wrap(ownerIds), Wrap(trackIds));
      var byId := Call("getById", map["audios" := VStr(AudioIds(pairs))]);
      var lyricCalls := if includeLyrics then LyricCalls(pairs) else Some([]);
      if lyricCalls.None? then (Fail(RuntimeFault), [])
      else
        var sent := [byId] + lyricCalls.value;
        var lyrics := if includeLyrics then GatheredLyrics(|pairs|, answer) else Ok([]);
        if answer(0).Fail? then (Fail(answer(0).kind), sent)
        else if lyrics.Fail? then (Fail(lyrics.kind), sent)
        else (Response(ownerIds.VList?, answer(0).value, includeLyrics, lyrics.value), sent)
  }

  /** The loop of `get` that creates the lyric requests. */
  method PlanLyricCalls(pairs: seq<(Value, Value)>) returns (calls: Option<seq<Call>>)
    ensures calls == LyricCalls(pairs)
  {
    var made: seq<Call> := [];
    for k := 0 to |pairs|
      invariant LyricCalls(pairs[..k]) == Some(made)
    {
      LyricCallsSnoc(pairs, k);
      var parts := Text.Split(PairText(pairs[k]), '_');
      if |parts| != 2 {
        return None;
      }
      made := made + [Call("getLyrics", map["audio_id" := VStr(parts[0] + "_" + parts[1])])];
    }
    assert pairs[..|pairs|] == pairs;
    return Some(made);
  }

  /** One more pair for the lyric requests: one more request, or none at
      all when its id does not split in two. */
  lemma LyricCallsSnoc(pairs: seq<(Value, Value)>, k: nat)
    requires k < |pairs| && LyricCalls(pairs[..k]).Some?
    ensures var parts := Text.Split(PairText(pairs[k]), '_');
            LyricCalls(pairs[..k + 1]) ==
              if |parts| != 2 then None
              else Some(LyricCalls(pairs[..k]).value + [Call("getLyrics", map["audio_id" := VStr(parts[0] + "_" + parts[1])])])
  {
    assert pairs[..k + 1][..k] == pairs[..k];
    assert pairs[..k + 1][k] == pairs[k];
  }

  /** The loop of `get` that stores each track's lyric into the track, in
      place; it stops at the first track that cannot take one. */
  method StoreLyrics(tracks: array<Value>, lyrics: seq<Value>) returns (ok: bool)
    modifies tracks
    ensures ok <==> WithLyrics(old(tracks[..]), lyrics).Ok?
    ensures ok ==> tracks[..] == WithLyrics(old(tracks[..]), lyrics).value
  {
    ghost var before := tracks[..];
    for idx := 0 to tracks.Length
      invariant forall i :: 0 <= i < idx ==> Storable(before[i], lyrics, i)
      invariant forall i :: 0 <= i < idx ==> tracks[i] == Attach(before[i], LyricAt(lyrics, i))
      invariant forall i :: idx <= i < tracks.Length ==> tracks[i] == before[i]
    {
      if !tracks[idx].VDict? || (|lyrics| > 0 && idx >= |lyrics|) {
        assert !Storable(before[idx], lyrics, idx);
        return false;
      }
      tracks[idx] := VDict(tracks[idx].fields["lyrics" := if |lyrics| > 0 then lyrics[idx] else VNone]);
    }
    return true;
  }

  /** `get`. */
  method GetTracks(ownerIds: Value, trackIds: Value, includeLyrics: bool, answer: nat -> Result<Value>)
    returns (r: Result<Option<Finalized>>, sent: seq<Call>)
    ensures (r, sent) == Tracks(ownerIds, trackIds, includeLyrics, answer)
  {
    var check := CheckIds(ownerIds, trackIds);
    if check.Some? {
      return Fail(check.value), [];
    }
    var wasList := ownerIds.VList?;
    var pairs := Zip(Wrap(ownerIds), Wrap(trackIds));
    var calls: Option<seq<Call>> := Some([]);
    if includeLyrics {
      calls := PlanLyricCalls(pairs);
    }
    if calls.None? {
      return Fail(RuntimeFault), [];
    }
    sent := [Call("getById", map["audios" := VStr(AudioIds(pairs))])] + calls.value;
    var lyrics := if includeLyrics then GatheredLyrics(|pairs|, answer) else Ok([]);
    var reply := answer(0);
    if reply.Fail? {
      return Fail(reply.kind), sent;
    }
    if lyrics.Fail? {
      return Fail(lyrics.kind), sent;
    }
    r := Respond(wasList, reply.value, includeLyrics, lyrics.value);
  }

  /** The end of `get`: the lyrics loop over the tracks, then finalization. */
  method Respond(wasList: bool, reply: Value, includeLyrics: bool, lyrics: seq<Value>) returns (r: Result<Option<Finalized>>)
    ensures r == Response(wasList, reply, includeLyrics, lyrics)
  {
    if !Truthy(reply) {
      return Ok(None);
    }
    var items := Wrap(reply);
    var tracks := new Value[|items|](i requires 0 <= i < |items| => items[i]);
    assert tracks[..] == items;
    if includeLyrics {
      var stored := StoreLyrics(tracks, lyrics);
      if !stored {
        return Fail(RuntimeFault);
      }
    }
    var response := if wasList then VList(tracks[..]) else tracks[0];
    var finalized := Finalize(response, TrackType);
    r := Ok(finalized);
  }

  /** For lists of integer ids, `get` with lyrics sends the batch request
      first and then one lyric request per pair, naming that pair's id. */
  lemma LyricRequestsNameTheirTracks(ownerIds: Value, trackIds: Value, answer: nat -> Result<Value>)
    requires ownerIds.VList? && trackIds.VList? && |ownerIds.items| == |trackIds.items|
    requires forall i :: 0 <= i < |ownerIds.items| ==> ownerIds.items[i].VInt? && trackIds.items[i].VInt?
    ensures var pairs := Zip(ownerIds.items, trackIds.items);
            var sent := Tracks(ownerIds, trackIds, true, answer).1;
            |sent| == |pairs| + 1 &&
            sent[0] == Call("getById", map["audios" := VStr(AudioIds(pairs))]) &&
            forall k :: 0 <= k < |pairs| ==>
              sent[k + 1] == Call("getLyrics", map["audio_id" := VStr(PairText(pairs[k]))])
  {
    var pairs := Zip(ownerIds.items, trackIds.items);
    assert CheckIds(ownerIds, trackIds) == None;
    IntPairsSplitInTwo(pairs);
    SentWithLyrics(ownerIds, trackIds, answer);
    var sent := Tracks(ownerIds, trackIds, true, answer).1;
    LyricsAfterBatch(pairs, sent);
  }

  /** Requests that are one request followed by the lyric requests of
      integer pairs name, from the second on, the pairs in order. */
  lemma LyricsAfterBatch(pairs: seq<(Value, Value)>, sent: seq<Call>)
    requires forall k :: 0 <= k < |pairs| ==> pairs[k].0.VInt? && pairs[k].1.VInt?
    requires LyricCalls(pairs).Some? && |sent| >= 1 && sent[1..] == LyricCalls(pairs).value
    ensures forall k :: 0 <= k < |pairs| ==>
              sent[k + 1] == Call("getLyrics", map["audio_id" := VStr(PairText(pairs[k]))])
  {
    IntPairsSplitInTwo(pairs);
  }

  /** For lists of integer ids, the "audios" text of the batch request
      splits back into one "owner_track" id per pair, in input order. */
  lemma BatchIdsInInputOrder(ownerIds: Value, trackIds: Value)
    requires ownerIds.VList? && trackIds.VList? && |ownerIds.items| == |trackIds.items| >= 1
    requires forall i :: 0 <= i < |ownerIds.items| ==> ownerIds.items[i].VInt? && trackIds.items[i].VInt?
    ensures var ids := Text.Split(AudioIds(Zip(Wrap(ownerIds), Wrap(trackIds))), ',');
            |ids| == |ownerIds.items| &&
            forall k :: 0 <= k < |ids| ==>
              ApiTracks.ParseAudioId(ids[k]) == Ok((ownerIds.items[k].i, trackIds.items[k].i))
  {
    AudioIdsRoundTrip(Zip(Wrap(ownerIds), Wrap(trackIds)));
  }

  /** Once the ids pass the checks and split, `get` with lyrics sends the
      batch request and then the lyric requests. */
  lemma SentWithLyrics(ownerIds: Value, trackIds: Value, answer: nat -> Result<Value>)
    requires CheckIds(ownerIds, trackIds) == None
    requires LyricCalls(Zip(Wrap(ownerIds), Wrap(trackIds))).Some?
    ensures var pairs := Zip(Wrap(ownerIds), Wrap(trackIds));
            Tracks(ownerIds, trackIds, true, answer).1 ==
              [Call("getById", map["audios" := VStr(AudioIds(pairs))])] + LyricCalls(pairs).value
  {
  }

  /** An "owner_track" text of two integers splits on "_" into the two numbers. */
  lemma IntPairSplits(o: int, t: int)
    ensures Text.Split(PairText((VInt(o), VInt(t))), '_') == [Text.IntToString(o), Text.IntToString(t)]
  {
    Text.IntTextHasNoSeparator(o, '_');
    Text.IntTextHasNoSeparator(t, '_');
    Text.SplitAfterHead(Text.IntToString(o), Text.IntToString(t), '_');
    Text.SplitWhole(Text.IntToString(t), '_');
  }

  /** Lyric requests for integer pairs: one per pair, naming the pair. */
  lemma {:induction false} IntPairsSplitInTwo(pairs: seq<(Value, Value)>)
    requires forall k :: 0 <= k < |pairs| ==> pairs[k].0.VInt? && pairs[k].1.VInt?
    ensures LyricCalls(pairs).Some?
    ensures forall k :: 0 <= k < |pairs| ==>
              LyricCalls(pairs).value[k] == Call("getLyrics", map["audio_id" := VStr(PairText(pairs[k]))])
  {
    if pairs != [] {
      var init := pairs[..|pairs| - 1];
      IntPairsSplitInTwo(init);
      var last := pairs[|pairs| - 1];
      IntPairSplits(last.0.i, last.1.i);
      assert PairText(last) == Text.IntToString(last.0.i) + "_" + Text.IntToString(last.1.i);
      forall k | 0 <= k < |pairs| - 1
        ensures LyricCalls(pairs).value[k] == Call("getLyrics", map["audio_id" := VStr(PairText(pairs[k]))])
      {
        assert pairs[k] == init[k];
      }
    }
  }

  /** With lyrics, a list reply of dicts comes back as tracks whose raw
      dicts carry their lyrics, in order. */
  lemma LyricsReachTheirTracks(ownerIds: Value, trackIds: Value, answer: nat -> Result<Value>)
    requires ownerIds.VList? && CheckIds(ownerIds, trackIds) == None
    requires var r := Tracks(ownerIds, trackIds, true, answer).0; r.Ok? && r.value.Some?
    requires answer(0).Ok? && answer(0).value.VList?
    ensures var pairs := Zip(Wrap(ownerIds), Wrap(trackIds));
            var tracks := answer(0).value.items;
            var lyrics := GatheredLyrics(|pairs|, answer).value;
            var f := Tracks(ownerIds, trackIds, true, answer).0.value.value;
            f.Many? && |f.entities| == |tracks| &&
            forall i :: 0 <= i < |tracks| ==>
              tracks[i].VDict? && f.entities[i] == PlainOf(TrackType, VDict(tracks[i].fields["lyrics" := LyricAt(lyrics, i)]))
  {
    var pairs := Zip(Wrap(ownerIds), Wrap(trackIds));
    var reply := answer(0).value;
    var lyrics := GatheredLyrics(|pairs|, answer);
    assert lyrics.Ok? && Truthy(reply);
    var stored := WithLyrics(reply.items, lyrics.value);
    assert Tracks(ownerIds, trackIds, true, answer).0 == Response(true, reply, true, lyrics.value);
    assert stored.Ok?;
    var f := Finalization(VList(stored.value), TrackType);
    assert Response(true, reply, true, lyrics.value) == Ok(f);
    forall i | 0 <= i < |reply.items|
      ensures f.value.entities[i] == PlainOf(TrackType, VDict(reply.items[i].fields["lyrics" := LyricAt(lyrics.value, i)]))
    {
      assert f.value.entities[i] == FinalizeOne(TrackType, stored.value[i]);
    }
  }

  // ---------------------------------------------------------------------
  // getTracksFromChat
  // ---------------------------------------------------------------------

  /** What one message of the history contributes: the dict key of its
      message id, the id, its finalized track, its date and sender. */
  datatype Entry = Entry(key: Value, messageId: Value, track: Option<Finalized>, date: Value, fromId: Value)

  /** The dict key a message id stands for (`True == 1` in Python). */
  function HashKey(id: Value): Value {
    if id.VBool? then VInt(if id.b then 1 else 0) else id
  }

  /** One message of the history; a non-dict message or attachment, or an
      unhashable message id, is a fault. */
  function ParseMessage(message: Value): (r: Result<Entry>)
    ensures r.Ok? <==> message.VDict? && !Get(message, "message_id").VList? && !Get(message, "message_id").VDict? &&
                       Get(message, "attachment").VDict?
    ensures r.Ok? ==> r.value.key == HashKey(Get(message, "message_id")) &&
                      r.value.messageId == Get(message, "message_id") &&
                      r.value.track == Finalization(Get(Get(message, "attachment"), "audio"), TrackType) &&
                      r.value.date == Get(message, "date") &&
                      r.value.fromId == Get(message, "from_id")
  {
    if !message.VDict? then Fail(RuntimeFault)
    else
      var id := Get(message, "message_id");
      if id.VList? || id.VDict? then Fail(RuntimeFault)
      else
        var attachment := Get(message, "attachment");
        if !attachment.VDict? then Fail(RuntimeFault)
        else Ok(Entry(HashKey(id), id, Finalization(Get(attachment, "audio"), TrackType),
                      Get(message, "date"), Get(message, "from_id")))
  }

  function ParseAll(messages: seq<Value>): (r: Result<seq<Entry>>)
    ensures r.Ok? <==> forall k :: 0 <= k < |messages| ==> ParseMessage(messages[k]).Ok?
    ensures r.Ok? ==> |r.value| == |messages|
    ensures r.Ok? ==> forall k :: 0 <= k < |messages| ==> ParseMessage(messages[k]) == Ok(r.value[k])
    ensures r.Fail? ==> r.kind == RuntimeFault
  {
    if messages == [] then Ok([])
    else match ParseAll(messages[..|messages| - 1])
      case Fail(e) => Fail(e)
      case Ok(es) =>
        match ParseMessage(messages[|messages| - 1])
        case Fail(e) => Fail(e)
        case Ok(e) => Ok(es + [e])
  }

  /** The dict built per message id. */
  datatype MessageRecord = MessageRecord(tracks: seq<Option<Finalized>>, date: Value, fromId: Value, chatId: Value, messageId: Value)

  /** `newMessages`: its keys in insertion order and its entries. */
  datatype Groups = Groups(order: seq<Value>, records: map<Value, MessageRecord>)

  /** One step of the loop: append the track to the id's record, or start
      a record for a new id. */
  function Step(g: Groups, e: Entry, chatId: Value): Groups {
    if e.key in g.records then
      Groups(g.order, g.records[e.key := g.records[e.key].(tracks := g.records[e.key].tracks + [e.track])])
    else
      Groups(g.order + [e.key], g.records[e.key := MessageRecord([e.track], e.date, e.fromId, chatId, e.messageId)])
  }

  function Grouped(es: seq<Entry>, chatId: Value): Groups {
    if es == [] then Groups([], map[])
    else Step(Grouped(es[..|es| - 1], chatId), es[|es| - 1], chatId)
  }

  /** The tracks of the entries with key `k`, in order. */
  function TracksWith(es: seq<Entry>, k: Value): seq<Option<Finalized>> {
    if es == [] then []
    else TracksWith(es[..|es| - 1], k) + (if es[|es| - 1].key == k then [es[|es| - 1].track] else [])
  }

  /** Is entry `i` the first one with key `k`? */
  predicate IsFirst(es: seq<Entry>, i: int, k: Value) {
    0 <= i < |es| && es[i].key == k && forall j :: 0 <= j < i ==> es[j].key != k
  }

  /** Does some entry carry key `k`? */
  predicate HasKey(es: seq<Entry>, k: Value) {
    exists i :: 0 <= i < |es| && es[i].key == k
  }

  predicate NoDuplicates(xs: seq<Value>) {
    forall i, j :: 0 <= i < j < |xs| ==> xs[i] != xs[j]
  }

  /** A key of the whole history is a key of all but its last entry, or of its last entry. */
  lemma HasKeyStep(es: seq<Entry>, k: Value)
    requires es != []
    ensures HasKey(es, k) <==> HasKey(es[..|es| - 1], k) || es[|es| - 1].key == k
  {
    var init := es[..|es| - 1];
    if HasKey(es, k) {
      var i :| 0 <= i < |es| && es[i].key == k;
      if i < |es| - 1 {
        assert init[i].key == k;
      }
    }
    if HasKey(init, k) {
      var i :| 0 <= i < |init| && init[i].key == k;
      assert es[i] == init[i];
    }
    if es[|es| - 1].key == k {
      assert es[|es| - 1].key == k;
    }
  }

  /** The first entry with a key that occurs before the last entry is the
      first one of the shorter history too. */
  lemma FirstInPrefix(es: seq<Entry>, i: int, k: Value)
    requires es != [] && HasKey(es[..|es| - 1], k) && IsFirst(es, i, k)
    ensures i < |es| - 1 && IsFirst(es[..|es| - 1], i, k)
  {
    var init := es[..|es| - 1];
    var j :| 0 <= j < |init| && init[j].key == k;
    assert es[j].key == k;
    assert forall m :: 0 <= m <= i ==> init[m] == es[m];
  }

  /** A key that first appears in the last entry has it as its first entry. */
  lemma FirstIsLast(es: seq<Entry>, i: int, k: Value)
    requires es != [] && !HasKey(es[..|es| - 1], k) && IsFirst(es, i, k)
    ensures i == |es| - 1
  {
  }

  /** The grouping keeps one record per distinct id of the history, and its
      insertion order has each of them once. */
  lemma {:induction false} GroupedKeys(es: seq<Entry>, chatId: Value)
    ensures NoDuplicates(Grouped(es, chatId).order)
    ensures forall k :: k in Grouped(es, chatId).order <==> k in Grouped(es, chatId).records
    ensures forall k :: k in Grouped(es, chatId).records <==> HasKey(es, k)
  {
    if es != [] {
      var init := es[..|es| - 1];
      var e := es[|es| - 1];
      GroupedKeys(init, chatId);
      var g0 := Grouped(init, chatId);
      var g := Grouped(es, chatId);
      forall k
        ensures k in g.records <==> HasKey(es, k)
      {
        HasKeyStep(es, k);
      }
      if e.key !in g0.records {
        forall i, j | 0 <= i < j < |g.order|
          ensures g.order[i] != g.order[j]
        {
          if j == |g.order| - 1 {
            assert g.order[i] == g0.order[i];
          } else {
            assert g.order[i] == g0.order[i] && g.order[j] == g0.order[j];
          }
        }
      }
    }
  }

  /** Each record holds the tracks of its id's messages in their order, and
      the chat id; an id without messages contributes no tracks. */
  lemma {:induction false} GroupedTracks(es: seq<Entry>, chatId: Value)
    ensures forall k :: k in Grouped(es, chatId).records ==>
              Grouped(es, chatId).records[k].tracks == TracksWith(es, k) && Grouped(es, chatId).records[k].chatId == chatId
    ensures forall k :: k !in Grouped(es, chatId).records ==> TracksWith(es, k) == []
  {
    if es != [] {
      GroupedTracks(es[..|es| - 1], chatId);
    }
  }

  /** Each record carries the date, sender and message id of the first
      message with its id. */
  lemma {:induction false} GroupedFirst(es: seq<Entry>, chatId: Value)
    ensures forall k, i :: k in Grouped(es, chatId).records && IsFirst(es, i, k) ==>
              var m := Grouped(es, chatId).records[k];
              m.date == es[i].date && m.fromId == es[i].fromId && m.messageId == es[i].messageId
  {
    if es != [] {
      var init := es[..|es| - 1];
      GroupedFirst(init, chatId);
      GroupedKeys(init, chatId);
      var g0 := Grouped(init, chatId);
      var g := Grouped(es, chatId);
      forall k, i | k in g.records && IsFirst(es, i, k)
        ensures g.records[k].date == es[i].date && g.records[k].fromId == es[i].fromId && g.records[k].messageId == es[i].messageId
      {
        if k in g0.records {
          FirstInPrefix(es, i, k);
          assert init[i] == es[i];
        } else {
          FirstIsLast(es, i, k);
        }
      }
    }
  }

  /** The records are in the order in which their ids first appear. */
  lemma {:induction false} GroupedOrder(es: seq<Entry>, chatId: Value)
    ensures forall a, b, i, j ::
              (0 <= a < b < |Grouped(es, chatId).order| &&
               IsFirst(es, i, Grouped(es, chatId).order[a]) && IsFirst(es, j, Grouped(es, chatId).order[b])) ==> i < j
  {
    if es != [] {
      var init := es[..|es| - 1];
      GroupedOrder(init, chatId);
      GroupedKeys(init, chatId);
      var g0 := Grouped(init, chatId);
      var g := Grouped(es, chatId);
      forall a, b, i, j | 0 <= a < b < |g.order| && IsFirst(es, i, g.order[a]) && IsFirst(es, j, g.order[b])
        ensures i < j
      {
        assert g.order[a] == g0.order[a];
        FirstInPrefix(es, i, g.order[a]);
        if b < |g0.order| {
          assert g.order[b] == g0.order[b];
          FirstInPrefix(es, j, g.order[b]);
        } else {
          FirstIsLast(es, j, g.order[b]);
        }
      }
    }
  }

  /** The records of `newMessages` in insertion order. */
  function Records(g: Groups): (r: seq<MessageRecord>)
    requires forall k :: k in g.order ==> k in g.records
    ensures |r| == |g.order| && forall i :: 0 <= i < |g.order| ==> r[i] == g.records[g.order[i]]
  {
    seq(|g.order|, i requires 0 <= i < |g.order| => g.records[g.order[i]])
  }

  /** `messages[::-1]`. */
  function Reversed(xs: seq<Value>): (r: seq<Value>)
    ensures |r| == |xs| && forall i :: 0 <= i < |xs| ==> r[i] == xs[|xs| - 1 - i]
  {
    if xs == [] then [] else [xs[|xs| - 1]] + Reversed(xs[..|xs| - 1])
  }

  /** The history request. */
  function HistoryParams(chat: Value, groupId: Value): map<string, Value> {
    var p := map["media_type" := VStr("audio"), "count" := VInt(200), "peer_id" := chat];
    if Truthy(groupId) then p["group_id" := groupId] else p
  }

  /** What `getTracksFromChat` answers, given the outcome of its request. */
  function ChatTracks(chatId: Value, myId: Value, groupId: Value, answer: Result<Value>)
    : (r: (Result<Option<seq<MessageRecord>>>, Call))
    ensures r.1 == Call("messages.getHistoryAttachments", HistoryParams(if Truthy(chatId) then chatId else myId, groupId))
    ensures r.0.Ok? && r.0.value.Some? ==> |r.0.value.value| >= 1
    ensures answer.Fail? ==> r.0 == Fail(answer.kind)
    ensures answer.Ok? && !answer.value.VDict? ==> r.0 == Fail(RuntimeFault)
    // Falsy "items" (absent, None, empty) answer None.
    ensures answer.Ok? && answer.value.VDict? && !Truthy(Get(answer.value, "items")) ==> r.0 == Ok(None)
    ensures (answer.Ok? && answer.value.VDict? && Truthy(Get(answer.value, "items")) &&
             !Get(answer.value, "items").VList?) ==> r.0 == Fail(RuntimeFault)
    // A history list answers the grouped records of its messages, oldest
    // first, exactly when every message parses.
    ensures answer.Ok? && answer.value.VDict? && Truthy(Get(answer.value, "items")) && Get(answer.value, "items").VList? ==>
              var chat := if Truthy(chatId) then chatId else myId;
              var es := ParseAll(Reversed(Get(answer.value, "items").items));
              (r.0.Ok? <==> es.Ok?) &&
              (es.Ok? ==> (GroupedKeys(es.value, chat); r.0 == Ok(Some(Records(Grouped(es.value, chat))))))
  {
    var chat := if Truthy(chatId) then chatId else myId;
    var call := Call("messages.getHistoryAttachments", HistoryParams(chat, groupId));
    match answer
    case Fail(e) => (Fail(e), call)
    case Ok(reply) =>
      match GetStrict(reply, "items")
      case Fail(e) => (Fail(e), call)
      case Ok(messages) =>
        if !Truthy(messages) then (Ok(None), call)
        else if !messages.VList? then (Fail(RuntimeFault), call)
        else match ParseAll(Reversed(messages.items))
          case Fail(e) => (Fail(e), call)
          case Ok(es) =>
            GroupedKeys(es, chat);
            assert HasKey(es, es[0].key);
            (Ok(Some(Records(Grouped(es, chat)))), call)
  }

  /** The loop of `getTracksFromChat` that fills `newMessages`. */
  method GroupMessages(history: seq<Value>, chat: Value) returns (r: Result<Groups>)
    ensures r.Ok? <==> ParseAll(history).Ok?
    ensures r.Ok? ==> r.value == Grouped(ParseAll(history).value, chat)
  {
    var order: seq<Value> := [];
    var records: map<Value, MessageRecord> := map[];
    ghost var entries: seq<Entry> := [];
    for idx := 0 to |history|
      invariant ParseAll(history[..idx]) == Ok(entries)
      invariant Grouped(entries, chat) == Groups(order, records)
    {
      var entry := ParseMessage(history[idx]);
      if entry.Fail? {
        assert !ParseMessage(history[idx]).Ok?;
        return Fail(RuntimeFault);
      }
      var e := entry.value;
      GroupsSnoc(history, idx, entries, e, chat);
      if e.key in records {
        records := records[e.key := records[e.key].(tracks := records[e.key].tracks + [e.track])];
      } else {
        order := order + [e.key];
        records := records[e.key := MessageRecord([e.track], e.date, e.fromId, chat, e.messageId)];
      }
      entries := entries + [e];
    }
    assert history[..|history|] == history;
    return Ok(Groups(order, records));
  }

  /** One more parsed message: its entry is appended and grouped by `Step`. */
  lemma GroupsSnoc(history: seq<Value>, idx: nat, entries: seq<Entry>, e: Entry, chat: Value)
    requires idx < |history| && ParseAll(history[..idx]) == Ok(entries) && ParseMessage(history[idx]) == Ok(e)
    ensures ParseAll(history[..idx + 1]) == Ok(entries + [e])
    ensures Grouped(entries + [e], chat) == Step(Grouped(entries, chat), e, chat)
  {
    assert history[..idx + 1][..idx] == history[..idx];
    assert (entries + [e])[..|entries|] == entries;
  }

  /** `getTracksFromChat`. */
  method GetTracksFromChat(chatId: Value, myId: Value, groupId: Value, answer: Result<Value>)
    returns (r: Result<Option<seq<MessageRecord>>>, sent: Call)
    ensures (r, sent) == ChatTracks(chatId, myId, groupId, answer)
  {
    var chat := if Truthy(chatId) then chatId else myId;
    sent := Call("messages.getHistoryAttachments", HistoryParams(chat, groupId));
    if answer.Fail? {
      return Fail(answer.kind), sent;
    }
    var items := GetStrict(answer.value, "items");
    if items.Fail? {
      return Fail(RuntimeFault), sent;
    }
    var messages := items.value;
    if !Truthy(messages) {
      return Ok(None), sent;
    }
    if !messages.VList? {
      return Fail(RuntimeFault), sent;
    }
    var grouped := GroupMessages(Reversed(messages.items), chat);
    if grouped.Fail? {
      return Fail(RuntimeFault), sent;
    }
    ghost var es := ParseAll(Reversed(messages.items)).value;
    GroupedKeys(es, chat);
    assert ChatTracks(chatId, myId, groupId, answer).0 == Ok(Some(Records(Grouped(es, chat))));
    r := Ok(Some(Records(grouped.value)));
  }
}

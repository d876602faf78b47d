/**
  Adding and removing tracks (vkmusix/methods/tracks/add.py and
  vkmusix/methods/tracks/remove.py): the owner/track id checks, the
  wrapping of scalar ids, the request plan (comma-joined chunks for a
  playlist, one request per pair otherwise), the per-request statuses and,
  for removal, the re-validation of the ids against the tracks that exist.

  The outcome of the k-th `_req` call is an oracle `answer(k)`: the reply,
  or the error it raised. AccessDenied is caught; any other error propagates.
 */
module TrackEdits {
  import opened Wrappers
  import opened PyValue
  import opened Errors
  import Text
  import ApiTracks

  // ---------------------------------------------------------------------
  // Checks and wrapping
  // ---------------------------------------------------------------------

  /** Python's `type(v)`, as far as `type(a) != type(b)` can tell. */
  datatype TypeTag = NoneTag | BoolTag | IntTag | StrTag | ListTag | DictTag

  function TypeOf(v: Value): TypeTag {
    match v
    case VNone => NoneTag
    case VBool(_) => BoolTag
    case VInt(_) => IntTag
    case VStr(_) => StrTag
    case VList(_) => ListTag
    case VDict(_) => DictTag
  }

  /** The argument checks shared by add, remove and get. */
  function CheckIds(ownerIds: Value, trackIds: Value): (r: Option<ErrorKind>)
    ensures r == Some(OwnerIdsAndTrackIdsTypeDifferent) <==> TypeOf(ownerIds) != TypeOf(trackIds)
    ensures r == Some(OwnerIdsAndTrackIdsLenDifferent) <==>
              ownerIds.VList? && trackIds.VList? && |ownerIds.items| != |trackIds.items|
    ensures r == None ==> (ownerIds.VList? <==> trackIds.VList?)
    ensures r == None && ownerIds.VList? ==> |ownerIds.items| == |trackIds.items|
  {
    if TypeOf(ownerIds) != TypeOf(trackIds) then Some(OwnerIdsAndTrackIdsTypeDifferent)
    else if ownerIds.VList? && trackIds.VList? && |ownerIds.items| != |trackIds.items| then Some(OwnerIdsAndTrackIdsLenDifferent)
    else None
  }

  /** A scalar id is wrapped into a one-element list. */
  function Wrap(v: Value): seq<Value> {
    if v.VList? then v.items else [v]
  }

  /** `zip(a, b)`. */
  function Zip(a: seq<Value>, b: seq<Value>): (pairs: seq<(Value, Value)>)
    ensures |pairs| == if |a| <= |b| then |a| else |b|
    ensures forall i :: 0 <= i < |pairs| ==> pairs[i] == (a[i], b[i])
  {
    seq(if |a| <= |b| then |a| else |b|, i requires 0 <= i < |a| && i < |b| => (a[i], b[i]))
  }

  /** After the checks both id lists have one entry per pair. */
  lemma CheckedPairs(ownerIds: Value, trackIds: Value)
    requires CheckIds(ownerIds, trackIds) == None
    ensures |Zip(Wrap(ownerIds), Wrap(trackIds))| == |Wrap(ownerIds)| == |Wrap(trackIds)|
    ensures !ownerIds.VList? ==> |Zip(Wrap(ownerIds), Wrap(trackIds))| == 1
  {
  }

  // ---------------------------------------------------------------------
  // Chunks and the ids they send
  // ---------------------------------------------------------------------

  /** The `chunks` generator: consecutive slices of `size` items, the last
      one possibly shorter. */
  function Chunks<T>(xs: seq<T>, size: nat): (cs: seq<seq<T>>)
    requires size > 0
    ensures forall k :: 0 <= k < |cs| ==> 1 <= |cs[k]| <= size
    decreases |xs|
  {
    if |xs| == 0 then []
    else if |xs| <= size then [xs]
    else [xs[..size]] + Chunks(xs[size..], size)
  }

  function Flatten<T>(cs: seq<seq<T>>): seq<T> {
    if |cs| == 0 then [] else cs[0] + Flatten(cs[1..])
  }

  /** The chunks cover every item once and in order. */
  lemma {:induction false} ChunksCover<T>(xs: seq<T>, size: nat)
    requires size > 0
    ensures Flatten(Chunks(xs, size)) == xs
    decreases |xs|
  {
    if |xs| > size {
      ChunksCover(xs[size..], size);
      assert Chunks(xs, size)[1..] == Chunks(xs[size..], size);
      assert xs[..size] + xs[size..] == xs;
    } else if |xs| > 0 {
      assert Chunks(xs, size)[1..] == [];
      assert xs + [] == xs;
    }
  }

  /** All chunks but the last are full. */
  lemma {:induction false} ChunksFull<T>(xs: seq<T>, size: nat)
    requires size > 0
    ensures forall k :: 0 <= k < |Chunks(xs, size)| - 1 ==> |Chunks(xs, size)[k]| == size
    decreases |xs|
  {
    if |xs| > size {
      ChunksFull(xs[size..], size);
      var cs := Chunks(xs, size);
      assert cs[1..] == Chunks(xs[size..], size);
      assert forall k :: 1 <= k < |cs| ==> cs[k] == cs[1..][k - 1];
    }
  }

  /** `f"{ownerId}_{trackId}"`. */
  function PairText(p: (Value, Value)): string {
    Format(p.0) + "_" + Format(p.1)
  }

  /** The comma-joined "owner_track" ids of a chunk. */
  function AudioIds(chunk: seq<(Value, Value)>): string {
    Text.Join(seq(|chunk|, i requires 0 <= i < |chunk| => PairText(chunk[i])), ",")
  }

  /** For integer ids the "audio_ids" text splits back into one
      "owner_track" id per pair, and each reads back as the pair. */
  lemma AudioIdsRoundTrip(chunk: seq<(Value, Value)>)
    requires |chunk| >= 1 && forall i :: 0 <= i < |chunk| ==> chunk[i].0.VInt? && chunk[i].1.VInt?
    ensures var ids := Text.Split(AudioIds(chunk), ',');
            |ids| == |chunk| &&
            forall i :: 0 <= i < |chunk| ==> ApiTracks.ParseAudioId(ids[i]) == Ok((chunk[i].0.i, chunk[i].1.i))
  {
    var texts := seq(|chunk|, i requires 0 <= i < |chunk| => PairText(chunk[i]));
    forall k | 0 <= k < |texts| ensures ',' !in texts[k] {
      var o := chunk[k].0.i;
      var t := chunk[k].1.i;
      Text.IntTextHasNoSeparator(o, ',');
      Text.IntTextHasNoSeparator(t, ',');
      assert texts[k] == Text.IntToString(o) + "_" + Text.IntToString(t);
    }
    Text.SplitJoin(texts, ',');
    forall i | 0 <= i < |chunk|
      ensures ApiTracks.ParseAudioId(texts[i]) == Ok((chunk[i].0.i, chunk[i].1.i))
    {
      assert texts[i] == ApiTracks.IdText(chunk[i].0.i, chunk[i].1.i);
      ApiTracks.AudioIdRoundTrip(chunk[i].0.i, chunk[i].1.i);
    }
  }

  // ---------------------------------------------------------------------
  // Sending the plan
  // ---------------------------------------------------------------------

  /** One `_req` call: the method name and its parameters. */
  datatype Call = Call(name: string, params: map<string, Value>)

  /** One entry of the result list: a bool, or (after a successful playlist
      chunk) a list of bools. */
  datatype Status = Flag(b: bool) | Nested(flags: seq<bool>)

  /** What the caller gets: the list, or its first entry for scalar ids. */
  datatype EditResult = ListResult(statuses: seq<Status>) | SingleResult(status: Status)

  /** The statuses one call contributes, as written: a successful chunk
      appends ONE nested list; AccessDenied extends with one False per pair. */
  function StatusesFor(size: nat, nested: bool, answer: Result<Value>): Result<seq<Status>>
  {
    match answer
    case Ok(v) => Ok(if nested then [Nested(seq(size, _ => Truthy(v)))] else [Flag(Truthy(v))])
    case Fail(k) => if k == AccessDenied then Ok(seq(size, _ => Flag(false))) else Fail(k)
  }

  /** The loop over the planned calls: the statuses, or the error that
      escaped, and how many calls were made. */
  function Run(sizes: seq<nat>, nested: bool, answer: nat -> Result<Value>): (r: (Result<seq<Status>>, nat))
    ensures r.1 <= |sizes|
    ensures r.0.Ok? ==> r.1 == |sizes|
  {
    if |sizes| == 0 then (Ok([]), 0)
    else
      var prev := Run(sizes[..|sizes| - 1], nested, answer);
      if prev.0.Fail? then prev
      else match StatusesFor(sizes[|sizes| - 1], nested, answer(|sizes| - 1))
        case Fail(k) => (Fail(k), |sizes|)
        case Ok(st) => (Ok(prev.0.value + st), |sizes|)
  }

  /** Without a playlist there is exactly one bool per pair. */
  lemma {:induction false} RunPerPair(n: nat, answer: nat -> Result<Value>)
    ensures var r := Run(seq(n, _ => 1), false, answer).0;
            r.Ok? ==> |r.value| == n &&
                      forall i :: 0 <= i < n ==>
                        r.value[i] == Flag(answer(i).Ok? && Truthy(answer(i).value))
  {
    if n > 0 {
      var sizes := seq(n, _ => 1);
      assert sizes[..n - 1] == seq(n - 1, _ => 1);
      RunPerPair(n - 1, answer);
    }
  }

  /** `sum(sizes)`. */
  function Sum(sizes: seq<nat>): nat {
    if |sizes| == 0 then 0 else Sum(sizes[..|sizes| - 1]) + sizes[|sizes| - 1]
  }

  /** As written, with a playlist, chunks that all succeed give one nested
      list per CHUNK, not one bool per pair. */
  lemma {:induction false} RunNestsPerChunk(sizes: seq<nat>, answer: nat -> Result<Value>)
    requires forall k :: 0 <= k < |sizes| ==> answer(k).Ok?
    ensures var r := Run(sizes, true, answer).0;
            r.Ok? && |r.value| == |sizes| && forall k :: 0 <= k < |sizes| ==> r.value[k].Nested?
  {
    if |sizes| > 0 {
      RunNestsPerChunk(sizes[..|sizes| - 1], answer);
    }
  }

  /** The statuses one chunk should contribute: one bool per pair. */
  function StatusesForIntended(size: nat, answer: Result<Value>): Result<seq<Status>>
  {
    match answer
    case Ok(v) => Ok(seq(size, _ => Flag(Truthy(v))))
    case Fail(k) => if k == AccessDenied then Ok(seq(size, _ => Flag(false))) else Fail(k)
  }

  /** The chunk loop with the statuses extended rather than appended. */
  function RunIntended(sizes: seq<nat>, answer: nat -> Result<Value>): Result<seq<Status>>
  {
    if |sizes| == 0 then Ok([])
    else match RunIntended(sizes[..|sizes| - 1], answer)
      case Fail(k) => Fail(k)
      case Ok(prev) =>
        match StatusesForIntended(sizes[|sizes| - 1], answer(|sizes| - 1))
        case Fail(k) => Fail(k)
        case Ok(st) => Ok(prev + st)
  }

  /** The corrected chunk loop yields exactly one bool per pair. */
  lemma {:induction false} RunIntendedFlat(sizes: seq<nat>, answer: nat -> Result<Value>)
    ensures RunIntended(sizes, answer).Ok? ==>
              |RunIntended(sizes, answer).value| == Sum(sizes) &&
              forall i :: 0 <= i < Sum(sizes) ==> RunIntended(sizes, answer).value[i].Flag?
  {
    if |sizes| > 0 {
      RunIntendedFlat(sizes[..|sizes| - 1], answer);
    }
  }

  /** A chunk of n pairs added to a playlist with a truthy reply comes back,
      as written, as ONE entry (a list of n bools); the corrected loop gives
      n bools. For n == 1 and scalar ids the caller gets [True] where a bool
      is promised. */
  lemma OneChunkIsNested(n: nat, answer: nat -> Result<Value>)
    requires answer(0).Ok? && Truthy(answer(0).value)
    ensures Run([n], true, answer).0 == Ok([Nested(seq(n, _ => true))])
    ensures RunIntended([n], answer) == Ok(seq(n, _ => Flag(true)))
  {
    var sizes: seq<nat> := [n];
    assert sizes[..0] == [];
    assert Run(sizes[..0], true, answer) == (Ok([]), 0);
    assert RunIntended(sizes[..0], answer) == Ok([]);
    assert [] + [Nested(seq(n, _ => true))] == [Nested(seq(n, _ => true))];
    assert [] + seq(n, _ => Flag(true)) == seq(n, _ => Flag(true));
  }

  /** The result handed back: the list for list ids, its first entry otherwise. */
  function Shape(wasList: bool, statuses: seq<Status>): Result<EditResult>
  {
    if wasList then Ok(ListResult(statuses))
    else if |statuses| == 0 then Fail(RuntimeFault)  // `results[0]` on an empty list
    else Ok(SingleResult(statuses[0]))
  }

  /** The calls of a plan: chunk calls with a playlist, per-pair calls otherwise. */
  function PlanCalls(pairs: seq<(Value, Value)>, playlistId: Value, group: Value, chunkMethod: string,
                     pairMethod: string, chunkSize: nat): (plan: (seq<Call>, seq<nat>))
    requires chunkSize > 0
    ensures |plan.0| == |plan.1|
  {
    if Truthy(playlistId) then
      var chunks := Chunks(pairs, chunkSize);
      (seq(|chunks|, k requires 0 <= k < |chunks| =>
         Call(chunkMethod, map["owner_id" := group, "audio_ids" := VStr(AudioIds(chunks[k])), "playlist_id" := playlistId])),
       seq(|chunks|, k requires 0 <= k < |chunks| => |chunks[k]|))
    else
      (seq(|pairs|, k requires 0 <= k < |pairs| =>
         Call(pairMethod, map["owner_id" := pairs[k].0, "audio_id" := pairs[k].1, "group_id" := group])),
       seq(|pairs|, _ => 1))
  }

  /** The loop that sends the planned calls one after another. */
  method SendPlan(plan: seq<Call>, sizes: seq<nat>, nested: bool, answer: nat -> Result<Value>)
    returns (statuses: Result<seq<Status>>, sent: seq<Call>)
    requires |plan| == |sizes|
    ensures statuses == Run(sizes, nested, answer).0
    ensures sent == plan[..Run(sizes, nested, answer).1]
  {
    var results: seq<Status> := [];
    for k := 0 to |plan|
      invariant Run(sizes[..k], nested, answer) == (Ok(results), k)
    {
      var st := StatusesFor(sizes[k], nested, answer(k));
      RunSnoc(sizes, nested, answer, k, results);
      if st.Fail? {
        RunStopsAtFailure(sizes, nested, answer, k + 1);
        return Fail(st.kind), plan[..k + 1];
      }
      results := results + st.value;
    }
    assert sizes[..|plan|] == sizes;
    return Ok(results), plan;
  }

  /** Plan the calls for the pairs, send them, and shape the statuses. */
  method SendShaped(pairs: seq<(Value, Value)>, playlistId: Value, group: Value, chunkMethod: string,
                    pairMethod: string, chunkSize: nat, wasList: bool, answer: nat -> Result<Value>)
    returns (r: Result<EditResult>, sent: seq<Call>)
    requires chunkSize > 0
    ensures var plan := PlanCalls(pairs, playlistId, group, chunkMethod, pairMethod, chunkSize);
            var run := Run(plan.1, Truthy(playlistId), answer);
            sent == plan.0[..run.1] &&
            r == (if run.0.Fail? then Fail(run.0.kind) else Shape(wasList, run.0.value))
  {
    var plan := PlanCalls(pairs, playlistId, group, chunkMethod, pairMethod, chunkSize);
    var statuses;
    statuses, sent := SendPlan(plan.0, plan.1, Truthy(playlistId), answer);
    if statuses.Fail? {
      return Fail(statuses.kind), sent;
    }
    r := Shape(wasList, statuses.value);
  }

  /** One more call after `k` successful ones: its statuses are appended,
      or its error ends the run after `k + 1` calls. */
  lemma RunSnoc(sizes: seq<nat>, nested: bool, answer: nat -> Result<Value>, k: nat, results: seq<Status>)
    requires k < |sizes| && Run(sizes[..k], nested, answer) == (Ok(results), k)
    ensures var st := StatusesFor(sizes[k], nested, answer(k));
            Run(sizes[..k + 1], nested, answer) ==
              (if st.Fail? then (Fail(st.kind), k + 1) else (Ok(results + st.value), k + 1))
  {
    assert sizes[..k + 1][..k] == sizes[..k];
    assert sizes[..k + 1][k] == sizes[k];
  }

  /** Once a call lets an error escape, the run ends there. */
  lemma {:induction false} RunStopsAtFailure(sizes: seq<nat>, nested: bool, answer: nat -> Result<Value>, n: nat)
    requires n <= |sizes| && Run(sizes[..n], nested, answer).0.Fail?
    ensures Run(sizes, nested, answer) == Run(sizes[..n], nested, answer)
    decreases |sizes| - n
  {
    if n < |sizes| {
      assert sizes[..n + 1][..n] == sizes[..n];
      RunStopsAtFailure(sizes, nested, answer, n + 1);
    } else {
      assert sizes[..n] == sizes;
    }
  }

  // ---------------------------------------------------------------------
  // add
  // ---------------------------------------------------------------------

  /** `add`. `myId` is what `_getMyId` gives when no group is named. */
  method Add(ownerIds: Value, trackIds: Value, playlistId: Value, groupId: Value, myId: Value,
             answer: nat -> Result<Value>) returns (r: Result<EditResult>, sent: seq<Call>)
    ensures CheckIds(ownerIds, trackIds).Some? ==> r == Fail(CheckIds(ownerIds, trackIds).value) && sent == []
    ensures CheckIds(ownerIds, trackIds).None? ==>
              var pairs := Zip(Wrap(ownerIds), Wrap(trackIds));
              var group := if Truthy(groupId) then groupId else myId;
              var plan := PlanCalls(pairs, playlistId, group, "addToPlaylist", "add", 50);
              var run := Run(plan.1, Truthy(playlistId), answer);
              sent == plan.0[..run.1] &&
              r == (if run.0.Fail? then Fail(run.0.kind) else Shape(ownerIds.VList?, run.0.value))
  {
    var check := CheckIds(ownerIds, trackIds);
    if check.Some? {
      return Fail(check.value), [];
    }
    var wasList := ownerIds.VList?;
    var group := if Truthy(groupId) then groupId else myId;
    var pairs := Zip(Wrap(ownerIds), Wrap(trackIds));
    r, sent := SendShaped(pairs, playlistId, group, "addToPlaylist", "add", 50, wasList, answer);
  }

  /** A scalar add never hits the empty-list fault: its one pair gives one status. */
  lemma ScalarAddHasAStatus(ownerIds: Value, trackIds: Value, playlistId: Value, group: Value,
                            answer: nat -> Result<Value>)
    requires CheckIds(ownerIds, trackIds) == None && !ownerIds.VList?
    ensures var plan := PlanCalls(Zip(Wrap(ownerIds), Wrap(trackIds)), playlistId, group, "addToPlaylist", "add", 50);
            var run := Run(plan.1, Truthy(playlistId), answer);
            run.0.Ok? ==> |run.0.value| >= 1
  {
    var pairs := Zip(Wrap(ownerIds), Wrap(trackIds));
    var plan := PlanCalls(pairs, playlistId, group, "addToPlaylist", "add", 50);
    assert |pairs| == 1;
    if Truthy(playlistId) {
      assert Chunks(pairs, 50) == [pairs];
    }
    assert |plan.1| == 1 && plan.1[0] >= 1;
    assert plan.1[..0] == [];
  }

  // ---------------------------------------------------------------------
  // remove: re-validation
  // ---------------------------------------------------------------------

  /** What `remove` needs of a track object: its ids, `fullTitle` and
      `str(track.artists)` (never empty, so the `or track.artist` fallback
      of the source is never taken). */
  datatype TrackView = TrackView(ownerId: Value, trackId: Value, fullTitle: Option<string>, artists: string)

  predicate SameSong(a: TrackView, b: TrackView) {
    a.fullTitle == b.fullTitle && a.artists == b.artists
  }

  /** The first existing track with the same full title and artists. */
  function FirstMatch(exist: seq<TrackView>, t: TrackView): (m: Option<TrackView>)
    ensures m.Some? ==> exists i :: 0 <= i < |exist| && exist[i] == m.value && SameSong(exist[i], t) &&
                                    forall j :: 0 <= j < i ==> !SameSong(exist[j], t)
    ensures m.None? ==> forall i :: 0 <= i < |exist| ==> !SameSong(exist[i], t)
  {
    if |exist| == 0 then None
    else if SameSong(exist[0], t) then Some(exist[0])
    else
      var m := FirstMatch(exist[1..], t);
      if m.Some? then
        var i :| 0 <= i < |exist| - 1 && exist[1..][i] == m.value && SameSong(exist[1..][i], t) &&
                 forall j :: 0 <= j < i ==> !SameSong(exist[1..][j], t);
        assert exist[i + 1] == m.value;
        assert forall j :: 1 <= j < i + 1 ==> exist[j] == exist[1..][j - 1];
        m
      else m
  }

  /** The pair a re-validated pair becomes. */
  function Replacement(pair: (Value, Value), exist: seq<TrackView>, fetched: TrackView): (Value, Value)
  {
    match FirstMatch(exist, fetched)
    case Some(e) => (e.ownerId, e.trackId)
    case None => pair
  }

  /** The re-validation loop: each pair is fetched (`lookup(idx)`, None when
      `get` finds nothing, which faults on `.fullTitle`) and rewritten in
      place to the ids of the first matching existing track. */
  method Revalidate(owners: array<Value>, tracks: array<Value>, exist: seq<TrackView>,
                    lookup: nat -> Option<TrackView>) returns (fault: bool)
    requires owners.Length == tracks.Length && owners != tracks
    modifies owners, tracks
    ensures fault <==> exists i :: 0 <= i < owners.Length && lookup(i).None?
    ensures !fault ==> forall i :: 0 <= i < owners.Length ==>
              (owners[i], tracks[i]) == Replacement((old(owners[i]), old(tracks[i])), exist, lookup(i).value)
  {
    for idx := 0 to owners.Length
      invariant forall i :: 0 <= i < idx ==> lookup(i).Some?
      invariant forall i :: 0 <= i < idx ==>
                  (owners[i], tracks[i]) == Replacement((old(owners[i]), old(tracks[i])), exist, lookup(i).value)
      invariant forall i :: idx <= i < owners.Length ==> owners[i] == old(owners[i]) && tracks[i] == old(tracks[i])
    {
      var fetched := lookup(idx);
      if fetched.None? {
        return true;
      }
      var m := FirstMatch(exist, fetched.value);
      if m.Some? {
        owners[idx] := m.value.ownerId;
        tracks[idx] := m.value.trackId;
      }
    }
    return false;
  }

  /** The re-validated pairs as a value. */
  function Revalidated(pairs: seq<(Value, Value)>, exist: seq<TrackView>, lookup: nat -> Option<TrackView>)
    : Result<seq<(Value, Value)>>
  {
    if exists i :: 0 <= i < |pairs| && lookup(i).None? then Fail(RuntimeFault)
    else Ok(seq(|pairs|, i requires 0 <= i < |pairs| => Replacement(pairs[i], exist, lookup(i).value)))
  }

  /** The pairs as `remove` holds them (two parallel lists), re-validated in place. */
  method RevalidatePairs(pairs: seq<(Value, Value)>, exist: seq<TrackView>, lookup: nat -> Option<TrackView>)
    returns (checked: Result<seq<(Value, Value)>>)
    ensures checked == Revalidated(pairs, exist, lookup)
  {
    var owners := new Value[|pairs|](i requires 0 <= i < |pairs| => pairs[i].0);
    var tracks := new Value[|pairs|](i requires 0 <= i < |pairs| => pairs[i].1);
    var fault := Revalidate(owners, tracks, exist, lookup);
    if fault {
      return Fail(RuntimeFault);
    }
    var os, ts := owners[..], tracks[..];
    checked := Ok(seq(|pairs|, i requires 0 <= i < |pairs| => (os[i], ts[i])));
    assert !exists i :: 0 <= i < |pairs| && lookup(i).None?;
    var want := seq(|pairs|, i requires 0 <= i < |pairs| => Replacement(pairs[i], exist, lookup(i).value));
    assert Revalidated(pairs, exist, lookup) == Ok(want);
    assert forall i :: 0 <= i < |pairs| ==> checked.value[i] == want[i];
    assert checked.value == want;
  }

  /** The tracks `remove` validates against. */
  datatype Library = Library(
    playlistTracks: seq<TrackView>,         // getPlaylistTracks (empty when falsy)
    hasSections: bool,                       // getSections returned something
    hasSubsection: bool,                     // the first section has a subsection
    sectionTracks: seq<TrackView>,           // the first subsection's tracks
    batchReply: nat -> seq<TrackView>)       // get() of batch k (empty when falsy)

  /** The existing tracks re-fetched batch by batch; empty batches are skipped. */
  function Refetched(batches: seq<seq<TrackView>>, reply: nat -> seq<TrackView>): seq<TrackView>
  {
    if |batches| == 0 then [] else Refetched(batches[..|batches| - 1], reply) + reply(|batches| - 1)
  }

  /** The batches of 343 the library tracks are re-fetched in. */
  const RefetchBatch: nat := 343

  /** The tracks to validate against, None when the source gives up, or
      the fault of `subsections[0]` on a section without subsections. */
  function ExistingTracks(playlistMode: bool, lib: Library): Result<Option<seq<TrackView>>>
  {
    if playlistMode then Ok(if |lib.playlistTracks| == 0 then None else Some(lib.playlistTracks))
    else if !lib.hasSections then Ok(None)
    else if !lib.hasSubsection then Fail(RuntimeFault)
    else if |lib.sectionTracks| == 0 then Ok(None)
    else Ok(Some(Refetched(Chunks(lib.sectionTracks, RefetchBatch), lib.batchReply)))
  }

  /** `remove`. */
  method Remove(ownerIds: Value, trackIds: Value, playlistId: Value, groupId: Value, myId: Value,
                validateIds: bool, lib: Library, lookup: nat -> Option<TrackView>,
                answer: nat -> Result<Value>) returns (r: Result<EditResult>, sent: seq<Call>)
    ensures CheckIds(ownerIds, trackIds).Some? ==> r == Fail(CheckIds(ownerIds, trackIds).value) && sent == []
    ensures CheckIds(ownerIds, trackIds).None? ==>
              var pairs := Zip(Wrap(ownerIds), Wrap(trackIds));
              var group := if Truthy(groupId) then groupId else myId;
              var exist := ExistingTracks(Truthy(playlistId), lib);
              if validateIds && exist.Fail? then r == Fail(RuntimeFault) && sent == []
              else if validateIds && exist.value.None? then
                r == Ok(ListResult(seq(|pairs|, _ => Flag(false)))) && sent == []
              else
                var checked := if validateIds then Revalidated(pairs, exist.value.value, lookup) else Ok(pairs);
                if checked.Fail? then r == Fail(RuntimeFault) && sent == []
                else
                  var plan := PlanCalls(checked.value, playlistId, group, "removeFromPlaylist", "delete", 100);
                  var run := Run(plan.1, Truthy(playlistId), answer);
                  sent == plan.0[..run.1] &&
                  r == (if run.0.Fail? then Fail(run.0.kind) else Shape(ownerIds.VList?, run.0.value))
  {
    var check := CheckIds(ownerIds, trackIds);
    if check.Some? {
      return Fail(check.value), [];
    }
    var wasList := ownerIds.VList?;
    var group := if Truthy(groupId) then groupId else myId;
    var pairs := Zip(Wrap(ownerIds), Wrap(trackIds));
    if validateIds {
      var exist := ExistingTracks(Truthy(playlistId), lib);
      if exist.Fail? {
        return Fail(RuntimeFault), [];
      }
      if exist.value.None? {
        return Ok(ListResult(seq(|pairs|, _ => Flag(false)))), [];
      }
      var checked := RevalidatePairs(pairs, exist.value.value, lookup);
      if checked.Fail? {
        return Fail(RuntimeFault), [];
      }
      pairs := checked.value;
    }
    r, sent := SendShaped(pairs, playlistId, group, "removeFromPlaylist", "delete", 100, wasList, answer);
  }

  /** Every library track is in exactly one re-fetch batch, in order, and no
      batch holds more than 343 tracks. */
  lemma RefetchBatchesCover(lib: Library)
    ensures Flatten(Chunks(lib.sectionTracks, RefetchBatch)) == lib.sectionTracks
    ensures forall k :: 0 <= k < |Chunks(lib.sectionTracks, RefetchBatch)| ==>
              |Chunks(lib.sectionTracks, RefetchBatch)[k]| <= RefetchBatch
  {
    ChunksCover(lib.sectionTracks, RefetchBatch);
  }

  /** As written, a scalar removal that finds no existing tracks returns the
      list [False] where a bool is promised. */
  lemma ScalarRemovalWithoutTracksIsList(ownerId: int, trackId: int, lib: Library)
    requires |lib.playlistTracks| == 0
    ensures ExistingTracks(true, lib) == Ok(None)
    ensures var pairs := Zip(Wrap(VInt(ownerId)), Wrap(VInt(trackId)));
            seq(|pairs|, _ => Flag(false)) == [Flag(false)]
  {
  }

  /** The early answer when nothing can be validated, shaped like the input. */
  function NoTracksResult(wasList: bool, n: nat): (r: EditResult)
    ensures wasList ==> r == ListResult(seq(n, _ => Flag(false)))
    ensures !wasList ==> r == SingleResult(Flag(false))
  {
    if wasList then ListResult(seq(n, _ => Flag(false))) else SingleResult(Flag(false))
  }

  /** With the correction the early answer has the same shape as every
      other answer of `remove`: a list exactly for list ids. */
  lemma NoTracksResultShaped(ownerIds: Value, trackIds: Value)
    requires CheckIds(ownerIds, trackIds) == None
    ensures var n := |Zip(Wrap(ownerIds), Wrap(trackIds))|;
            NoTracksResult(ownerIds.VList?, n).ListResult? <==> ownerIds.VList?
    ensures !ownerIds.VList? ==>
              Shape(false, seq(|Zip(Wrap(ownerIds), Wrap(trackIds))|, _ => Flag(false))) ==
              Ok(NoTracksResult(false, |Zip(Wrap(ownerIds), Wrap(trackIds))|))
  {
  }
}

/**
  `getAllPlaylists` (vkmusix/methods/owners/getAllPlaylists.py): one
  "getPlaylists" request for the first page of ten, then one request per
  further page, the items of all pages concatenated in page order,
  finalized as playlists and filtered by playlist kind.

  `answer(0)` is the outcome of the first request and `answer(k + 1)` that of
  the page at the k-th extra offset; `myId` stands for `_getMyId()`.
 */
module Owners {
  import opened Wrappers
  import opened PyValue
  import opened Errors
  import opened ApiClient
  import TrackEdits

  /** Playlists per request. */
  const PerRequest: int := 10

  /** The playlist kinds a caller can ask for. */
  datatype PlaylistKind = Own | Foreign | AlbumKind

  /** The "items" list of a reply; iterating anything else is a fault. */
  function ItemsOf(reply: Value): (r: Result<seq<Value>>)
    ensures r.Ok? <==> Get(reply, "items").VList?
    ensures r.Ok? ==> r.value == Get(reply, "items").items
    ensures r.Fail? ==> r.kind == RuntimeFault
  {
    var items := Get(reply, "items");
    if items.VList? then Ok(items.items) else Fail(RuntimeFault)
  }

  // ---------------------------------------------------------------------
  // Paging
  // ---------------------------------------------------------------------

  /** The offsets of the pages after the first, for `count` playlists. */
  function PageOffsets(count: int): (offsets: seq<int>)
    // Every page starts inside the collection, ten after the one before it ...
    ensures forall k :: 0 <= k < |offsets| ==> offsets[k] == PerRequest * (k + 1) && offsets[k] < count
    // ... and together with the first page they reach its end.
    ensures count <= PerRequest * (|offsets| + 1)
  {
    var n := if count <= PerRequest then 0 else (count - 1) / PerRequest;
    seq(n, k requires 0 <= k < n => PerRequest * (k + 1))
  }

  /** The loop of `getAllPlaylists` that lays out the extra pages. */
  method PlanPages(count: int) returns (offsets: seq<int>)
    ensures offsets == PageOffsets(count)
  {
    var offset := if count < PerRequest then count else PerRequest;
    offsets := [];
    while offset < count
      invariant forall k :: 0 <= k < |offsets| ==> offsets[k] == PerRequest * (k + 1) && offsets[k] < count
      invariant count >= PerRequest ==> offset == PerRequest * (|offsets| + 1)
      invariant count < PerRequest ==> offset == count && offsets == []
      invariant offsets == [] || PerRequest * |offsets| < count
      decreases count - offset
    {
      offsets := offsets + [offset];
      offset := offset + PerRequest;
    }
    if count > PerRequest {
      assert (count - 1) / PerRequest == |offsets|;
    }
    assert |offsets| == |PageOffsets(count)|;
  }

  /** The request for the first page. */
  function FirstParams(owner: Value): map<string, Value> {
    map["owner_id" := owner, "count" := VInt(PerRequest)]
  }

  /** The requests of the extra pages, in order. */
  function PageCalls(owner: Value, offsets: seq<int>): (calls: seq<TrackEdits.Call>)
    ensures |calls| == |offsets|
    ensures forall k :: 0 <= k < |offsets| ==>
              calls[k] == TrackEdits.Call("getPlaylists", FirstParams(owner)["offset" := VInt(offsets[k])])
  {
    if offsets == [] then []
    else [TrackEdits.Call("getPlaylists", FirstParams(owner)["offset" := VInt(offsets[0])])] + PageCalls(owner, offsets[1..])
  }

  /** The replies to the `n` extra pages (`gather`): all of them, or the first failure. */
  function Replies(n: nat, answer: nat -> Result<Value>): (r: Result<seq<Value>>)
    ensures r.Ok? ==> |r.value| == n && forall k :: 0 <= k < n ==> answer(k + 1) == Ok(r.value[k])
    ensures r.Ok? <==> forall k :: 1 <= k <= n ==> answer(k).Ok?
    ensures r.Fail? ==> exists k :: 1 <= k <= n && answer(k) == Fail(r.kind)
  {
    if n == 0 then Ok([])
    else match Replies(n - 1, answer)
      case Fail(e) => Fail(e)
      case Ok(vs) =>
        match answer(n)
        case Fail(e) => Fail(e)
        case Ok(v) => Ok(vs + [v])
  }

  /** The items of a run of pages, concatenated in order. */
  function PageItems(pages: seq<Value>): (r: Result<seq<Value>>)
    ensures r.Ok? <==> forall k :: 0 <= k < |pages| ==> ItemsOf(pages[k]).Ok?
    ensures r.Fail? ==> r.kind == RuntimeFault
  {
    if pages == [] then Ok([])
    else match PageItems(pages[..|pages| - 1])
      case Fail(e) => Fail(e)
      case Ok(xs) =>
        match ItemsOf(pages[|pages| - 1])
        case Fail(e) => Fail(e)
        case Ok(ys) => Ok(xs + ys)
  }

  // ---------------------------------------------------------------------
  // Finalization and the kind filter
  // ---------------------------------------------------------------------

  /** The kind a finalized object is filtered by: an own playlist when
      `own` is set, any other playlist a foreign one, an album an album. */
  function KindOf(e: Entity): (k: Option<PlaylistKind>)
    ensures e.PlaylistOf? ==> k == Some(if e.own == Some(true) then Own else Foreign)
    ensures e.AlbumOf? ==> k == Some(AlbumKind)
    ensures e.PlainOf? ==> k == None
  {
    match e
    case PlaylistOf(_, own) => Some(if own == Some(true) then Own else Foreign)
    case AlbumOf(_, _) => Some(AlbumKind)
    case PlainOf(_, _) => None
  }

  predicate Wanted(x: Option<Entity>, kinds: seq<PlaylistKind>) {
    x.Some? && KindOf(x.value).Some? && KindOf(x.value).value in kinds
  }

  /** The filtering comprehension: the wanted elements in their order. */
  function Selected(xs: seq<Option<Entity>>, kinds: seq<PlaylistKind>): (r: seq<Option<Entity>>)
    ensures forall x :: x in r <==> x in xs && Wanted(x, kinds)
    ensures |r| <= |xs|
  {
    if xs == [] then []
    else (if Wanted(xs[0], kinds) then [xs[0]] else []) + Selected(xs[1..], kinds)
  }

  /** Objects as the elements of a Python list. */
  function Somes(es: seq<Entity>): (r: seq<Option<Entity>>)
    ensures |r| == |es| && forall i :: 0 <= i < |es| ==> r[i] == Some(es[i])
  {
    if es == [] then [] else [Some(es[0])] + Somes(es[1..])
  }

  /** `_finalizeResponse` followed by the wrapping of a non-list in a list. */
  function Listed(f: Option<Finalized>): seq<Option<Entity>> {
    match f
    case None => [None]
    case Some(One(e)) => [Some(e)]
    case Some(Many(es)) => Somes(es)
  }

  /** The end of `getAllPlaylists`: finalize, filter when kinds are asked
      for, and None for an empty outcome. */
  function Finish(all: seq<Value>, kinds: seq<PlaylistKind>): (r: Option<seq<Option<Entity>>>)
    ensures r.Some? ==> |r.value| > 0
    ensures |kinds| > 0 && r.Some? ==> forall x :: x in r.value ==> Wanted(x, kinds)
  {
    var listed := Listed(Finalization(VList(all), PlaylistType));
    var chosen := if |kinds| > 0 then Selected(listed, kinds) else listed;
    if |chosen| == 0 then None else Some(chosen)
  }

  // ---------------------------------------------------------------------
  // getAllPlaylists
  // ---------------------------------------------------------------------

  /** What `getAllPlaylists` answers, and the requests it sends. */
  function AllPlaylists(ownerId: Value, myId: Value, kinds: seq<PlaylistKind>, answer: nat -> Result<Value>)
    : (r: (Result<Option<seq<Option<Entity>>>>, seq<TrackEdits.Call>))
    ensures |r.1| >= 1 && r.1[0] == TrackEdits.Call("getPlaylists", FirstParams(if Truthy(ownerId) then ownerId else myId))
    ensures answer(0).Fail? ==> r.0 == Fail(answer(0).kind) && |r.1| == 1
    // A first page without an "items" list or a numeric "count" faults.
    ensures answer(0).Ok? && (ItemsOf(answer(0).value).Fail? || CodeOf(Get(answer(0).value, "count")).None?) ==>
              r.0 == Fail(RuntimeFault) && |r.1| == 1
    // Otherwise one request per further page goes out, and the answer is
    // the finishing of all pages' items exactly when every page came back
    // with an "items" list.
    ensures answer(0).Ok? && ItemsOf(answer(0).value).Ok? && CodeOf(Get(answer(0).value, "count")).Some? ==>
              var owner := if Truthy(ownerId) then ownerId else myId;
              var offsets := PageOffsets(CodeOf(Get(answer(0).value, "count")).value);
              var replies := Replies(|offsets|, answer);
              r.1 == [TrackEdits.Call("getPlaylists", FirstParams(owner))] + PageCalls(owner, offsets) &&
              (replies.Fail? ==> r.0 == Fail(replies.kind)) &&
              (r.0.Ok? <==> replies.Ok? && PageItems(replies.value).Ok?) &&
              (r.0.Ok? ==> r.0.value == Finish(ItemsOf(answer(0).value).value + PageItems(replies.value).value, kinds))
  {
    var owner := if Truthy(ownerId) then ownerId else myId;
    var first := [TrackEdits.Call("getPlaylists", FirstParams(owner))];
    match answer(0)
    case Fail(e) => (Fail(e), first)
    case Ok(reply) =>
      match ItemsOf(reply)
      case Fail(e) => (Fail(e), first)
      case Ok(items) =>
        match CodeOf(Get(reply, "count"))
        case None => (Fail(RuntimeFault), first)
        case Some(count) =>
          var offsets := PageOffsets(count);
          var sent := first + PageCalls(owner, offsets);
          match Replies(|offsets|, answer)
          case Fail(e) => (Fail(e), sent)
          case Ok(pages) =>
            match PageItems(pages)
            case Fail(e) => (Fail(e), sent)
            case Ok(more) => (Ok(Finish(items + more, kinds)), sent)
  }

  /** The loop over the fetched pages that appends each page's items. */
  method GatherPages(pages: seq<Value>) returns (r: Result<seq<Value>>)
    ensures r == PageItems(pages)
  {
    var more: seq<Value> := [];
    for i := 0 to |pages|
      invariant PageItems(pages[..i]) == Ok(more)
    {
      var page := ItemsOf(pages[i]);
      PageItemsSnoc(pages, i, more);
      if page.Fail? {
        PageItemsFailureSticks(pages, i + 1);
        return Fail(page.kind);
      }
      more := more + page.value;
    }
    assert pages[..|pages|] == pages;
    return Ok(more);
  }

  /** One more page after `i` gathered ones. */
  lemma PageItemsSnoc(pages: seq<Value>, i: nat, more: seq<Value>)
    requires i < |pages| && PageItems(pages[..i]) == Ok(more)
    ensures PageItems(pages[..i + 1]) ==
              (if ItemsOf(pages[i]).Fail? then Fail(ItemsOf(pages[i]).kind) else Ok(more + ItemsOf(pages[i]).value))
  {
    assert pages[..i + 1][..i] == pages[..i];
    assert pages[..i + 1][i] == pages[i];
  }

  /** A page that cannot be read fails the whole gathering. */
  lemma {:induction false} PageItemsFailureSticks(pages: seq<Value>, n: nat)
    requires n <= |pages| && PageItems(pages[..n]).Fail?
    ensures PageItems(pages) == PageItems(pages[..n])
    decreases |pages| - n
  {
    if n < |pages| {
      assert pages[..n + 1][..n] == pages[..n];
      PageItemsFailureSticks(pages, n + 1);
    } else {
      assert pages[..n] == pages;
    }
  }

  /** `getAllPlaylists`, with its paging loop, its `gather` and its loop
      over the pages. */
  method GetAllPlaylists(ownerId: Value, myId: Value, kinds: seq<PlaylistKind>, answer: nat -> Result<Value>)
    returns (r: Result<Option<seq<Option<Entity>>>>, sent: seq<TrackEdits.Call>)
    ensures (r, sent) == AllPlaylists(ownerId, myId, kinds, answer)
  {
    var owner := if Truthy(ownerId) then ownerId else myId;
    sent := [TrackEdits.Call("getPlaylists", FirstParams(owner))];
    var firstReply := answer(0);
    if firstReply.Fail? {
      return Fail(firstReply.kind), sent;
    }
    var reply := firstReply.value;
    var firstItems := ItemsOf(reply);
    if firstItems.Fail? {
      return Fail(RuntimeFault), sent;
    }
    var count := CodeOf(Get(reply, "count"));
    if count.None? {
      return Fail(RuntimeFault), sent;
    }
    var offsets := PlanPages(count.value);
    sent := sent + PageCalls(owner, offsets);
    var replies := Replies(|offsets|, answer);
    if replies.Fail? {
      return Fail(replies.kind), sent;
    }
    var gathered := GatherPages(replies.value);
    if gathered.Fail? {
      return Fail(gathered.kind), sent;
    }
    r := Ok(Finish(firstItems.value + gathered.value, kinds));
  }

  // ---------------------------------------------------------------------
  // The empty collection
  // ---------------------------------------------------------------------

  /** An owner without playlists, asked for every kind, gets a list holding
      one None rather than None: the finalized empty list is None, which is
      then wrapped in a list. */
  lemma EmptyOwnerGetsNoneList(ownerId: Value, myId: Value, answer: nat -> Result<Value>)
    requires answer(0) == Ok(VDict(map["items" := VList([]), "count" := VInt(0)]))
    ensures AllPlaylists(ownerId, myId, [], answer).0 == Ok(Some([None]))
  {
    var reply := answer(0).value;
    assert Get(reply, "items") == VList([]) && Get(reply, "count") == VInt(0);
    assert PageOffsets(0) == [];
    assert Replies(0, answer) == Ok([]);
    assert PageItems([]) == Ok([]);
    assert Finish([], []) == Some([None]) by {
      assert Finalization(VList([]), PlaylistType) == None;
    }
  }

  /** The kept objects, without the Python list around them. */
  function Chosen(es: seq<Entity>, kinds: seq<PlaylistKind>): (r: seq<Entity>)
    ensures forall e :: e in r <==> e in es && Wanted(Some(e), kinds)
  {
    if es == [] then []
    else (if Wanted(Some(es[0]), kinds) then [es[0]] else []) + Chosen(es[1..], kinds)
  }

  /** The end of `getAllPlaylists` as documented: the playlists, or None
      when there are none (of the kinds asked for). */
  function FinishIntended(all: seq<Value>, kinds: seq<PlaylistKind>): (r: Option<seq<Entity>>)
    ensures r.Some? ==> |r.value| > 0
    ensures |kinds| == 0 ==> (r.None? <==> |all| == 0)
    ensures |kinds| > 0 && r.Some? ==> forall e :: e in r.value ==> Wanted(Some(e), kinds)
  {
    var found := seq(|all|, i requires 0 <= i < |all| => FinalizeOne(PlaylistType, all[i]));
    var chosen := if |kinds| > 0 then Chosen(found, kinds) else found;
    if |chosen| == 0 then None else Some(chosen)
  }

  /** Filtering the listed objects is listing the kept ones. */
  lemma {:induction false} SelectedSomes(es: seq<Entity>, kinds: seq<PlaylistKind>)
    ensures Selected(Somes(es), kinds) == Somes(Chosen(es, kinds))
  {
    if es != [] {
      assert Somes(es)[1..] == Somes(es[1..]);
      SelectedSomes(es[1..], kinds);
    }
  }

  /** On a non-empty collection the code and the documented behaviour agree. */
  lemma FinishAgreesWhenNonEmpty(all: seq<Value>, kinds: seq<PlaylistKind>)
    requires |all| > 0
    ensures Finish(all, kinds) == (match FinishIntended(all, kinds)
                                   case None => None
                                   case Some(es) => Some(Somes(es)))
  {
    var found := seq(|all|, i requires 0 <= i < |all| => FinalizeOne(PlaylistType, all[i]));
    assert Finalization(VList(all), PlaylistType) == Some(Many(found));
    if |kinds| > 0 {
      SelectedSomes(found, kinds);
    }
  }
}

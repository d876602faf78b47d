# VKMusix core, modelled in Dafny

VKMusix is a Python client for VK's music API. This project models its
core: the API client (`Client`), with its open/closed session, the `_req`
dispatcher, the captcha-service poll loop, `_raiseError`, the
`_finalizeResponse` finalizer and the proxy normalisation. It also models:

- the HTTP wrapper around the transport (`web.py`);
- the two parsers of the track blob embedded in VK web pages;
- the object types `Track`, `Album`, `Section` and `Genre`;
- the methods `add`, `remove`, `get`, `getLyrics`, `getTracksFromChat`,
  `edit`, `editPlaylist`, `getAllPlaylists` and `_parseAPITracks`.

Python values (the literal trees that JSON replies and `eval` produce) are
the datatype `PyValue.Value`. An exception is a `Result` failure that
carries an `Errors.ErrorKind`. `RuntimeFault` stands for the Python
`TypeError`/`ValueError`/`AttributeError` that malformed data raises.

Everything outside the process is a parameter:

- every `_req` outcome is an oracle `answer(k)`, indexed in request order;
- unbounded loops take a finite script of replies, and a script that runs
  out ends in `Unfinished`;
- `eval`, `html.unescape`, `_getMyId` and `getSelf` are parameters.

Code that changes state step by step is imperative Dafny:

- `Client` is a class whose methods carry `modifies` clauses;
- the lyric loop of `get` and the re-validation loop of `remove` work in
  place on arrays;
- the loops of the source are methods with `while`/`for` loops and their
  invariants. These are the `_req` error loop, the captcha poll,
  `_finalizeResponse`, the proxy set-up, the cookie and retry loops of
  `web.py`, the row loops of the blob parsers and of `_parseAPITracks`,
  the request loop of `add`/`remove`, the paging loop of
  `getAllPlaylists` and the grouping loop of `getTracksFromChat`.

Each of these methods is proved equal to a specification function, and the
properties of that function are proved as lemmas.

Where the library's docstrings and its code disagree, the model follows the
code:

- `_req` turns a truthy non-int `count` into None. The entry is then sent
  as None rather than removed.
- `_finalizeResponse` does not unwrap a one-element list; only `_req` does.
- `getAllPlaylists` returns `[None]` rather than None for an owner without
  playlists (see Findings).

## Model

| member | source | states |
|---|---|---|
| Errors.RaiseError | vkmusix/client.py:401-448 | an empty name raises nothing; a name of the table raises its class; any other name raises Unknown |
| Errors.RaiseByName | vkmusix/client.py:405-443 | raising by the table name of a kind raises exactly that kind |
| Errors.TableNamesItsKinds | vkmusix/client.py:405-443 | the table is a bijection: every name is named back by its kind |
| ApiClient.CleanParams | vkmusix/client.py:235-252 | exactly the non-None parameters are kept, unchanged, except that a truthy non-int count becomes None and a negative int count becomes 300 |
| ApiClient.CleanCountIsClamped | vkmusix/client.py:245-252 | after the clean-up a count is never a negative int, a truthy count is an int, and every other parameter is non-None |
| ApiClient.QualifyMethod | vkmusix/client.py:254-255 | the qualified name always holds "."; a name with "." is kept; any other name is put in "audio." |
| ApiClient.QualifyIdempotent | vkmusix/client.py:254-255 | qualifying twice is qualifying once |
| ApiClient.Unwrap | vkmusix/client.py:340-341 | a one-element list becomes its element; anything else is returned as is |
| ApiClient.CodeOf | vkmusix/client.py:283-286 | the code compares equal to n exactly when it is read as n (bools count as 0 and 1) |
| ApiClient.ClassifyKindsMatchTable | vkmusix/client.py:286-335 | every name the loop raises maps to the kind the loop is modelled to raise |
| ApiClient.ClassifyByCode | vkmusix/client.py:274-338 | the outcome of each error code: 3, 5, 6/9, 10 (on createChatPlaylist), 14, 15/201/203 split on the restore message, 18, 100 split on the parameter message, 104 split on the method, and any other code returns the error |
| ApiClient.ClassifyCodesPartition | vkmusix/client.py:274-338 | only code 14 keeps the loop going, and only the listed codes can raise |
| ApiClient.SingletonListUnwrapped | vkmusix/client.py:275-276 | a reply that is a one-element list ends the loop as its element |
| ApiClient.FirstRequest | vkmusix/client.py:257-272 | the URL is the API base plus the qualified method; the parameters are the cleaned ones overlaid by the session's token and version, with a truthy version overriding "v"; the HTTP method defaults to GET |
| ApiClient.SettleReissues | vkmusix/client.py:298-313 | every re-issued request goes to the same URL by GET, without the extra arguments, and carries all earlier parameters plus the captcha pair; at most one per round |
| ApiClient.SettleUnfinished | vkmusix/client.py:274-338 | the loop ends before the script runs out only by returning or raising |
| ApiClient.SettleSolutions | vkmusix/client.py:298-313 | each re-issued request carries as its `captcha_key` the k-th round's solution: the service's answer when the session has a RuCaptcha key, the typed answer otherwise |
| ApiClient.SettleWithoutKey | vkmusix/client.py:298-304 | without a RuCaptcha key the captcha service is never used, so none of its errors is raised; a captcha error whose `captcha_img` is not a string faults while the prompt is built, and nothing more is sent |
| ApiClient.SettleLoop | vkmusix/client.py:274-338 | the loop returns, raises and re-issues exactly as the round-by-round settling of the error reply does, the prompt fault on a non-string `captcha_img` without a key included, so every property proved of that settling holds of the loop |
| ApiClient.ReqSendsFirstThenRetries | vkmusix/client.py:231-343 | a closed session raises SessionClosed and sends nothing; an open one sends the first request and then at most one request per captcha round |
| ApiClient.Client.constructor | vkmusix/client.py:86-117 | given the already-normalised proxy: a new session is open, with one transport and nothing sent; an empty token is replaced by the typed one; the proxy is stored as given |
| ApiClient.NewClient | vkmusix/client.py:65-117 | the whole `__init__`: it fails, with InvalidProxyType or InvalidProxyDict (or a fault on a non-string URL), exactly when the proxy normalisation does; otherwise a fresh open session holds the normalised proxy, the token (the typed one for an empty token) and the API version |
| ApiClient.Client.Close | vkmusix/client.py:194-204 | closing a closed session raises SessionAlreadyClosed; either way the session ends closed and nothing else changes |
| ApiClient.Client.Exit | vkmusix/client.py:177-182 | the session ends closed, with SessionAlreadyClosed swallowed |
| ApiClient.Client.Reconnect | vkmusix/client.py:208-219 | reopening an open session raises SessionAlreadyOpened; a closed one is reopened on one more transport |
| ApiClient.Client.Req | vkmusix/client.py:231-343 | the outcome and the requests logged are those of the `_req` specification for the session's RuCaptcha key (which faults on a non-string `captcha_img` when there is no key), and the session state is unchanged |
| ApiClient.PollLoopOutcome | vkmusix/client.py:366-398 | a solution comes only from a dict poll with errorId 0, status "ready" and a dict solution; what is raised is one of the four captcha-service errors or a fault, and a fault only when some poll reply was unreadable (not a dict, or "ready" with a solution that is not a dict) or some `createTask` reply was not a dict; at most one task id is polled per reply |
| ApiClient.PolledIdsNewest | vkmusix/client.py:360-392 | the task id polled with each reply is the `taskId` of the `createTask` reply reached after as many resubmissions as the earlier replies asked for (errorId 12), i.e. always the newest task |
| ApiClient.FirstDecisivePoll | vkmusix/client.py:366-398 | every reply before the first one that is not a wait polled the same task; that first reply decides: a reply that is not a dict faults; "ready" returns its solution text, or faults when the solution is not a dict; errorId 1/10/21/55 raise RuCaptchaInvalidKey/ZeroBalance/BannedIP/BannedAccount; errorId 12 continues with the next `createTask` reply's task, faults when that reply is not a dict, and leaves the loop unfinished when there is none |
| ApiClient.SolveCaptcha | vkmusix/client.py:347-398 | the loop's outcome and the polled task ids are those of the poll specification, which faults before any poll when the first `createTask` reply is not a dict |
| ApiClient.FinalizeOne | vkmusix/client.py:473-491 | an album or playlist request becomes a Playlist for types 0 and 5 (own when it has no "original"), an Album for type 1, and the requested class otherwise; other classes are constructed directly |
| ApiClient.Finalize | vkmusix/client.py:464-493 | None for a falsy or bool reply; a list becomes a list of the same length, element by element in order; anything else becomes one object |
| ApiClient.NormaliseProxy | vkmusix/client.py:91-108 | the loop gives the proxy specification: None for a falsy proxy, InvalidProxyType for a non-dict, InvalidProxyDict for an unknown scheme |
| ApiClient.ProxyFailureSticks | vkmusix/client.py:100-106 | once an entry raises, the whole loop raises that error |
| ApiClient.ProxyFoldWellFormed | vkmusix/client.py:100-106 | every stored key is one of "http://", "https://", "socks4://", "socks5://", and every stored URL names a scheme |
| ApiClient.ProxySuffixBranchDead | vkmusix/client.py:101-105 | a scheme that passes the check never ends in "://", so the key is always the lower-cased scheme plus "://" |
| ApiClient.ProxySchemeWithSuffixRejected | vkmusix/client.py:101-102 | as written, a "socks5://" key is rejected with InvalidProxyDict |
| ApiClient.ProxyFoldIntendedAgrees | vkmusix/client.py:100-106 | the corrected loop agrees with the loop as written on every dict whose keys carry no "://" |
| ApiClient.ProxyIntendedAcceptsSuffix | vkmusix/client.py:105-106 | the corrected loop keeps a "socks5://" key |
| Web.AddHttps | vkmusix/web.py:33-37 | a URL mentioning "https://" or "http://" is kept; any other URL gets "https://" in front |
| Web.AddHttpsSchemes | vkmusix/web.py:33-37 | the result always mentions a scheme, and it equals the input exactly when the input already did |
| Web.AddHttpsIdempotent | vkmusix/web.py:33-37 | adding the scheme twice is adding it once |
| Web.CookieMapKeys | vkmusix/web.py:70-74 | the jar holds exactly the names of the records |
| Web.CookieMapLastWins | vkmusix/web.py:72-73 | each name is bound to the value of the last record carrying it |
| Web.NormaliseCookies | vkmusix/web.py:70-74 | a non-empty list of records becomes the jar built record by record; anything else is passed on unchanged |
| Web.DecodeJson | vkmusix/web.py:91-101 | an undecodable body gives None; a top-level "response" is unwrapped; any other JSON is returned whole |
| Web.CodeModeRemovesBreaks | vkmusix/web.py:103-105 | in CODE mode no "<br/>" is left in the text, and text without one is unchanged |
| Web.CodeModeBreaksBecomeNewlines | vkmusix/web.py:103-105 | in CODE mode a text of lines joined by "<br/>" comes back as the same lines joined by newlines |
| Text.ReplaceJoin | vkmusix/web.py:105 | replacing the separator of a join (whose parts hold no first character of it) swaps the separator and keeps every part |
| Web.Fetch | vkmusix/web.py:66-119 | at most five attempts; every attempt before the last failed; the first reply is decoded and returned; five failures give None |
| Web.RetryLoopAllFail | vkmusix/web.py:76-119 | when every attempt fails the call returns None |
| Web.RetryLoopFirstReply | vkmusix/web.py:76-119 | a reply after failures at every earlier attempt is what the call returns, decoded |
| TrackBlob.RewriteStep | methods/other/_getTracks.py:30 | one replacement of a literal's JavaScript spelling rewrites exactly the pieces that are that literal into its Python spelling, when no other piece holds the spelling's first character |
| TrackBlob.RewritesSpellOut | methods/utils/_getTracks.py:29 | in both orders of replacement, a page made of null/true/false/`\/` literals and plain text free of their first characters comes out with each literal spelled None/True/False/`/` and the plain text unchanged |
| TrackBlob.BlobSliceBetweenMarkers | methods/utils/_getTracks.py:32 | the slice runs from the last "[[" to the last "]]", both included, with no later "[[" inside |
| TrackBlob.PhotoSizes | methods/utils/_getTracks.py:45 | the cover map always has "photo_160" |
| TrackBlob.PhotoSizesFromLastTwo | methods/utils/_getTracks.py:45 | the last cover URL becomes photo_160 and the one before it photo_300 |
| TrackBlob.AlbumFields | methods/utils/_getTracks.py:57-66 | the album dict has the owner and album ids, and a photo exactly when the album list has four items |
| TrackBlob.MapRow | methods/utils/_getTracks.py:38-70 | a row is dropped exactly when it has a length below 20; it faults exactly when it has no length, or has at least 20 but is not a list, or has a truthy album that is not a list or a cover that is not a string; a mapped row is a track dict whose fields come from the fixed positions |
| TrackBlob.MapRows | methods/utils/_getTracks.py:37-70 | the loop succeeds exactly when every row maps, and the slots then correspond one to one, in order, to the rows' mappings |
| TrackBlob.KeepAppend | methods/utils/_getTracks.py:72 | keeping distributes over concatenation, so the survivors keep their order |
| TrackBlob.KeepEmpty | methods/utils/_getTracks.py:72-75 | nothing survives exactly when every slot is None |
| TrackBlob.ProcessRows | methods/utils/_getTracks.py:37-72 | the in-place loop faults exactly when mapping faults, and otherwise yields the kept tracks of the mapped rows |
| TrackBlob.MapRowsFailureSticks | methods/utils/_getTracks.py:37-70 | once a row faults, the whole loop faults |
| TrackBlob.OverwriteRows | methods/utils/_getTracks.py:37-70 | rewriting the rows in place leaves each slot holding its own row's mapping, in order, or ends with the fault of the first row that faults |
| TrackBlob.KeepSlots | methods/utils/_getTracks.py:72 | the kept tracks are the finalized non-None slots, in their order |
| TrackBlob.ParseTrackBlob | methods/utils/_getTracks.py:24-77 | a syntax error raises accessDenied (or its WithoutCookie form); a decoded non-list is returned unchanged; a list gives its surviving tracks, or None when none survive |
| TrackBlob.ParseTrackPage | methods/other/_getTracks.py:24-77 | an empty page or the generic music page gives None; a syntax error raises accessDenied; a non-list gives None; a list gives its surviving tracks; never a raw value |
| TrackBlob.CollectKeepsLongRowsInOrder | methods/other/_getTracks.py:72-77 | a returned track list is never empty, and None comes exactly when every row was dropped |
| ApiTracks.AudioIdRoundTrip | vkmusix/methods/tracks/_parseAPITracks.py:36-45 | an "owner_track" id of two integers, negative owners included, reads back as the same pair |
| ApiTracks.AudioIdWithKeys | vkmusix/methods/tracks/_parseAPITracks.py:38-45 | whatever access-key segments follow, the first two fields are the ids |
| ApiTracks.ParseApiTracks | vkmusix/methods/tracks/_parseAPITracks.py:26-47 | None for a falsy reply; otherwise it faults exactly when some item's id is malformed, and else gives one track per item, in order, with the parsed ids |
| ApiTracks.ParseInPlace | vkmusix/methods/tracks/_parseAPITracks.py:35-45 | the in-place loop fails exactly when some item's id is malformed; otherwise each item is replaced by its own parsed ids, in order |
| TrackEdits.CheckIds | vkmusix/methods/tracks/add.py:49-53 | the type error is raised exactly when the types differ and the length error exactly when two lists differ in length; with no error both are lists of one length or both scalars |
| TrackEdits.Zip | vkmusix/methods/tracks/add.py:98 | the pairs are the items at equal positions, as many as the shorter list |
| TrackEdits.CheckedPairs | vkmusix/methods/tracks/add.py:55-59 | after the checks there is one pair per id, and exactly one for scalar ids |
| TrackEdits.Chunks | vkmusix/methods/tracks/add.py:70 | every chunk holds between one and `size` items |
| TrackEdits.ChunksCover | vkmusix/methods/tracks/add.py:70 | the chunks cover every item once and in order |
| TrackEdits.ChunksFull | vkmusix/methods/tracks/add.py:70 | all chunks but the last are full |
| TrackEdits.AudioIdsRoundTrip | vkmusix/methods/tracks/add.py:72-80 | for integer ids the comma-joined text splits back into one id per pair, each reading back as its pair |
| TrackEdits.Run | vkmusix/methods/tracks/add.py:70-112 | the run makes no more calls than planned, and all of them when it succeeds |
| TrackEdits.RunPerPair | vkmusix/methods/tracks/add.py:98-112 | without a playlist there is exactly one bool per pair |
| TrackEdits.RunNestsPerChunk | vkmusix/methods/tracks/add.py:92 | as written, successful chunks give one nested list per chunk, not one bool per pair |
| TrackEdits.RunIntendedFlat | vkmusix/methods/tracks/add.py:70-96 | the corrected chunk loop gives exactly one bool per pair |
| TrackEdits.OneChunkIsNested | vkmusix/methods/tracks/add.py:92 | as written, one chunk of n pairs comes back as one list of n bools; the corrected loop gives n bools |
| TrackEdits.PlanCalls | vkmusix/methods/tracks/add.py:64-112 | the plan has one call per size entry |
| TrackEdits.SendPlan | vkmusix/methods/tracks/add.py:70-112 | the loop's statuses are those of the run, and the calls sent are the plan up to where the run stopped |
| TrackEdits.RunStopsAtFailure | vkmusix/methods/tracks/add.py:94-96 | once a call lets an error escape, nothing after it matters |
| TrackEdits.Add | vkmusix/methods/tracks/add.py:49-114 | a failed check raises before anything is sent; otherwise the planned calls are sent and the statuses come back as a list for list ids and as the first entry for scalar ids |
| TrackEdits.ScalarAddHasAStatus | vkmusix/methods/tracks/add.py:114 | a scalar add has one planned call and so one status |
| TrackEdits.FirstMatch | vkmusix/methods/tracks/remove.py:117-120 | the match is the first existing track with the same full title and artists, and None means there is none |
| TrackEdits.Revalidate | vkmusix/methods/tracks/remove.py:112-125 | it faults exactly when some pair's track is not found; otherwise each pair is rewritten in place to the ids of its first match, or kept |
| TrackEdits.RevalidatePairs | vkmusix/methods/tracks/remove.py:112-125 | the two parallel lists re-validated in place hold the re-validated pairs |
| TrackEdits.Remove | vkmusix/methods/tracks/remove.py:52-172 | a failed check raises before anything is sent; with no tracks to validate it answers False per pair; otherwise the re-validated pairs are removed as in add |
| TrackEdits.RefetchBatchesCover | vkmusix/methods/tracks/remove.py:92-110 | every library track is in exactly one batch, in order, and no batch holds more than 343 |
| TrackEdits.ScalarRemovalWithoutTracksIsList | vkmusix/methods/tracks/remove.py:74-75 | as written, a scalar removal that finds no tracks returns the list [False] |
| TrackEdits.NoTracksResult | vkmusix/methods/tracks/remove.py:74-75 | the corrected early answer is a list of False per pair for list ids and a single False otherwise |
| TrackEdits.NoTracksResultShaped | vkmusix/methods/tracks/remove.py:74-75 | with the correction the early answer has the shape of every other answer of remove |
| Naming.JoinedIdRoundTrip | vkmusix/types/track.py:160 | integer ids composed into "owner_entity" read back as the same pair |
| Naming.JoinedIdSplits | vkmusix/types/track.py:160 | text ids without "_" split back into their two halves |
| Naming.FullTitle | vkmusix/types/track.py:98 | a missing or empty subtitle gives the title alone; a non-empty subtitle gives a full title |
| Naming.FullTitlePlain | vkmusix/types/track.py:98 | with no brackets in the title or in a non-empty subtitle the full title is "title (subtitle)" |
| Naming.FullTitleParenthesised | vkmusix/types/track.py:98 | a subtitle already in parentheses is not doubled |
| Genres.Genre | types/genre.py:33-65 | a truthy id keeps the id and takes its title from the table, or "Неизвестен"; otherwise the name and the id (or genre_id) come from the dict |
| Genres.TableIds | types/genre.py:34-56 | the table holds the ids 1 to 22 except 9 and 20, and 1001 |
| Genres.UnknownIdsAreUnknown | types/genre.py:58 | any id outside the table is titled "Неизвестен" |
| TrackType.CleanText | vkmusix/types/track.py:92-93 | a falsy text is None, a string is unescaped, and anything else faults |
| TrackType.CleanSubtitle | vkmusix/types/track.py:95-96 | a falsy subtitle is None, a string has its lines joined by single spaces and is then unescaped, and anything else faults |
| TrackType.SubtitleHasNoNewline | vkmusix/types/track.py:96 | the subtitle holds no newline before unescaping, and is its newline-separated lines joined by spaces |
| TrackType.ReleaseIds | vkmusix/types/track.py:144-148 | a falsy release id gives none, a non-string faults, and parsed ids are the two halves read as integers |
| TrackType.Track | vkmusix/types/track.py:92-161 | the title and artist are those cleaned texts and the subtitle is the cleaned subtitle, so a string subtitle's lines come joined by spaces; the construction fails exactly when the title, subtitle or artist is a truthy non-string or, for a track that is not itself a release, "release_audio_id" cannot be read; the owner id, track id (id or track_id), joined id, url, full title (the title alone when the cleaned subtitle is missing or empty) and lyrics flag follow from the dict; there is a release track exactly when a non-release names one, it carries the two ids named, and it never has one of its own |
| TrackType.Release | vkmusix/types/track.py:143-156 | a release has no release track; otherwise none for a falsy "release_audio_id", a failure exactly when that id cannot be read, and else the track built from its two ids, which always builds and has no release track of its own |
| TrackType.ReleaseIdsRoundTrip | vkmusix/types/track.py:148 | an "owner_track" text of two integers reads back as the pair |
| TrackType.ReleaseTrackNamesItsIds | vkmusix/types/track.py:143-156 | a track whose release id names (o, t) gets a release track with owner o, track t and id "o_t", and nothing nested in it |
| TrackType.TrackIdRoundTrip | vkmusix/types/track.py:158-160 | integer ids give a track id that reads back as the same pair |
| AlbumType.Named | vkmusix/types/album.py:107-110 | the nickname list keeps one name per artist |
| AlbumType.TrackCount | vkmusix/types/album.py:158-159 | a truthy "count" is kept; otherwise no tracks give None, a list of tracks gives its length, and truthy tracks without a length fault |
| AlbumType.ArtistLine | vkmusix/types/album.py:106-124 | None without main artists; several main artists joined as "a, b & c"; one main artist alone or with " feat. " and the featured artists; a bare Artist object faults |
| AlbumType.HumanListShape | vkmusix/types/album.py:107-110 | for names without "," and "&", a list of n names holds one "&" and n - 2 commas |
| AlbumType.PhotoMapSizes | vkmusix/types/album.py:151 | every size in the map comes from a "photo_" key and holds that key's trimmed url |
| AlbumType.TrimDropsTwoWithoutMarkers | vkmusix/types/album.py:151 | as written, a url holding neither marker loses its last two characters |
| AlbumType.CutAt | vkmusix/types/album.py:151 | the corrected cut keeps a prefix of the url |
| AlbumType.TrimIntendedKeepsUrl | vkmusix/types/album.py:151 | the corrected trim keeps a prefix, and the whole url when it has no marker |
| AlbumType.PhotoMapFailsExactly | vkmusix/types/album.py:151 | the comprehension fails exactly when some "photo_" key has no integer after its "_" or a non-string value |
| AlbumType.PhotoMapHasEverySize | vkmusix/types/album.py:151 | when the comprehension succeeds, every "photo_N" key puts its size N in the map |
| AlbumType.AlbumPhoto | vkmusix/types/album.py:148-151 | the photo is None exactly for a falsy `photo or thumb`; a truthy non-dict faults; a dict gives the comprehension's map or its fault |
| AlbumType.AlbumPhotoFromDict | vkmusix/types/album.py:148-151 | read against the dict itself: the photo faults exactly when one of its "photo_" keys is bad, and otherwise holds the size of every "photo_" key |
| AlbumType.Album | vkmusix/types/album.py:88-173 | the title and subtitle are the cleaned texts, the artist is the artist line of the main and featured artists and the track count is `TrackCount`; a failure of any of these makes the construction fail; an album takes its id from id, album_id or playlist_id and an album url; a playlist from id, playlist_id or album_id and a playlist url; the full title follows (the title alone when the cleaned subtitle is missing or empty); the photo is None exactly for a falsy `photo or thumb`, is the comprehension's map when set, and a non-dict source or a failing comprehension makes the construction fail |
| AlbumType.AlbumAndPlaylistUrlsDiffer | vkmusix/types/album.py:162-173 | the same dict read as album and as playlist gets two different urls |
| AlbumType.AlbumIdRoundTrip | vkmusix/types/album.py:162-172 | with integer owner and id the album id reads back as the pair |
| SectionType.ShownBlocks | vkmusix/types/section.py:62 | the kept blocks are exactly those whose data type is neither "none" nor "audio_stream_mixes" |
| SectionType.Subsections | vkmusix/types/section.py:61-64 | falsy blocks give None; a truthy non-list faults; a list gives exactly its shown blocks, and None only when none is shown |
| SectionType.IdDicts | vkmusix/types/section.py:72-79 | the comprehension succeeds exactly when every id is a string holding one "_", and then gives one dict per id, in order, with the two halves as owner and id |
| SectionType.IdTexts | vkmusix/types/section.py:72-79 | one "owner_id" text per pair of owner and id |
| SectionType.OwnerDicts | vkmusix/types/section.py:72-79 | one dict per pair of owner and id |
| SectionType.Listing | vkmusix/types/section.py:66-99 | a truthy given list is kept; with no ids either the given value stays; otherwise the listing fails exactly when the ids are not a list or one of them cannot be unpacked, and is one dict per id in order |
| SectionType.IdDictsRoundTrip | vkmusix/types/section.py:72-79 | every "o_t" id becomes the dict with owner o and id t, in order |
| SectionType.DropSelf | vkmusix/types/section.py:116-121 | no kept subsection has the section's id; every kept one was there before; every one with another id is kept |
| SectionType.Without | vkmusix/types/section.py:121 | exactly the subsections with another id are kept |
| SectionType.SelfReferences | vkmusix/types/section.py:116-121 | a lone self-reference gives None, while two give an empty list |
| SectionType.Section | vkmusix/types/section.py:55-121 | the construction fails exactly when the subsections, the tracks or the playlists fail; the title, next offset, id and url are the section info's; the subsections are the shown blocks with self-references dropped, each a shown block of the section that is not the section itself; the tracks, playlists and recommended playlists are the listings finalized as tracks and playlists |
| InfoEdits.EditParams | vkmusix/methods/tracks/edit.py:54-65 | owner and audio ids always; the title and artist exactly when truthy; lyrics, genre and no_search exactly when not None |
| InfoEdits.Edit | vkmusix/methods/tracks/edit.py:51-67 | False with no request when nothing is to change; otherwise one "edit" request, and the truth of its reply |
| InfoEdits.EditParamsSurviveCleanUp | vkmusix/methods/tracks/edit.py:56-64 | with both ids given, `_req`'s clean-up leaves the edit parameters unchanged |
| InfoEdits.PlaylistParams | vkmusix/methods/playlists/editPlaylist.py:52-57 | playlist and owner ids always; the title when truthy; the description unless it is "" |
| InfoEdits.EditPlaylist | vkmusix/methods/playlists/editPlaylist.py:46-71 | False with nothing sent when nothing is to change; the info request exactly when a title or description is set; the photo helper runs exactly when the photo is not "" and the info edit was skipped or answered truthily; the call fails exactly when a request that went out failed; the answer is the info status, or the photo status without one |
| Owners.ItemsOf | vkmusix/methods/owners/getAllPlaylists.py:61 | the items of a reply, and a fault exactly when they are not a list |
| Owners.PageOffsets | vkmusix/methods/owners/getAllPlaylists.py:63-79 | the extra offsets are 10, 20, ... below the count, and they cover the count |
| Owners.PlanPages | vkmusix/methods/owners/getAllPlaylists.py:63-79 | the paging loop lays out exactly those offsets |
| Owners.PageCalls | vkmusix/methods/owners/getAllPlaylists.py:66-78 | one request per offset, with the first request's parameters plus that offset |
| Owners.Replies | vkmusix/methods/owners/getAllPlaylists.py:81 | all page replies in order when every page succeeds, otherwise the error of a failing page |
| Owners.PageItems | vkmusix/methods/owners/getAllPlaylists.py:82-84 | the concatenation succeeds exactly when every page has list items |
| Owners.GatherPages | vkmusix/methods/owners/getAllPlaylists.py:82-84 | the gathered items are the pages' items concatenated in page order, and a page without an item list ends the loop with a fault |
| Owners.KindOf | vkmusix/methods/owners/getAllPlaylists.py:95 | an own playlist is Own, another playlist Foreign, an album Album |
| Owners.Selected | vkmusix/methods/owners/getAllPlaylists.py:95 | exactly the elements of the wanted kinds are kept |
| Owners.Somes | vkmusix/methods/owners/getAllPlaylists.py:88-89 | the objects as list elements, one for one |
| Owners.Finish | vkmusix/methods/owners/getAllPlaylists.py:86-97 | an answer is never an empty list, and with kinds asked for it holds only those kinds |
| Owners.AllPlaylists | vkmusix/methods/owners/getAllPlaylists.py:49-97 | the first request asks for 10 playlists of the owner (or of the user); its failure, or a first page without an items list or a numeric count, ends the call with nothing more sent; otherwise one request per further page goes out, a failed reply is the answer, and the call answers the finished items of all pages exactly when every page holds an items list |
| Owners.GetAllPlaylists | vkmusix/methods/owners/getAllPlaylists.py:49-97 | the method's answer and requests are those of the specification |
| Owners.EmptyOwnerGetsNoneList | vkmusix/methods/owners/getAllPlaylists.py:86-97 | as written, an owner with no playlists gets [None] rather than None |
| Owners.Chosen | vkmusix/methods/owners/getAllPlaylists.py:95 | exactly the objects of the wanted kinds are kept |
| Owners.FinishIntended | vkmusix/methods/owners/getAllPlaylists.py:86-97 | corrected: never an empty list; with no kinds, None exactly when there are no playlists |
| Owners.SelectedSomes | vkmusix/methods/owners/getAllPlaylists.py:95 | filtering the listed objects is listing the kept objects |
| Owners.FinishAgreesWhenNonEmpty | vkmusix/methods/owners/getAllPlaylists.py:86-97 | for an owner with playlists, the code and the corrected version agree |
| TrackReads.GetStrict | vkmusix/methods/tracks/getLyrics.py:53 | `.get` succeeds exactly on a dict and faults otherwise |
| TrackReads.TimedLines | vkmusix/methods/tracks/getLyrics.py:60 | succeeds exactly when every timestamp is a dict whose line is None or a string; None lines are skipped |
| TrackReads.Lyrics | vkmusix/methods/tracks/getLyrics.py:50-60 | None without a reply or without lyrics; a truthy reply or lyrics value that is not a dict faults; with timestamps, the non-None lines joined by newlines (a fault if the timestamps are not a list of such dicts); without timestamps, the "text" value unchanged |
| TrackReads.TimedLyricsRoundTrip | vkmusix/methods/tracks/getLyrics.py:58-60 | timed lyrics split on newlines give back their lines |
| TrackReads.LyricCalls | vkmusix/methods/tracks/get.py:79-87 | one lyric request per pair, and none at all unless every id splits in two |
| TrackReads.GatheredLyrics | vkmusix/methods/tracks/get.py:89-99 | the gathering succeeds exactly when every lyric reply came back and getLyrics accepts it; the k-th lyric is what getLyrics makes of the k-th lyric reply |
| TrackReads.WithLyrics | vkmusix/methods/tracks/get.py:98-102 | succeeds exactly when every track can take its lyric; then each track carries its own lyric, in order |
| TrackReads.Response | vkmusix/methods/tracks/get.py:91-104 | None for a falsy reply; without lyrics, the tracks finalized as a list or as the first track; with lyrics, a fault exactly when the lyrics loop faults, and otherwise the tracks with their lyrics finalized the same way |
| TrackReads.PlanLyricCalls | vkmusix/methods/tracks/get.py:79-87 | the loop builds exactly the lyric requests |
| TrackReads.StoreLyrics | vkmusix/methods/tracks/get.py:101-102 | the in-place loop succeeds exactly when the lyrics fit, and then the array holds the tracks with their lyrics |
| TrackReads.GetTracks | vkmusix/methods/tracks/get.py:50-104 | the method's answer and requests are those of the specification |
| TrackReads.Respond | vkmusix/methods/tracks/get.py:91-104 | the method's answer is that of the response specification |
| TrackReads.LyricRequestsNameTheirTracks | vkmusix/methods/tracks/get.py:62-87 | for lists of integer ids, the requests `get` sends are the "getById" request over all "owner_track" ids, then one lyric request per pair, naming that pair's id |
| TrackReads.BatchIdsInInputOrder | vkmusix/methods/tracks/get.py:62-77 | for lists of integer ids, the "audios" text splits on "," into one id per pair, in input order, each reading back as its pair |
| TrackReads.Tracks | vkmusix/methods/tracks/get.py:50-104 | ids of different types or lengths fail with that error and send nothing; with lyrics asked for, an id that does not split in two at "_" faults with nothing sent; otherwise the batch request goes out first, followed by one lyric request per pair when lyrics are asked for; a failed batch reply or lyric gathering is then the answer, and otherwise the answer is the response built from the batch reply and the gathered lyrics |
| TrackReads.IntPairsSplitInTwo | vkmusix/methods/tracks/get.py:80-81 | integer pairs always split in two, so every pair gets its lyric request |
| TrackReads.LyricsReachTheirTracks | vkmusix/methods/tracks/get.py:98-104 | with lyrics, a list reply of dicts comes back as tracks carrying their own lyrics, in order |
| TrackReads.ParseMessage | vkmusix/methods/tracks/getTracksFromChat.py:66-73 | succeeds exactly on a dict message with a dict attachment and a hashable id; the entry has the id, its key, the attachment's finalized track, and the message's "date" and "from_id" values |
| TrackReads.ParseAll | vkmusix/methods/tracks/getTracksFromChat.py:66-73 | all messages parse, one entry each and in order, or the loop faults |
| TrackReads.GroupedKeys | vkmusix/methods/tracks/getTracksFromChat.py:64-85 | one record per distinct message id, each once in the insertion order |
| TrackReads.GroupedTracks | vkmusix/methods/tracks/getTracksFromChat.py:75-85 | each record holds the tracks of its id's messages, in order, and the chat id |
| TrackReads.GroupedFirst | vkmusix/methods/tracks/getTracksFromChat.py:78-85 | each record has the date, sender and message id of the first message with its id |
| TrackReads.GroupedOrder | vkmusix/methods/tracks/getTracksFromChat.py:79-90 | records come in the order their ids first appear |
| TrackReads.Records | vkmusix/methods/tracks/getTracksFromChat.py:87-90 | one message per record, in insertion order |
| TrackReads.Reversed | vkmusix/methods/tracks/getTracksFromChat.py:62 | the history in reverse order |
| TrackReads.ChatTracks | vkmusix/methods/tracks/getTracksFromChat.py:43-90 | the history request names the chat (or the user's own id); a failed request is the answer; a non-dict reply or truthy non-list items fault; falsy items answer None; a list of messages answers, exactly when every message parses, the records grouped from them oldest first, never an empty list |
| TrackReads.GroupMessages | vkmusix/methods/tracks/getTracksFromChat.py:64-85 | the loop succeeds exactly when every message parses, and it builds the grouping |
| TrackReads.GetTracksFromChat | vkmusix/methods/tracks/getTracksFromChat.py:43-90 | the method's answer and request are those of the specification |

## Left out

- `.get` on a value that is not a dict reads as None almost everywhere. The places where the fault matters (`getLyrics`, `getTracksFromChat`, the JSON decoding, the captcha-service `createTask` and `getTaskResult` replies and a "ready" reply's solution) model the fault.
- Iterating a value that is not a list is a fault wherever it is modelled. Python would iterate strings and dicts.
- `html.unescape` is the parameter `unescape`, and `eval` of the track blob is the parameter `eval`.
- `uploadedAt`/`updatedAt` (`unixToDatetime`) and the plain field copies of the object types (duration, flags, colours, counters) are not modelled.
- Faults inside nested Artist/Album/Genre constructions are not propagated into the enclosing object.
- AlbumType.PhotoMap: the photo dict is taken as its items in iteration order. AlbumType.Album takes those items as a parameter that must list the dict's entries, each key once.
- TrackType.CleanText: a truthy list or dict is a fault here, while `html.unescape` hands back a list or dict holding no "&" unchanged (it only tests `'&' not in s` before touching it); the model does not follow that pass-through.
- TrackEdits.Remove: with list arguments, the revalidation of vkmusix/methods/tracks/remove.py:123-124 rewrites the caller's own `ownerIds`/`trackIds` lists in place; TrackEdits.RevalidatePairs rewrites fresh copies, so the caller's lists keep their old ids in the model.
- Text.Lower folds ASCII letters only; Python's `str.lower` also folds non-ASCII letters (the Kelvin sign among them), so such a proxy scheme is rejected here where Python might accept it.
- SectionType and Genres: a fault inside a nested Section is not propagated; a section id compared with `!=` against an int treats `1` and `True` as different, where Python treats them as equal; an unhashable (list) genre id answers Unknown, where Python raises TypeError.
- The `print(1)` debugging line in `add` is not modelled.
- `asyncio.gather` outcomes: when several tasks fail, the first failure in task order is the one reported.
- vkmusix/config.py is not part of this model. The VK base address is the one the docstrings show, and the API base is a parameter.
- `_getMyId`, `getSelf`, `getSections`, the `get` inside `remove`, `getPlaylistTracks` and `_editPlaylistPhoto` are oracles (parameters).
- ApiClient.Settle: with a RuCaptcha key, the captcha-service answer of each round (`Round.solved`) is an oracle, a free `Result`; it is not tied to `SolveCaptchaSpec`, which models `_solveCaptcha` on its own, and the image download it starts from is not modelled.
- TrackReads.ChatTracks: the `version=5.241` argument of the history request is not recorded in the request.
- `int()` accepting surrounding whitespace and digit underscores is not modelled: ids are decimal digits with an optional sign.
- Python's `str()` of containers and floats inside f-strings is a fixed placeholder text.
- The localisation of error messages (`ru`/`en` attributes) is not modelled: an error is its kind.
- Real I/O: the HTTP client, `input()` for the token and the captcha, `asyncio.sleep`, the base64 encoding of the captcha image and the PyPI version check.
- Concurrency and the sync/async wrappers (`aio.py`) are not modelled.
- ApiClient.FinalizeOne: `_finalizeResponse` records the class and the raw dict of each object; it does not run the Track or Album constructors (modelled separately as TrackType.Track and AlbumType.Album), nor those of Message, Playlist, Artist and the other object types. A raw track that the Track constructor would reject (a truthy int title, say) therefore finalizes without a fault in `get`, `getTracksFromChat` and the blob parsers.
- The enums module is not part of this model. Every playlist kind is assumed truthy.

## Findings

| source | as written | input that shows it | evidently intended | confidence | as-written member | corrected member |
|---|---|---|---|---|---|---|
| vkmusix/client.py:101-105 | the scheme is checked against four bare names before the "://" suffix is tested, so the suffix branch is dead | proxy `{"socks5://": "127.0.0.1:1080"}` raises InvalidProxyDict | keys with or without "://" are both accepted | not executed | ApiClient.ProxySchemeWithSuffixRejected | ApiClient.ProxyIntendedAcceptsSuffix |
| vkmusix/methods/tracks/add.py:92 | a successful playlist chunk appends one nested list of bools | a scalar add to a playlist with a truthy reply returns `[True]` | one bool per pair, so a scalar add returns `True` | not executed | TrackEdits.OneChunkIsNested | TrackEdits.RunIntendedFlat |
| vkmusix/methods/tracks/remove.py:74-75 | with no existing tracks the early answer is a list whatever the input | a scalar removal from a playlist with no tracks returns `[False]` | `False` for scalar ids, a list for list ids | not executed | TrackEdits.ScalarRemovalWithoutTracksIsList | TrackEdits.NoTracksResultShaped |
| vkmusix/types/album.py:151 | a missing marker (rfind -1) cuts characters off the url | a photo url without "&c_uniq_tag=" and "&type=" loses its last two characters | cut only at a marker that is present | not executed | AlbumType.TrimDropsTwoWithoutMarkers | AlbumType.TrimIntendedKeepsUrl |
| vkmusix/methods/owners/getAllPlaylists.py:86-97 | the finalized empty list (None) is wrapped in a list before the emptiness test | an owner with no playlists and no kinds asked for gets `[None]` | None when there are no playlists | not executed | Owners.EmptyOwnerGetsNoneList | Owners.FinishIntended |

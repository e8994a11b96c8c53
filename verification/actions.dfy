/**
 The public operations of the `YouTube` client: clearing and editing playlists,
 clearing and editing watch history, finding the favourites playlist and pausing
 search history.

 The network is a parameter. An `Env` says whether the session is logged in,
 what each page holds once downloaded, the answers to the browse requests in the
 order they are issued, and the JSON answer to each post. A `World` is what an
 operation leaves behind: the calls made so far, in order, and the cached
 favourites playlist id. Every operation is a function from an `Env` and a
 `World` to a `Run`: how the Python call ended, and the world after it.
 */
module Actions {
  import opened Py
  import opened Pager
  import Util
  import Guide

  /** The pages the client downloads. */
  datatype Url = WatchLater | History | Home | SearchHistory | PlaylistPage(id: Json)

  /** What the client reads off a downloaded page: its `ytcfg`, the headers built
      from it, its initial data and its initial guide data. */
  datatype Page = Page(ytcfg: Json, headers: map<string, Json>, initData: Json, guideData: Json)

  /** A request to the site. `Fetch` and `Browse` read; the others change the
      account: a playlist edit and a feedback post to `service_ajax`, and a
      feedback post to the InnerTube API. */
  datatype Call =
    | Fetch(url: Url)
    | Browse(request: BrowseRequest)
    | EditPlaylist(playlistId: Json, setVideoId: Json, csn: Json, sessionToken: Json, headers: map<string, Json>)
    | Feedback(sej: Json, csn: Json, sessionToken: Json, headers: map<string, Json>)
    | FeedbackApi(apiUrl: Json, key: Json, clickTracking: Json, client: map<string, Json>, onBehalfOf: Json, feedbackToken: Json)

  datatype Env = Env(
    loggedIn: bool,
    site: Url -> Page,
    browse: seq<Json>,
    reply: Call -> Json,
    userAgent: string)

  datatype World = World(calls: seq<Call>, favorites: Json)

  /** How a call ended: it returned, it raised, or it is still waiting for a browse
      answer that `Env.browse` does not hold. */
  datatype Outcome<T> = Returned(value: T) | Failed(error: Error) | Waiting

  datatype Run<T> = Run(out: Outcome<T>, world: World)

  function Record(w: World, cs: seq<Call>): World {
    World(w.calls + cs, w.favorites)
  }

  /** `ytcfg[key]` */
  function Lookup(ytcfg: Json, key: string): Result<Json> {
    Subscript(ytcfg, Name(key))
  }

  /** `x or y`, where `y` is evaluated only when `x` is falsy. */
  function Or(x: Json, y: Result<Json>): Result<Json> {
    if Truthy(x) then Ok(x) else y
  }

  lemma RecordTwice(w: World, a: seq<Call>, b: seq<Call>)
    ensures Record(Record(w, a), b) == Record(w, a + b)
  {
    assert w.calls + a + b == w.calls + (a + b);
  }

  predicate Mutates(c: Call) {
    c.EditPlaylist? || c.Feedback? || c.FeedbackApi?
  }

  /** The calls among `cs` that change the account, in order. */
  function Mutations(cs: seq<Call>): (r: seq<Call>)
    ensures forall i | 0 <= i < |r| :: Mutates(r[i])
  {
    if cs == [] then []
    else (if Mutates(cs[0]) then [cs[0]] else []) + Mutations(cs[1..])
  }

  lemma {:induction false} MutationsAppend(a: seq<Call>, b: seq<Call>)
    ensures Mutations(a + b) == Mutations(a) + Mutations(b)
    decreases |a|
  {
    if a == [] {
      assert a + b == b;
    } else {
      assert (a + b)[0] == a[0];
      assert (a + b)[1..] == a[1..] + b;
      MutationsAppend(a[1..], b);
    }
  }

  // ---------------------------------------------------------------------------
  // The generators, as their consumers see them.

  /** `get_playlist_info(id)` or `get_history_info()`. */
  datatype Generator = PlaylistInfoOf(playlistId: Json) | HistoryInfoOf

  function GeneratorUrl(g: Generator): Url {
    match g
    case PlaylistInfoOf(id) => PlaylistPage(id)
    case HistoryInfoOf => History
  }

  /** What the generator yields and requests once started. Its login check runs
      on the first `next()`, like the rest of its body. */
  function GeneratorRun(env: Env, g: Generator): (r: PagerRun)
    ensures !env.loggedIn ==> Items(r) == [] && Requests(r) == [] && r.status == Raised(AuthenticationError)
    ensures |r.batches| >= 1 && r.batches[0].request.None?
  {
    if !env.loggedIn then PagerRun([Batch(None, [])], Raised(AuthenticationError))
    else
      var page := env.site(GeneratorUrl(g));
      match g
      case PlaylistInfoOf(_) => PlaylistInfo(page.initData, env.browse)
      case HistoryInfoOf => HistoryInfo(page.initData, page.ytcfg, env.browse)
  }

  function BrowseCalls(reqs: seq<BrowseRequest>): (cs: seq<Call>)
    ensures |cs| == |reqs| && forall i | 0 <= i < |reqs| :: cs[i] == Browse(reqs[i])
  {
    if reqs == [] then [] else [Browse(reqs[0])] + BrowseCalls(reqs[1..])
  }

  lemma {:induction false} BrowseCallsRead(reqs: seq<BrowseRequest>)
    ensures Mutations(BrowseCalls(reqs)) == []
    decreases |reqs|
  {
    if reqs != [] {
      BrowseCallsRead(reqs[1..]);
    }
  }

  /** The calls a started generator makes before the consumer stops: the page
      download, then one browse request per page it reaches. */
  function StartCalls(env: Env, g: Generator, requests: seq<BrowseRequest>): seq<Call> {
    (if env.loggedIn then [Fetch(GeneratorUrl(g))] else []) + BrowseCalls(requests)
  }

  lemma StartCallsRead(env: Env, g: Generator, requests: seq<BrowseRequest>)
    ensures Mutations(StartCalls(env, g, requests)) == []
  {
    BrowseCallsRead(requests);
    MutationsAppend(if env.loggedIn then [Fetch(GeneratorUrl(g))] else [], BrowseCalls(requests));
  }

  datatype Consumed = Consumed(drained: Drained, world: World)

  /** `list(map(f, gen))` or `list(filter(f, gen))` over a fresh generator. */
  function Consume(env: Env, w: World, g: Generator, f: Visit): Consumed {
    var d := Drain(GeneratorRun(env, g), f);
    Consumed(d, Record(w, StartCalls(env, g, d.requests)))
  }

  // ---------------------------------------------------------------------------
  // remove_set_video_id_from_playlist

  const SuccessCode: Json := JStr("SUCCESS")

  /** The answer's `code` must be `'SUCCESS'`; anything else raises UnexpectedError. */
  function CheckStatus(data: Json): (r: Result<()>)
    ensures r.Ok? <==> Subscript(data, Name("code")) == Ok(SuccessCode)
    ensures r.Err? && Subscript(data, Name("code")).Ok? ==> r.error == UnexpectedError
  {
    var code :- Subscript(data, Name("code"));
    if code != SuccessCode then Err(UnexpectedError) else Ok(())
  }

  /** The edit was answered with `code == 'SUCCESS'`. */
  predicate Accepted(env: Env, c: Call) {
    Subscript(env.reply(c), Name("code")) == Ok(SuccessCode)
  }

  /** The page is downloaded again unless headers, csn and token are all given. */
  predicate NeedsRefetch(csn: Json, xsrf: Json, headers: Option<map<string, Json>>) {
    headers.None? || headers.value == map[] || !Truthy(csn) || !Truthy(xsrf)
  }

  /** Remove one entry, named by its `setVideoId`, from a playlist. Missing
      arguments are taken from the Watch Later page; the edit must be answered
      with `'SUCCESS'`. */
  function RemoveSetVideoId(env: Env, w: World, playlistId: Json, setVideoId: Json, csn: Json, xsrf: Json,
                            headers: Option<map<string, Json>>): (r: Run<()>)
    ensures !env.loggedIn ==> r == Run(Failed(AuthenticationError), w)
    ensures r.out != Waiting && r.world.favorites == w.favorites
    ensures w.calls <= r.world.calls
    ensures r.out.Returned? ==> (
      && |r.world.calls| > |w.calls|
      && var last := r.world.calls[|r.world.calls| - 1];
      && last.EditPlaylist? && last.playlistId == playlistId && last.setVideoId == setVideoId
      && Accepted(env, last))
    ensures env.loggedIn && !NeedsRefetch(csn, xsrf, headers) ==> (
      var edit := EditPlaylist(playlistId, setVideoId, csn, xsrf, headers.value);
      && r.world == Record(w, [edit])
      && (r.out.Returned? <==> Accepted(env, edit))
      && (Subscript(env.reply(edit), Name("code")).Ok? && !Accepted(env, edit) ==> r.out == Failed(UnexpectedError))
      && (Subscript(env.reply(edit), Name("code")).Err? ==> r.out == Failed(Subscript(env.reply(edit), Name("code")).error)))
  {
    if !env.loggedIn then Run(Failed(AuthenticationError), w)
    else
      var refetch := NeedsRefetch(csn, xsrf, headers);
      var page := env.site(WatchLater);
      var w1 := Record(w, if refetch then [Fetch(WatchLater)] else []);
      var hs := if refetch then page.headers else headers.value;
      match Or(csn, Lookup(page.ytcfg, "EVENT_ID"))
      case Err(e) => Run(Failed(e), w1)
      case Ok(csn1) =>
        match Or(xsrf, Lookup(page.ytcfg, "XSRF_TOKEN"))
        case Err(e) => Run(Failed(e), w1)
        case Ok(token) =>
          var edit := EditPlaylist(playlistId, setVideoId, csn1, token, hs);
          var w2 := Record(w1, [edit]);
          match CheckStatus(env.reply(edit))
          case Err(e) => Run(Failed(e), w2)
          case Ok(_) => Run(Returned(()), w2)
  }

  /** When an argument is missing, the Watch Later page is downloaded first and
      its headers replace any headers given; a falsy csn or token is replaced by
      the page's `EVENT_ID` or `XSRF_TOKEN`. */
  lemma RemoveSetVideoIdRefetch(env: Env, w: World, playlistId: Json, setVideoId: Json, csn: Json, xsrf: Json,
                                headers: Option<map<string, Json>>)
    requires env.loggedIn && NeedsRefetch(csn, xsrf, headers)
    ensures var r := RemoveSetVideoId(env, w, playlistId, setVideoId, csn, xsrf, headers);
      |r.world.calls| > |w.calls| && r.world.calls[|w.calls|] == Fetch(WatchLater)
    ensures var page := env.site(WatchLater);
      var r := RemoveSetVideoId(env, w, playlistId, setVideoId, csn, xsrf, headers);
      (Truthy(csn) || Lookup(page.ytcfg, "EVENT_ID").Ok?) && (Truthy(xsrf) || Lookup(page.ytcfg, "XSRF_TOKEN").Ok?)
      ==> (
        var edit := EditPlaylist(playlistId, setVideoId,
                                 if Truthy(csn) then csn else Lookup(page.ytcfg, "EVENT_ID").value,
                                 if Truthy(xsrf) then xsrf else Lookup(page.ytcfg, "XSRF_TOKEN").value,
                                 page.headers);
        && r.world == Record(w, [Fetch(WatchLater), edit])
        && (r.out.Returned? <==> Accepted(env, edit)))
  {
  }

  // ---------------------------------------------------------------------------
  // clear_watch_history

  /** The history page's clear button: `['contents']['twoColumnBrowseResultsRenderer']
      ['secondaryContents']['browseFeedActionsRenderer']['contents'][2]['buttonRenderer']
      ['navigationEndpoint']['confirmDialogEndpoint']['content']['confirmDialogRenderer']
      ['confirmButton']['buttonRenderer']['serviceEndpoint']` */
  const ClearButtonPath: seq<Key> := [
    Name("contents"), Name("twoColumnBrowseResultsRenderer"), Name("secondaryContents"),
    Name("browseFeedActionsRenderer"), Name("contents"), Index(2), Name("buttonRenderer"),
    Name("navigationEndpoint"), Name("confirmDialogEndpoint"), Name("content"),
    Name("confirmDialogRenderer"), Name("confirmButton"), Name("buttonRenderer"), Name("serviceEndpoint")]

  /** The clearing post, built inside the `try`: the clear button's endpoint, then
      the page's `EVENT_ID` and `XSRF_TOKEN`. */
  function ClearHistoryRequest(page: Page): (r: Result<Call>)
    ensures r.Ok? ==> r.value.Feedback? && Walk(page.initData, ClearButtonPath) == Ok(r.value.sej)
    ensures r.Ok? <==> (
      && Walk(page.initData, ClearButtonPath).Ok?
      && Lookup(page.ytcfg, "EVENT_ID").Ok?
      && Lookup(page.ytcfg, "XSRF_TOKEN").Ok?)
  {
    var sej :- Walk(page.initData, ClearButtonPath);
    var csn :- Lookup(page.ytcfg, "EVENT_ID");
    var token :- Lookup(page.ytcfg, "XSRF_TOKEN");
    Ok(Feedback(sej, csn, token, page.headers))
  }

  /** Clear the watch history: download the history page and post its clear
      button's endpoint. A KeyError while building the post means the button is
      disabled and the history already empty: nothing is posted. */
  function ClearWatchHistory(env: Env, w: World): (r: Run<()>)
    ensures !env.loggedIn ==> r == Run(Failed(AuthenticationError), w)
    ensures r.out != Waiting && r.world.favorites == w.favorites
    ensures env.loggedIn ==> |r.world.calls| >= |w.calls| + 1 && r.world.calls[..|w.calls| + 1] == w.calls + [Fetch(History)]
    ensures env.loggedIn && ClearHistoryRequest(env.site(History)).Err? ==> (
      && r.world == Record(w, [Fetch(History)])
      && (r.out.Returned? <==> ClearHistoryRequest(env.site(History)).error.KeyError?))
    ensures env.loggedIn && ClearHistoryRequest(env.site(History)).Ok? ==> (
      && r.out.Returned?
      && r.world == Record(w, [Fetch(History), ClearHistoryRequest(env.site(History)).value]))
  {
    if !env.loggedIn then Run(Failed(AuthenticationError), w)
    else
      var w1 := Record(w, [Fetch(History)]);
      match ClearHistoryRequest(env.site(History))
      case Err(e) => if e.KeyError? then Run(Returned(()), w1) else Run(Failed(e), w1)
      case Ok(post) => Run(Returned(()), Record(w1, [post]))
  }

  /** Whatever the page holds, clearing posts at most once, and only the clear
      button's own endpoint. */
  lemma ClearWatchHistoryPosts(env: Env, w: World)
    ensures var r := ClearWatchHistory(env, w);
      && w.calls <= r.world.calls
      && var posts := Mutations(r.world.calls[|w.calls|..]);
      && |posts| <= 1
      && (posts != [] ==> posts[0].Feedback? && Walk(env.site(History).initData, ClearButtonPath) == Ok(posts[0].sej))
  {
    var r := ClearWatchHistory(env, w);
    if env.loggedIn {
      var req := ClearHistoryRequest(env.site(History));
      if req.Ok? {
        assert r.world.calls[|w.calls|..] == [Fetch(History), req.value];
        assert Mutations([Fetch(History), req.value]) == [req.value] by {
          assert [Fetch(History), req.value][1..] == [req.value];
          assert Mutations([req.value]) == [req.value] + Mutations([]) by {
            assert [req.value][1..] == [];
          }
        }
      } else {
        assert r.world.calls[|w.calls|..] == [Fetch(History)];
        assert [Fetch(History)][1..] == [];
      }
    } else {
      assert r.world.calls[|w.calls|..] == [];
    }
  }

  // ---------------------------------------------------------------------------
  // get_favorites_playlist_id

  /** The favourites playlist id: the cached one when it is truthy, otherwise
      looked up in the home page's guide and cached. */
  function GetFavoritesPlaylistId(env: Env, w: World): (r: Run<Json>)
    ensures !env.loggedIn ==> r == Run(Failed(AuthenticationError), w)
    ensures r.out != Waiting
    ensures r.out.Returned? ==> Truthy(r.out.value) && r.world.favorites == r.out.value
    ensures r.out.Failed? && env.loggedIn ==> r.world.favorites == w.favorites
    ensures r.world.calls == w.calls || r.world.calls == w.calls + [Fetch(Home)]
    ensures env.loggedIn && Truthy(w.favorites) ==> r == Run(Returned(w.favorites), w)
    ensures env.loggedIn && !Truthy(w.favorites) ==> (
      && r.world.calls == w.calls + [Fetch(Home)]
      && (r.out.Returned? <==> Guide.FavoritesFromGuide(env.site(Home).guideData).Ok?))
  {
    if !env.loggedIn then Run(Failed(AuthenticationError), w)
    else if Truthy(w.favorites) then Run(Returned(w.favorites), w)
    else
      var w1 := Record(w, [Fetch(Home)]);
      match Guide.FavoritesFromGuide(env.site(Home).guideData)
      case Err(e) => Run(Failed(e), w1)
      case Ok(id) => Run(Returned(id), World(w1.calls, id))
  }

  /** Once found, the id is served from the cache: asking again downloads nothing
      and gives the same id. */
  lemma FavoritesCached(env: Env, w: World)
    ensures var r := GetFavoritesPlaylistId(env, w);
      r.out.Returned? ==> GetFavoritesPlaylistId(env, r.world) == r
  {
  }

  /** On a guide the scan understands, a cache miss finds the first liked-videos
      link and caches its id, when that id is truthy. */
  lemma FavoritesFromLikes(env: Env, w: World, js: seq<Json>, items: seq<Guide.GuideItem>)
    requires env.loggedIn && !Truthy(w.favorites)
    requires Walk(env.site(Home).guideData, Guide.SectionItemsPath) == Ok(JArr(js))
    requires Guide.ShowsAll(js, items)
    requires Truthy(Guide.FirstLikes(Guide.Links(items)))
    ensures var id := Guide.FirstLikes(Guide.Links(items));
      GetFavoritesPlaylistId(env, w) == Run(Returned(id), World(w.calls + [Fetch(Home)], id))
  {
    Guide.FavoritesOfGuide(env.site(Home).guideData, js, items);
  }

  // ---------------------------------------------------------------------------
  // clear_playlist

  const SetVideoIdPath: seq<Key> := [Name("playlistVideoRenderer"), Name("setVideoId")]

  /** The `map` callback of `clear_playlist`: an entry's `setVideoId`. */
  function SetVideoIdOf(x: Json): (r: Result<Option<Json>>)
    ensures r.Ok? <==> Walk(x, SetVideoIdPath).Ok?
    ensures r.Ok? ==> r.value == Some(Walk(x, SetVideoIdPath).value)
  {
    var v :- Walk(x, SetVideoIdPath);
    Ok(Some(v))
  }

  function Edit(playlistId: Json, setVideoId: Json, csn: Json, xsrf: Json, headers: map<string, Json>): Call {
    EditPlaylist(playlistId, setVideoId, csn, xsrf, headers)
  }

  /** The edits that remove `ids` one after the other. */
  function Edits(playlistId: Json, ids: seq<Json>, csn: Json, xsrf: Json, headers: map<string, Json>): (cs: seq<Call>)
    ensures |cs| == |ids|
  {
    if ids == [] then [] else [Edit(playlistId, ids[0], csn, xsrf, headers)] + Edits(playlistId, ids[1..], csn, xsrf, headers)
  }

  /** One edit per id, in the order of the ids. */
  lemma {:induction false} EditsInOrder(playlistId: Json, ids: seq<Json>, csn: Json, xsrf: Json, headers: map<string, Json>)
    ensures var cs := Edits(playlistId, ids, csn, xsrf, headers);
      forall i | 0 <= i < |ids| :: cs[i] == Edit(playlistId, ids[i], csn, xsrf, headers)
    decreases |ids|
  {
    if ids != [] {
      EditsInOrder(playlistId, ids[1..], csn, xsrf, headers);
      var cs := Edits(playlistId, ids, csn, xsrf, headers);
      assert forall i | 1 <= i < |ids| :: cs[i] == Edits(playlistId, ids[1..], csn, xsrf, headers)[i - 1] && ids[i] == ids[1..][i - 1];
    }
  }

  /** The position of the first id whose edit is not accepted, or `|ids|`. */
  function FirstRejected(env: Env, playlistId: Json, ids: seq<Json>, csn: Json, xsrf: Json, headers: map<string, Json>): (k: nat)
    ensures k <= |ids|
  {
    if ids == [] then 0
    else if !Accepted(env, Edit(playlistId, ids[0], csn, xsrf, headers)) then 0
    else FirstRejected(env, playlistId, ids[1..], csn, xsrf, headers) + 1
  }

  /** Every edit before position `FirstRejected` is accepted, and the one there is not. */
  lemma {:induction false} FirstRejectedIsFirst(env: Env, playlistId: Json, ids: seq<Json>, csn: Json, xsrf: Json,
                                                headers: map<string, Json>)
    ensures var k := FirstRejected(env, playlistId, ids, csn, xsrf, headers);
      && (forall j | 0 <= j < k :: Accepted(env, Edit(playlistId, ids[j], csn, xsrf, headers)))
      && (k < |ids| ==> !Accepted(env, Edit(playlistId, ids[k], csn, xsrf, headers)))
    decreases |ids|
  {
    if ids != [] && Accepted(env, Edit(playlistId, ids[0], csn, xsrf, headers)) {
      FirstRejectedIsFirst(env, playlistId, ids[1..], csn, xsrf, headers);
      var k := FirstRejected(env, playlistId, ids, csn, xsrf, headers);
      assert forall j | 1 <= j < k :: ids[j] == ids[1..][j - 1];
    }
  }

  /** The `for` loop of `clear_playlist`: one removal per id, in order; the first
      removal that raises ends the loop. */
  function RemoveAll(env: Env, w: World, playlistId: Json, ids: seq<Json>, csn: Json, xsrf: Json,
                     headers: map<string, Json>): (r: Run<()>)
    ensures !env.loggedIn && ids != [] ==> r == Run(Failed(AuthenticationError), w)
    ensures r.out != Waiting && r.world.favorites == w.favorites
    ensures w.calls <= r.world.calls
    decreases |ids|
  {
    if ids == [] then Run(Returned(()), w)
    else
      var r := RemoveSetVideoId(env, w, playlistId, ids[0], csn, xsrf, Some(headers));
      if r.out.Returned? then RemoveAll(env, r.world, playlistId, ids[1..], csn, xsrf, headers) else r
  }

  /** Signed in, with the csn, token and headers a removal sends. */
  predicate Primed(env: Env, csn: Json, xsrf: Json, headers: map<string, Json>) {
    env.loggedIn && headers != map[] && Truthy(csn) && Truthy(xsrf)
  }

  /** Reference: the loop with csn, token and headers in hand. Each edit goes
      out as it stands, and the first one not answered `'SUCCESS'` ends the loop
      with the error its answer raises. */
  function SendEdits(env: Env, w: World, playlistId: Json, ids: seq<Json>, csn: Json, xsrf: Json,
                     headers: map<string, Json>): Run<()>
    decreases |ids|
  {
    if ids == [] then Run(Returned(()), w)
    else
      var edit := Edit(playlistId, ids[0], csn, xsrf, headers);
      var w1 := Record(w, [edit]);
      match CheckStatus(env.reply(edit))
      case Ok(_) => SendEdits(env, w1, playlistId, ids[1..], csn, xsrf, headers)
      case Err(e) => Run(Failed(e), w1)
  }

  /** With csn, token and headers in hand, no removal downloads anything first:
      the loop sends the edits as they stand. */
  lemma {:induction false} RemoveAllSends(env: Env, w: World, playlistId: Json, ids: seq<Json>, csn: Json, xsrf: Json,
                                          headers: map<string, Json>)
    requires Primed(env, csn, xsrf, headers)
    ensures RemoveAll(env, w, playlistId, ids, csn, xsrf, headers) == SendEdits(env, w, playlistId, ids, csn, xsrf, headers)
    decreases |ids|
  {
    if ids != [] {
      var r := RemoveSetVideoId(env, w, playlistId, ids[0], csn, xsrf, Some(headers));
      if r.out.Returned? {
        RemoveAllSends(env, r.world, playlistId, ids[1..], csn, xsrf, headers);
      }
    }
  }

  /** The ids the loop gets to: those before the first one refused, and that one. */
  function Attempted(env: Env, playlistId: Json, ids: seq<Json>, csn: Json, xsrf: Json,
                     headers: map<string, Json>): seq<Json>
    decreases |ids|
  {
    if ids == [] then []
    else if !Accepted(env, Edit(playlistId, ids[0], csn, xsrf, headers)) then [ids[0]]
    else [ids[0]] + Attempted(env, playlistId, ids[1..], csn, xsrf, headers)
  }

  /** The ids attempted are the prefix ending at the first refusal, or all of them. */
  lemma {:induction false} AttemptedPrefix(env: Env, playlistId: Json, ids: seq<Json>, csn: Json, xsrf: Json,
                                           headers: map<string, Json>)
    ensures var k := FirstRejected(env, playlistId, ids, csn, xsrf, headers);
      Attempted(env, playlistId, ids, csn, xsrf, headers) == ids[..if k < |ids| then k + 1 else k]
    decreases |ids|
  {
    if ids != [] {
      var k := FirstRejected(env, playlistId, ids, csn, xsrf, headers);
      var m := if k < |ids| then k + 1 else k;
      if Accepted(env, Edit(playlistId, ids[0], csn, xsrf, headers)) {
        AttemptedPrefix(env, playlistId, ids[1..], csn, xsrf, headers);
        assert ids[..m] == [ids[0]] + ids[1..][..m - 1];
      } else {
        assert ids[..m] == [ids[0]];
      }
    }
  }

  /** The sent edits are those of the ids attempted, in order. */
  lemma {:induction false} SendEditsCalls(env: Env, w: World, playlistId: Json, ids: seq<Json>, csn: Json, xsrf: Json,
                                          headers: map<string, Json>)
    ensures SendEdits(env, w, playlistId, ids, csn, xsrf, headers).world
         == Record(w, Edits(playlistId, Attempted(env, playlistId, ids, csn, xsrf, headers), csn, xsrf, headers))
    decreases |ids|
  {
    if ids != [] {
      var edit := Edit(playlistId, ids[0], csn, xsrf, headers);
      var a := Attempted(env, playlistId, ids, csn, xsrf, headers);
      assert a[0] == ids[0];
      if Accepted(env, edit) {
        var w1 := Record(w, [edit]);
        var rest := Attempted(env, playlistId, ids[1..], csn, xsrf, headers);
        SendEditsCalls(env, w1, playlistId, ids[1..], csn, xsrf, headers);
        assert a[1..] == rest;
        RecordTwice(w, [edit], Edits(playlistId, rest, csn, xsrf, headers));
      } else {
        assert a[1..] == [];
      }
    }
  }

  /** The loop returns exactly when no edit is refused. */
  lemma {:induction false} SendEditsReturns(env: Env, w: World, playlistId: Json, ids: seq<Json>, csn: Json, xsrf: Json,
                                            headers: map<string, Json>)
    ensures SendEdits(env, w, playlistId, ids, csn, xsrf, headers).out.Returned?
        <==> FirstRejected(env, playlistId, ids, csn, xsrf, headers) == |ids|
    decreases |ids|
  {
    if ids != [] {
      var edit := Edit(playlistId, ids[0], csn, xsrf, headers);
      if Accepted(env, edit) {
        SendEditsReturns(env, Record(w, [edit]), playlistId, ids[1..], csn, xsrf, headers);
      }
    }
  }

  /** With csn, token and headers in hand, the loop issues the edits of the ids up
      to and including the first one refused, and returns only when none is. */
  lemma RemoveAllTrace(env: Env, w: World, playlistId: Json, ids: seq<Json>, csn: Json, xsrf: Json,
                       headers: map<string, Json>)
    requires Primed(env, csn, xsrf, headers)
    ensures var k := FirstRejected(env, playlistId, ids, csn, xsrf, headers);
      var r := RemoveAll(env, w, playlistId, ids, csn, xsrf, headers);
      && r.world == Record(w, Edits(playlistId, ids[..if k < |ids| then k + 1 else k], csn, xsrf, headers))
      && (r.out.Returned? <==> k == |ids|)
  {
    RemoveAllSends(env, w, playlistId, ids, csn, xsrf, headers);
    SendEditsCalls(env, w, playlistId, ids, csn, xsrf, headers);
    AttemptedPrefix(env, playlistId, ids, csn, xsrf, headers);
    SendEditsReturns(env, w, playlistId, ids, csn, xsrf, headers);
  }

  /** Each call of `cs` preceded by a download of the Watch Later page. */
  function Refetched(cs: seq<Call>): (rs: seq<Call>)
    ensures |rs| == 2 * |cs|
  {
    if cs == [] then [] else [Fetch(WatchLater), cs[0]] + Refetched(cs[1..])
  }

  /** Position by position: a download, then the call it precedes. */
  lemma {:induction false} RefetchedAt(cs: seq<Call>, i: nat)
    requires i < |cs|
    ensures Refetched(cs)[2 * i] == Fetch(WatchLater) && Refetched(cs)[2 * i + 1] == cs[i]
    decreases i
  {
    if i > 0 {
      RefetchedAt(cs[1..], i - 1);
      assert Refetched(cs)[2 * i] == Refetched(cs[1..])[2 * (i - 1)];
      assert Refetched(cs)[2 * i + 1] == Refetched(cs[1..])[2 * (i - 1) + 1];
    }
  }

  /** The downloads change nothing: the account sees only the edits. */
  lemma {:induction false} MutationsRefetched(cs: seq<Call>)
    requires forall i | 0 <= i < |cs| :: cs[i].EditPlaylist?
    ensures Mutations(Refetched(cs)) == cs
    decreases |cs|
  {
    if cs != [] {
      var pair := [Fetch(WatchLater), cs[0]];
      MutationsRefetched(cs[1..]);
      MutationsAppend(pair, Refetched(cs[1..]));
      assert pair[1..][1..] == [];
    }
  }

  /** Signed in, some of csn, token and headers missing, and the Watch Later page
      supplying the csn and token that are. */
  predicate Refetching(env: Env, csn: Json, xsrf: Json, headers: map<string, Json>) {
    var page := env.site(WatchLater);
    && env.loggedIn && NeedsRefetch(csn, xsrf, Some(headers))
    && (Truthy(csn) || Lookup(page.ytcfg, "EVENT_ID").Ok?)
    && (Truthy(xsrf) || Lookup(page.ytcfg, "XSRF_TOKEN").Ok?)
  }

  /** `csn or ytcfg['EVENT_ID']` of the Watch Later page. */
  function CsnUsed(env: Env, csn: Json): Json
    requires Truthy(csn) || Lookup(env.site(WatchLater).ytcfg, "EVENT_ID").Ok?
  {
    Or(csn, Lookup(env.site(WatchLater).ytcfg, "EVENT_ID")).value
  }

  /** `xsrf_token or ytcfg['XSRF_TOKEN']` of the Watch Later page. */
  function TokenUsed(env: Env, xsrf: Json): Json
    requires Truthy(xsrf) || Lookup(env.site(WatchLater).ytcfg, "XSRF_TOKEN").Ok?
  {
    Or(xsrf, Lookup(env.site(WatchLater).ytcfg, "XSRF_TOKEN")).value
  }

  /** Reference: the loop when every removal downloads the Watch Later page first.
      Each edit carries the same csn, token and headers; the first one not answered
      `'SUCCESS'` ends the loop with the error its answer raises. */
  function RefetchEdits(env: Env, w: World, playlistId: Json, ids: seq<Json>, csn: Json, xsrf: Json,
                        headers: map<string, Json>): Run<()>
    decreases |ids|
  {
    if ids == [] then Run(Returned(()), w)
    else
      var edit := Edit(playlistId, ids[0], csn, xsrf, headers);
      var w1 := Record(w, [Fetch(WatchLater), edit]);
      match CheckStatus(env.reply(edit))
      case Ok(_) => RefetchEdits(env, w1, playlistId, ids[1..], csn, xsrf, headers)
      case Err(e) => Run(Failed(e), w1)
  }

  /** One removal on the refetching path: a download, then the edit, and the
      error its answer raises if it is refused. */
  lemma RefetchOne(env: Env, w: World, playlistId: Json, setVideoId: Json, csn: Json, xsrf: Json,
                   headers: map<string, Json>)
    requires Refetching(env, csn, xsrf, headers)
    ensures var edit := Edit(playlistId, setVideoId, CsnUsed(env, csn), TokenUsed(env, xsrf), env.site(WatchLater).headers);
      var r := RemoveSetVideoId(env, w, playlistId, setVideoId, csn, xsrf, Some(headers));
      && r.world == Record(w, [Fetch(WatchLater), edit])
      && r.out == match CheckStatus(env.reply(edit)) case Ok(_) => Returned(()) case Err(e) => Failed(e)
  {
    var edit := Edit(playlistId, setVideoId, CsnUsed(env, csn), TokenUsed(env, xsrf), env.site(WatchLater).headers);
    RecordTwice(w, [Fetch(WatchLater)], [edit]);
  }

  /** Without csn, token or headers, every removal downloads Watch Later again and
      sends that page's headers, with its `EVENT_ID` and `XSRF_TOKEN` in place of a
      falsy csn or token. */
  lemma {:induction false} RemoveAllRefetches(env: Env, w: World, playlistId: Json, ids: seq<Json>, csn: Json, xsrf: Json,
                                              headers: map<string, Json>)
    requires Refetching(env, csn, xsrf, headers)
    ensures RemoveAll(env, w, playlistId, ids, csn, xsrf, headers)
         == RefetchEdits(env, w, playlistId, ids, CsnUsed(env, csn), TokenUsed(env, xsrf), env.site(WatchLater).headers)
    decreases |ids|
  {
    if ids != [] {
      var csn1, xsrf1, hs := CsnUsed(env, csn), TokenUsed(env, xsrf), env.site(WatchLater).headers;
      var edit := Edit(playlistId, ids[0], csn1, xsrf1, hs);
      var r := RemoveSetVideoId(env, w, playlistId, ids[0], csn, xsrf, Some(headers));
      RefetchOne(env, w, playlistId, ids[0], csn, xsrf, headers);
      if r.out.Returned? {
        assert RemoveAll(env, w, playlistId, ids, csn, xsrf, headers) == RemoveAll(env, r.world, playlistId, ids[1..], csn, xsrf, headers);
        assert RefetchEdits(env, w, playlistId, ids, csn1, xsrf1, hs) == RefetchEdits(env, r.world, playlistId, ids[1..], csn1, xsrf1, hs);
        RemoveAllRefetches(env, r.world, playlistId, ids[1..], csn, xsrf, headers);
      } else {
        assert RemoveAll(env, w, playlistId, ids, csn, xsrf, headers) == r;
      }
    }
  }

  /** The refetching loop makes a download and an edit for each id it gets to, in order. */
  lemma {:induction false} RefetchEditsCalls(env: Env, w: World, playlistId: Json, ids: seq<Json>, csn: Json, xsrf: Json,
                                             headers: map<string, Json>)
    ensures RefetchEdits(env, w, playlistId, ids, csn, xsrf, headers).world
         == Record(w, Refetched(Edits(playlistId, Attempted(env, playlistId, ids, csn, xsrf, headers), csn, xsrf, headers)))
    decreases |ids|
  {
    if ids != [] {
      var edit := Edit(playlistId, ids[0], csn, xsrf, headers);
      var a := Attempted(env, playlistId, ids, csn, xsrf, headers);
      assert a[0] == ids[0];
      if Accepted(env, edit) {
        var rest := Attempted(env, playlistId, ids[1..], csn, xsrf, headers);
        RefetchEditsCalls(env, Record(w, [Fetch(WatchLater), edit]), playlistId, ids[1..], csn, xsrf, headers);
        assert a[1..] == rest;
        RecordTwice(w, [Fetch(WatchLater), edit], Refetched(Edits(playlistId, rest, csn, xsrf, headers)));
      } else {
        assert a[1..] == [];
      }
    }
  }

  /** The refetching loop returns exactly when no edit is refused. */
  lemma {:induction false} RefetchEditsReturns(env: Env, w: World, playlistId: Json, ids: seq<Json>, csn: Json, xsrf: Json,
                                               headers: map<string, Json>)
    ensures RefetchEdits(env, w, playlistId, ids, csn, xsrf, headers).out.Returned?
        <==> FirstRejected(env, playlistId, ids, csn, xsrf, headers) == |ids|
    decreases |ids|
  {
    if ids != [] {
      var edit := Edit(playlistId, ids[0], csn, xsrf, headers);
      if Accepted(env, edit) {
        RefetchEditsReturns(env, Record(w, [Fetch(WatchLater), edit]), playlistId, ids[1..], csn, xsrf, headers);
      }
    }
  }

  /** Without csn, token or headers, the loop downloads Watch Later before each edit
      and issues the edits, with the page's headers, of the ids up to and including
      the first refused one, and returns only when none is refused. */
  lemma RemoveAllRefetchTrace(env: Env, w: World, playlistId: Json, ids: seq<Json>, csn: Json, xsrf: Json,
                              headers: map<string, Json>)
    requires Refetching(env, csn, xsrf, headers)
    ensures var csn1, xsrf1, hs := CsnUsed(env, csn), TokenUsed(env, xsrf), env.site(WatchLater).headers;
      var k := FirstRejected(env, playlistId, ids, csn1, xsrf1, hs);
      var edits := Edits(playlistId, ids[..if k < |ids| then k + 1 else k], csn1, xsrf1, hs);
      var r := RemoveAll(env, w, playlistId, ids, csn, xsrf, headers);
      && r.world == Record(w, Refetched(edits))
      && (r.out.Returned? <==> k == |ids|)
  {
    var csn1, xsrf1, hs := CsnUsed(env, csn), TokenUsed(env, xsrf), env.site(WatchLater).headers;
    RemoveAllRefetches(env, w, playlistId, ids, csn, xsrf, headers);
    RefetchEditsCalls(env, w, playlistId, ids, csn1, xsrf1, hs);
    AttemptedPrefix(env, playlistId, ids, csn1, xsrf1, hs);
    RefetchEditsReturns(env, w, playlistId, ids, csn1, xsrf1, hs);
  }

  /** The calls of `RemoveAllRefetchTrace`, for a run `r` of the loop after calls `pre`
      already made. */
  lemma RemoveAllRefetchAfter(env: Env, w: World, pre: seq<Call>, playlistId: Json, ids: seq<Json>, csn: Json, xsrf: Json,
                              headers: map<string, Json>, r: Run<()>)
    requires Refetching(env, csn, xsrf, headers)
    requires r == RemoveAll(env, Record(w, pre), playlistId, ids, csn, xsrf, headers)
    ensures var csn1, xsrf1, hs := CsnUsed(env, csn), TokenUsed(env, xsrf), env.site(WatchLater).headers;
      var k := FirstRejected(env, playlistId, ids, csn1, xsrf1, hs);
      var edits := Edits(playlistId, ids[..if k < |ids| then k + 1 else k], csn1, xsrf1, hs);
      r.world == Record(w, pre + Refetched(edits))
  {
    var csn1, xsrf1, hs := CsnUsed(env, csn), TokenUsed(env, xsrf), env.site(WatchLater).headers;
    var k := FirstRejected(env, playlistId, ids, csn1, xsrf1, hs);
    var trace := Refetched(Edits(playlistId, ids[..if k < |ids| then k + 1 else k], csn1, xsrf1, hs));
    RemoveAllRefetchTrace(env, Record(w, pre), playlistId, ids, csn, xsrf, headers);
    assert r.world == Record(Record(w, pre), trace);
    RecordTwice(w, pre, trace);
  }

  /** Of the refetching loop's calls, the account sees only the edits. */
  lemma RefetchedEditsMutate(playlistId: Json, ids: seq<Json>, csn: Json, xsrf: Json, headers: map<string, Json>)
    ensures var edits := Edits(playlistId, ids, csn, xsrf, headers);
      Mutations(Refetched(edits)) == edits
  {
    EditsInOrder(playlistId, ids, csn, xsrf, headers);
    MutationsRefetched(Edits(playlistId, ids, csn, xsrf, headers));
  }

  /** Without csn, token or headers, and a Watch Later page that lacks the csn or
      token missing, the first removal raises after its download and nothing is removed. */
  lemma RemoveAllRefetchFails(env: Env, w: World, playlistId: Json, ids: seq<Json>, csn: Json, xsrf: Json,
                              headers: map<string, Json>)
    requires env.loggedIn && NeedsRefetch(csn, xsrf, Some(headers)) && ids != []
    requires var page := env.site(WatchLater);
      || (!Truthy(csn) && Lookup(page.ytcfg, "EVENT_ID").Err?)
      || (!Truthy(xsrf) && Lookup(page.ytcfg, "XSRF_TOKEN").Err?)
    ensures var r := RemoveAll(env, w, playlistId, ids, csn, xsrf, headers);
      r.out.Failed? && r.world == Record(w, [Fetch(WatchLater)])
  {
  }

  /** Remove every entry of a playlist. Its `setVideoId`s are all collected,
      through the playlist generator, before the first removal; a KeyError while
      collecting them (an entry without one, or a page the generator cannot
      read) ends the call quietly. */
  function ClearPlaylist(env: Env, w: World, playlistId: Json): (r: Run<()>)
    ensures !env.loggedIn ==> r == Run(Failed(AuthenticationError), w)
    ensures r.world.favorites == w.favorites
    ensures env.loggedIn ==> |r.world.calls| >= |w.calls| + 1 && r.world.calls[..|w.calls| + 1] == w.calls + [Fetch(PlaylistPage(playlistId))]
  {
    if !env.loggedIn then Run(Failed(AuthenticationError), w)
    else
      var page := env.site(PlaylistPage(playlistId));
      var w1 := Record(w, [Fetch(PlaylistPage(playlistId))]);
      match Lookup(page.ytcfg, "EVENT_ID")
      case Err(e) => Run(Failed(e), w1)
      case Ok(csn) =>
        match Lookup(page.ytcfg, "XSRF_TOKEN")
        case Err(e) => Run(Failed(e), w1)
        case Ok(xsrf) =>
          var c := Consume(env, w1, PlaylistInfoOf(playlistId), SetVideoIdOf);
          match c.drained.status
          case Raised(e) => if e.KeyError? then Run(Returned(()), c.world) else Run(Failed(e), c.world)
          case Awaiting => Run(Waiting, c.world)
          case Finished => RemoveAll(env, c.world, playlistId, c.drained.kept, csn, xsrf, page.headers)
  }

  /** Nothing is removed unless every entry has a `setVideoId`: the ids are all
      collected before the first edit, and a missing one raises first. */
  lemma ClearPlaylistNeedsAllIds(env: Env, w: World, playlistId: Json, k: nat)
    requires env.loggedIn
    requires var items := Items(GeneratorRun(env, PlaylistInfoOf(playlistId)));
      k < |items| && SetVideoIdOf(items[k]).Err?
    ensures var r := ClearPlaylist(env, w, playlistId);
      && w.calls <= r.world.calls
      && Mutations(r.world.calls[|w.calls|..]) == []
      && r.out != Waiting
  {
    var page := env.site(PlaylistPage(playlistId));
    if Lookup(page.ytcfg, "EVENT_ID").Ok? && Lookup(page.ytcfg, "XSRF_TOKEN").Ok? {
      DrainRaisesAnywhere(GeneratorRun(env, PlaylistInfoOf(playlistId)), SetVideoIdOf, k);
      ConsumeReadsOnly(env, w, PlaylistPage(playlistId), PlaylistInfoOf(playlistId), SetVideoIdOf);
      var c := Consume(env, Record(w, [Fetch(PlaylistPage(playlistId))]), PlaylistInfoOf(playlistId), SetVideoIdOf);
      var e := c.drained.status.error;
      assert ClearPlaylist(env, w, playlistId)
          == if e.KeyError? then Run(Returned(()), c.world) else Run(Failed(e), c.world);
    } else {
      var fetch := [Fetch(PlaylistPage(playlistId))];
      ReadsOnly(fetch);
      assert Record(w, fetch).calls[|w.calls|..] == fetch;
    }
  }

  /** The `setVideoId`s `clear_playlist` collects from a generator on which
      none is missing: one per entry, in order. */
  lemma CollectedIds(run: PagerRun)
    requires forall i | 0 <= i < |Items(run)| :: SetVideoIdOf(Items(run)[i]).Ok?
    ensures var ids := KeepAll(Items(run), SetVideoIdOf);
      && |ids| == |Items(run)|
      && (forall i | 0 <= i < |ids| :: Walk(Items(run)[i], SetVideoIdPath) == Ok(ids[i]))
      && Drain(run, SetVideoIdOf) == Drained(ids, Requests(run), run.status)
  {
    assert Items(run) == Flatten(run.batches);
    KeepAllMap(Items(run), SetVideoIdOf);
    DrainAll(run.batches, run.status, SetVideoIdOf);
  }

  /** The calls `clear_playlist` makes before its first removal, when the
      generator reads every page. */
  function CollectCalls(env: Env, playlistId: Json): seq<Call> {
    [Fetch(PlaylistPage(playlistId)), Fetch(PlaylistPage(playlistId))]
      + BrowseCalls(Requests(GeneratorRun(env, PlaylistInfoOf(playlistId))))
  }

  /** The playlist page carries the csn and the XSRF token `clear_playlist` reads. */
  predicate PageTokens(env: Env, playlistId: Json, csn: Json, xsrf: Json) {
    var page := env.site(PlaylistPage(playlistId));
    Lookup(page.ytcfg, "EVENT_ID") == Ok(csn) && Lookup(page.ytcfg, "XSRF_TOKEN") == Ok(xsrf)
  }

  /** The playlist generator reads every page, and every entry has a `setVideoId`. */
  predicate AllIdsRead(env: Env, playlistId: Json) {
    var run := GeneratorRun(env, PlaylistInfoOf(playlistId));
    && run.status == Finished
    && forall i | 0 <= i < |Items(run)| :: SetVideoIdOf(Items(run)[i]).Ok?
  }

  /** The `setVideoId`s of a playlist all of whose entries have one, in order. */
  function PlaylistIds(env: Env, playlistId: Json): seq<Json>
    requires AllIdsRead(env, playlistId)
  {
    KeepAll(Items(GeneratorRun(env, PlaylistInfoOf(playlistId))), SetVideoIdOf)
  }

  /** A finished generator with every id present hands all the ids to the loop. */
  lemma ClearPlaylistCollected(env: Env, w: World, playlistId: Json, csn: Json, xsrf: Json)
    requires env.loggedIn
    requires PageTokens(env, playlistId, csn, xsrf)
    requires AllIdsRead(env, playlistId)
    ensures ClearPlaylist(env, w, playlistId)
         == RemoveAll(env, Record(w, CollectCalls(env, playlistId)), playlistId, PlaylistIds(env, playlistId),
                      csn, xsrf, env.site(PlaylistPage(playlistId)).headers)
  {
    var run := GeneratorRun(env, PlaylistInfoOf(playlistId));
    ConsumeAllIds(env, Record(w, [Fetch(PlaylistPage(playlistId))]), playlistId);
    CollectedWorld(env, w, playlistId);
    ClearPlaylistFinished(env, w, playlistId, csn, xsrf, Drained(PlaylistIds(env, playlistId), Requests(run), Finished),
                          Record(w, CollectCalls(env, playlistId)));
  }

  /** The page download and the generator's calls, recorded one after the other. */
  lemma CollectedWorld(env: Env, w: World, playlistId: Json)
    requires env.loggedIn
    ensures var fetch := [Fetch(PlaylistPage(playlistId))];
      var g := PlaylistInfoOf(playlistId);
      Record(Record(w, fetch), StartCalls(env, g, Requests(GeneratorRun(env, g)))) == Record(w, CollectCalls(env, playlistId))
  {
    FetchTwiceThenBrowse(w, PlaylistPage(playlistId), Requests(GeneratorRun(env, PlaylistInfoOf(playlistId))));
  }

  lemma FetchTwiceThenBrowse(w: World, url: Url, reqs: seq<BrowseRequest>)
    ensures Record(Record(w, [Fetch(url)]), [Fetch(url)] + BrowseCalls(reqs))
         == Record(w, [Fetch(url), Fetch(url)] + BrowseCalls(reqs))
  {
    RecordTwice(w, [Fetch(url)], [Fetch(url)] + BrowseCalls(reqs));
    assert [Fetch(url)] + ([Fetch(url)] + BrowseCalls(reqs)) == [Fetch(url), Fetch(url)] + BrowseCalls(reqs);
  }

  /** Once the generator has run to its end, having drained `d` and left the world
      `after`, `clear_playlist` is the removal loop over the ids drained. */
  lemma ClearPlaylistFinished(env: Env, w: World, playlistId: Json, csn: Json, xsrf: Json, d: Drained, after: World)
    requires env.loggedIn && PageTokens(env, playlistId, csn, xsrf) && d.status == Finished
    requires Consume(env, Record(w, [Fetch(PlaylistPage(playlistId))]), PlaylistInfoOf(playlistId), SetVideoIdOf)
          == Consumed(d, after)
    ensures ClearPlaylist(env, w, playlistId)
         == RemoveAll(env, after, playlistId, d.kept, csn, xsrf, env.site(PlaylistPage(playlistId)).headers)
  {
  }

  /** Reading a finished playlist with every id present drains all the ids and
      records the page download and every browse request. */
  lemma ConsumeAllIds(env: Env, w: World, playlistId: Json)
    requires env.loggedIn
    requires AllIdsRead(env, playlistId)
    ensures var run := GeneratorRun(env, PlaylistInfoOf(playlistId));
      Consume(env, w, PlaylistInfoOf(playlistId), SetVideoIdOf)
        == Consumed(Drained(PlaylistIds(env, playlistId), Requests(run), Finished),
                    Record(w, StartCalls(env, PlaylistInfoOf(playlistId), Requests(run))))
  {
    CollectedIds(GeneratorRun(env, PlaylistInfoOf(playlistId)));
  }

  /** The removal loop run after calls `pre` leaves `pre` followed by its edits. */
  lemma RemoveAllAfter(env: Env, w: World, pre: seq<Call>, playlistId: Json, ids: seq<Json>, csn: Json, xsrf: Json,
                       headers: map<string, Json>)
    requires Primed(env, csn, xsrf, headers)
    ensures var k := FirstRejected(env, playlistId, ids, csn, xsrf, headers);
      var r := RemoveAll(env, Record(w, pre), playlistId, ids, csn, xsrf, headers);
      && r.world == Record(w, pre + Edits(playlistId, ids[..if k < |ids| then k + 1 else k], csn, xsrf, headers))
      && (r.out.Returned? <==> k == |ids|)
  {
    RemoveAllTrace(env, Record(w, pre), playlistId, ids, csn, xsrf, headers);
    var k := FirstRejected(env, playlistId, ids, csn, xsrf, headers);
    RecordTwice(w, pre, Edits(playlistId, ids[..if k < |ids| then k + 1 else k], csn, xsrf, headers));
  }

  /** When the page supplies csn, token and headers and the generator reads every
      page, `clear_playlist` downloads the playlist page twice (once itself, once
      in the generator), issues the generator's browse requests, then removes the
      entries in playlist order until one removal is refused. */
  lemma ClearPlaylistRemovesEach(env: Env, w: World, playlistId: Json, csn: Json, xsrf: Json)
    requires PageTokens(env, playlistId, csn, xsrf)
    requires Primed(env, csn, xsrf, env.site(PlaylistPage(playlistId)).headers)
    requires AllIdsRead(env, playlistId)
    ensures var ids := PlaylistIds(env, playlistId);
      var headers := env.site(PlaylistPage(playlistId)).headers;
      var k := FirstRejected(env, playlistId, ids, csn, xsrf, headers);
      var r := ClearPlaylist(env, w, playlistId);
      && r.world == Record(w, CollectCalls(env, playlistId)
                              + Edits(playlistId, ids[..if k < |ids| then k + 1 else k], csn, xsrf, headers))
      && (r.out.Returned? <==> k == |ids|)
  {
    ClearPlaylistCollected(env, w, playlistId, csn, xsrf);
    RemoveAllAfter(env, w, CollectCalls(env, playlistId), playlistId, PlaylistIds(env, playlistId), csn, xsrf,
                   env.site(PlaylistPage(playlistId)).headers);
  }

  /** When the playlist page's headers are empty or its csn or token falsy, every
      removal `clear_playlist` makes downloads the Watch Later page first and uses
      that page's headers (and its csn and token in place of falsy ones). */
  lemma ClearPlaylistRefetchesEach(env: Env, w: World, playlistId: Json, csn: Json, xsrf: Json)
    requires PageTokens(env, playlistId, csn, xsrf)
    requires Refetching(env, csn, xsrf, env.site(PlaylistPage(playlistId)).headers)
    requires AllIdsRead(env, playlistId)
    ensures var ids := PlaylistIds(env, playlistId);
      var csn1, xsrf1, hs := CsnUsed(env, csn), TokenUsed(env, xsrf), env.site(WatchLater).headers;
      var k := FirstRejected(env, playlistId, ids, csn1, xsrf1, hs);
      var r := ClearPlaylist(env, w, playlistId);
      r.world == Record(w, CollectCalls(env, playlistId)
                        + Refetched(Edits(playlistId, ids[..if k < |ids| then k + 1 else k], csn1, xsrf1, hs)))
  {
    ClearPlaylistCollected(env, w, playlistId, csn, xsrf);
    RemoveAllRefetchAfter(env, w, CollectCalls(env, playlistId), playlistId, PlaylistIds(env, playlistId), csn, xsrf,
                          env.site(PlaylistPage(playlistId)).headers, ClearPlaylist(env, w, playlistId));
  }

  /** On that path, `clear_playlist` returns exactly when no removal is refused. */
  lemma ClearPlaylistRefetchReturns(env: Env, w: World, playlistId: Json, csn: Json, xsrf: Json)
    requires PageTokens(env, playlistId, csn, xsrf)
    requires Refetching(env, csn, xsrf, env.site(PlaylistPage(playlistId)).headers)
    requires AllIdsRead(env, playlistId)
    ensures var ids := PlaylistIds(env, playlistId);
      var k := FirstRejected(env, playlistId, ids, CsnUsed(env, csn), TokenUsed(env, xsrf), env.site(WatchLater).headers);
      ClearPlaylist(env, w, playlistId).out.Returned? <==> k == |ids|
  {
    ClearPlaylistCollected(env, w, playlistId, csn, xsrf);
    RemoveAllRefetchTrace(env, Record(w, CollectCalls(env, playlistId)), playlistId, PlaylistIds(env, playlistId), csn, xsrf,
                          env.site(PlaylistPage(playlistId)).headers);
  }

  /** Before its first removal, `clear_playlist` only reads. */
  lemma CollectCallsRead(env: Env, playlistId: Json)
    ensures Mutations(CollectCalls(env, playlistId)) == []
  {
    TwoFetchesThenBrowse(PlaylistPage(playlistId), Requests(GeneratorRun(env, PlaylistInfoOf(playlistId))));
  }

  lemma TwoFetchesThenBrowse(url: Url, reqs: seq<BrowseRequest>)
    ensures Mutations([Fetch(url), Fetch(url)] + BrowseCalls(reqs)) == []
  {
    BrowseCallsRead(reqs);
    ReadsOnly([Fetch(url), Fetch(url)]);
    MutationsAppend([Fetch(url), Fetch(url)], BrowseCalls(reqs));
  }

  /** A playlist with no entries: `clear_playlist` only reads its pages and
      returns, removing nothing. */
  lemma ClearPlaylistEmpty(env: Env, w: World, playlistId: Json, csn: Json, xsrf: Json)
    requires env.loggedIn && PageTokens(env, playlistId, csn, xsrf)
    requires var run := GeneratorRun(env, PlaylistInfoOf(playlistId));
      run.status == Finished && Items(run) == []
    ensures ClearPlaylist(env, w, playlistId) == Run(Returned(()), Record(w, CollectCalls(env, playlistId)))
    ensures Mutations(CollectCalls(env, playlistId)) == []
  {
    assert AllIdsRead(env, playlistId);
    assert PlaylistIds(env, playlistId) == [];
    ClearPlaylistCollected(env, w, playlistId, csn, xsrf);
    CollectCallsRead(env, playlistId);
  }

  /** `clear_watch_later()` is `clear_playlist('WL')`. */
  function ClearWatchLater(env: Env, w: World): (r: Run<()>)
    ensures !env.loggedIn ==> r == Run(Failed(AuthenticationError), w)
    ensures env.loggedIn ==> |r.world.calls| > |w.calls| && r.world.calls[|w.calls|] == Fetch(PlaylistPage(JStr("WL")))
  {
    ClearPlaylist(env, w, JStr("WL"))
  }

  /** Clear the favourites playlist: find its id, then clear it. */
  function ClearFavorites(env: Env, w: World): (r: Run<()>)
    ensures !env.loggedIn ==> r == Run(Failed(AuthenticationError), w)
    ensures var fav := GetFavoritesPlaylistId(env, w);
      fav.out.Returned? ==> r == ClearPlaylist(env, fav.world, fav.out.value)
    ensures var fav := GetFavoritesPlaylistId(env, w);
      fav.out.Failed? ==> r == Run(Failed(fav.out.error), fav.world)
  {
    if !env.loggedIn then Run(Failed(AuthenticationError), w)
    else
      var fav := GetFavoritesPlaylistId(env, w);
      if fav.out.Returned? then ClearPlaylist(env, fav.world, fav.out.value)
      else Run(Failed(fav.out.error), fav.world)
  }

  // ---------------------------------------------------------------------------
  // remove_video_id_from_favorites

  /** `['playlistVideoRenderer']['navigationEndpoint']['watchEndpoint']['videoId']` */
  const VideoIdPath: seq<Key> := [
    Name("playlistVideoRenderer"), Name("navigationEndpoint"), Name("watchEndpoint"), Name("videoId")]

  /** The `filter` predicate of `remove_video_id_from_favorites`: keep the entries
      whose video id is `videoId`. */
  function FavoriteMatch(videoId: Json, x: Json): (r: Result<Option<Json>>)
    ensures r.Ok? <==> Walk(x, VideoIdPath).Ok?
    ensures r.Ok? ==> (r.value.Some? <==> Walk(x, VideoIdPath).value == videoId)
    ensures r.Ok? && r.value.Some? ==> r.value.value == x
  {
    var v :- Walk(x, VideoIdPath);
    Ok(if v == videoId then Some(x) else None)
  }

  function FavoriteMatchOf(videoId: Json): Visit {
    x => FavoriteMatch(videoId, x)
  }

  /** The removal once the matching entry is known: its `setVideoId`, then the
      page's `EVENT_ID` and `XSRF_TOKEN`, all passed on. */
  function RemoveEntry(env: Env, w: World, playlistId: Json, page: Page, entry: Json): (r: Run<()>)
    ensures !env.loggedIn ==> r.out.Failed?
    ensures r.out != Waiting && r.world.favorites == w.favorites && w.calls <= r.world.calls
  {
    match Walk(entry, SetVideoIdPath)
    case Err(e) => Run(Failed(e), w)
    case Ok(setVideoId) =>
      match Lookup(page.ytcfg, "EVENT_ID")
      case Err(e) => Run(Failed(e), w)
      case Ok(csn) =>
        match Lookup(page.ytcfg, "XSRF_TOKEN")
        case Err(e) => Run(Failed(e), w)
        case Ok(xsrf) => RemoveSetVideoId(env, w, playlistId, setVideoId, csn, xsrf, Some(page.headers))
  }

  /** `remove_video_id_from_favorites` once the favourites id is known: download
      the playlist page, filter the whole playlist for the video, and remove the
      first match. No match, or an IndexError while filtering, returns quietly. */
  function RemoveFromFavoritesPlaylist(env: Env, w: World, playlistId: Json, videoId: Json): (r: Run<()>)
    ensures r.world.favorites == w.favorites && w.calls <= r.world.calls
  {
    var page := env.site(PlaylistPage(playlistId));
    var w1 := Record(w, [Fetch(PlaylistPage(playlistId))]);
    var c := Consume(env, w1, PlaylistInfoOf(playlistId), FavoriteMatchOf(videoId));
    match c.drained.status
    case Raised(e) => if e == IndexError then Run(Returned(()), c.world) else Run(Failed(e), c.world)
    case Awaiting => Run(Waiting, c.world)
    case Finished =>
      if c.drained.kept == [] then Run(Returned(()), c.world)
      else RemoveEntry(env, c.world, playlistId, page, c.drained.kept[0])
  }

  /** Remove a video from the favourites playlist by its video id. The method has
      no login check of its own: the favourites lookup makes it. */
  function RemoveVideoIdFromFavorites(env: Env, w: World, videoId: Json): (r: Run<()>)
    ensures !env.loggedIn ==> r == Run(Failed(AuthenticationError), w)
    ensures w.calls <= r.world.calls
    ensures var fav := GetFavoritesPlaylistId(env, w);
      && (fav.out.Failed? ==> r == Run(Failed(fav.out.error), fav.world))
      && (fav.out.Returned? ==> r == RemoveFromFavoritesPlaylist(env, fav.world, fav.out.value, videoId))
  {
    var fav := GetFavoritesPlaylistId(env, w);
    if fav.out.Returned? then RemoveFromFavoritesPlaylist(env, fav.world, fav.out.value, videoId)
    else Run(Failed(fav.out.error), fav.world)
  }

  /** Calls that only read change nothing on the account. */
  lemma {:induction false} ReadsOnly(cs: seq<Call>)
    requires forall i | 0 <= i < |cs| :: !Mutates(cs[i])
    ensures Mutations(cs) == []
    decreases |cs|
  {
    if cs != [] {
      ReadsOnly(cs[1..]);
    }
  }

  /** A page download followed by a generator's requests changes nothing. */
  lemma ConsumeReadsOnly(env: Env, w: World, url: Url, g: Generator, f: Visit)
    ensures var c := Consume(env, Record(w, [Fetch(url)]), g, f);
      && w.calls <= c.world.calls
      && Mutations(c.world.calls[|w.calls|..]) == []
  {
    var fetch := [Fetch(url)];
    var started := StartCalls(env, g, Drain(GeneratorRun(env, g), f).requests);
    RecordTwice(w, fetch, started);
    StartCallsRead(env, g, Drain(GeneratorRun(env, g), f).requests);
    ReadsOnly(fetch);
    MutationsAppend(fetch, started);
    assert Record(w, fetch + started).calls[|w.calls|..] == fetch + started;
  }

  /** After such reads, one more call `c` is the only change, if it is one. */
  lemma ConsumeThenCall(env: Env, w: World, url: Url, g: Generator, f: Visit, call: Call)
    ensures var c := Consume(env, Record(w, [Fetch(url)]), g, f);
      && w.calls <= Record(c.world, [call]).calls
      && Mutations(Record(c.world, [call]).calls[|w.calls|..]) == Mutations([call])
  {
    var c := Consume(env, Record(w, [Fetch(url)]), g, f);
    ConsumeReadsOnly(env, w, url, g, f);
    var before := c.world.calls[|w.calls|..];
    assert Record(c.world, [call]).calls[|w.calls|..] == before + [call];
    MutationsAppend(before, [call]);
  }

  /** A video that is not in the playlist is not removed: when every entry has a
      video id and none is `videoId`, the call returns without any edit. */
  lemma FavoritesNoMatch(env: Env, w: World, playlistId: Json, videoId: Json)
    requires env.loggedIn
    requires var run := GeneratorRun(env, PlaylistInfoOf(playlistId));
      && run.status == Finished
      && forall i | 0 <= i < |Items(run)| :: FavoriteMatch(videoId, Items(run)[i]) == Ok(None)
    ensures var r := RemoveFromFavoritesPlaylist(env, w, playlistId, videoId);
      && r.out == Returned(())
      && Mutations(r.world.calls[|w.calls|..]) == []
  {
    DrainNone(GeneratorRun(env, PlaylistInfoOf(playlistId)), FavoriteMatchOf(videoId));
    ConsumeReadsOnly(env, w, PlaylistPage(playlistId), PlaylistInfoOf(playlistId), FavoriteMatchOf(videoId));
  }

  /** The first entry with the video is the one removed, by its `setVideoId`,
      with the playlist page's csn, token and headers; it is the only edit. */
  lemma FavoritesFirstMatch(env: Env, w: World, playlistId: Json, videoId: Json, k: nat, setVideoId: Json)
    requires env.loggedIn
    requires var page := env.site(PlaylistPage(playlistId));
      && Lookup(page.ytcfg, "EVENT_ID").Ok? && Truthy(Lookup(page.ytcfg, "EVENT_ID").value)
      && Lookup(page.ytcfg, "XSRF_TOKEN").Ok? && Truthy(Lookup(page.ytcfg, "XSRF_TOKEN").value)
      && page.headers != map[]
    requires var items := Items(GeneratorRun(env, PlaylistInfoOf(playlistId)));
      && GeneratorRun(env, PlaylistInfoOf(playlistId)).status == Finished
      && (forall i | 0 <= i < |items| :: FavoriteMatch(videoId, items[i]).Ok?)
      && k < |items| && FavoriteMatch(videoId, items[k]) == Ok(Some(items[k]))
      && (forall i | 0 <= i < k :: FavoriteMatch(videoId, items[i]) == Ok(None))
      && Walk(items[k], SetVideoIdPath) == Ok(setVideoId)
    ensures var page := env.site(PlaylistPage(playlistId));
      var edit := Edit(playlistId, setVideoId, Lookup(page.ytcfg, "EVENT_ID").value,
                       Lookup(page.ytcfg, "XSRF_TOKEN").value, page.headers);
      var r := RemoveFromFavoritesPlaylist(env, w, playlistId, videoId);
      && Mutations(r.world.calls[|w.calls|..]) == [edit]
      && (r.out.Returned? <==> Accepted(env, edit))
  {
    var page := env.site(PlaylistPage(playlistId));
    var run := GeneratorRun(env, PlaylistInfoOf(playlistId));
    var f := FavoriteMatchOf(videoId);
    assert forall i | 0 <= i < |Items(run)| :: f(Items(run)[i]) == FavoriteMatch(videoId, Items(run)[i]);
    DrainFirst(run, f, k);
    var c := Consume(env, Record(w, [Fetch(PlaylistPage(playlistId))]), PlaylistInfoOf(playlistId), f);
    assert c.drained.kept[0] == Items(run)[k];
    var edit := Edit(playlistId, setVideoId, Lookup(page.ytcfg, "EVENT_ID").value,
                     Lookup(page.ytcfg, "XSRF_TOKEN").value, page.headers);
    var r := RemoveFromFavoritesPlaylist(env, w, playlistId, videoId);
    assert r == RemoveSetVideoId(env, c.world, playlistId, setVideoId, Lookup(page.ytcfg, "EVENT_ID").value,
                                 Lookup(page.ytcfg, "XSRF_TOKEN").value, Some(page.headers));
    ConsumeThenCall(env, w, PlaylistPage(playlistId), PlaylistInfoOf(playlistId), f, edit);
    assert Mutations([edit]) == [edit] by {
      assert [edit][1..] == [];
    }
  }

  /** `list(filter(...))` reads the whole playlist first: an entry without a video
      id, even after the match, raises before anything is removed. */
  lemma FavoritesEntryError(env: Env, w: World, playlistId: Json, videoId: Json, k: nat)
    requires env.loggedIn
    requires var items := Items(GeneratorRun(env, PlaylistInfoOf(playlistId)));
      k < |items| && FavoriteMatch(videoId, items[k]).Err?
    ensures var r := RemoveFromFavoritesPlaylist(env, w, playlistId, videoId);
      && Mutations(r.world.calls[|w.calls|..]) == []
      && r.out != Waiting
  {
    var run := GeneratorRun(env, PlaylistInfoOf(playlistId));
    var f := FavoriteMatchOf(videoId);
    assert f(Items(run)[k]) == FavoriteMatch(videoId, Items(run)[k]);
    DrainRaisesAnywhere(run, f, k);
    ConsumeReadsOnly(env, w, PlaylistPage(playlistId), PlaylistInfoOf(playlistId), f);
  }

  // ---------------------------------------------------------------------------
  // remove_video_id_from_history

  /** The `filter` predicate of `remove_video_id_from_history`: keep the video
      entries whose id is `videoId`; other entries are passed over. */
  function HistoryMatch(videoId: Json, x: Json): (r: Result<Option<Json>>)
    ensures x.JObj? && "videoRenderer" !in x.fields ==> r == Ok(None)
    ensures x.JObj? && "videoRenderer" in x.fields ==> (
      && (r.Ok? <==> Subscript(x.fields["videoRenderer"], Name("videoId")).Ok?)
      && (r.Ok? ==> (r.value.Some? <==> Subscript(x.fields["videoRenderer"], Name("videoId")).value == videoId)))
    ensures r.Ok? && r.value.Some? ==> r.value.value == x
  {
    var isVideo :- Contains(x, "videoRenderer");
    if !isVideo then Ok(None)
    else
      var v :- Walk(x, [Name("videoRenderer"), Name("videoId")]);
      Ok(if v == videoId then Some(x) else None)
  }

  function HistoryMatchOf(videoId: Json): Visit {
    x => HistoryMatch(videoId, x)
  }

  /** `entry['videoRenderer']['menu']['menuRenderer']['topLevelButtons'][0]
      ['buttonRenderer']['serviceEndpoint']`: the entry's own removal endpoint. */
  const HistorySejPath: seq<Key> := [
    Name("videoRenderer"), Name("menu"), Name("menuRenderer"), Name("topLevelButtons"), Index(0),
    Name("buttonRenderer"), Name("serviceEndpoint")]

  /** The removal post for a history entry. */
  function HistoryFeedback(page: Page, entry: Json): (r: Result<Call>)
    ensures r.Ok? ==> r.value.Feedback? && Walk(entry, HistorySejPath) == Ok(r.value.sej)
    ensures r.Ok? ==> Lookup(page.ytcfg, "EVENT_ID") == Ok(r.value.csn) && Lookup(page.ytcfg, "XSRF_TOKEN") == Ok(r.value.sessionToken)
    ensures r.Ok? <==> (
      && Walk(entry, HistorySejPath).Ok?
      && Lookup(page.ytcfg, "EVENT_ID").Ok?
      && Lookup(page.ytcfg, "XSRF_TOKEN").Ok?)
  {
    var sej :- Walk(entry, HistorySejPath);
    var csn :- Lookup(page.ytcfg, "EVENT_ID");
    var token :- Lookup(page.ytcfg, "XSRF_TOKEN");
    Ok(Feedback(sej, csn, token, page.headers))
  }

  /** Post the removal of a found entry; the answer says whether it succeeded. */
  function PostHistoryRemoval(env: Env, w: World, page: Page, entry: Json): (r: Run<bool>)
    ensures r.out != Waiting && r.world.favorites == w.favorites && w.calls <= r.world.calls
  {
    match HistoryFeedback(page, entry)
    case Err(e) => Run(Failed(e), w)
    case Ok(post) =>
      var w1 := Record(w, [post]);
      match Subscript(env.reply(post), Name("code"))
      case Err(e) => Run(Failed(e), w1)
      case Ok(code) => Run(Returned(code == SuccessCode), w1)
  }

  /** Delete a history entry by video id: filter the whole history for the video
      and post the first match's removal endpoint. `false` when there is no match
      (or an IndexError while filtering); otherwise whether the post succeeded. */
  function RemoveVideoIdFromHistory(env: Env, w: World, videoId: Json): (r: Run<bool>)
    ensures !env.loggedIn ==> r == Run(Failed(AuthenticationError), w)
    ensures r.world.favorites == w.favorites
    ensures env.loggedIn ==> |r.world.calls| > |w.calls| && r.world.calls[|w.calls|] == Fetch(History)
  {
    if !env.loggedIn then Run(Failed(AuthenticationError), w)
    else
      var page := env.site(History);
      var w1 := Record(w, [Fetch(History)]);
      var c := Consume(env, w1, HistoryInfoOf, HistoryMatchOf(videoId));
      match c.drained.status
      case Raised(e) => if e == IndexError then Run(Returned(false), c.world) else Run(Failed(e), c.world)
      case Awaiting => Run(Waiting, c.world)
      case Finished =>
        if c.drained.kept == [] then Run(Returned(false), c.world)
        else PostHistoryRemoval(env, c.world, page, c.drained.kept[0])
  }

  /** A video that is not in the history: `false`, and nothing posted. */
  lemma HistoryNoMatch(env: Env, w: World, videoId: Json)
    requires env.loggedIn
    requires var run := GeneratorRun(env, HistoryInfoOf);
      && run.status == Finished
      && forall i | 0 <= i < |Items(run)| :: HistoryMatch(videoId, Items(run)[i]) == Ok(None)
    ensures var r := RemoveVideoIdFromHistory(env, w, videoId);
      && r.out == Returned(false)
      && Mutations(r.world.calls[|w.calls|..]) == []
  {
    DrainNone(GeneratorRun(env, HistoryInfoOf), HistoryMatchOf(videoId));
    ConsumeReadsOnly(env, w, History, HistoryInfoOf, HistoryMatchOf(videoId));
  }

  /** The first history entry with the video is the one whose removal endpoint
      is posted, once; the call returns whether the answer's code is `'SUCCESS'`. */
  lemma HistoryFirstMatch(env: Env, w: World, videoId: Json, k: nat)
    requires env.loggedIn
    requires var items := Items(GeneratorRun(env, HistoryInfoOf));
      && GeneratorRun(env, HistoryInfoOf).status == Finished
      && (forall i | 0 <= i < |items| :: HistoryMatch(videoId, items[i]).Ok?)
      && k < |items| && HistoryMatch(videoId, items[k]) == Ok(Some(items[k]))
      && (forall i | 0 <= i < k :: HistoryMatch(videoId, items[i]) == Ok(None))
      && HistoryFeedback(env.site(History), items[k]).Ok?
    ensures var post := HistoryFeedback(env.site(History), Items(GeneratorRun(env, HistoryInfoOf))[k]).value;
      var r := RemoveVideoIdFromHistory(env, w, videoId);
      && Mutations(r.world.calls[|w.calls|..]) == [post]
      && (Subscript(env.reply(post), Name("code")).Ok? ==> r.out == Returned(Accepted(env, post)))
  {
    var page := env.site(History);
    var run := GeneratorRun(env, HistoryInfoOf);
    var f := HistoryMatchOf(videoId);
    assert forall i | 0 <= i < |Items(run)| :: f(Items(run)[i]) == HistoryMatch(videoId, Items(run)[i]);
    DrainFirst(run, f, k);
    var c := Consume(env, Record(w, [Fetch(History)]), HistoryInfoOf, f);
    assert c.drained.kept[0] == Items(run)[k];
    var post := HistoryFeedback(page, Items(run)[k]).value;
    var r := RemoveVideoIdFromHistory(env, w, videoId);
    assert r == PostHistoryRemoval(env, c.world, page, Items(run)[k]);
    ConsumeThenCall(env, w, History, HistoryInfoOf, f, post);
    assert Mutations([post]) == [post] by {
      assert [post][1..] == [];
    }
  }

  // ---------------------------------------------------------------------------
  // pause_resume_search_history

  /** Where the search-history page keeps its pause/resume endpoint, as a `path`. */
  const ConfirmEndpointPath: string :=
    "contents.twoColumnBrowseResultsRenderer.secondaryContents.browseFeedActionsRenderer.contents.2."
    + "buttonRenderer.navigationEndpoint.confirmDialogEndpoint.content.confirmDialogRenderer.confirmEndpoint"

  /** The toggle request, its parts read in the order the call evaluates them. */
  function SearchHistoryToggle(page: Page, userAgent: string): (r: Result<Call>)
    ensures r.Ok? ==> (
      && r.value.FeedbackApi?
      && Util.Path(ConfirmEndpointPath, page.initData).Ok?
      && var info := Util.Path(ConfirmEndpointPath, page.initData).value;
      && Walk(info, [Name("commandMetadata"), Name("webCommandMetadata"), Name("apiUrl")]) == Ok(r.value.apiUrl)
      && Walk(info, [Name("feedbackEndpoint"), Name("feedbackToken")]) == Ok(r.value.feedbackToken)
      && Subscript(info, Name("clickTrackingParams")) == Ok(r.value.clickTracking))
    ensures r.Ok? ==> (
      && Lookup(page.ytcfg, "INNERTUBE_API_KEY") == Ok(r.value.key)
      && Lookup(page.ytcfg, "DELEGATED_SESSION_ID") == Ok(r.value.onBehalfOf)
      && Util.ContextClientBody(page.ytcfg, userAgent) == Ok(r.value.client))
    ensures Util.Path(ConfirmEndpointPath, page.initData).Err? ==> r == Err(Util.Path(ConfirmEndpointPath, page.initData).error)
  {
    var info :- Util.Path(ConfirmEndpointPath, page.initData);
    var apiUrl :- Walk(info, [Name("commandMetadata"), Name("webCommandMetadata"), Name("apiUrl")]);
    var key :- Lookup(page.ytcfg, "INNERTUBE_API_KEY");
    var tracking :- Subscript(info, Name("clickTrackingParams"));
    var client :- Util.ContextClientBody(page.ytcfg, userAgent);
    var onBehalfOf :- Lookup(page.ytcfg, "DELEGATED_SESSION_ID");
    var token :- Walk(info, [Name("feedbackEndpoint"), Name("feedbackToken")]);
    Ok(FeedbackApi(apiUrl, key, tracking, client, onBehalfOf, token))
  }

  const IsProcessedPath: seq<Key> := [Name("feedbackResponses"), Index(0), Name("isProcessed")]

  /** Pause or resume search history, whichever the page offers; the result is
      the answer's `feedbackResponses[0].isProcessed`. */
  function PauseResumeSearchHistory(env: Env, w: World): (r: Run<Json>)
    ensures !env.loggedIn ==> r == Run(Failed(AuthenticationError), w)
    ensures r.out != Waiting && r.world.favorites == w.favorites
    ensures env.loggedIn ==> |r.world.calls| > |w.calls| && r.world.calls[|w.calls|] == Fetch(SearchHistory)
    ensures r.out.Returned? ==> (
      && |r.world.calls| == |w.calls| + 2
      && var post := r.world.calls[|w.calls| + 1];
      && SearchHistoryToggle(env.site(SearchHistory), env.userAgent) == Ok(post)
      && Walk(env.reply(post), IsProcessedPath) == Ok(r.out.value))
    ensures env.loggedIn && SearchHistoryToggle(env.site(SearchHistory), env.userAgent).Err? ==> (
      && r.out == Failed(SearchHistoryToggle(env.site(SearchHistory), env.userAgent).error)
      && r.world == Record(w, [Fetch(SearchHistory)]))
  {
    if !env.loggedIn then Run(Failed(AuthenticationError), w)
    else
      var w1 := Record(w, [Fetch(SearchHistory)]);
      match SearchHistoryToggle(env.site(SearchHistory), env.userAgent)
      case Err(e) => Run(Failed(e), w1)
      case Ok(post) =>
        var w2 := Record(w1, [post]);
        match Walk(env.reply(post), IsProcessedPath)
        case Err(e) => Run(Failed(e), w2)
        case Ok(v) => Run(Returned(v), w2)
  }
}

/**
 The two continuation pagers, `get_playlist_info` and `get_history_info`.

 Both are generators: they yield the items of the page that was already
 rendered, then repeatedly request the next batch with the cursor the previous
 answer carried, until an answer carries no further cursor. Here the network is
 an oracle: a finite sequence of canned `browse_ajax` responses, the i-th
 answering the i-th request. A run is recorded batch by batch (the request that
 fetched the batch, then the items it yielded), so that a consumer that stops
 early can be seen to have issued only the requests before the point it stopped.
 */
module Pager {
  import opened Py

  /** The parameters of one continuation request: `ctoken`, `continuation` and
      `itct` in the query, and for history the posted `session_token`. */
  datatype BrowseRequest = BrowseRequest(ctoken: Json, continuation: Json, itct: Json, sessionToken: Option<Json>)

  /** The items the generator yields after issuing `request` (none for the first page). */
  datatype Batch = Batch(request: Option<BrowseRequest>, items: seq<Json>)

  /** How a run ends: the generator returned, an exception escaped it (items already
      yielded stay yielded), or it is suspended on a request the oracle does not answer. */
  datatype Status = Finished | Raised(error: Error) | Awaiting

  datatype PagerRun = PagerRun(batches: seq<Batch>, status: Status)

  function Flatten(bs: seq<Batch>): seq<Json> {
    if bs == [] then [] else bs[0].items + Flatten(bs[1..])
  }

  function RequestsOf(bs: seq<Batch>): seq<BrowseRequest> {
    if bs == [] then []
    else (if bs[0].request.Some? then [bs[0].request.value] else []) + RequestsOf(bs[1..])
  }

  /** Everything the generator yields, in order. */
  function Items(run: PagerRun): seq<Json> {
    Flatten(run.batches)
  }

  /** Every request the generator issues, in order. */
  function Requests(run: PagerRun): seq<BrowseRequest> {
    RequestsOf(run.batches)
  }

  lemma SingleBatch(b: Batch)
    ensures Flatten([b]) == b.items
    ensures RequestsOf([b]) == (if b.request.Some? then [b.request.value] else [])
  {
    assert [b][1..] == [];
  }

  function Then(b: Batch, run: PagerRun): PagerRun {
    PagerRun([b] + run.batches, run.status)
  }

  /** What handling one continuation response decides. */
  datatype Next = Continue(request: BrowseRequest) | Stop | Fail(error: Error)

  /** The items one response yields, and what comes next. */
  datatype Step = Step(items: seq<Json>, next: Next)

  /** How a response ends the run when it does not continue it. */
  function EndStatus(next: Next): Status
    requires !next.Continue?
  {
    if next.Stop? then Finished else Raised(next.error)
  }

  // ---------------------------------------------------------------------------
  // The request loop shared by both pagers; `step` is the per-collection rule
  // saying where a response keeps its items and its next cursor.

  /** `while True: request; yield the batch; stop unless a next cursor is found`. */
  function Loop(req: BrowseRequest, responses: seq<Json>, step: Json -> Step): (run: PagerRun)
    ensures 1 <= |run.batches| <= |responses| + 1
    ensures run.batches[0].request == Some(req)
    ensures forall i | 0 <= i < |run.batches| :: run.batches[i].request.Some?
    ensures run.status == Awaiting <==> |run.batches| == |responses| + 1
    decreases |responses|
  {
    if |responses| == 0 then
      PagerRun([Batch(Some(req), [])], Awaiting)
    else
      var s := step(responses[0]);
      match s.next
      case Continue(next) => Then(Batch(Some(req), s.items), Loop(next, responses[1..], step))
      case Stop => PagerRun([Batch(Some(req), s.items)], Finished)
      case Fail(e) => PagerRun([Batch(Some(req), s.items)], Raised(e))
  }

  /** The loop, batch by batch: batch i is fetched with the cursor response i-1 carried and
      yields response i's items; every response but the last one consumed continues; the
      last one consumed ends the run as it says, or the run waits for an answer. */
  lemma {:induction false} LoopSpec(req: BrowseRequest, responses: seq<Json>, step: Json -> Step)
    ensures var run := Loop(req, responses, step);
      var n := |run.batches|;
      && (forall i | 0 <= i < n - 1 ::
            && step(responses[i]).next.Continue?
            && run.batches[i].items == step(responses[i]).items
            && run.batches[i + 1].request == Some(step(responses[i]).next.request))
      && (n - 1 < |responses| ==>
            && !step(responses[n - 1]).next.Continue?
            && run.batches[n - 1].items == step(responses[n - 1]).items
            && run.status == EndStatus(step(responses[n - 1]).next))
      && (n - 1 == |responses| ==> run.batches[n - 1].items == [] && run.status == Awaiting)
    decreases |responses|
  {
    if |responses| > 0 {
      var s := step(responses[0]);
      if s.next.Continue? {
        LoopSpec(s.next.request, responses[1..], step);
        var tail := Loop(s.next.request, responses[1..], step);
        var run := Loop(req, responses, step);
        assert run.batches == [Batch(Some(req), s.items)] + tail.batches;
        assert forall i | 1 <= i < |run.batches| :: run.batches[i] == tail.batches[i - 1];
        assert forall i | 1 <= i < |responses| :: responses[i] == responses[1..][i - 1];
      }
    }
  }

  /** The items a sequence of responses yields one after another. */
  function StepItems(responses: seq<Json>, step: Json -> Step): seq<Json> {
    if responses == [] then [] else step(responses[0]).items + StepItems(responses[1..], step)
  }

  /** Every response but the last carries a next cursor, and the last one does not. */
  predicate ContinuesThenStops(responses: seq<Json>, step: Json -> Step) {
    && |responses| >= 1
    && (forall i | 0 <= i < |responses| - 1 :: step(responses[i]).next.Continue?)
    && step(responses[|responses| - 1]).next == Stop
  }

  /** N pages, each but the last carrying a cursor: the loop yields exactly all their
      items in order, issues one request per page, and ends after the last. */
  lemma {:induction false} LoopAllPages(req: BrowseRequest, responses: seq<Json>, step: Json -> Step)
    requires ContinuesThenStops(responses, step)
    ensures Items(Loop(req, responses, step)) == StepItems(responses, step)
    ensures |Requests(Loop(req, responses, step))| == |responses|
    ensures Loop(req, responses, step).status == Finished
    decreases |responses|
  {
    var s := step(responses[0]);
    var run := Loop(req, responses, step);
    if |responses| == 1 {
      assert run.batches == [Batch(Some(req), s.items)];
      assert StepItems(responses[1..], step) == [];
      assert Flatten(run.batches[1..]) == [];
      assert RequestsOf(run.batches[1..]) == [];
    } else {
      assert forall i | 0 <= i < |responses[1..]| - 1 :: responses[1..][i] == responses[i + 1];
      LoopAllPages(s.next.request, responses[1..], step);
      assert run.batches[1..] == Loop(s.next.request, responses[1..], step).batches;
    }
  }

  /** Answering more requests never changes what was already yielded or requested:
      the run on the first k responses is a prefix of the run on all of them. */
  lemma {:induction false} LoopPrefix(req: BrowseRequest, responses: seq<Json>, k: nat, step: Json -> Step)
    requires k <= |responses|
    ensures Items(Loop(req, responses[..k], step)) <= Items(Loop(req, responses, step))
    ensures Requests(Loop(req, responses[..k], step)) <= Requests(Loop(req, responses, step))
    decreases k
  {
    var short := Loop(req, responses[..k], step);
    var full := Loop(req, responses, step);
    if k == 0 {
      assert short.batches == [Batch(Some(req), [])];
      SingleBatch(Batch(Some(req), []));
      assert Requests(full) == [req] + RequestsOf(full.batches[1..]);
    } else {
      var s := step(responses[0]);
      assert responses[..k][0] == responses[0];
      if s.next.Continue? {
        assert responses[..k][1..] == responses[1..][..k - 1];
        LoopPrefix(s.next.request, responses[1..], k - 1, step);
        assert short.batches[1..] == Loop(s.next.request, responses[1..][..k - 1], step).batches;
        assert full.batches[1..] == Loop(s.next.request, responses[1..], step).batches;
      }
    }
  }

  // ---------------------------------------------------------------------------
  // get_playlist_info

  /** `['contents']['twoColumnBrowseResultsRenderer']['tabs'][0]['tabRenderer']['content']
      ['sectionListRenderer']['contents'][0]['itemSectionRenderer']['contents'][0]
      ['playlistVideoListRenderer']` */
  const PlaylistRendererPath: seq<Key> := [
    Name("contents"), Name("twoColumnBrowseResultsRenderer"), Name("tabs"), Index(0),
    Name("tabRenderer"), Name("content"), Name("sectionListRenderer"), Name("contents"), Index(0),
    Name("itemSectionRenderer"), Name("contents"), Index(0), Name("playlistVideoListRenderer")]

  /** Where a browse_ajax answer keeps its payload: `resp[1]['response']`. */
  const ResponsePath: seq<Key> := [Index(1), Name("response")]

  const PlaylistContinuationPath: seq<Key> := [Name("continuationContents"), Name("playlistVideoListContinuation")]

  /** A continuation cursor: the continuation token and its click-tracking token. */
  datatype Cursor = Cursor(continuation: Json, itct: Json)

  /** A playlist request sends its cursor as both `ctoken` and `continuation`. */
  function PlaylistRequest(c: Cursor): (r: BrowseRequest)
    ensures r.ctoken == r.continuation == c.continuation && r.itct == c.itct && r.sessionToken.None?
  {
    BrowseRequest(c.continuation, c.continuation, c.itct, None)
  }

  /** The first page: `yield from renderer['contents']`, nothing on KeyError. */
  function PlaylistFirstItems(renderer: Json): (r: Result<seq<Json>>)
    ensures renderer.JObj? && "contents" !in renderer.fields ==> r == Ok([])
    ensures renderer.JObj? && "contents" in renderer.fields && renderer.fields["contents"].JArr?
      ==> r == Ok(renderer.fields["contents"].elems)
  {
    match Subscript(renderer, Name("contents"))
    case Err(e) => if e.KeyError? then Ok([]) else Err(e)
    case Ok(c) => Iterate(c)
  }

  /** `renderer['continuations'][0]['nextContinuationData']`, then its `continuation`
      and `clickTrackingParams`. */
  function InitialCursorFields(renderer: Json): Result<Cursor> {
    var next :- Walk(renderer, [Name("continuations"), Index(0), Name("nextContinuationData")]);
    var continuation :- Subscript(next, Name("continuation"));
    var itct :- Subscript(next, Name("clickTrackingParams"));
    Ok(Cursor(continuation, itct))
  }

  /** The first page's cursor; a KeyError anywhere on the way means there is none. */
  function PlaylistInitialCursor(renderer: Json): (r: Result<Option<Cursor>>)
    ensures renderer.JObj? && "continuations" !in renderer.fields ==> r == Ok(None)
  {
    match InitialCursorFields(renderer)
    case Err(e) => if e.KeyError? then Ok(None) else Err(e)
    case Ok(c) => Ok(Some(c))
  }

  /** `continuations[0]['nextContinuationData']`, reading `clickTrackingParams` first. */
  function PlaylistNextCursor(continuations: Json): Result<Cursor> {
    var next :- Walk(continuations, [Index(0), Name("nextContinuationData")]);
    var itct :- Subscript(next, Name("clickTrackingParams"));
    var continuation :- Subscript(next, Name("continuation"));
    Ok(Cursor(continuation, itct))
  }

  /** One playlist continuation response: yield its
      `playlistVideoListContinuation.contents`; stop on a KeyError for its
      `continuations`, otherwise go on with the cursor found there. */
  function PlaylistStep(resp: Json): (s: Step)
    ensures s.next.Continue? ==> s.next.request.ctoken == s.next.request.continuation && s.next.request.sessionToken.None?
  {
    match Walk(resp, ResponsePath)
    case Err(e) => Step([], Fail(e))
    case Ok(response) =>
      match IterateAt(response, PlaylistContinuationPath + [Name("contents")])
      case Err(e) => Step([], Fail(e))
      case Ok(items) =>
        match Walk(response, PlaylistContinuationPath + [Name("continuations")])
        case Err(e) => Step(items, if e.KeyError? then Stop else Fail(e))
        case Ok(continuations) =>
          match PlaylistNextCursor(continuations)
          case Err(e) => Step(items, Fail(e))
          case Ok(c) => Step(items, Continue(PlaylistRequest(c)))
  }

  /** `get_playlist_info` after the page fetch: `initData` is the page's initial data,
      `responses` answer its continuation requests in order. The loop starts only
      when both the continuation and the click-tracking token are truthy. */
  function PlaylistInfo(initData: Json, responses: seq<Json>): (run: PagerRun)
    ensures |run.batches| >= 1 && run.batches[0].request.None?
  {
    match Walk(initData, PlaylistRendererPath)
    case Err(e) => PagerRun([Batch(None, [])], Raised(e))
    case Ok(renderer) =>
      match PlaylistFirstItems(renderer)
      case Err(e) => PagerRun([Batch(None, [])], Raised(e))
      case Ok(first) =>
        match PlaylistInitialCursor(renderer)
        case Err(e) => PagerRun([Batch(None, first)], Raised(e))
        case Ok(c) =>
          if c.Some? && Truthy(c.value.continuation) && Truthy(c.value.itct) then
            Then(Batch(None, first), Loop(PlaylistRequest(c.value), responses, PlaylistStep))
          else
            PagerRun([Batch(None, first)], Finished)
  }

  lemma RequestsOfThen(b: Batch, run: PagerRun)
    requires b.request.None?
    ensures Requests(Then(b, run)) == Requests(run)
    ensures Items(Then(b, run)) == b.items + Items(run)
  {
    assert Then(b, run).batches[1..] == run.batches;
  }

  /** No request is made unless the first page carries a cursor whose continuation
      and click-tracking token are both truthy; the first batch is the first page. */
  lemma PlaylistNeedsCursor(initData: Json, responses: seq<Json>)
    ensures var run := PlaylistInfo(initData, responses);
      Requests(run) != [] ==>
        && Walk(initData, PlaylistRendererPath).Ok?
        && var renderer := Walk(initData, PlaylistRendererPath).value;
        && PlaylistFirstItems(renderer).Ok?
        && run.batches[0].items == PlaylistFirstItems(renderer).value
        && PlaylistInitialCursor(renderer).Ok?
        && PlaylistInitialCursor(renderer).value.Some?
        && var c := PlaylistInitialCursor(renderer).value.value;
        && Truthy(c.continuation) && Truthy(c.itct)
        && Requests(run)[0] == PlaylistRequest(c)
  {
    var run := PlaylistInfo(initData, responses);
    match Walk(initData, PlaylistRendererPath)
    case Err(e) =>
      SingleBatch(run.batches[0]);
    case Ok(renderer) =>
      match PlaylistFirstItems(renderer)
      case Err(e) =>
        SingleBatch(run.batches[0]);
      case Ok(first) =>
        match PlaylistInitialCursor(renderer)
        case Err(e) =>
          SingleBatch(run.batches[0]);
        case Ok(c) =>
          if c.Some? && Truthy(c.value.continuation) && Truthy(c.value.itct) {
            var tail := Loop(PlaylistRequest(c.value), responses, PlaylistStep);
            RequestsOfThen(Batch(None, first), tail);
            assert Requests(tail) == [PlaylistRequest(c.value)] + RequestsOf(tail.batches[1..]);
          } else {
            SingleBatch(run.batches[0]);
          }
  }

  /** A playlist page whose renderer has no `continuations` is a single page:
      its `contents` (or nothing) is all that is yielded, and no request is made. */
  lemma PlaylistSinglePage(initData: Json, responses: seq<Json>, renderer: map<string, Json>)
    requires Walk(initData, PlaylistRendererPath) == Ok(JObj(renderer))
    requires "continuations" !in renderer
    requires "contents" in renderer ==> renderer["contents"].JArr?
    ensures var run := PlaylistInfo(initData, responses);
      && Requests(run) == []
      && run.status == Finished
      && Items(run) == (if "contents" in renderer then renderer["contents"].elems else [])
  {
    var first := if "contents" in renderer then renderer["contents"].elems else [];
    assert PlaylistFirstItems(JObj(renderer)) == Ok(first);
    assert PlaylistInitialCursor(JObj(renderer)) == Ok(None);
    var run := PlaylistInfo(initData, responses);
    assert run == PagerRun([Batch(None, first)], Finished);
    SingleBatch(Batch(None, first));
  }

  /** Every request sends its cursor as both `ctoken` and `continuation`. */
  predicate CursorsPaired(reqs: seq<BrowseRequest>) {
    forall i | 0 <= i < |reqs| :: reqs[i].ctoken == reqs[i].continuation
  }

  /** No request posts a session token. */
  predicate Sessionless(reqs: seq<BrowseRequest>) {
    forall i | 0 <= i < |reqs| :: reqs[i].sessionToken.None?
  }

  /** Every playlist request carries its cursor as both `ctoken` and `continuation`,
      and posts no session token. */
  lemma PlaylistRequestsPaired(initData: Json, responses: seq<Json>)
    ensures CursorsPaired(Requests(PlaylistInfo(initData, responses)))
    ensures Sessionless(Requests(PlaylistInfo(initData, responses)))
  {
    var run := PlaylistInfo(initData, responses);
    if Requests(run) != [] {
      PlaylistNeedsCursor(initData, responses);
      var renderer := Walk(initData, PlaylistRendererPath).value;
      var c := PlaylistInitialCursor(renderer).value.value;
      var first := PlaylistFirstItems(renderer).value;
      var req := PlaylistRequest(c);
      var tail := Loop(req, responses, PlaylistStep);
      RequestsOfThen(Batch(None, first), tail);
      assert Requests(run) == Requests(tail);
      PlaylistLoopPaired(req, responses);
    }
  }

  lemma PlaylistLoopPaired(req: BrowseRequest, responses: seq<Json>)
    requires req.ctoken == req.continuation && req.sessionToken.None?
    ensures CursorsPaired(Requests(Loop(req, responses, PlaylistStep)))
    ensures Sessionless(Requests(Loop(req, responses, PlaylistStep)))
  {
    LoopRequests(req, responses, PlaylistStep);
    var reqs := Requests(Loop(req, responses, PlaylistStep));
    forall i | 1 <= i < |reqs|
      ensures reqs[i].ctoken == reqs[i].continuation && reqs[i].sessionToken.None?
    {
      var s := PlaylistStep(responses[i - 1]);
      assert reqs[i] == s.next.request;
    }
  }

  /** The loop's requests: the first with the cursor it was started with, each later
      one with the cursor the previous response carried. */
  lemma LoopRequests(req: BrowseRequest, responses: seq<Json>, step: Json -> Step)
    ensures var reqs := Requests(Loop(req, responses, step));
      && 1 <= |reqs| <= |responses| + 1
      && reqs[0] == req
      && forall i | 0 <= i < |reqs| - 1 ::
           step(responses[i]).next.Continue? && reqs[i + 1] == step(responses[i]).next.request
  {
    var run := Loop(req, responses, step);
    LoopSpec(req, responses, step);
    AllRequestsIndexed(run.batches);
  }

  /** A continuation response without `continuations` ends the run after yielding
      its items, whatever responses remain. */
  lemma PlaylistLastResponse(req: BrowseRequest, resp: Json, rest: seq<Json>, list: map<string, Json>)
    requires Walk(resp, ResponsePath + PlaylistContinuationPath) == Ok(JObj(list))
    requires "contents" in list && list["contents"].JArr?
    requires "continuations" !in list
    ensures Loop(req, [resp] + rest, PlaylistStep)
         == PagerRun([Batch(Some(req), list["contents"].elems)], Finished)
  {
    WalkAppend(resp, ResponsePath, PlaylistContinuationPath);
    var response := Walk(resp, ResponsePath).value;
    WalkAppend(response, PlaylistContinuationPath, [Name("contents")]);
    WalkAppend(response, PlaylistContinuationPath, [Name("continuations")]);
    assert ([resp] + rest)[0] == resp;
  }

  /** A continuation response's `['continuationContents']['playlistVideoListContinuation']`. */
  function PlaylistContinuation(resp: Json): Result<Json> {
    Walk(resp, ResponsePath + PlaylistContinuationPath)
  }

  /** A continuation response in the usual shape: its continuation is an object
      with a `contents` list. */
  predicate PlaylistAnswerShaped(resp: Json) {
    var c := PlaylistContinuation(resp);
    c.Ok? && c.value.JObj? && "contents" in c.value.fields && c.value.fields["contents"].JArr?
  }

  /** The entries such a response carries. */
  function PlaylistAnswerItems(resp: Json): seq<Json>
    requires PlaylistAnswerShaped(resp)
  {
    PlaylistContinuation(resp).value.fields["contents"].elems
  }

  /** Such a response carries a next cursor: `continuations[0]['nextContinuationData']`
      with a `clickTrackingParams` and a `continuation`. */
  predicate PlaylistAnswerContinues(resp: Json)
    requires PlaylistAnswerShaped(resp)
  {
    var list := PlaylistContinuation(resp).value.fields;
    "continuations" in list && PlaylistNextCursor(list["continuations"]).Ok?
  }

  /** How `PlaylistStep` reaches into a response in the usual shape. */
  lemma PlaylistAnswerWalks(resp: Json)
    requires PlaylistAnswerShaped(resp)
    ensures Walk(resp, ResponsePath).Ok?
    ensures var response := Walk(resp, ResponsePath).value;
      var list := PlaylistContinuation(resp).value;
      && Walk(response, PlaylistContinuationPath + [Name("contents")]) == Ok(list.fields["contents"])
      && Walk(response, PlaylistContinuationPath + [Name("continuations")]) == Subscript(list, Name("continuations"))
  {
    WalkAppend(resp, ResponsePath, PlaylistContinuationPath);
    var response := Walk(resp, ResponsePath).value;
    WalkAppend(response, PlaylistContinuationPath, [Name("contents")]);
    WalkAppend(response, PlaylistContinuationPath, [Name("continuations")]);
  }

  /** A response in the usual shape yields its `contents`, whatever comes next. */
  lemma PlaylistStepItems(resp: Json)
    requires PlaylistAnswerShaped(resp)
    ensures PlaylistStep(resp).items == PlaylistAnswerItems(resp)
  {
    PlaylistAnswerWalks(resp);
  }

  /** A response with a next cursor yields its `contents` and continues with a
      request for that cursor. */
  lemma PlaylistContinueStep(resp: Json)
    requires PlaylistAnswerShaped(resp) && PlaylistAnswerContinues(resp)
    ensures var list := PlaylistContinuation(resp).value.fields;
      PlaylistStep(resp)
        == Step(PlaylistAnswerItems(resp), Continue(PlaylistRequest(PlaylistNextCursor(list["continuations"]).value)))
  {
    PlaylistAnswerWalks(resp);
  }

  /** A response without `continuations` yields its `contents` and ends the loop. */
  lemma PlaylistStopStep(resp: Json)
    requires PlaylistAnswerShaped(resp) && "continuations" !in PlaylistContinuation(resp).value.fields
    ensures PlaylistStep(resp) == Step(PlaylistAnswerItems(resp), Stop)
  {
    PlaylistAnswerWalks(resp);
  }

  /** Continuation responses that each carry a cursor, except the last, which has
      no `continuations`. */
  predicate PlaylistAnswers(rs: seq<Json>) {
    && |rs| >= 1
    && (forall i | 0 <= i < |rs| :: PlaylistAnswerShaped(rs[i]))
    && (forall i | 0 <= i < |rs| - 1 :: PlaylistAnswerContinues(rs[i]))
    && "continuations" !in PlaylistContinuation(rs[|rs| - 1]).value.fields
  }

  /** The `contents` of each response, one after another. */
  function PlaylistAnswersItems(rs: seq<Json>): seq<Json>
    requires forall i | 0 <= i < |rs| :: PlaylistAnswerShaped(rs[i])
  {
    if rs == [] then [] else PlaylistAnswerItems(rs[0]) + PlaylistAnswersItems(rs[1..])
  }

  lemma {:induction false} PlaylistStepsItems(rs: seq<Json>)
    requires forall i | 0 <= i < |rs| :: PlaylistAnswerShaped(rs[i])
    ensures StepItems(rs, PlaylistStep) == PlaylistAnswersItems(rs)
    decreases |rs|
  {
    if rs != [] {
      PlaylistStepItems(rs[0]);
      PlaylistStepsItems(rs[1..]);
    }
  }

  /** A playlist of several pages: the first page's `contents`, then each continuation
      response's `contents` in the order the responses answer; one request per response,
      the first with the page's cursor; and the generator returns after the last. */
  lemma PlaylistAllPages(initData: Json, rs: seq<Json>, renderer: map<string, Json>, c: Cursor)
    requires Walk(initData, PlaylistRendererPath) == Ok(JObj(renderer))
    requires "contents" in renderer ==> renderer["contents"].JArr?
    requires PlaylistInitialCursor(JObj(renderer)) == Ok(Some(c)) && Truthy(c.continuation) && Truthy(c.itct)
    requires PlaylistAnswers(rs)
    ensures var run := PlaylistInfo(initData, rs);
      && Items(run) == (if "contents" in renderer then renderer["contents"].elems else []) + PlaylistAnswersItems(rs)
      && |Requests(run)| == |rs|
      && Requests(run)[0] == PlaylistRequest(c)
      && run.status == Finished
  {
    var first := if "contents" in renderer then renderer["contents"].elems else [];
    assert PlaylistFirstItems(JObj(renderer)) == Ok(first);
    var loop := Loop(PlaylistRequest(c), rs, PlaylistStep);
    assert PlaylistInfo(initData, rs) == Then(Batch(None, first), loop);
    RequestsOfThen(Batch(None, first), loop);
    forall i | 0 <= i < |rs| - 1
      ensures PlaylistStep(rs[i]).next.Continue?
    {
      PlaylistContinueStep(rs[i]);
    }
    PlaylistStopStep(rs[|rs| - 1]);
    LoopAllPages(PlaylistRequest(c), rs, PlaylistStep);
    PlaylistStepsItems(rs);
    LoopRequests(PlaylistRequest(c), rs, PlaylistStep);
  }

  // ---------------------------------------------------------------------------
  // get_history_info

  /** `['contents']['twoColumnBrowseResultsRenderer']['tabs'][0]['tabRenderer']['content']
      ['sectionListRenderer']` */
  const HistoryRendererPath: seq<Key> := [
    Name("contents"), Name("twoColumnBrowseResultsRenderer"), Name("tabs"), Index(0),
    Name("tabRenderer"), Name("content"), Name("sectionListRenderer")]

  const HistoryContinuationPath: seq<Key> := [Name("continuationContents"), Name("sectionListContinuation")]

  /** Items yielded up to the first exception, and that exception. */
  datatype Partial = Partial(items: seq<Json>, error: Option<Error>)

  const SectionContentsPath: seq<Key> := [Name("itemSectionRenderer"), Name("contents")]

  /** `for section in sections: yield from section['itemSectionRenderer']['contents']` */
  function SectionsItems(sections: seq<Json>): (r: Partial)
    ensures r.error.None? <==> forall i | 0 <= i < |sections| :: IterateAt(sections[i], SectionContentsPath).Ok?
    ensures r.error.Some? ==> exists k | 0 <= k < |sections| ::
      && (forall j | 0 <= j < k :: IterateAt(sections[j], SectionContentsPath).Ok?)
      && IterateAt(sections[k], SectionContentsPath) == Err(r.error.value)
  {
    if sections == [] then Partial([], None)
    else
      match IterateAt(sections[0], SectionContentsPath)
      case Err(e) => Partial([], Some(e))
      case Ok(xs) =>
        var rest := SectionsItems(sections[1..]);
        Partial(xs + rest.items, rest.error)
  }

  /** The items of every section of a section list, in order. */
  function SectionListItems(sectionList: Json): (r: Partial)
    ensures IterateAt(sectionList, [Name("contents")]).Err?
      ==> r == Partial([], Some(IterateAt(sectionList, [Name("contents")]).error))
    ensures r.error.None? ==> (
      && IterateAt(sectionList, [Name("contents")]).Ok?
      && var sections := IterateAt(sectionList, [Name("contents")]).value;
         forall i | 0 <= i < |sections| :: IterateAt(sections[i], SectionContentsPath).Ok?)
  {
    match IterateAt(sectionList, [Name("contents")])
    case Err(e) => Partial([], Some(e))
    case Ok(sections) => SectionsItems(sections)
  }

  /** Sections in the usual shape yield their items section after section. */
  lemma {:induction false} SectionsItemsWellFormed(sections: seq<Json>, contents: seq<seq<Json>>)
    requires |sections| == |contents|
    requires forall i | 0 <= i < |sections| ::
      Walk(sections[i], SectionContentsPath) == Ok(JArr(contents[i]))
    ensures SectionsItems(sections) == Partial(ConcatAll(contents), None)
    decreases |sections|
  {
    if sections != [] {
      SectionsItemsWellFormed(sections[1..], contents[1..]);
    }
  }

  function ConcatAll(xss: seq<seq<Json>>): seq<Json> {
    if xss == [] then [] else xss[0] + ConcatAll(xss[1..])
  }

  /** The first history request: the page's cursor and the page's `XSRF_TOKEN`. */
  function HistoryFirstRequest(next: Json, ytcfg: Json): (r: Result<BrowseRequest>)
    ensures r.Ok? ==> r.value.ctoken == r.value.continuation
    ensures r.Ok? ==> (Subscript(ytcfg, Name("XSRF_TOKEN")).Ok?
      && r.value.sessionToken == Some(Subscript(ytcfg, Name("XSRF_TOKEN")).value))
  {
    var continuation :- Subscript(next, Name("continuation"));
    var itct :- Subscript(next, Name("clickTrackingParams"));
    var xsrf :- Subscript(ytcfg, Name("XSRF_TOKEN"));
    Ok(BrowseRequest(continuation, continuation, itct, Some(xsrf)))
  }

  /** A later history request: the cursor from `continuations`, and the
      `xsrf_token` the previous answer returned. */
  function HistoryNextRequest(resp: Json, continuations: Json): (r: Result<BrowseRequest>)
    ensures r.Ok? ==> r.value.ctoken == r.value.continuation
    ensures r.Ok? ==> (Walk(resp, [Index(1), Name("xsrf_token")]).Ok?
      && r.value.sessionToken == Some(Walk(resp, [Index(1), Name("xsrf_token")]).value))
  {
    var xsrf :- Walk(resp, [Index(1), Name("xsrf_token")]);
    var next :- Walk(continuations, [Index(0), Name("nextContinuationData")]);
    var itct :- Subscript(next, Name("clickTrackingParams"));
    var continuation :- Subscript(next, Name("continuation"));
    Ok(BrowseRequest(continuation, continuation, itct, Some(xsrf)))
  }

  /** One history continuation response: yield the items of every section of its
      `sectionListContinuation`; stop on a KeyError for its `continuations`. */
  function HistoryStep(resp: Json): (s: Step)
    ensures s.next.Continue? ==> s.next.request.ctoken == s.next.request.continuation
    ensures s.next.Continue? ==> (Walk(resp, [Index(1), Name("xsrf_token")]).Ok?
      && s.next.request.sessionToken == Some(Walk(resp, [Index(1), Name("xsrf_token")]).value))
  {
    match Walk(resp, ResponsePath)
    case Err(e) => Step([], Fail(e))
    case Ok(response) =>
      match Walk(response, HistoryContinuationPath)
      case Err(e) => Step([], Fail(e))
      case Ok(sectionList) =>
        var p := SectionListItems(sectionList);
        if p.error.Some? then
          Step(p.items, Fail(p.error.value))
        else
          match Subscript(sectionList, Name("continuations"))
          case Err(e) => Step(p.items, if e.KeyError? then Stop else Fail(e))
          case Ok(continuations) =>
            match HistoryNextRequest(resp, continuations)
            case Err(e) => Step(p.items, Fail(e))
            case Ok(r) => Step(p.items, Continue(r))
  }

  /** `get_history_info` after the page fetch: `initData` and `ytcfg` come from the
      history page, `responses` answer its continuation requests in order. */
  function HistoryInfo(initData: Json, ytcfg: Json, responses: seq<Json>): (run: PagerRun)
    ensures |run.batches| >= 1 && run.batches[0].request.None?
  {
    match Walk(initData, HistoryRendererPath)
    case Err(e) => PagerRun([Batch(None, [])], Raised(e))
    case Ok(sectionList) =>
      var p := SectionListItems(sectionList);
      if p.error.Some? then
        PagerRun([Batch(None, p.items)], Raised(p.error.value))
      else
        match Walk(sectionList, [Name("continuations"), Index(0), Name("nextContinuationData")])
        case Err(e) => PagerRun([Batch(None, p.items)], if e.KeyError? then Finished else Raised(e))
        case Ok(next) =>
          match HistoryFirstRequest(next, ytcfg)
          case Err(e) => PagerRun([Batch(None, p.items)], Raised(e))
          case Ok(r) => Then(Batch(None, p.items), Loop(r, responses, HistoryStep))
  }

  /** A history page whose section list has no `continuations` yields its sections'
      items and returns without a single request. */
  lemma HistorySinglePage(initData: Json, ytcfg: Json, responses: seq<Json>, sectionList: map<string, Json>)
    requires Walk(initData, HistoryRendererPath) == Ok(JObj(sectionList))
    requires "continuations" !in sectionList
    ensures var run := HistoryInfo(initData, ytcfg, responses);
      && Requests(run) == []
      && Items(run) == SectionListItems(JObj(sectionList)).items
      && run.status == (if SectionListItems(JObj(sectionList)).error.Some?
                        then Raised(SectionListItems(JObj(sectionList)).error.value) else Finished)
  {
    var p := SectionListItems(JObj(sectionList));
    assert Walk(JObj(sectionList), [Name("continuations"), Index(0), Name("nextContinuationData")])
        == Err(KeyError(Name("continuations")));
    var run := HistoryInfo(initData, ytcfg, responses);
    assert run == PagerRun([Batch(None, p.items)], if p.error.Some? then Raised(p.error.value) else Finished);
    SingleBatch(Batch(None, p.items));
  }

  /** The history loop starts only from a first page whose section list yields without
      error and carries a cursor, and then with the request that cursor makes. */
  lemma HistoryStart(initData: Json, ytcfg: Json, responses: seq<Json>)
    ensures var run := HistoryInfo(initData, ytcfg, responses);
      Requests(run) != [] ==>
        && Walk(initData, HistoryRendererPath).Ok?
        && var sectionList := Walk(initData, HistoryRendererPath).value;
        && SectionListItems(sectionList).error.None?
        && run.batches[0].items == SectionListItems(sectionList).items
        && Walk(sectionList, [Name("continuations"), Index(0), Name("nextContinuationData")]).Ok?
        && var next := Walk(sectionList, [Name("continuations"), Index(0), Name("nextContinuationData")]).value;
        && HistoryFirstRequest(next, ytcfg).Ok?
        && Requests(run) == Requests(Loop(HistoryFirstRequest(next, ytcfg).value, responses, HistoryStep))
  {
    var run := HistoryInfo(initData, ytcfg, responses);
    match Walk(initData, HistoryRendererPath)
    case Err(e) =>
      SingleBatch(run.batches[0]);
    case Ok(sectionList) =>
      var p := SectionListItems(sectionList);
      if p.error.Some? {
        SingleBatch(run.batches[0]);
      } else {
        match Walk(sectionList, [Name("continuations"), Index(0), Name("nextContinuationData")])
        case Err(e) =>
          SingleBatch(run.batches[0]);
        case Ok(next) =>
          match HistoryFirstRequest(next, ytcfg)
          case Err(e) =>
            SingleBatch(run.batches[0]);
          case Ok(r) =>
            RequestsOfThen(Batch(None, p.items), Loop(r, responses, HistoryStep));
      }
  }

  /** Each request after the first posts the `xsrf_token` of the response before it. */
  predicate TokensChained(reqs: seq<BrowseRequest>, responses: seq<Json>) {
    forall i | 1 <= i < |reqs| ::
      && i - 1 < |responses|
      && Walk(responses[i - 1], [Index(1), Name("xsrf_token")]).Ok?
      && reqs[i].sessionToken == Some(Walk(responses[i - 1], [Index(1), Name("xsrf_token")]).value)
  }

  /** History requests: the first posts the page's `XSRF_TOKEN`, each later one the
      `xsrf_token` of the response before it, and every one sends its cursor as both
      `ctoken` and `continuation`. */
  lemma HistoryTokens(initData: Json, ytcfg: Json, responses: seq<Json>)
    ensures var reqs := Requests(HistoryInfo(initData, ytcfg, responses));
      && (reqs != [] ==>
            && Subscript(ytcfg, Name("XSRF_TOKEN")).Ok?
            && reqs[0].sessionToken == Some(Subscript(ytcfg, Name("XSRF_TOKEN")).value))
      && TokensChained(reqs, responses)
      && CursorsPaired(reqs)
  {
    var reqs := Requests(HistoryInfo(initData, ytcfg, responses));
    if reqs != [] {
      HistoryStart(initData, ytcfg, responses);
      var sectionList := Walk(initData, HistoryRendererPath).value;
      var next := Walk(sectionList, [Name("continuations"), Index(0), Name("nextContinuationData")]).value;
      var r := HistoryFirstRequest(next, ytcfg).value;
      HistoryLoopTokens(r, responses);
    }
  }

  lemma HistoryLoopTokens(r: BrowseRequest, responses: seq<Json>)
    requires r.ctoken == r.continuation
    ensures var reqs := Requests(Loop(r, responses, HistoryStep));
      && reqs[0] == r
      && TokensChained(reqs, responses)
      && CursorsPaired(reqs)
  {
    LoopRequests(r, responses, HistoryStep);
    var reqs := Requests(Loop(r, responses, HistoryStep));
    forall i | 1 <= i < |reqs|
      ensures Walk(responses[i - 1], [Index(1), Name("xsrf_token")]).Ok?
      ensures reqs[i].sessionToken == Some(Walk(responses[i - 1], [Index(1), Name("xsrf_token")]).value)
      ensures reqs[i].ctoken == reqs[i].continuation
    {
      var s := HistoryStep(responses[i - 1]);
      assert reqs[i] == s.next.request;
    }
  }

  /** When every batch has a request, the i-th request is batch i's. */
  lemma {:induction false} AllRequestsIndexed(bs: seq<Batch>)
    requires forall i | 0 <= i < |bs| :: bs[i].request.Some?
    ensures |RequestsOf(bs)| == |bs|
    ensures forall i | 0 <= i < |bs| :: RequestsOf(bs)[i] == bs[i].request.value
  {
    if bs != [] {
      AllRequestsIndexed(bs[1..]);
    }
  }

  /** A history continuation response whose section list has no `continuations`
      ends the run after yielding its items, whatever responses remain. */
  lemma HistoryLastResponse(req: BrowseRequest, resp: Json, rest: seq<Json>, sectionList: map<string, Json>)
    requires Walk(resp, ResponsePath + HistoryContinuationPath) == Ok(JObj(sectionList))
    requires "continuations" !in sectionList
    requires SectionListItems(JObj(sectionList)).error.None?
    ensures Loop(req, [resp] + rest, HistoryStep)
         == PagerRun([Batch(Some(req), SectionListItems(JObj(sectionList)).items)], Finished)
  {
    WalkAppend(resp, ResponsePath, HistoryContinuationPath);
    assert ([resp] + rest)[0] == resp;
  }

  /** A continuation response's `['continuationContents']['sectionListContinuation']`. */
  function HistoryContinuation(resp: Json): Result<Json> {
    Walk(resp, ResponsePath + HistoryContinuationPath)
  }

  /** A continuation response in the usual shape: its section list is an object
      whose sections all yield their items. */
  predicate HistoryAnswerShaped(resp: Json) {
    var c := HistoryContinuation(resp);
    c.Ok? && c.value.JObj? && SectionListItems(c.value).error.None?
  }

  /** The items of its sections, section after section. */
  function HistoryAnswerItems(resp: Json): seq<Json>
    requires HistoryAnswerShaped(resp)
  {
    SectionListItems(HistoryContinuation(resp).value).items
  }

  /** Such a response carries `continuations` from which the next request, with the
      response's own `xsrf_token`, can be read. */
  predicate HistoryAnswerContinues(resp: Json)
    requires HistoryAnswerShaped(resp)
  {
    var list := HistoryContinuation(resp).value.fields;
    "continuations" in list && HistoryNextRequest(resp, list["continuations"]).Ok?
  }

  /** A response with a next request yields its sections' items and continues with it. */
  lemma HistoryContinueStep(resp: Json)
    requires HistoryAnswerShaped(resp) && HistoryAnswerContinues(resp)
    ensures var list := HistoryContinuation(resp).value.fields;
      HistoryStep(resp) == Step(HistoryAnswerItems(resp), Continue(HistoryNextRequest(resp, list["continuations"]).value))
  {
    WalkAppend(resp, ResponsePath, HistoryContinuationPath);
  }

  /** A response without `continuations` yields its sections' items and ends the loop. */
  lemma HistoryStopStep(resp: Json)
    requires HistoryAnswerShaped(resp) && "continuations" !in HistoryContinuation(resp).value.fields
    ensures HistoryStep(resp) == Step(HistoryAnswerItems(resp), Stop)
  {
    WalkAppend(resp, ResponsePath, HistoryContinuationPath);
  }

  /** A response in the usual shape yields its sections' items, whatever comes next. */
  lemma HistoryStepItems(resp: Json)
    requires HistoryAnswerShaped(resp)
    ensures HistoryStep(resp).items == HistoryAnswerItems(resp)
  {
    WalkAppend(resp, ResponsePath, HistoryContinuationPath);
  }

  /** Continuation responses that each carry a next request, except the last, which
      has no `continuations`. */
  predicate HistoryAnswers(rs: seq<Json>) {
    && |rs| >= 1
    && (forall i | 0 <= i < |rs| :: HistoryAnswerShaped(rs[i]))
    && (forall i | 0 <= i < |rs| - 1 :: HistoryAnswerContinues(rs[i]))
    && "continuations" !in HistoryContinuation(rs[|rs| - 1]).value.fields
  }

  /** The items of each response, one after another. */
  function HistoryAnswersItems(rs: seq<Json>): seq<Json>
    requires forall i | 0 <= i < |rs| :: HistoryAnswerShaped(rs[i])
  {
    if rs == [] then [] else HistoryAnswerItems(rs[0]) + HistoryAnswersItems(rs[1..])
  }

  lemma {:induction false} HistoryStepsItems(rs: seq<Json>)
    requires forall i | 0 <= i < |rs| :: HistoryAnswerShaped(rs[i])
    ensures StepItems(rs, HistoryStep) == HistoryAnswersItems(rs)
    decreases |rs|
  {
    if rs != [] {
      HistoryStepItems(rs[0]);
      HistoryStepsItems(rs[1..]);
    }
  }

  /** A history of several pages: the first page's section items, then each
      continuation response's section items in the order the responses answer;
      one request per response, the first from the page's cursor and `XSRF_TOKEN`;
      and the generator returns after the last. */
  lemma HistoryAllPages(initData: Json, ytcfg: Json, rs: seq<Json>, sectionList: map<string, Json>, next: Json)
    requires Walk(initData, HistoryRendererPath) == Ok(JObj(sectionList))
    requires SectionListItems(JObj(sectionList)).error.None?
    requires Walk(JObj(sectionList), [Name("continuations"), Index(0), Name("nextContinuationData")]) == Ok(next)
    requires HistoryFirstRequest(next, ytcfg).Ok?
    requires HistoryAnswers(rs)
    ensures var run := HistoryInfo(initData, ytcfg, rs);
      && Items(run) == SectionListItems(JObj(sectionList)).items + HistoryAnswersItems(rs)
      && |Requests(run)| == |rs|
      && Requests(run)[0] == HistoryFirstRequest(next, ytcfg).value
      && run.status == Finished
  {
    var first := SectionListItems(JObj(sectionList)).items;
    var req := HistoryFirstRequest(next, ytcfg).value;
    var loop := Loop(req, rs, HistoryStep);
    assert HistoryInfo(initData, ytcfg, rs) == Then(Batch(None, first), loop);
    RequestsOfThen(Batch(None, first), loop);
    forall i | 0 <= i < |rs| - 1
      ensures HistoryStep(rs[i]).next.Continue?
    {
      HistoryContinueStep(rs[i]);
    }
    HistoryStopStep(rs[|rs| - 1]);
    LoopAllPages(req, rs, HistoryStep);
    HistoryStepsItems(rs);
    LoopRequests(req, rs, HistoryStep);
  }

  // ---------------------------------------------------------------------------
  // Consumers: `list(map(f, gen))` and `list(filter(p, gen))` run the generator
  // only as far as they get; an exception from `f` or from the generator ends both.

  /** What a consumer does with one item: keep a value, drop the item, or raise. */
  type Visit = Json -> Result<Option<Json>>

  /** What a consumer collected, which requests its generator issued, and how it ended. */
  datatype Drained = Drained(kept: seq<Json>, requests: seq<BrowseRequest>, status: Status)

  function VisitItems(items: seq<Json>, f: Visit): Partial {
    if items == [] then Partial([], None)
    else
      match f(items[0])
      case Err(e) => Partial([], Some(e))
      case Ok(v) =>
        var rest := VisitItems(items[1..], f);
        Partial((if v.Some? then [v.value] else []) + rest.items, rest.error)
  }

  function DrainBatches(bs: seq<Batch>, final: Status, f: Visit): Drained {
    if bs == [] then Drained([], [], final)
    else
      var reqs := if bs[0].request.Some? then [bs[0].request.value] else [];
      var p := VisitItems(bs[0].items, f);
      if p.error.Some? then
        Drained(p.items, reqs, Raised(p.error.value))
      else
        var rest := DrainBatches(bs[1..], final, f);
        Drained(p.items + rest.kept, reqs + rest.requests, rest.status)
  }

  /** Consume a pager run with `f`, item by item. */
  function Drain(run: PagerRun, f: Visit): (d: Drained)
    ensures d.requests <= Requests(run)
    ensures d.status == Awaiting ==> run.status == Awaiting
  {
    DrainRequestsPrefix(run.batches, run.status, f);
    DrainBatches(run.batches, run.status, f)
  }

  lemma {:induction false} DrainRequestsPrefix(bs: seq<Batch>, final: Status, f: Visit)
    ensures DrainBatches(bs, final, f).requests <= RequestsOf(bs)
    ensures DrainBatches(bs, final, f).status == Awaiting ==> final == Awaiting
  {
    if bs != [] {
      DrainRequestsPrefix(bs[1..], final, f);
    }
  }

  /** What `f` keeps of a sequence of items when it raises on none. */
  function KeepAll(items: seq<Json>, f: Visit): seq<Json>
    requires forall i | 0 <= i < |items| :: f(items[i]).Ok?
  {
    if items == [] then []
    else (if f(items[0]).value.Some? then [f(items[0]).value.value] else []) + KeepAll(items[1..], f)
  }

  lemma {:induction false} KeepAllAppend(a: seq<Json>, b: seq<Json>, f: Visit)
    requires forall i | 0 <= i < |a + b| :: f((a + b)[i]).Ok?
    ensures forall i | 0 <= i < |a| :: f(a[i]).Ok?
    ensures forall i | 0 <= i < |b| :: f(b[i]).Ok?
    ensures KeepAll(a + b, f) == KeepAll(a, f) + KeepAll(b, f)
    decreases |a|
  {
    assert forall i | 0 <= i < |a| :: (a + b)[i] == a[i];
    assert forall i | 0 <= i < |b| :: (a + b)[|a| + i] == b[i];
    if a != [] {
      assert (a + b)[1..] == a[1..] + b;
      KeepAllAppend(a[1..], b, f);
    } else {
      assert a + b == b;
    }
  }

  lemma {:induction false} VisitItemsAll(items: seq<Json>, f: Visit)
    requires forall i | 0 <= i < |items| :: f(items[i]).Ok?
    ensures VisitItems(items, f) == Partial(KeepAll(items, f), None)
    decreases |items|
  {
    if items != [] {
      VisitItemsAll(items[1..], f);
    }
  }

  /** Consuming a run on which `f` never raises collects what `f` keeps of every
      item, issues every request of the run, and ends as the run ends. */
  lemma {:induction false} DrainAll(bs: seq<Batch>, final: Status, f: Visit)
    requires forall i | 0 <= i < |Flatten(bs)| :: f(Flatten(bs)[i]).Ok?
    ensures DrainBatches(bs, final, f) == Drained(KeepAll(Flatten(bs), f), RequestsOf(bs), final)
    decreases |bs|
  {
    if bs != [] {
      assert Flatten(bs) == bs[0].items + Flatten(bs[1..]);
      KeepAllAppend(bs[0].items, Flatten(bs[1..]), f);
      VisitItemsAll(bs[0].items, f);
      DrainAll(bs[1..], final, f);
    }
  }

  /** An item on which `f` raises stops the consumer with an exception. */
  lemma {:induction false} DrainRaises(bs: seq<Batch>, final: Status, f: Visit, k: nat)
    requires k < |Flatten(bs)| && f(Flatten(bs)[k]).Err?
    ensures DrainBatches(bs, final, f).status.Raised?
    decreases |bs|
  {
    if bs != [] {
      if k < |bs[0].items| {
        assert Flatten(bs)[k] == bs[0].items[k];
        VisitRaises(bs[0].items, f, k);
      } else {
        assert Flatten(bs)[k] == Flatten(bs[1..])[k - |bs[0].items|];
        DrainRaises(bs[1..], final, f, k - |bs[0].items|);
      }
    }
  }

  lemma {:induction false} VisitRaises(items: seq<Json>, f: Visit, k: nat)
    requires k < |items| && f(items[k]).Err?
    ensures VisitItems(items, f).error.Some?
    decreases |items|
  {
    if k > 0 && f(items[0]).Ok? {
      VisitRaises(items[1..], f, k - 1);
    }
  }

  /** `list(filter(p, ...))[0]`: the first item `p` keeps. */
  lemma {:induction false} KeepAllFirst(items: seq<Json>, f: Visit, k: nat)
    requires forall i | 0 <= i < |items| :: f(items[i]).Ok?
    requires k < |items| && f(items[k]).value.Some?
    requires forall i | 0 <= i < k :: f(items[i]).value.None?
    ensures KeepAll(items, f) != [] && KeepAll(items, f)[0] == f(items[k]).value.value
    decreases k
  {
    if k > 0 {
      assert forall i | 0 <= i < |items[1..]| :: items[1..][i] == items[i + 1];
      KeepAllFirst(items[1..], f, k - 1);
    }
  }

  /** Nothing is kept when `f` drops every item. */
  lemma {:induction false} KeepAllNone(items: seq<Json>, f: Visit)
    requires forall i | 0 <= i < |items| :: f(items[i]).Ok? && f(items[i]).value.None?
    ensures KeepAll(items, f) == []
    decreases |items|
  {
    if items != [] {
      assert forall i | 0 <= i < |items[1..]| :: items[1..][i] == items[i + 1];
      KeepAllNone(items[1..], f);
    }
  }

  /** `list(map(g, ...))`: one value per item, in order. */
  lemma {:induction false} KeepAllMap(items: seq<Json>, f: Visit)
    requires forall i | 0 <= i < |items| :: f(items[i]).Ok? && f(items[i]).value.Some?
    ensures |KeepAll(items, f)| == |items|
    ensures forall i | 0 <= i < |items| :: KeepAll(items, f)[i] == f(items[i]).value.value
    decreases |items|
  {
    if items != [] {
      assert forall i | 0 <= i < |items[1..]| :: items[1..][i] == items[i + 1];
      KeepAllMap(items[1..], f);
    }
  }

  /** A consumer that ends without an exception met no item `f` raises on, and
      then it ends as the run does. */
  lemma DrainClean(run: PagerRun, f: Visit)
    requires !Drain(run, f).status.Raised?
    ensures forall i | 0 <= i < |Items(run)| :: f(Items(run)[i]).Ok?
    ensures Drain(run, f) == Drained(KeepAll(Items(run), f), Requests(run), run.status)
  {
    forall i | 0 <= i < |Items(run)|
      ensures f(Items(run)[i]).Ok?
    {
      if f(Items(run)[i]).Err? {
        DrainRaises(run.batches, run.status, f, i);
      }
    }
    assert Items(run) == Flatten(run.batches);
    DrainAll(run.batches, run.status, f);
  }

  /** `list(filter(p, gen))[0]` on a generator that reads every page and on which
      `p` never raises: the first item `p` keeps, after every request was made. */
  lemma DrainFirst(run: PagerRun, f: Visit, k: nat)
    requires forall i | 0 <= i < |Items(run)| :: f(Items(run)[i]).Ok?
    requires k < |Items(run)| && f(Items(run)[k]).value.Some?
    requires forall i | 0 <= i < k :: f(Items(run)[i]).value.None?
    ensures var d := Drain(run, f);
      && d.requests == Requests(run) && d.status == run.status
      && d.kept != [] && d.kept[0] == f(Items(run)[k]).value.value
  {
    assert Items(run) == Flatten(run.batches);
    DrainAll(run.batches, run.status, f);
    KeepAllFirst(Items(run), f, k);
  }

  /** When `p` keeps nothing, the filtered list is empty. */
  lemma DrainNone(run: PagerRun, f: Visit)
    requires forall i | 0 <= i < |Items(run)| :: f(Items(run)[i]).Ok? && f(Items(run)[i]).value.None?
    ensures Drain(run, f) == Drained([], Requests(run), run.status)
  {
    assert Items(run) == Flatten(run.batches);
    DrainAll(run.batches, run.status, f);
    KeepAllNone(Items(run), f);
  }

  /** When `p` raises on some item, the consumer raises, wherever the item is. */
  lemma DrainRaisesAnywhere(run: PagerRun, f: Visit, k: nat)
    requires k < |Items(run)| && f(Items(run)[k]).Err?
    ensures Drain(run, f).status.Raised?
  {
    assert Items(run) == Flatten(run.batches);
    DrainRaises(run.batches, run.status, f, k);
  }
}

/**
 The nested-JSON access helpers: `path`, `path_default`, `try_get`,
 `remove_start`, `extract_keys`, `get_text_runs` and `first`.
 */
module Util {
  import opened Py
  import Text
  import Numerals

  // ---------------------------------------------------------------------------
  // path / path_default

  /** One segment of `path`: on a list the segment goes through `int()` (whose
      ValueError is not the TypeError the code catches), elsewhere it is a key. */
  function PathStep(obj: Json, seg: string): (r: Result<Json>)
    ensures obj.JArr? && PyInt(seg).Err? ==> r == Err(ValueError)
    ensures obj.JArr? && PyInt(seg).Ok? ==> r == Subscript(obj, Index(PyInt(seg).value))
    ensures !obj.JArr? ==> r == Subscript(obj, Name(seg))
  {
    if obj.JArr? then
      var i :- PyInt(seg);
      Subscript(obj, Index(i))
    else
      Subscript(obj, Name(seg))
  }

  /** The segments of a path applied left to right. */
  function PathSegments(segs: seq<string>, obj: Json): Result<Json>
    decreases |segs|
  {
    if segs == [] then Ok(obj)
    else
      var next :- PathStep(obj, segs[0]);
      PathSegments(segs[1..], next)
  }

  /** The exceptions `path` can raise. */
  predicate PathError(e: Error) {
    e.KeyError? || e == IndexError || e == TypeError || e == ValueError
  }

  lemma {:induction false} PathSegmentsErrors(segs: seq<string>, obj: Json)
    ensures PathSegments(segs, obj).Err? ==> PathError(PathSegments(segs, obj).error)
    decreases |segs|
  {
    if segs != [] {
      match PathStep(obj, segs[0])
      case Ok(next) => PathSegmentsErrors(segs[1..], next);
      case Err(_) =>
    }
  }

  /** `path(s, obj)`: split `s` on '.' and look each segment up in turn. */
  function Path(s: string, obj: Json): (r: Result<Json>)
    ensures r.Err? ==> PathError(r.error)
  {
    PathSegmentsErrors(Text.Split(s, '.'), obj);
    PathSegments(Text.Split(s, '.'), obj)
  }

  lemma {:induction false} PathSegmentsAppend(a: seq<string>, b: seq<string>, obj: Json)
    ensures PathSegments(a + b, obj)
         == (match PathSegments(a, obj) case Ok(v) => PathSegments(b, v) case Err(e) => Err(e))
    decreases |a|
  {
    if a == [] {
      assert a + b == b;
    } else {
      assert (a + b)[0] == a[0];
      assert (a + b)[1..] == a[1..] + b;
      match PathStep(obj, a[0])
      case Ok(next) => PathSegmentsAppend(a[1..], b, next);
      case Err(_) =>
    }
  }

  /** `path(a + '.' + b, o)` is `path(b, path(a, o))`, failing as soon as `path(a, o)` does. */
  lemma PathCompose(a: string, b: string, obj: Json)
    ensures Path(a + "." + b, obj) == (match Path(a, obj) case Ok(v) => Path(b, v) case Err(e) => Err(e))
  {
    assert a + "." + b == a + ['.'] + b;
    Text.SplitAround(a, b, '.');
    PathSegmentsAppend(Text.Split(a, '.'), Text.Split(b, '.'), obj);
  }

  /** A single segment (no '.') is a single lookup. */
  lemma PathSingle(seg: string, obj: Json)
    requires '.' !in seg
    ensures Path(seg, obj) == PathStep(obj, seg)
  {
    Text.SplitNoSeparator(seg, '.');
    SegmentsSingle(seg, obj);
  }

  /** One segment is one step. */
  lemma SegmentsSingle(seg: string, obj: Json)
    ensures PathSegments([seg], obj) == PathStep(obj, seg)
  {
    assert [seg][1..] == [];
  }

  /** On a list, a numeral segment indexes Python-style, negative values from the end. */
  lemma PathListIndex(xs: seq<Json>, n: int)
    ensures Path(Text.IntToString(n), JArr(xs))
         == (if -|xs| <= n < |xs| then Ok(xs[if n < 0 then |xs| + n else n]) else Err(IndexError))
  {
    Text.IntToStringNoDot(n);
    Numerals.PyIntOfString(n);
    PathListSegment(xs, Text.IntToString(n), n);
  }

  /** On a list, a segment `int()` reads as `n` indexes with `n`. */
  lemma PathListSegment(xs: seq<Json>, seg: string, n: int)
    requires '.' !in seg && PyInt(seg) == Ok(n)
    ensures Path(seg, JArr(xs))
         == (if -|xs| <= n < |xs| then Ok(xs[if n < 0 then |xs| + n else n]) else Err(IndexError))
  {
    PathSingle(seg, JArr(xs));
    PathStepNumeral(xs, seg, n);
    ListSubscript(xs, n);
  }

  /** On a list, a segment `int()` reads as `n` is the subscript `[n]`. */
  lemma PathStepNumeral(xs: seq<Json>, seg: string, n: int)
    requires PyInt(seg) == Ok(n)
    ensures PathStep(JArr(xs), seg) == Subscript(JArr(xs), Index(n))
  {
  }

  /** On a list, a segment `int()` rejects raises ValueError, not the TypeError
      the code appears to intend. */
  lemma PathListBadSegment(xs: seq<Json>, seg: string)
    requires '.' !in seg && PyInt(seg).Err?
    ensures Path(seg, JArr(xs)) == Err(ValueError)
  {
    PathSingle(seg, JArr(xs));
  }

  /** On a dict, a missing key raises KeyError naming it. */
  lemma PathMissingKey(m: map<string, Json>, k: string)
    requires '.' !in k && k !in m
    ensures Path(k, JObj(m)) == Err(KeyError(Name(k)))
  {
    PathSingle(k, JObj(m));
  }

  /** `path_default(s, obj, default)`: `default` in place of KeyError and IndexError.
      The call without a default, whose default is `None`, is `PathDefault(s, obj, JNull)`. */
  function PathDefault(s: string, obj: Json, default: Json): (r: Result<Json>)
    ensures Path(s, obj).Ok? ==> r == Path(s, obj)
    ensures Path(s, obj).Err? && (Path(s, obj).error.KeyError? || Path(s, obj).error == IndexError)
      ==> r == Ok(default)
    ensures r.Err? <==> Path(s, obj).Err? && (Path(s, obj).error == TypeError || Path(s, obj).error == ValueError)
    ensures r.Err? ==> r == Path(s, obj)
  {
    match Path(s, obj)
    case Ok(v) => Ok(v)
    case Err(e) => if e.KeyError? || e == IndexError then Ok(default) else Err(e)
  }

  /** A dotted path that reaches a dict lacking its last key: `path` raises
      KeyError, `path_default` gives the default. */
  lemma PathDefaultMissingKey(a: string, k: string, obj: Json, m: map<string, Json>, default: Json)
    requires Path(a, obj) == Ok(JObj(m))
    requires '.' !in k && k !in m
    ensures Path(a + "." + k, obj) == Err(KeyError(Name(k)))
    ensures PathDefault(a + "." + k, obj, default) == Ok(default)
  {
    PathCompose(a, k, obj);
    PathMissingKey(m, k);
  }

  /** A dotted path that reaches a string or a number and goes on: both variants raise TypeError. */
  lemma PathDefaultScalar(a: string, k: string, obj: Json, default: Json)
    requires Path(a, obj).Ok? && !Path(a, obj).value.JArr? && !Path(a, obj).value.JObj?
    requires '.' !in k
    ensures Path(a + "." + k, obj) == Err(TypeError)
    ensures PathDefault(a + "." + k, obj, default) == Err(TypeError)
  {
    PathCompose(a, k, obj);
    PathSingle(k, Path(a, obj).value);
  }

  // ---------------------------------------------------------------------------
  // try_get

  /** A getter: a function that may raise. */
  type Get = Json -> Result<Json>

  /** `try_get`'s `getter` argument: one callable, or a list or tuple of them. */
  datatype Getter = Single(get: Get) | Several(gets: seq<Get>)

  /** The exceptions `try_get` swallows. */
  predicate Caught(e: Error) {
    e == AttributeError || e.KeyError? || e == TypeError || e == IndexError
  }

  /** `expected_type is None or isinstance(v, expected_type)` */
  predicate Matches(v: Json, expected: Option<PyType>) {
    expected.None? || IsInstance(v, expected.value)
  }

  /** A getter outcome `try_get` passes over and moves on from. */
  predicate PassedOver(res: Result<Json>, expected: Option<PyType>) {
    (res.Err? && Caught(res.error)) || (res.Ok? && !Matches(res.value, expected))
  }

  /** The getters of `try_get` tried in order: the first outcome not passed over is the
      result (a matching value, or an exception that propagates); `None` when all are. */
  function TryGetters(src: Json, gets: seq<Get>, expected: Option<PyType>): (r: Result<Json>)
    ensures (forall j | 0 <= j < |gets| :: PassedOver(gets[j](src), expected)) ==> r == Ok(JNull)
    ensures (exists j | 0 <= j < |gets| :: !PassedOver(gets[j](src), expected)) ==>
      exists k | 0 <= k < |gets| ::
        && (forall j | 0 <= j < k :: PassedOver(gets[j](src), expected))
        && !PassedOver(gets[k](src), expected)
        && r == gets[k](src)
    decreases |gets|
  {
    if gets == [] then Ok(JNull)
    else
      var res := gets[0](src);
      if PassedOver(res, expected) then
        var r := TryGetters(src, gets[1..], expected);
        assert forall j | 1 <= j < |gets| :: gets[j] == gets[1..][j - 1];
        r
      else
        res
  }

  function GetterList(getter: Getter): seq<Get> {
    match getter
    case Single(g) => [g]
    case Several(gs) => gs
  }

  /** `try_get(src, getter, expected_type)`; a lone getter acts as a one-element list. */
  function TryGet(src: Json, getter: Getter, expected: Option<PyType>): (r: Result<Json>)
    ensures getter.Single? ==> r == (if PassedOver(getter.get(src), expected) then Ok(JNull) else getter.get(src))
    ensures r.Ok? && r.value != JNull ==> Matches(r.value, expected)
    ensures r.Err? ==> !Caught(r.error)
  {
    TryGetters(src, GetterList(getter), expected)
  }

  // ---------------------------------------------------------------------------
  // remove_start

  /** `remove_start(s, start)`: drop `start` from the front of `s` when it is there. */
  function RemoveStart(s: Option<string>, start: string): (r: Option<string>)
    ensures s.None? ==> r.None?
    ensures s.Some? && start <= s.value ==> r.Some? && start + r.value == s.value
    ensures s.Some? && !(start <= s.value) ==> r == s
  {
    if s.Some? && start <= s.value then Some(s.value[|start|..]) else s
  }

  /** Removing a prefix that was just added gives back the rest. */
  lemma RemoveStartAfterPrefix(start: string, rest: string)
    ensures RemoveStart(Some(start + rest), start) == Some(rest)
  {
    assert start <= start + rest;
  }

  // ---------------------------------------------------------------------------
  // extract_keys

  /** `extract_keys(keys, obj)`: a new dict of exactly `keys`, each read from `obj`,
      or KeyError for the first key `obj` lacks. */
  method ExtractKeys(keys: seq<string>, obj: map<string, Json>) returns (r: Result<map<string, Json>>)
    ensures r.Ok? <==> forall i | 0 <= i < |keys| :: keys[i] in obj
    ensures r.Ok? ==> r.value.Keys == (set i | 0 <= i < |keys| :: keys[i])
    ensures r.Ok? ==> forall k | k in r.value :: k in obj && r.value[k] == obj[k]
    ensures r.Err? ==> exists i | 0 <= i < |keys| ::
      keys[i] !in obj && (forall j | 0 <= j < i :: keys[j] in obj) && r.error == KeyError(Name(keys[i]))
  {
    var acc: map<string, Json> := map[];
    var n := 0;
    while n < |keys|
      invariant 0 <= n <= |keys|
      invariant forall j | 0 <= j < n :: keys[j] in obj
      invariant acc.Keys == (set j | 0 <= j < n :: keys[j])
      invariant forall k | k in acc :: k in obj && acc[k] == obj[k]
    {
      var key := keys[n];
      if key !in obj {
        return Err(KeyError(Name(key)));
      }
      acc := acc[key := obj[key]];
      n := n + 1;
    }
    return Ok(acc);
  }

  // ---------------------------------------------------------------------------
  // get_text_runs

  /** `x['text']` for every run, in order; the first failure wins. */
  function RunTexts(runs: seq<Json>): (r: Result<seq<Json>>)
    ensures r.Ok? ==> |r.value| == |runs|
    ensures r.Ok? ==> forall i | 0 <= i < |runs| :: Subscript(runs[i], Name("text")) == Ok(r.value[i])
    ensures r.Ok? <==> forall i | 0 <= i < |runs| :: Subscript(runs[i], Name("text")).Ok?
    ensures r.Err? ==> exists k | 0 <= k < |runs| ::
      && (forall j | 0 <= j < k :: Subscript(runs[j], Name("text")).Ok?)
      && Subscript(runs[k], Name("text")).Err? && r == Err(Subscript(runs[k], Name("text")).error)
  {
    if runs == [] then Ok([])
    else
      var t :- Subscript(runs[0], Name("text"));
      var rest :- RunTexts(runs[1..]);
      Ok([t] + rest)
  }

  predicate AllStrings(xs: seq<Json>) {
    forall i | 0 <= i < |xs| :: xs[i].JStr?
  }

  /** `''.join(xs)` of strings. */
  function Concat(xs: seq<Json>): string
    requires AllStrings(xs)
  {
    if xs == [] then [] else xs[0].s + Concat(xs[1..])
  }

  /** `get_text_runs(desc)`: the runs' texts joined, stripped, then every line
      break written as " - ". The result holds no line break and has no
      whitespace at either end. */
  function GetTextRuns(desc: Json): (r: Result<string>)
    ensures r.Ok? ==> '\n' !in r.value
    ensures r.Ok? && r.value != [] ==> !Text.IsSpace(r.value[0]) && !Text.IsSpace(r.value[|r.value| - 1])
    ensures desc.JObj? && "runs" !in desc.fields ==> r == Err(KeyError(Name("runs")))
  {
    var runs :- Subscript(desc, Name("runs"));
    var xs :- Iterate(runs);
    var texts :- RunTexts(xs);
    if !AllStrings(texts) then
      Err(TypeError)
    else
      DashedLines(Concat(texts));
      Ok(Text.Replace(Text.Strip(Concat(texts)), '\n', " - "))
  }

  /** Stripping and then writing line breaks as " - " leaves no line break and
      no whitespace at either end. */
  lemma DashedLines(t: string)
    ensures var r := Text.Replace(Text.Strip(t), '\n', " - ");
      '\n' !in r && (r != [] ==> !Text.IsSpace(r[0]) && !Text.IsSpace(r[|r| - 1]))
  {
    var s := Text.Strip(t);
    assert Text.IsSpace('\n');
    Text.ReplaceRemoves(s, '\n', " - ");
    Text.ReplaceKeepsEnds(s, '\n', " - ");
  }

  /** The runs a description built from plain strings holds. */
  function TextRun(t: string): Json {
    JObj(map["text" := JStr(t)])
  }

  function Runs(ts: seq<string>): seq<Json> {
    seq(|ts|, i requires 0 <= i < |ts| => TextRun(ts[i]))
  }

  function JoinAll(ts: seq<string>): string {
    if ts == [] then [] else ts[0] + JoinAll(ts[1..])
  }

  lemma {:induction false} RunTextsOfRuns(ts: seq<string>)
    ensures RunTexts(Runs(ts)).Ok?
    ensures AllStrings(RunTexts(Runs(ts)).value)
    ensures Concat(RunTexts(Runs(ts)).value) == JoinAll(ts)
    decreases |ts|
  {
    if ts != [] {
      RunTextsOfRuns(ts[1..]);
      assert Runs(ts)[1..] == Runs(ts[1..]);
    }
  }

  /** For a well-formed description, `get_text_runs` is `' - '.join(text.strip().split('\n'))`
      of the concatenated runs. */
  lemma GetTextRunsOfStrings(ts: seq<string>)
    ensures GetTextRuns(JObj(map["runs" := JArr(Runs(ts))]))
         == Ok(Text.Join(Text.Split(Text.Strip(JoinAll(ts)), '\n'), " - "))
  {
    RunTextsOfRuns(ts);
    Text.ReplaceIsJoinOfSplit(Text.Strip(JoinAll(ts)), '\n', " - ");
  }

  /** Runs whose `text` values are the strings `ts`, whatever other keys they carry,
      give those strings in order. */
  lemma {:induction false} RunTextsOfTexts(xs: seq<Json>, ts: seq<string>)
    requires |ts| == |xs|
    requires forall i | 0 <= i < |xs| :: Subscript(xs[i], Name("text")) == Ok(JStr(ts[i]))
    ensures RunTexts(xs).Ok? && AllStrings(RunTexts(xs).value)
    ensures Concat(RunTexts(xs).value) == JoinAll(ts)
    decreases |xs|
  {
    if xs != [] {
      assert forall i | 0 <= i < |xs| - 1 :: xs[1..][i] == xs[i + 1] && ts[1..][i] == ts[i + 1];
      RunTextsOfTexts(xs[1..], ts[1..]);
      var texts := RunTexts(xs).value;
      assert texts == [JStr(ts[0])] + RunTexts(xs[1..]).value;
      assert texts[1..] == RunTexts(xs[1..]).value;
    }
  }

  /** `get_text_runs` on any description whose `runs` is a list of runs with string
      `text` values, whatever other keys the description and the runs carry: the
      texts joined, stripped, and split at line breaks rejoined with " - ". */
  lemma GetTextRunsValue(desc: Json, xs: seq<Json>, ts: seq<string>)
    requires Subscript(desc, Name("runs")) == Ok(JArr(xs))
    requires |ts| == |xs|
    requires forall i | 0 <= i < |xs| :: Subscript(xs[i], Name("text")) == Ok(JStr(ts[i]))
    ensures GetTextRuns(desc) == Ok(Text.Join(Text.Split(Text.Strip(JoinAll(ts)), '\n'), " - "))
  {
    RunTextsOfTexts(xs, ts);
    Text.ReplaceIsJoinOfSplit(Text.Strip(JoinAll(ts)), '\n', " - ");
  }

  // ---------------------------------------------------------------------------
  // first

  /** `first(it)`: `list(it)[0]`, IndexError when `it` is empty. */
  function First(it: Json): (r: Result<Json>)
    ensures it.JArr? ==> (r.Ok? <==> it.elems != [])
    ensures it.JArr? && r.Ok? ==> r.value == it.elems[0]
    ensures it.JArr? && r.Err? ==> r.error == IndexError
  {
    var xs :- Iterate(it);
    if xs == [] then Err(IndexError) else Ok(xs[0])
  }

  // ---------------------------------------------------------------------------
  // context_client_body

  /** The `client` part of an InnerTube request context: fixed browser and screen
      values, the user agent, and four settings copied from the page's `ytcfg`. */
  function ContextClientBody(ytcfg: Json, userAgent: string): (r: Result<map<string, Json>>)
    ensures r.Ok? <==> (
      && ytcfg.JObj?
      && "INNERTUBE_CONTEXT_CLIENT_VERSION" in ytcfg.fields
      && "INNERTUBE_CONTEXT_GL" in ytcfg.fields
      && "INNERTUBE_CONTEXT_HL" in ytcfg.fields
      && "VISITOR_DATA" in ytcfg.fields)
    ensures ytcfg.JObj? && "INNERTUBE_CONTEXT_CLIENT_VERSION" !in ytcfg.fields
      ==> r == Err(KeyError(Name("INNERTUBE_CONTEXT_CLIENT_VERSION")))
    ensures !ytcfg.JObj? ==> r == Err(TypeError)
    ensures r.Ok? ==> (
      && "clientVersion" in r.value && r.value["clientVersion"] == ytcfg.fields["INNERTUBE_CONTEXT_CLIENT_VERSION"]
      && "gl" in r.value && r.value["gl"] == ytcfg.fields["INNERTUBE_CONTEXT_GL"]
      && "hl" in r.value && r.value["hl"] == ytcfg.fields["INNERTUBE_CONTEXT_HL"]
      && "visitorData" in r.value && r.value["visitorData"] == ytcfg.fields["VISITOR_DATA"]
      && "userAgent" in r.value && r.value["userAgent"] == JStr(userAgent))
  {
    var version :- Subscript(ytcfg, Name("INNERTUBE_CONTEXT_CLIENT_VERSION"));
    var gl :- Subscript(ytcfg, Name("INNERTUBE_CONTEXT_GL"));
    var hl :- Subscript(ytcfg, Name("INNERTUBE_CONTEXT_HL"));
    var visitor :- Subscript(ytcfg, Name("VISITOR_DATA"));
    Ok(map[
      "browserName" := JStr("Chrome"),
      "browserVersion" := JStr("84.0.4147.45"),
      "clientName" := JStr("WEB"),
      "clientVersion" := version,
      "gl" := gl,
      "hl" := hl,
      "osName" := JStr("X11"),
      "screenHeightPoints" := JInt(771),
      "screenPixelDensity" := JInt(2),
      "screenWidthPoints" := JInt(1272),
      "userAgent" := JStr(userAgent),
      "userInterfaceTheme" := JStr("USER_INTERFACE_THEME_DARK"),
      "utcOffsetMinutes" := JInt(-240),
      "visitorData" := visitor])
  }
}

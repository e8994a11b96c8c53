/**
 Finding the Favourites (liked videos) playlist in the home page's guide data:
 `check_section_items` and the lookup `get_favorites_playlist_id` does around it.

 The scan is stated twice: once as the code walks the JSON, and once over a
 typed picture of the guide (entries, collapsible groups of entries, other
 items), where the answer is simply the id of the first liked-videos entry in
 guide order. The two are proved to agree on every guide the picture describes.
 */
module Guide {
  import opened Py

  const LikesIcon: string := "LIKES_PLAYLIST"

  /** `entry['guideEntryRenderer']['icon']['iconType']` */
  const IconPath: seq<Key> := [Name("guideEntryRenderer"), Name("icon"), Name("iconType")]

  /** `entry['guideEntryRenderer']['entryData']['guideEntryData']['guideEntryId']` */
  const EntryIdPath: seq<Key> := [Name("guideEntryRenderer"), Name("entryData"), Name("guideEntryData"), Name("guideEntryId")]

  /** One guide entry: `Some(id)` when it is the liked-videos entry, `None` when it
      is another entry. Entries are subscripted directly, so a malformed one raises. */
  function CheckEntry(entry: Json): (r: Result<Option<Json>>)
    ensures r.Ok? && r.value.Some? ==> Walk(entry, IconPath) == Ok(JStr(LikesIcon)) && Walk(entry, EntryIdPath) == Ok(r.value.value)
    ensures r.Ok? && r.value.None? ==> Walk(entry, IconPath).Ok? && Walk(entry, IconPath) != Ok(JStr(LikesIcon))
    ensures Walk(entry, IconPath).Err? ==> r == Err(Walk(entry, IconPath).error)
    ensures Walk(entry, IconPath).Ok? && Walk(entry, IconPath) != Ok(JStr(LikesIcon)) ==> r == Ok(None)
    ensures Walk(entry, IconPath) == Ok(JStr(LikesIcon)) ==>
      r == match Walk(entry, EntryIdPath) case Ok(id) => Ok(Some(id)) case Err(e) => Err(e)
  {
    var icon :- Walk(entry, IconPath);
    if icon == JStr(LikesIcon) then
      var id :- Walk(entry, EntryIdPath);
      Ok(Some(id))
    else
      Ok(None)
  }

  /** The inner loop over a collapsible entry's `expandableItems`. */
  function CheckExpandable(entries: seq<Json>): (r: Result<Option<Json>>)
    ensures r == Ok(None) <==> forall i | 0 <= i < |entries| :: CheckEntry(entries[i]) == Ok(None)
    ensures r != Ok(None) ==> exists k | 0 <= k < |entries| ::
      && (forall j | 0 <= j < k :: CheckEntry(entries[j]) == Ok(None))
      && CheckEntry(entries[k]) == r
  {
    if entries == [] then Ok(None)
    else
      var found :- CheckEntry(entries[0]);
      if found.Some? then Ok(found) else CheckExpandable(entries[1..])
  }

  /** `item['guideCollapsibleEntryRenderer']['expandableItems']` */
  const GroupPath: seq<Key> := [Name("guideCollapsibleEntryRenderer"), Name("expandableItems")]

  /** One section item: an entry is checked itself; a collapsible entry has its
      `expandableItems` checked; any other item is passed over. */
  function CheckItem(item: Json): (r: Result<Option<Json>>)
    ensures item.JObj? && "guideEntryRenderer" in item.fields ==> r == CheckEntry(item)
    ensures item.JObj? && "guideEntryRenderer" !in item.fields && "guideCollapsibleEntryRenderer" in item.fields ==>
      r == match IterateAt(item, GroupPath) case Ok(entries) => CheckExpandable(entries) case Err(e) => Err(e)
    ensures item.JObj? && "guideEntryRenderer" !in item.fields && "guideCollapsibleEntryRenderer" !in item.fields
      ==> r == Ok(None)
    ensures !(item.JObj? || item.JArr? || item.JStr?) ==> r == Err(TypeError)
  {
    var isEntry :- Contains(item, "guideEntryRenderer");
    if isEntry then
      CheckEntry(item)
    else
      // a container for the first test is one for the second
      var isCollapsible := Contains(item, "guideCollapsibleEntryRenderer").value;
      if isCollapsible then
        var entries :- IterateAt(item, GroupPath);
        CheckExpandable(entries)
      else
        Ok(None)
  }

  /** The outer loop: the first item that returns ends the scan. */
  function CheckItems(items: seq<Json>): (r: Result<Option<Json>>)
    ensures r == Ok(None) <==> forall i | 0 <= i < |items| :: CheckItem(items[i]) == Ok(None)
    ensures r != Ok(None) ==> exists k | 0 <= k < |items| ::
      && (forall j | 0 <= j < k :: CheckItem(items[j]) == Ok(None))
      && CheckItem(items[k]) == r
  {
    if items == [] then Ok(None)
    else
      var found :- CheckItem(items[0]);
      if found.Some? then Ok(found) else CheckItems(items[1..])
  }

  /** `check_section_items(items)`; `None` is `JNull`. An id it returns, and an
      error it raises, come from the first item that does not give `None`. */
  function CheckSectionItems(items: Json): (r: Result<Json>)
    ensures Iterate(items).Err? ==> r == Err(TypeError)
    ensures items.JArr? && (forall i | 0 <= i < |items.elems| :: CheckItem(items.elems[i]) == Ok(None)) ==> r == Ok(JNull)
    ensures r.Ok? && r.value != JNull ==> (
      && Iterate(items).Ok?
      && exists k | 0 <= k < |Iterate(items).value| :: CheckItem(Iterate(items).value[k]) == Ok(Some(r.value)))
    ensures r.Ok? && r.value != JNull ==> exists k | 0 <= k < |Iterate(items).value| ::
      && (forall j | 0 <= j < k :: CheckItem(Iterate(items).value[j]) == Ok(None))
      && CheckItem(Iterate(items).value[k]) == Ok(Some(r.value))
    ensures Iterate(items).Ok? && r.Err? ==> exists k | 0 <= k < |Iterate(items).value| ::
      && (forall j | 0 <= j < k :: CheckItem(Iterate(items).value[j]) == Ok(None))
      && CheckItem(Iterate(items).value[k]) == Err(r.error)
  {
    var xs :- Iterate(items);
    var found :- CheckItems(xs);
    Ok(if found.Some? then found.value else JNull)
  }

  /** `gd['items'][0]['guideSectionRenderer']['items'][4]
      ['guideCollapsibleSectionEntryRenderer']['sectionItems']` */
  const SectionItemsPath: seq<Key> := [
    Name("items"), Index(0), Name("guideSectionRenderer"), Name("items"), Index(4),
    Name("guideCollapsibleSectionEntryRenderer"), Name("sectionItems")]

  /** `section_items[-1]['guideCollapsibleEntryRenderer']['expandableItems']` */
  const FallbackPath: seq<Key> := [Index(-1)] + GroupPath

  /** The lookup on a cache miss: scan the section items, and when that finds nothing
      truthy, scan the last item's `expandableItems`; ValueError if that fails too.
      What it returns is always a truthy id, so it is worth caching. */
  function FavoritesFromGuide(guideData: Json): (r: Result<Json>)
    ensures r.Ok? ==> Truthy(r.value)
    ensures r.Ok? ==> Walk(guideData, SectionItemsPath).Ok?
    ensures Walk(guideData, SectionItemsPath).Err? ==> r == Err(Walk(guideData, SectionItemsPath).error)
    ensures Walk(guideData, SectionItemsPath).Ok? ==>
      var sectionItems := Walk(guideData, SectionItemsPath).value;
      var scan := CheckSectionItems(sectionItems);
      && (scan.Err? ==> r == Err(scan.error))
      && (scan.Ok? && Truthy(scan.value) ==> r == scan)
      && (scan.Ok? && !Truthy(scan.value) && Walk(sectionItems, FallbackPath).Err? ==>
            r == Err(Walk(sectionItems, FallbackPath).error))
      && (scan.Ok? && !Truthy(scan.value) && Walk(sectionItems, FallbackPath).Ok? ==>
            var again := CheckSectionItems(Walk(sectionItems, FallbackPath).value);
            r == if again.Ok? && !Truthy(again.value) then Err(ValueError) else again)
  {
    var sectionItems :- Walk(guideData, SectionItemsPath);
    var found :- CheckSectionItems(sectionItems);
    if Truthy(found) then
      Ok(found)
    else
      var expandable :- Walk(sectionItems, FallbackPath);
      var again :- CheckSectionItems(expandable);
      if !Truthy(again) then Err(ValueError) else Ok(again)
  }

  // ---------------------------------------------------------------------------
  // The guide as the scan expects it.

  /** A guide link: its icon type and its entry id. */
  datatype Link = Link(icon: string, id: Json)

  /** A section item: a plain entry, a collapsible group of entries, or any other
      item (a dict with neither renderer key). */
  datatype GuideItem = Entry(link: Link) | Collapsible(links: seq<Link>) | Other(fields: map<string, Json>)

  /** `j` is read by the scan as the link `l`: a dict with `guideEntryRenderer`
      whose icon type is `l.icon` and, when that is the liked-videos icon, whose
      entry id is `l.id`. Nothing else about `j` is constrained, so real entries,
      which carry titles, endpoints and more, are described too. */
  predicate ShowsLink(j: Json, l: Link) {
    && j.JObj? && "guideEntryRenderer" in j.fields
    && Walk(j, IconPath) == Ok(JStr(l.icon))
    && (l.icon == LikesIcon ==> Walk(j, EntryIdPath) == Ok(l.id))
  }

  predicate ShowsLinks(js: seq<Json>, ls: seq<Link>) {
    |js| == |ls| && forall i | 0 <= i < |ls| :: ShowsLink(js[i], ls[i])
  }

  /** `j` is read by the scan, and by the fallback that subscripts the last item's
      `guideCollapsibleEntryRenderer`, as the item `g`. Only the keys those reads
      test or follow are constrained. */
  predicate Shows(j: Json, g: GuideItem) {
    match g
    case Entry(l) => ShowsLink(j, l) && "guideCollapsibleEntryRenderer" !in j.fields
    case Collapsible(ls) =>
      && j.JObj? && "guideEntryRenderer" !in j.fields && "guideCollapsibleEntryRenderer" in j.fields
      && Walk(j, GroupPath).Ok? && Walk(j, GroupPath).value.JArr?
      && ShowsLinks(Walk(j, GroupPath).value.elems, ls)
    case Other(m) => j == JObj(m) && "guideEntryRenderer" !in m && "guideCollapsibleEntryRenderer" !in m
  }

  predicate ShowsAll(js: seq<Json>, items: seq<GuideItem>) {
    |js| == |items| && forall i | 0 <= i < |items| :: Shows(js[i], items[i])
  }

  /** Every link of the guide in the order the guide shows them, groups opened. */
  function Links(items: seq<GuideItem>): seq<Link> {
    if items == [] then []
    else
      (match items[0]
       case Entry(l) => [l]
       case Collapsible(ls) => ls
       case Other(_) => []) + Links(items[1..])
  }

  /** The id of the first liked-videos link, if there is one. */
  function FindLikes(ls: seq<Link>): (r: Option<Json>)
    ensures r.Some? <==> exists i | 0 <= i < |ls| :: ls[i].icon == LikesIcon
    ensures r.Some? ==> exists i | 0 <= i < |ls| ::
      && ls[i].icon == LikesIcon
      && ls[i].id == r.value
      && forall j | 0 <= j < i :: ls[j].icon != LikesIcon
  {
    if ls == [] then None
    else if ls[0].icon == LikesIcon then Some(ls[0].id)
    else
      var r := FindLikes(ls[1..]);
      assert forall i | 1 <= i < |ls| :: ls[i] == ls[1..][i - 1];
      r
  }

  function FirstLikes(ls: seq<Link>): Json {
    match FindLikes(ls)
    case Some(id) => id
    case None => JNull
  }

  lemma {:induction false} FindLikesAppend(a: seq<Link>, b: seq<Link>)
    ensures FindLikes(a + b) == if FindLikes(a).Some? then FindLikes(a) else FindLikes(b)
    decreases |a|
  {
    if a == [] {
      assert a + b == b;
    } else {
      assert (a + b)[0] == a[0];
      assert (a + b)[1..] == a[1..] + b;
      FindLikesAppend(a[1..], b);
    }
  }

  lemma CheckEntryOfLink(j: Json, l: Link)
    requires ShowsLink(j, l)
    ensures CheckEntry(j) == Ok(if l.icon == LikesIcon then Some(l.id) else None)
  {
    if l.icon != LikesIcon {
      assert JStr(l.icon) != JStr(LikesIcon);
    }
  }

  lemma {:induction false} CheckExpandableOfLinks(js: seq<Json>, ls: seq<Link>)
    requires ShowsLinks(js, ls)
    ensures CheckExpandable(js) == Ok(FindLikes(ls))
    decreases |ls|
  {
    if ls != [] {
      CheckEntryOfLink(js[0], ls[0]);
      ShowsLinksTail(js, ls);
      CheckExpandableOfLinks(js[1..], ls[1..]);
    }
  }

  lemma ShowsLinksTail(js: seq<Json>, ls: seq<Link>)
    requires ShowsLinks(js, ls) && ls != []
    ensures ShowsLinks(js[1..], ls[1..])
  {
    forall i | 0 <= i < |ls| - 1 ensures ShowsLink(js[1..][i], ls[1..][i]) {
      assert js[1..][i] == js[i + 1] && ls[1..][i] == ls[i + 1];
    }
  }

  /** The two renderer keys differ. */
  lemma RendererKeysDiffer()
    ensures "guideEntryRenderer" != "guideCollapsibleEntryRenderer"
  {
    assert |"guideEntryRenderer"| != |"guideCollapsibleEntryRenderer"|;
  }

  /** One item, as the code checks it, finds what the reference finds in it. */
  lemma CheckItemOfGuide(j: Json, g: GuideItem)
    requires Shows(j, g)
    ensures CheckItem(j) == Ok(FindLikes(Links([g])))
  {
    LinksOfOne(g);
    match g
    case Entry(l) =>
      CheckEntryOfLink(j, l);
      assert [l][1..] == [];
    case Collapsible(ls) =>
      CheckExpandableOfLinks(Walk(j, GroupPath).value.elems, ls);
    case Other(m) =>
  }

  lemma LinksOfOne(g: GuideItem)
    ensures Links([g]) == match g case Entry(l) => [l] case Collapsible(ls) => ls case Other(_) => []
  {
    assert [g][1..] == [];
  }

  /** The code's item loop finds what the reference finds. */
  lemma {:induction false} CheckItemsOfGuide(js: seq<Json>, items: seq<GuideItem>)
    requires ShowsAll(js, items)
    ensures CheckItems(js) == Ok(FindLikes(Links(items)))
    decreases |items|
  {
    if items != [] {
      assert ShowsAll(js[1..], items[1..]) by {
        forall i | 0 <= i < |items| - 1 ensures Shows(js[1..][i], items[1..][i]) {
          assert js[1..][i] == js[i + 1] && items[1..][i] == items[i + 1];
        }
      }
      CheckItemsOfGuide(js[1..], items[1..]);
      CheckItemOfGuide(js[0], items[0]);
      LinksAppend([items[0]], items[1..]);
      assert [items[0]] + items[1..] == items;
      FindLikesAppend(Links([items[0]]), Links(items[1..]));
    }
  }

  /** `check_section_items` on a guide returns the id of its first liked-videos
      link, looking inside collapsible groups, or None when there is none. */
  lemma CheckSectionItemsOfGuide(js: seq<Json>, items: seq<GuideItem>)
    requires ShowsAll(js, items)
    ensures CheckSectionItems(JArr(js)) == Ok(FirstLikes(Links(items)))
  {
    CheckItemsOfGuide(js, items);
  }

  /** A group's entries, read as section items, are checked link by link. */
  lemma {:induction false} CheckItemsOfLinks(js: seq<Json>, ls: seq<Link>)
    requires ShowsLinks(js, ls)
    ensures CheckItems(js) == Ok(FindLikes(ls))
    decreases |ls|
  {
    if ls != [] {
      CheckEntryOfLink(js[0], ls[0]);
      ShowsLinksTail(js, ls);
      CheckItemsOfLinks(js[1..], ls[1..]);
    }
  }

  /** Where the fallback looks: the last item's group, if the last item is a group. */
  lemma FallbackOfGuide(js: seq<Json>, items: seq<GuideItem>)
    requires ShowsAll(js, items)
    ensures var w := Walk(JArr(js), FallbackPath);
      && (items == [] ==> w == Err(IndexError))
      && (items != [] && items[|items| - 1].Collapsible? ==>
            w.Ok? && w.value.JArr? && ShowsLinks(w.value.elems, items[|items| - 1].links))
      && (items != [] && !items[|items| - 1].Collapsible? ==> w == Err(KeyError(Name("guideCollapsibleEntryRenderer"))))
  {
    if items != [] {
      var last := js[|js| - 1];
      assert Subscript(JArr(js), Index(-1)) == Ok(last);
      assert FallbackPath[1..] == GroupPath;
      assert Walk(JArr(js), FallbackPath) == Walk(last, GroupPath);
      assert Shows(last, items[|items| - 1]);
      LastItemGroup(last, items[|items| - 1]);
    }
  }

  /** The last two steps of the fallback, on one item. */
  lemma LastItemGroup(j: Json, g: GuideItem)
    requires Shows(j, g)
    ensures var w := Walk(j, GroupPath);
      && (g.Collapsible? ==> w.Ok? && w.value.JArr? && ShowsLinks(w.value.elems, g.links))
      && (!g.Collapsible? ==> w == Err(KeyError(Name("guideCollapsibleEntryRenderer"))))
  {
    if !g.Collapsible? {
      assert j.JObj? && "guideCollapsibleEntryRenderer" !in j.fields;
      assert Subscript(j, Name("guideCollapsibleEntryRenderer")) == Err(KeyError(Name("guideCollapsibleEntryRenderer")));
    }
  }

  /** The lookup on a guide: the first liked-videos id when it is truthy; otherwise
      the fallback rescans the last item's group, which fails with ValueError unless
      that group holds a liked-videos link with a truthy id, and fails with a lookup
      error when the last item is not a group. */
  lemma FavoritesOfGuide(guideData: Json, js: seq<Json>, items: seq<GuideItem>)
    requires Walk(guideData, SectionItemsPath) == Ok(JArr(js))
    requires ShowsAll(js, items)
    ensures var r := FavoritesFromGuide(guideData);
      var first := FirstLikes(Links(items));
      && (Truthy(first) ==> r == Ok(first))
      && (!Truthy(first) && items == [] ==> r == Err(IndexError))
      && (!Truthy(first) && items != [] && items[|items| - 1].Collapsible? ==>
            var again := FirstLikes(items[|items| - 1].links);
            r == if Truthy(again) then Ok(again) else Err(ValueError))
      && (!Truthy(first) && items != [] && !items[|items| - 1].Collapsible? ==>
            r == Err(KeyError(Name("guideCollapsibleEntryRenderer"))))
  {
    CheckSectionItemsOfGuide(js, items);
    FallbackOfGuide(js, items);
    var first := FirstLikes(Links(items));
    if !Truthy(first) && items != [] && items[|items| - 1].Collapsible? {
      RescanGroup(JArr(js), items[|items| - 1].links);
    }
  }

  /** The fallback's rescan of a group finds the group's first liked-videos link. */
  lemma RescanGroup(sectionItems: Json, ls: seq<Link>)
    requires Walk(sectionItems, FallbackPath).Ok? && Walk(sectionItems, FallbackPath).value.JArr?
    requires ShowsLinks(Walk(sectionItems, FallbackPath).value.elems, ls)
    ensures CheckSectionItems(Walk(sectionItems, FallbackPath).value) == Ok(FirstLikes(ls))
  {
    CheckItemsOfLinks(Walk(sectionItems, FallbackPath).value.elems, ls);
  }

  /** A guide without any liked-videos link never yields an id. */
  lemma FavoritesMissing(guideData: Json, js: seq<Json>, items: seq<GuideItem>)
    requires Walk(guideData, SectionItemsPath) == Ok(JArr(js))
    requires ShowsAll(js, items)
    requires forall i | 0 <= i < |Links(items)| :: Links(items)[i].icon != LikesIcon
    ensures FavoritesFromGuide(guideData).Err?
  {
    FavoritesOfGuide(guideData, js, items);
    NoLikesFirst(Links(items));
    if items != [] && items[|items| - 1].Collapsible? {
      LastGroupNoLikes(items);
      NoLikesFirst(items[|items| - 1].links);
    }
  }

  /** Without a liked-videos link the scan finds `None`. */
  lemma NoLikesFirst(ls: seq<Link>)
    requires forall i | 0 <= i < |ls| :: ls[i].icon != LikesIcon
    ensures FirstLikes(ls) == JNull
  {
  }

  /** The links of a trailing group are among the guide's links. */
  lemma LastGroupNoLikes(items: seq<GuideItem>)
    requires items != [] && items[|items| - 1].Collapsible?
    requires forall i | 0 <= i < |Links(items)| :: Links(items)[i].icon != LikesIcon
    ensures var ls := items[|items| - 1].links; forall i | 0 <= i < |ls| :: ls[i].icon != LikesIcon
  {
    var front := items[..|items| - 1];
    var ls := items[|items| - 1].links;
    LinksAppend(front, [items[|items| - 1]]);
    assert front + [items[|items| - 1]] == items;
    assert Links([items[|items| - 1]]) == ls + Links([]);
    assert forall i | 0 <= i < |ls| :: ls[i] == Links(items)[|Links(front)| + i];
  }

  lemma {:induction false} LinksAppend(a: seq<GuideItem>, b: seq<GuideItem>)
    ensures Links(a + b) == Links(a) + Links(b)
    decreases |a|
  {
    if a == [] {
      assert a + b == b;
    } else {
      assert (a + b)[0] == a[0];
      assert (a + b)[1..] == a[1..] + b;
      LinksAppend(a[1..], b);
    }
  }

  // ---------------------------------------------------------------------------
  // The smallest JSON that shows a guide: each entry holds only its icon and id.

  function EncodeLink(l: Link): Json {
    JObj(map["guideEntryRenderer" := JObj(map[
      "icon" := JObj(map["iconType" := JStr(l.icon)]),
      "entryData" := JObj(map["guideEntryData" := JObj(map["guideEntryId" := l.id])])])])
  }

  function EncodeLinks(ls: seq<Link>): (r: seq<Json>)
    ensures |r| == |ls| && forall i | 0 <= i < |ls| :: r[i] == EncodeLink(ls[i])
  {
    if ls == [] then [] else [EncodeLink(ls[0])] + EncodeLinks(ls[1..])
  }

  function EncodeItem(g: GuideItem): Json {
    match g
    case Entry(l) => EncodeLink(l)
    case Collapsible(ls) =>
      JObj(map["guideCollapsibleEntryRenderer" := JObj(map["expandableItems" := JArr(EncodeLinks(ls))])])
    case Other(m) => JObj(m)
  }

  /** The minimal encoding of a link is read back as that link. */
  lemma EncodeLinkShows(l: Link)
    ensures ShowsLink(EncodeLink(l), l)
  {
    var renderer := EncodeLink(l).fields["guideEntryRenderer"];
    assert Walk(EncodeLink(l), IconPath) == Walk(renderer, IconPath[1..]);
    assert Walk(EncodeLink(l), EntryIdPath) == Walk(renderer, EntryIdPath[1..]);
  }

  /** The minimal encoding of an item is read back as that item, provided an
      `Other` item holds neither renderer key. */
  lemma EncodeItemShows(g: GuideItem)
    requires g.Other? ==> "guideEntryRenderer" !in g.fields && "guideCollapsibleEntryRenderer" !in g.fields
    ensures Shows(EncodeItem(g), g)
  {
    RendererKeysDiffer();
    match g
    case Entry(l) =>
      EncodeLinkShows(l);
    case Collapsible(ls) =>
      var inner := JObj(map["expandableItems" := JArr(EncodeLinks(ls))]);
      assert Subscript(EncodeItem(g), Name("guideCollapsibleEntryRenderer")) == Ok(inner);
      assert Walk(EncodeItem(g), GroupPath) == Ok(JArr(EncodeLinks(ls)));
      forall i | 0 <= i < |ls| ensures ShowsLink(EncodeLinks(ls)[i], ls[i]) {
        EncodeLinkShows(ls[i]);
      }
    case Other(m) =>
  }
}

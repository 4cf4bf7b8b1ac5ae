/** The RSS helper of generic_rss.py, `process_rss_feed`, which a feed
    processor calls to rebuild an RSS feed: the cache of items a
    previous run wrote, indexed by guid (lines 19-35), and the selection of
    at most fifty items from a parsed feed, reusing cached items and
    building the others (lines 37-88). Fetching and parsing the feed,
    fetching the linked pages and writing the XML file are left to the
    caller: their results arrive as values and as the `ImageLookup` oracle. */
module GenericRss {
  import opened Common

  /** The text of an XML element; None for an element with no text. */
  type Text = Option<string>

  /** An `<item>` element of the RSS document: each field is the text of the
      child element of that name, None when there is no such child. */
  datatype Item = Item(
    title: Option<Text>,
    link: Option<Text>,
    guid: Option<Text>,
    description: Option<Text>,
    pubDate: Option<Text>)

  /** The output file of an earlier run, as the XML parser reads it: no
      file, a file it cannot parse, or every `<item>` at any depth in
      document order. */
  datatype CacheFile = Missing | Unparseable | Parsed(items: seq<Item>)

  /** A cached item under the text of its `<guid>`. */
  type Index = map<Text, Item>

  /** The items of a document keyed by the text of their `<guid>`: items
      without one are skipped, and of several items with the same guid the
      last in document order is kept. */
  function IndexByGuid(items: seq<Item>): Index
    decreases |items|
  {
    if items == [] then map[]
    else
      var index := IndexByGuid(items[..|items| - 1]);
      var last := items[|items| - 1];
      if last.guid.Some? then index[last.guid.value := last] else index
  }

  /** What `get_existing_entries` returns for a cache file. */
  function ExistingEntries(file: CacheFile): Index {
    match file
    case Parsed(items) => IndexByGuid(items)
    case _ => map[]
  }

  /** A guid is a key of the index exactly when some item carries it. */
  lemma {:induction false} IndexKeys(items: seq<Item>, k: Text)
    ensures k in IndexByGuid(items) <==> exists i :: 0 <= i < |items| && items[i].guid == Some(k)
    decreases |items|
  {
    if items != [] {
      var front := items[..|items| - 1];
      IndexKeys(front, k);
      if exists i :: 0 <= i < |front| && front[i].guid == Some(k) {
        var i :| 0 <= i < |front| && front[i].guid == Some(k);
        assert items[i] == front[i];
      }
      if exists i :: 0 <= i < |items| && items[i].guid == Some(k) {
        var i :| 0 <= i < |items| && items[i].guid == Some(k);
        if i < |front| {
          assert front[i] == items[i];
        }
      }
    }
  }

  /** The item kept under a guid is the last item carrying it. */
  lemma {:induction false} IndexLastWins(items: seq<Item>, k: Text)
    requires k in IndexByGuid(items)
    ensures exists i :: && 0 <= i < |items| && items[i].guid == Some(k)
                        && IndexByGuid(items)[k] == items[i]
                        && forall j :: i < j < |items| ==> items[j].guid != Some(k)
    decreases |items|
  {
    var front := items[..|items| - 1];
    var last := items[|items| - 1];
    if last.guid == Some(k) {
      assert IndexByGuid(items)[k] == items[|items| - 1];
    } else {
      IndexLastWins(front, k);
      var i :| && 0 <= i < |front| && front[i].guid == Some(k)
               && IndexByGuid(front)[k] == front[i]
               && forall j :: i < j < |front| ==> front[j].guid != Some(k);
      assert items[i] == front[i];
      forall j | i < j < |items|
        ensures items[j].guid != Some(k)
      {
        if j < |front| {
          assert items[j] == front[j];
        }
      }
    }
  }

  /** Every item of an index is filed under its own guid. */
  predicate KeyedByGuid(index: Index) {
    forall k :: k in index ==> index[k].guid == Some(k)
  }

  lemma IndexKeyedByGuid(items: seq<Item>)
    ensures KeyedByGuid(IndexByGuid(items))
  {
    forall k | k in IndexByGuid(items)
      ensures IndexByGuid(items)[k].guid == Some(k)
    {
      IndexLastWins(items, k);
    }
  }

  /** `get_existing_entries` (generic_rss.py:19-35): no file or a file the
      parser rejects gives the empty index; otherwise each `<item>` is filed
      under its guid text in turn. */
  method GetExistingEntries(file: CacheFile) returns (existing: Index)
    ensures existing == ExistingEntries(file)
    ensures !file.Parsed? ==> existing == map[]
  {
    if file.Missing? || file.Unparseable? {
      return map[];
    }
    var items := file.items;
    existing := map[];
    for i := 0 to |items|
      invariant existing == IndexByGuid(items[..i])
    {
      assert items[..i + 1][..i] == items[..i];
      var guid := items[i].guid;
      if guid.Some? {
        existing := existing[guid.value := items[i]];
      }
    }
    assert items[..|items|] == items;
  }

  /** A feed entry as the feed parser delivers it; None marks an absent
      attribute. */
  datatype Entry = Entry(
    guid: Option<string>,
    link: Option<string>,
    title: Option<string>,
    description: Option<string>,
    published: Option<string>)

  /** `get_image_from_url(link, img_filter)`: the `src` of the first image
      of the linked page whose `src` contains the filter, or None (also when
      fetching or parsing the page fails). */
  type ImageLookup = string -> Option<string>

  const MaxItems := 50

  /** The number of entries the loop looks at before it stops. */
  function Capped(n: nat): (r: nat)
    ensures r <= MaxItems && r <= n
    ensures r == n || r == MaxItems
  {
    if n < MaxItems then n else MaxItems
  }

  /** generic_rss.py:62: the entry's guid, or its link when it has none.
      The link is read even when the guid is present, so an entry without a
      link raises. */
  function EntryGuid(e: Entry): (r: Result<string, Exception>)
    ensures e.link.None? ==> r == Err(AttributeError("link"))
    ensures e.link.Some? ==> r.Ok? && (r.value == e.link.value || Some(r.value) == e.guid)
    ensures e.guid.Some? && e.link.Some? ==> r == Ok(e.guid.value)
  {
    if e.link.None? then Err(AttributeError("link"))
    else Ok(e.guid.GetOr(e.link.value))
  }

  /** The description that replaces the entry's own when an image is found
      (generic_rss.py:78). */
  function ImageHtml(url: string): string {
    "<link rel=\"preload\" as=\"image\" href=\"" + url + "\"/><img src=\"" + url + "\">"
  }

  /** generic_rss.py:75-82: the image markup when the linked page yields a
      non-empty image URL, else the entry's description, else empty. */
  function NewDescription(e: Entry, link: string, image: ImageLookup): (r: string)
    ensures image(link).Some? && image(link).value != "" ==> r == ImageHtml(image(link).value)
    ensures (image(link).None? || image(link).value == "") ==> r == e.description.GetOr("")
  {
    var found := image(link);
    if found.Some? && found.value != "" then ImageHtml(found.value) else e.description.GetOr("")
  }

  /** generic_rss.py:68-85: the item built for an entry that is not cached;
      an entry without a title raises. */
  function NewItem(e: Entry, link: string, guid: string, image: ImageLookup): (r: Result<Item, Exception>)
    ensures e.title.None? <==> r.Err?
    ensures r.Err? ==> r.error == AttributeError("title")
    ensures r.Ok? ==>
      && r.value.title == Some(e.title)
      && r.value.link == Some(Some(link))
      && r.value.guid == Some(Some(guid))
      && r.value.description == Some(Some(NewDescription(e, link, image)))
      && (r.value.pubDate.Some? <==> e.published.Some?)
      && (e.published.Some? ==> r.value.pubDate == Some(e.published))
  {
    if e.title.None? then Err(AttributeError("title"))
    else
      var pubDate := if e.published.Some? then Some(e.published) else None;
      Ok(Item(Some(e.title), Some(Some(link)), Some(Some(guid)), Some(Some(NewDescription(e, link, image))), pubDate))
  }

  /** The item an entry contributes, and whether it is new. */
  datatype Emitted = Emitted(item: Item, isNew: bool)

  /** One pass of the loop body (generic_rss.py:61-88): a cached guid gives
      the cached item unchanged, any other entry a new item. */
  function EmitEntry(e: Entry, existing: Index, image: ImageLookup): Result<Emitted, Exception> {
    match EntryGuid(e)
    case Err(x) => Err(x)
    case Ok(guid) =>
      if Some(guid) in existing then Ok(Emitted(existing[Some(guid)], false))
      else match NewItem(e, e.link.value, guid, image)
        case Err(x) => Err(x)
        case Ok(item) => Ok(Emitted(item, true))
  }

  /** The entry's guid is in the cache. */
  predicate Cached(e: Entry, existing: Index) {
    EntryGuid(e).Ok? && Some(EntryGuid(e).value) in existing
  }

  /** An entry whose guid is cached yields the cached item unchanged and is
      not new; any other entry yields its new item; an entry fails exactly
      when it has no link, or is not cached and has no title. */
  lemma EmitEntryCases(e: Entry, existing: Index, image: ImageLookup)
    ensures var r := EmitEntry(e, existing, image);
      && (r.Ok? ==> EntryGuid(e).Ok?)
      && (r.Ok? && !r.value.isNew <==> Cached(e, existing))
      && (r.Ok? && !r.value.isNew ==> r.value.item == existing[Some(EntryGuid(e).value)])
      && (r.Ok? && r.value.isNew ==> Ok(r.value.item) == NewItem(e, e.link.value, EntryGuid(e).value, image))
      && (r.Err? <==> e.link.None? || (!Cached(e, existing) && e.title.None?))
  {
  }

  /** The items emitted for a run of entries and how many of them are new. */
  datatype Selection = Selection(items: seq<Item>, newItems: nat)

  /** The loop over `entries` in order, without the cap: the first entry
      that raises ends the run with its exception. */
  function SelectItems(entries: seq<Entry>, existing: Index, image: ImageLookup): Result<Selection, Exception>
    decreases |entries|
  {
    if entries == [] then Ok(Selection([], 0))
    else
      match SelectItems(entries[..|entries| - 1], existing, image)
      case Err(x) => Err(x)
      case Ok(sel) =>
        match EmitEntry(entries[|entries| - 1], existing, image)
        case Err(x) => Err(x)
        case Ok(em) => Ok(Selection(sel.items + [em.item], sel.newItems + if em.isNew then 1 else 0))
  }

  /** The selection of `entries[..i + 1]` is that of `entries[..i]`
      extended by what `entries[i]` emits. */
  lemma SelectStep(entries: seq<Entry>, i: int, existing: Index, image: ImageLookup)
    requires 0 <= i < |entries|
    ensures SelectItems(entries[..i + 1], existing, image) ==
      match SelectItems(entries[..i], existing, image)
      case Err(x) => Err(x)
      case Ok(sel) =>
        match EmitEntry(entries[i], existing, image)
        case Err(x) => Err(x)
        case Ok(em) => Ok(Selection(sel.items + [em.item], sel.newItems + if em.isNew then 1 else 0))
  {
    assert entries[..i + 1][..i] == entries[..i];
  }

  /** The selection has one item per entry, in feed order, each the one its
      entry emits, and at most as many new items as items. */
  lemma {:induction false} SelectionInOrder(entries: seq<Entry>, existing: Index, image: ImageLookup)
    requires SelectItems(entries, existing, image).Ok?
    ensures var sel := SelectItems(entries, existing, image).value;
      && |sel.items| == |entries|
      && sel.newItems <= |sel.items|
      && forall j :: 0 <= j < |entries| ==>
           EmitEntry(entries[j], existing, image).Ok? && sel.items[j] == EmitEntry(entries[j], existing, image).value.item
    decreases |entries|
  {
    if entries != [] {
      var n := |entries| - 1;
      var front := entries[..n];
      SelectionInOrder(front, existing, image);
      var fsel := SelectItems(front, existing, image).value;
      var em := EmitEntry(entries[n], existing, image).value;
      var sel := SelectItems(entries, existing, image).value;
      assert sel.items == fsel.items + [em.item];
      forall j | 0 <= j < n
        ensures EmitEntry(entries[j], existing, image).Ok? && sel.items[j] == EmitEntry(entries[j], existing, image).value.item
      {
        assert entries[j] == front[j];
      }
    }
  }

  /** The run fails exactly when some entry raises, and then with the
      exception of the first entry that does. */
  lemma {:induction false} SelectionFailure(entries: seq<Entry>, existing: Index, image: ImageLookup)
    ensures SelectItems(entries, existing, image).Err? <==>
      exists j :: 0 <= j < |entries| && EmitEntry(entries[j], existing, image).Err?
    ensures SelectItems(entries, existing, image).Err? ==>
      exists j :: && 0 <= j < |entries|
                  && Err(SelectItems(entries, existing, image).error) == EmitEntry(entries[j], existing, image)
                  && forall i :: 0 <= i < j ==> EmitEntry(entries[i], existing, image).Ok?
    decreases |entries|
  {
    if entries != [] {
      var front := entries[..|entries| - 1];
      var n := |entries| - 1;
      SelectionFailure(front, existing, image);
      if SelectItems(front, existing, image).Err? {
        var j :| && 0 <= j < |front|
                 && Err(SelectItems(front, existing, image).error) == EmitEntry(front[j], existing, image)
                 && forall i :: 0 <= i < j ==> EmitEntry(front[i], existing, image).Ok?;
        assert entries[j] == front[j];
        forall i | 0 <= i < j
          ensures EmitEntry(entries[i], existing, image).Ok?
        {
          assert entries[i] == front[i];
        }
      } else {
        forall i | 0 <= i < n
          ensures EmitEntry(entries[i], existing, image).Ok?
        {
          assert entries[i] == front[i];
        }
      }
    }
  }

  /** Once an entry has raised, later entries do not change the outcome. */
  lemma {:induction false} FailureFinal(entries: seq<Entry>, i: nat, j: nat, existing: Index, image: ImageLookup)
    requires i <= j <= |entries|
    requires SelectItems(entries[..i], existing, image).Err?
    ensures SelectItems(entries[..j], existing, image) == SelectItems(entries[..i], existing, image)
    decreases j - i
  {
    if i < j {
      FailureFinal(entries, i, j - 1, existing, image);
      assert entries[..j][..j - 1] == entries[..j - 1];
    }
  }

  /** When every entry is cached the run succeeds, builds nothing new and
      emits the cached items. */
  lemma {:induction false} AllCached(entries: seq<Entry>, existing: Index, image: ImageLookup)
    requires forall j :: 0 <= j < |entries| ==> Cached(entries[j], existing)
    ensures SelectItems(entries, existing, image).Ok?
    ensures SelectItems(entries, existing, image).value.newItems == 0
    ensures var items := SelectItems(entries, existing, image).value.items;
      && |items| == |entries|
      && forall j :: 0 <= j < |entries| ==>
           Cached(entries[j], existing) && items[j] == existing[Some(EntryGuid(entries[j]).value)]
    decreases |entries|
  {
    if entries != [] {
      var front := entries[..|entries| - 1];
      forall j | 0 <= j < |front|
        ensures Cached(front[j], existing)
      {
        assert front[j] == entries[j];
      }
      AllCached(front, existing, image);
      var items := SelectItems(entries, existing, image).value.items;
      forall j | 0 <= j < |entries|
        ensures items[j] == existing[Some(EntryGuid(entries[j]).value)]
      {
        if j < |front| {
          assert front[j] == entries[j];
        }
      }
    }
  }

  /** When no entry is cached, every item emitted is new. */
  lemma {:induction false} NoneCached(entries: seq<Entry>, existing: Index, image: ImageLookup)
    requires forall j :: 0 <= j < |entries| ==> !Cached(entries[j], existing)
    requires SelectItems(entries, existing, image).Ok?
    ensures SelectItems(entries, existing, image).value.newItems == |entries|
    decreases |entries|
  {
    if entries != [] {
      var front := entries[..|entries| - 1];
      forall j | 0 <= j < |front|
        ensures !Cached(front[j], existing)
      {
        assert front[j] == entries[j];
      }
      NoneCached(front, existing, image);
    }
  }

  /** generic_rss.py:68-85: the `<item>` built, child by child, for an
      entry that has a title and is not cached. */
  method BuildItem(entry: Entry, link: string, guid: string, image: ImageLookup) returns (item: Item)
    requires entry.title.Some?
    ensures NewItem(entry, link, guid, image) == Ok(item)
  {
    var imageUrl := image(link);
    var description;
    if imageUrl.Some? && imageUrl.value != "" {
      description := ImageHtml(imageUrl.value);
    } else {
      description := if entry.description.Some? then entry.description.value else "";
    }
    var pubDate := None;
    if entry.published.Some? {
      pubDate := Some(entry.published);
    }
    item := Item(Some(entry.title), Some(Some(link)), Some(Some(guid)), Some(Some(description)), pubDate);
  }

  /** The body of the entry loop (generic_rss.py:61-86): the cached item
      for the entry's guid, or a new item built from the entry. */
  method ProcessEntry(entry: Entry, existing: Index, image: ImageLookup) returns (r: Result<Emitted, Exception>)
    ensures r == EmitEntry(entry, existing, image)
  {
    if entry.link.None? {
      return Err(AttributeError("link"));
    }
    var guid := if entry.guid.Some? then entry.guid.value else entry.link.value;
    if Some(guid) in existing {
      return Ok(Emitted(existing[Some(guid)], false));
    }
    if entry.title.None? {
      return Err(AttributeError("title"));
    }
    var item := BuildItem(entry, entry.link.value, guid, image);
    return Ok(Emitted(item, true));
  }

  /** The entry loop of `process_rss_feed` (generic_rss.py:53-88): entries
      are taken in feed order until fifty items have been emitted; each is
      the cached item for its guid or a newly built one. */
  method ProcessEntries(entries: seq<Entry>, existing: Index, image: ImageLookup)
    returns (r: Result<Selection, Exception>)
    ensures r == SelectItems(entries[..Capped(|entries|)], existing, image)
    ensures r.Ok? ==> r.value.newItems <= |r.value.items| <= MaxItems
  {
    var channel: seq<Item> := [];
    var totalItems := 0;
    var newItems := 0;
    var i := 0;
    while i < |entries|
      invariant i <= |entries| && i <= MaxItems
      invariant totalItems == i == |channel|
      invariant newItems <= totalItems
      invariant SelectItems(entries[..i], existing, image) == Ok(Selection(channel, newItems))
    {
      if totalItems >= MaxItems {
        break;
      }
      var emitted := ProcessEntry(entries[i], existing, image);
      SelectStep(entries, i, existing, image);
      if emitted.Err? {
        FailureFinal(entries, i + 1, Capped(|entries|), existing, image);
        return Err(emitted.error);
      }
      channel := channel + [emitted.value.item];
      totalItems := totalItems + 1;
      if emitted.value.isNew {
        newItems := newItems + 1;
      }
      i := i + 1;
    }
    assert i == Capped(|entries|);
    r := Ok(Selection(channel, newItems));
  }

  /** The feed as the feed parser delivers it: the channel's metadata (None
      when absent) and its entries. */
  datatype Feed = Feed(title: Option<string>, link: Option<string>, description: Option<string>, entries: seq<Entry>)

  /** The `<channel>` that `process_rss_feed` writes and returns. */
  datatype Channel = Channel(title: string, link: string, description: string, items: seq<Item>)

  /** `process_rss_feed` (generic_rss.py:37-88) on the cache file and the
      parsed feed: missing metadata raises before any entry is looked at. */
  function RssChannel(cache: CacheFile, feed: Feed, image: ImageLookup): Result<Channel, Exception> {
    if feed.title.None? then Err(AttributeError("title"))
    else if feed.link.None? then Err(AttributeError("link"))
    else if feed.description.None? then Err(AttributeError("description"))
    else
      match SelectItems(feed.entries[..Capped(|feed.entries|)], ExistingEntries(cache), image)
      case Err(x) => Err(x)
      case Ok(sel) => Ok(Channel(feed.title.value, feed.link.value, feed.description.value, sel.items))
  }

  /** `process_rss_feed` as the source runs it: read the cache, copy the
      metadata, run the entry loop. */
  method ProcessRssFeed(cache: CacheFile, feed: Feed, image: ImageLookup) returns (r: Result<Channel, Exception>)
    ensures r == RssChannel(cache, feed, image)
  {
    var existing := GetExistingEntries(cache);
    if feed.title.None? {
      return Err(AttributeError("title"));
    }
    if feed.link.None? {
      return Err(AttributeError("link"));
    }
    if feed.description.None? {
      return Err(AttributeError("description"));
    }
    var selection := ProcessEntries(feed.entries, existing, image);
    if selection.Err? {
      return Err(selection.error);
    }
    r := Ok(Channel(feed.title.value, feed.link.value, feed.description.value, selection.value.items));
  }

  /** A written channel holds at most fifty items, one per leading entry of
      the feed in feed order: the cached item for the entry's guid when the
      cache has one, else the item built from the entry. */
  lemma ChannelItems(cache: CacheFile, feed: Feed, image: ImageLookup)
    requires RssChannel(cache, feed, image).Ok?
    ensures var items := RssChannel(cache, feed, image).value.items;
      && |items| == Capped(|feed.entries|) && |items| <= MaxItems
      && forall j :: 0 <= j < |items| ==>
           && EntryGuid(feed.entries[j]).Ok?
           && var key := Some(EntryGuid(feed.entries[j]).value);
              if key in ExistingEntries(cache) then items[j] == ExistingEntries(cache)[key]
              else Ok(items[j]) == NewItem(feed.entries[j], feed.entries[j].link.value, EntryGuid(feed.entries[j]).value, image)
  {
    var capped := feed.entries[..Capped(|feed.entries|)];
    SelectionInOrder(capped, ExistingEntries(cache), image);
    forall j | 0 <= j < |capped|
      ensures feed.entries[j] == capped[j]
    {
    }
  }

  /** Every emitted item carries its entry's guid, provided the cache files
      items under their own guids (as `get_existing_entries` does). */
  lemma {:induction false} ItemsCarryEntryGuids(entries: seq<Entry>, existing: Index, image: ImageLookup)
    requires KeyedByGuid(existing)
    requires SelectItems(entries, existing, image).Ok?
    ensures var items := SelectItems(entries, existing, image).value.items;
      && |items| == |entries|
      && forall j :: 0 <= j < |entries| ==>
           EntryGuid(entries[j]).Ok? && items[j].guid == Some(Some(EntryGuid(entries[j]).value))
  {
    SelectionInOrder(entries, existing, image);
  }

  /** An item whose guid no other item carries is the one filed under it. */
  lemma {:induction false} IndexUniqueGuid(items: seq<Item>, j: int)
    requires 0 <= j < |items| && items[j].guid.Some?
    requires forall l :: 0 <= l < |items| && l != j ==> items[l].guid != items[j].guid
    ensures items[j].guid.value in IndexByGuid(items)
    ensures IndexByGuid(items)[items[j].guid.value] == items[j]
    decreases |items|
  {
    var front := items[..|items| - 1];
    if j < |front| {
      forall l | 0 <= l < |front| && l != j
        ensures front[l].guid != front[j].guid
      {
        assert front[l] == items[l];
      }
      IndexUniqueGuid(front, j);
      assert items[j] == front[j];
    }
  }

  /** Running the loop again on the same entries with the items just
      written as the cache builds nothing new. */
  lemma SecondRunBuildsNothing(entries: seq<Entry>, existing: Index, image: ImageLookup, image2: ImageLookup)
    requires KeyedByGuid(existing)
    requires SelectItems(entries, existing, image).Ok?
    ensures var items := SelectItems(entries, existing, image).value.items;
      && SelectItems(entries, IndexByGuid(items), image2).Ok?
      && SelectItems(entries, IndexByGuid(items), image2).value.newItems == 0
      && |SelectItems(entries, IndexByGuid(items), image2).value.items| == |entries|
  {
    var items := SelectItems(entries, existing, image).value.items;
    ItemsCarryEntryGuids(entries, existing, image);
    forall j | 0 <= j < |entries|
      ensures Cached(entries[j], IndexByGuid(items))
    {
      IndexKeys(items, Some(EntryGuid(entries[j]).value));
    }
    AllCached(entries, IndexByGuid(items), image2);
  }

  /** When the entries' guids are distinct, the second run reproduces
      exactly the items of the first. */
  lemma SecondRunSameItems(entries: seq<Entry>, existing: Index, image: ImageLookup, image2: ImageLookup)
    requires KeyedByGuid(existing)
    requires SelectItems(entries, existing, image).Ok?
    requires forall i, j :: 0 <= i < j < |entries| ==> EntryGuid(entries[i]) != EntryGuid(entries[j])
    ensures var items := SelectItems(entries, existing, image).value.items;
      SelectItems(entries, IndexByGuid(items), image2) == Ok(Selection(items, 0))
  {
    var items := SelectItems(entries, existing, image).value.items;
    var again := IndexByGuid(items);
    ItemsCarryEntryGuids(entries, existing, image);
    forall j | 0 <= j < |entries|
      ensures Cached(entries[j], again) && again[Some(EntryGuid(entries[j]).value)] == items[j]
    {
      forall l | 0 <= l < |items| && l != j
        ensures items[l].guid != items[j].guid
      {
        if l < j {
          assert EntryGuid(entries[l]) != EntryGuid(entries[j]);
        } else {
          assert EntryGuid(entries[j]) != EntryGuid(entries[l]);
        }
      }
      IndexUniqueGuid(items, j);
    }
    AllCached(entries, again, image2);
    assert SelectItems(entries, again, image2).value.items == items;
  }
}

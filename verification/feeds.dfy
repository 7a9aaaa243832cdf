/**
 * The collection pass `fetch_rss_data` (main.py:77-131): prune the history,
 * visit the configured sources in order, look at the first three entries of
 * each feed that answered with status 200, skip links whose hash is already in
 * the history, record the others with today's date and turn them into items.
 *
 * The network fetch and the feed parser are not modelled: each source comes
 * with its outcome, either a transport error or a status code and a parsed
 * feed. The link hash and the markup-to-text step are parameters.
 */
module Feeds {
  import opened Wrappers
  import opened Text
  import opened History

  /** Only this many entries of each feed are looked at (`feed.entries[:3]`). */
  const EntriesPerSource: nat := 3

  /** The only status code whose body is parsed. */
  const StatusOk: int := 200

  /** The source name used when the feed has no title. */
  const DefaultSourceName: string := "News"

  /** One parsed feed entry; every field may be missing. */
  datatype Entry = Entry(
    link: Option<string>,
    title: Option<string>,
    summary: Option<string>,
    description: Option<string>)

  /** A parsed feed: its optional title and its entries in document order. */
  datatype Feed = Feed(title: Option<string>, entries: seq<Entry>)

  /** What fetching one URL gave: an exception from `requests`, or a response. */
  datatype FetchOutcome = TransportError | Response(status: int, feed: Feed)

  /** One configured URL with its category and the outcome of fetching it. */
  datatype Source = Source(category: string, url: string, outcome: FetchOutcome)

  /** A collected news item, the dictionary built at main.py:121-127. */
  datatype Item = Item(
    category: string,
    title: string,
    url: string,
    summary: string,
    sourceName: string)

  /** The state threaded through the pass: the history so far and the items so far. */
  datatype State = State(seen: Seen, items: seq<Item>)

  /** A state after some entries, and whether an exception abandoned the rest of the source. */
  datatype Step = Step(state: State, aborted: bool)

  /** A category of the configuration with its URLs, in order. */
  datatype Group = Group(category: string, urls: seq<string>)

  /** The configured sources (`RSS_SOURCES`), in dictionary order. */
  const RssSources: seq<Group> := [
    Group("Tech & AI", [
      "https://news.ycombinator.com/rss",
      "http://export.arxiv.org/rss/cs.AI",
      "https://openai.com/news/rss.xml",
      "https://techcrunch.com/category/artificial-intelligence/feed/"]),
    Group("Global News", [
      "https://www.yahoo.com/news/rss/world",
      "http://feeds.bbci.co.uk/news/world/rss.xml"]),
    Group("Science", [
      "https://www.sciencedaily.com/rss/top/science.xml",
      "https://www.nature.com/nature.rss"])
  ]

  function UrlCount(groups: seq<Group>): nat {
    if groups == [] then 0 else |groups[0].urls| + UrlCount(groups[1..])
  }

  /**
   * The order of the two nested loops at main.py:94-96: categories in order,
   * and within a category its URLs in order, each paired with its fetch outcome.
   */
  function Schedule(groups: seq<Group>, fetch: string -> FetchOutcome): (sources: seq<Source>)
    ensures |sources| == UrlCount(groups)
    ensures forall i :: 0 <= i < |sources| ==> sources[i].outcome == fetch(sources[i].url)
  {
    if groups == [] then []
    else
      var g := groups[0];
      seq(|g.urls|, i requires 0 <= i < |g.urls| => Source(g.category, g.urls[i], fetch(g.urls[i])))
        + Schedule(groups[1..], fetch)
  }

  /** The summary fallback: `summary`, else `description`, else the empty string. */
  function RawSummary(e: Entry): (s: string)
    ensures e.summary.Some? ==> s == e.summary.value
    ensures e.summary.None? && e.description.Some? ==> s == e.description.value
    ensures e.summary.None? && e.description.None? ==> s == ""
  {
    e.summary.GetOr(e.description.GetOr(""))
  }

  /** `feed.feed.title` when present, else "News". */
  function SourceName(feed: Feed): string {
    feed.title.GetOr(DefaultSourceName)
  }

  /** The entries the loop at main.py:108 looks at. */
  function Examined(feed: Feed): (es: seq<Entry>)
    ensures |es| <= EntriesPerSource
    ensures es <= feed.entries
    ensures |feed.entries| >= EntriesPerSource ==> |es| == EntriesPerSource
    ensures |feed.entries| < EntriesPerSource ==> es == feed.entries
  {
    feed.entries[..Min(EntriesPerSource, |feed.entries|)]
  }

  /** Whether a source's feed is parsed at all. */
  predicate Answered(src: Source) {
    src.outcome.Response? && src.outcome.status == StatusOk
  }

  /** The links present among some entries. */
  function LinksOf(es: seq<Entry>): set<string> {
    if es == [] then {}
    else (if es[0].link.Some? then {es[0].link.value} else {}) + LinksOf(es[1..])
  }

  /** The links of the entries the pass looks at in one source. */
  function SourceLinks(src: Source): set<string> {
    if Answered(src) then LinksOf(Examined(src.outcome.feed)) else {}
  }

  /** The links of all entries a pass over `sources` may look at. */
  function ExaminedLinks(sources: seq<Source>): set<string> {
    if sources == [] then {} else SourceLinks(sources[0]) + ExaminedLinks(sources[1..])
  }

  /** The hashes of some links. */
  function Hashes(links: set<string>, hash: string -> Key): set<Key> {
    set l | l in links :: hash(l)
  }

  lemma HashesUnion(a: set<string>, b: set<string>, hash: string -> Key)
    ensures Hashes(a + b, hash) == Hashes(a, hash) + Hashes(b, hash)
  {
  }

  /**
   * How the state may change during the pass: the history only gains keys, all
   * dated `today`, and never changes a date it had; items are only appended;
   * every appended item's link hash is one of the gained keys, and no two
   * appended items share a link hash.
   */
  ghost predicate Grows(st: State, st': State, today: int, hash: string -> Key) {
    && st.seen.Keys <= st'.seen.Keys
    && (forall k :: k in st.seen ==> st'.seen[k] == st.seen[k])
    && (forall k :: k in st'.seen && k !in st.seen ==> st'.seen[k] == today)
    && st.items <= st'.items
    && (forall i :: |st.items| <= i < |st'.items| ==>
          hash(st'.items[i].url) in st'.seen && hash(st'.items[i].url) !in st.seen)
    && (forall i, j :: |st.items| <= i < j < |st'.items| ==>
          hash(st'.items[i].url) != hash(st'.items[j].url))
  }

  /**
   * The gained keys are hashes from `keys`, and the appended items have their
   * links in `links`.
   */
  ghost predicate DrawsOn(st: State, st': State, links: set<string>, keys: set<Key>) {
    && st'.seen.Keys <= st.seen.Keys + keys
    && forall i :: |st.items| <= i < |st'.items| ==> st'.items[i].url in links
  }

  /** Every appended item carries the given category and source name. */
  ghost predicate Tagged(st: State, st': State, category: string, sourceName: string) {
    forall i :: |st.items| <= i < |st'.items| ==>
      st'.items[i].category == category && st'.items[i].sourceName == sourceName
  }

  /** The link hashes of the items appended between two states. */
  ghost function ItemKeys(st: State, st': State, hash: string -> Key): set<Key> {
    set i | |st.items| <= i < |st'.items| :: hash(st'.items[i].url)
  }

  /** An entry that raises nowhere in the loop body: it has a link and a title. */
  predicate Complete(e: Entry) {
    e.link.Some? && e.title.Some?
  }

  /** A source none of whose looked-at entries raises. */
  predicate CompleteSource(src: Source) {
    Answered(src) ==>
      forall i :: 0 <= i < |Examined(src.outcome.feed)| ==> Complete(Examined(src.outcome.feed)[i])
  }

  /** The item hashes appended over two consecutive stretches are those of each stretch. */
  lemma ItemKeysCompose(a: State, b: State, c: State, hash: string -> Key)
    requires a.items <= b.items <= c.items
    ensures ItemKeys(a, c, hash) == ItemKeys(a, b, hash) + ItemKeys(b, c, hash)
  {
    forall k | k in ItemKeys(a, c, hash) ensures k in ItemKeys(a, b, hash) + ItemKeys(b, c, hash) {
      var i :| |a.items| <= i < |c.items| && k == hash(c.items[i].url);
      if i < |b.items| {
        assert c.items[i] == b.items[i];
      }
    }
    forall k | k in ItemKeys(a, b, hash) ensures k in ItemKeys(a, c, hash) {
      var i :| |a.items| <= i < |b.items| && k == hash(b.items[i].url);
      assert c.items[i] == b.items[i];
    }
  }

  /** What two consecutive runs of the entry loop add, one run adds. */
  lemma EntriesCompose(a: State, b: State, c: State, today: int, hash: string -> Key,
                       links: set<string>, keys: set<Key>, links': set<string>, keys': set<Key>,
                       n: nat, n': nat, category: string, sourceName: string)
    requires Grows(a, b, today, hash) && Grows(b, c, today, hash)
    requires DrawsOn(a, b, links, keys) && DrawsOn(b, c, links', keys')
    requires |b.items| <= |a.items| + n && |c.items| <= |b.items| + n'
    requires Tagged(a, b, category, sourceName) && Tagged(b, c, category, sourceName)
    ensures Grows(a, c, today, hash)
    ensures DrawsOn(a, c, links + links', keys + keys')
    ensures |c.items| <= |a.items| + n + n'
    ensures Tagged(a, c, category, sourceName)
  {
    GrowsTransitive(a, b, c, today, hash);
    DrawsOnTransitive(a, b, c, links, keys, links', keys');
    forall i | |a.items| <= i < |b.items| ensures c.items[i] == b.items[i] { }
  }

  lemma GrowsTransitive(a: State, b: State, c: State, today: int, hash: string -> Key)
    requires Grows(a, b, today, hash) && Grows(b, c, today, hash)
    ensures Grows(a, c, today, hash)
  {
    forall i, j | |a.items| <= i < j < |c.items|
      ensures hash(c.items[i].url) != hash(c.items[j].url)
    {
      if j < |b.items| {
        assert c.items[i] == b.items[i] && c.items[j] == b.items[j];
      } else if i < |b.items| {
        assert c.items[i] == b.items[i];
        assert hash(c.items[i].url) in b.seen;
      }
    }
    forall i | |a.items| <= i < |c.items|
      ensures hash(c.items[i].url) in c.seen && hash(c.items[i].url) !in a.seen
    {
      if i < |b.items| {
        assert c.items[i] == b.items[i];
      }
    }
  }

  lemma DrawsOnTransitive(a: State, b: State, c: State, links: set<string>, keys: set<Key>,
                          links': set<string>, keys': set<Key>)
    requires DrawsOn(a, b, links, keys) && DrawsOn(b, c, links', keys')
    requires a.items <= b.items <= c.items
    ensures DrawsOn(a, c, links + links', keys + keys')
  {
    forall i | |a.items| <= i < |c.items| ensures c.items[i].url in links + links' {
      if i < |b.items| {
        assert c.items[i] == b.items[i];
      }
    }
  }

  /**
   * One iteration of the loop at main.py:108-127. A missing link raises before
   * anything happens. A link whose hash is already in the history is skipped.
   * Otherwise the hash is recorded with today's date first; then a missing
   * title raises (leaving the hash recorded and no item), and a present title
   * appends the item.
   */
  function ProcessEntry(e: Entry, category: string, sourceName: string, st: State, today: int,
                        hash: string -> Key, getText: string -> string): (r: Step)
    ensures Grows(st, r.state, today, hash)
    ensures e.link.None? ==> r == Step(st, true)
    ensures e.link.Some? && hash(e.link.value) in st.seen ==> r == Step(st, false)
    ensures e.link.Some? && hash(e.link.value) !in st.seen ==>
      && r.state.seen == st.seen[hash(e.link.value) := today]
      && (r.aborted <==> e.title.None?)
    ensures r.state.items == st.items || (e.link.Some? && e.title.Some? && r.state.items == st.items + [
      Item(category, e.title.value, e.link.value, CleanHtml(RawSummary(e), getText), sourceName)])
    ensures |r.state.items| == |st.items| + 1 <==>
      e.link.Some? && hash(e.link.value) !in st.seen && e.title.Some?
    ensures DrawsOn(st, r.state, LinksOf([e]), Hashes(LinksOf([e]), hash))
    ensures Tagged(st, r.state, category, sourceName)
  {
    match e.link
    case None => Step(st, true)
    case Some(link) =>
      var uid := hash(link);
      if uid in st.seen then Step(st, false)
      else
        var seen := st.seen[uid := today];
        match e.title
        case None => Step(State(seen, st.items), true)
        case Some(title) =>
          var item := Item(category, title, link, CleanHtml(RawSummary(e), getText), sourceName);
          Step(State(seen, st.items + [item]), false)
  }

  /**
   * The inner loop over the entries of one feed, stopped by the first entry that
   * raises: the `try` at main.py:97 encloses the whole source.
   */
  function ProcessEntries(es: seq<Entry>, category: string, sourceName: string, st: State,
                          today: int, hash: string -> Key, getText: string -> string): (r: Step)
    ensures Grows(st, r.state, today, hash)
    ensures DrawsOn(st, r.state, LinksOf(es), Hashes(LinksOf(es), hash))
    ensures |r.state.items| <= |st.items| + |es|
    ensures Tagged(st, r.state, category, sourceName)
    decreases |es|
  {
    if es == [] then Step(st, false)
    else
      var step := ProcessEntry(es[0], category, sourceName, st, today, hash, getText);
      if step.aborted then step
      else
        var r := ProcessEntries(es[1..], category, sourceName, step.state, today, hash, getText);
        EntriesCompose(st, step.state, r.state, today, hash,
          LinksOf([es[0]]), Hashes(LinksOf([es[0]]), hash), LinksOf(es[1..]), Hashes(LinksOf(es[1..]), hash),
          1, |es| - 1, category, sourceName);
        assert LinksOf(es) == LinksOf([es[0]]) + LinksOf(es[1..]);
        HashesUnion(LinksOf([es[0]]), LinksOf(es[1..]), hash);
        r
  }

  /**
   * One iteration of the loop at main.py:96-129. A transport error or a status
   * other than 200 leaves the state as it was; otherwise the first three entries
   * are processed under the source's category and feed title.
   */
  function ProcessSource(src: Source, st: State, today: int, hash: string -> Key,
                         getText: string -> string): (r: State)
    ensures Grows(st, r, today, hash)
    ensures !Answered(src) ==> r == st
    ensures Answered(src) ==>
      DrawsOn(st, r, LinksOf(Examined(src.outcome.feed)), Hashes(LinksOf(Examined(src.outcome.feed)), hash))
    ensures |r.items| <= |st.items| + EntriesPerSource
    ensures Answered(src) ==> Tagged(st, r, src.category, SourceName(src.outcome.feed))
  {
    match src.outcome
    case TransportError => st
    case Response(status, feed) =>
      if status != StatusOk then st
      else ProcessEntries(Examined(feed), src.category, SourceName(feed), st, today, hash, getText).state
  }

  /** The outer loops: every source in order, each starting from the state the previous left. */
  function Collect(sources: seq<Source>, st: State, today: int, hash: string -> Key,
                   getText: string -> string): (r: State)
    ensures Grows(st, r, today, hash)
    ensures DrawsOn(st, r, ExaminedLinks(sources), Hashes(ExaminedLinks(sources), hash))
    ensures |r.items| <= |st.items| + EntriesPerSource * |sources|
    decreases |sources|
  {
    if sources == [] then st
    else
      var mid := ProcessSource(sources[0], st, today, hash, getText);
      var r := Collect(sources[1..], mid, today, hash, getText);
      GrowsTransitive(st, mid, r, today, hash);
      var links := SourceLinks(sources[0]);
      DrawsOnTransitive(st, mid, r, links, Hashes(links, hash),
        ExaminedLinks(sources[1..]), Hashes(ExaminedLinks(sources[1..]), hash));
      HashesUnion(links, ExaminedLinks(sources[1..]), hash);
      r
  }

  /**
   * `fetch_rss_data`: the collected items and the history to save, or the
   * crash of an unparsable stored date.
   */
  function FetchRssData(stored: Stored, now: Clock, sources: seq<Source>, hash: string -> Key,
                        getText: string -> string): (r: Result<State, Crash>)
    requires ValidClock(now)
    ensures r.Failure? <==> Prune(stored, now).Failure?
    ensures r.Success? ==> Grows(State(Prune(stored, now).value, []), r.value, now.day, hash)
    ensures r.Success? ==>
      DrawsOn(State(Prune(stored, now).value, []), r.value, ExaminedLinks(sources), Hashes(ExaminedLinks(sources), hash))
    ensures r.Success? ==> |r.value.items| <= EntriesPerSource * |sources|
  {
    match Prune(stored, now)
    case Failure(e) => Failure(e)
    case Success(valid) => Success(Collect(sources, State(valid, []), now.day, hash, getText))
  }

  // ---------------------------------------------------------------------------
  // Properties of the pass

  /**
   * The entry loop over `es + rest` is the loop over `es` followed, unless an
   * entry of `es` raised, by the loop over `rest`.
   */
  lemma {:induction false} EntriesAppend(es: seq<Entry>, rest: seq<Entry>, category: string,
                                         sourceName: string, st: State, today: int,
                                         hash: string -> Key, getText: string -> string)
    ensures var r := ProcessEntries(es, category, sourceName, st, today, hash, getText);
      ProcessEntries(es + rest, category, sourceName, st, today, hash, getText)
        == if r.aborted then r else ProcessEntries(rest, category, sourceName, r.state, today, hash, getText)
    decreases |es|
  {
    if es == [] {
      assert es + rest == rest;
    } else {
      assert (es + rest)[0] == es[0];
      assert (es + rest)[1..] == es[1..] + rest;
      var step := ProcessEntry(es[0], category, sourceName, st, today, hash, getText);
      if !step.aborted {
        EntriesAppend(es[1..], rest, category, sourceName, step.state, today, hash, getText);
      }
    }
  }

  /**
   * The ordering at main.py:112-127: an unseen link whose entry has no title is
   * recorded as seen, yields no item, and the rest of the source is abandoned.
   */
  lemma RecordedButNotCollected(e: Entry, rest: seq<Entry>, category: string, sourceName: string,
                                st: State, today: int, hash: string -> Key, getText: string -> string)
    requires e.link.Some? && hash(e.link.value) !in st.seen
    requires e.title.None?
    ensures ProcessEntries([e] + rest, category, sourceName, st, today, hash, getText)
      == Step(State(st.seen[hash(e.link.value) := today], st.items), true)
  {
    assert ([e] + rest)[0] == e;
  }

  /** A complete entry does not raise; it records its link's hash and appends an item iff that hash was new. */
  lemma EntryComplete(e: Entry, category: string, sourceName: string, st: State, today: int,
                      hash: string -> Key, getText: string -> string)
    requires Complete(e)
    ensures var step := ProcessEntry(e, category, sourceName, st, today, hash, getText);
      && !step.aborted
      && step.state.seen.Keys == st.seen.Keys + {hash(e.link.value)}
      && ItemKeys(st, step.state, hash) == step.state.seen.Keys - st.seen.Keys
  {
    var step := ProcessEntry(e, category, sourceName, st, today, hash, getText);
    if hash(e.link.value) !in st.seen {
      var item := Item(category, e.title.value, e.link.value, CleanHtml(RawSummary(e), getText), sourceName);
      assert step.state.items == st.items + [item];
      ItemKeysOne(st, step.state, item, hash);
    } else {
      ItemKeysNone(st, step.state, hash);
    }
  }

  lemma ItemKeysOne(a: State, b: State, item: Item, hash: string -> Key)
    requires b.items == a.items + [item]
    ensures ItemKeys(a, b, hash) == {hash(item.url)}
  {
    assert b.items[|a.items|] == item;
  }

  lemma ItemKeysNone(a: State, b: State, hash: string -> Key)
    requires b.items == a.items
    ensures ItemKeys(a, b, hash) == {}
  {
  }

  /** The hashes of the links of some entries, first entry apart. */
  lemma HashesCons(es: seq<Entry>, hash: string -> Key)
    requires es != [] && es[0].link.Some?
    ensures Hashes(LinksOf(es), hash) == {hash(es[0].link.value)} + Hashes(LinksOf(es[1..]), hash)
  {
    assert LinksOf(es) == {es[0].link.value} + LinksOf(es[1..]);
    HashesUnion({es[0].link.value}, LinksOf(es[1..]), hash);
    assert Hashes({es[0].link.value}, hash) == {hash(es[0].link.value)};
  }

  /**
   * Two stretches that each gain the keys `ha`, `hb` and append items for
   * exactly their gained keys make one stretch that does so for `ha + hb`.
   */
  lemma KeysChain(a: State, b: State, c: State, hash: string -> Key, ha: set<Key>, hb: set<Key>)
    requires a.items <= b.items <= c.items
    requires b.seen.Keys == a.seen.Keys + ha && c.seen.Keys == b.seen.Keys + hb
    requires ItemKeys(a, b, hash) == b.seen.Keys - a.seen.Keys
    requires ItemKeys(b, c, hash) == c.seen.Keys - b.seen.Keys
    ensures c.seen.Keys == a.seen.Keys + (ha + hb)
    ensures ItemKeys(a, c, hash) == c.seen.Keys - a.seen.Keys
  {
    ItemKeysCompose(a, b, c, hash);
  }

  /**
   * The dedup step is complete: when no entry raises, the loop records the
   * hash of every link it looks at, and the items it appends carry exactly the
   * hashes that were not in the history before.
   */
  lemma {:induction false} EntriesComplete(es: seq<Entry>, category: string, sourceName: string,
                                           st: State, today: int, hash: string -> Key,
                                           getText: string -> string)
    requires forall i :: 0 <= i < |es| ==> Complete(es[i])
    ensures var r := ProcessEntries(es, category, sourceName, st, today, hash, getText);
      && !r.aborted
      && r.state.seen.Keys == st.seen.Keys + Hashes(LinksOf(es), hash)
      && ItemKeys(st, r.state, hash) == r.state.seen.Keys - st.seen.Keys
    decreases |es|
  {
    if es == [] {
      ItemKeysNone(st, st, hash);
    } else {
      var step := ProcessEntry(es[0], category, sourceName, st, today, hash, getText);
      EntryComplete(es[0], category, sourceName, st, today, hash, getText);
      var rest := es[1..];
      assert forall i :: 0 <= i < |rest| ==> rest[i] == es[i + 1];
      EntriesComplete(rest, category, sourceName, step.state, today, hash, getText);
      var r := ProcessEntries(rest, category, sourceName, step.state, today, hash, getText);
      KeysChain(st, step.state, r.state, hash, {hash(es[0].link.value)}, Hashes(LinksOf(rest), hash));
      HashesCons(es, hash);
    }
  }

  /** The completeness of the entry loop, for one source. */
  lemma SourceComplete(src: Source, st: State, today: int, hash: string -> Key, getText: string -> string)
    requires CompleteSource(src)
    ensures var r := ProcessSource(src, st, today, hash, getText);
      && r.seen.Keys == st.seen.Keys + Hashes(SourceLinks(src), hash)
      && ItemKeys(st, r, hash) == r.seen.Keys - st.seen.Keys
  {
    if Answered(src) {
      EntriesComplete(Examined(src.outcome.feed), src.category, SourceName(src.outcome.feed),
                      st, today, hash, getText);
    } else {
      ItemKeysNone(st, st, hash);
    }
  }

  /** The completeness of the entry loop, over all sources. */
  lemma {:induction false} CollectComplete(sources: seq<Source>, st: State, today: int,
                                           hash: string -> Key, getText: string -> string)
    requires forall i :: 0 <= i < |sources| ==> CompleteSource(sources[i])
    ensures var r := Collect(sources, st, today, hash, getText);
      && r.seen.Keys == st.seen.Keys + Hashes(ExaminedLinks(sources), hash)
      && ItemKeys(st, r, hash) == r.seen.Keys - st.seen.Keys
    decreases |sources|
  {
    if sources == [] {
      ItemKeysNone(st, st, hash);
    } else {
      var mid := ProcessSource(sources[0], st, today, hash, getText);
      var r := Collect(sources[1..], mid, today, hash, getText);
      SourceComplete(sources[0], st, today, hash, getText);
      assert forall i :: 0 <= i < |sources[1..]| ==> sources[1..][i] == sources[i + 1];
      CollectComplete(sources[1..], mid, today, hash, getText);
      KeysChain(st, mid, r, hash, Hashes(SourceLinks(sources[0]), hash), Hashes(ExaminedLinks(sources[1..]), hash));
      HashesUnion(SourceLinks(sources[0]), ExaminedLinks(sources[1..]), hash);
    }
  }

  /**
   * When no looked-at entry raises, the returned history is the pruned history
   * plus the hash of every link looked at, and the collected items carry
   * exactly the hashes of those links that were not in the pruned history.
   */
  lemma EveryNewLinkCollected(stored: Stored, now: Clock, sources: seq<Source>, hash: string -> Key,
                              getText: string -> string)
    requires ValidClock(now)
    requires FetchRssData(stored, now, sources, hash, getText).Success?
    requires forall i :: 0 <= i < |sources| ==> CompleteSource(sources[i])
    ensures var pruned := Prune(stored, now).value;
      var r := FetchRssData(stored, now, sources, hash, getText).value;
      && r.seen.Keys == pruned.Keys + Hashes(ExaminedLinks(sources), hash)
      && ItemKeys(State(pruned, []), r, hash) == Hashes(ExaminedLinks(sources), hash) - pruned.Keys
  {
    var pruned := Prune(stored, now).value;
    CollectComplete(sources, State(pruned, []), now.day, hash, getText);
    var r := Collect(sources, State(pruned, []), now.day, hash, getText);
    assert FetchRssData(stored, now, sources, hash, getText) == Success(r);
    GainedKeys(pruned.Keys, Hashes(ExaminedLinks(sources), hash), r.seen.Keys);
  }

  lemma GainedKeys(a: set<Key>, h: set<Key>, c: set<Key>)
    requires c == a + h
    ensures c - a == h - a
  {
  }

  /** Entries after the third never influence a source's contribution. */
  lemma LaterEntriesIgnored(category: string, url: string, status: int, title: Option<string>,
                            es: seq<Entry>, more: seq<Entry>, st: State, today: int,
                            hash: string -> Key, getText: string -> string)
    requires |es| >= EntriesPerSource
    ensures ProcessSource(Source(category, url, Response(status, Feed(title, es + more))), st, today, hash, getText)
         == ProcessSource(Source(category, url, Response(status, Feed(title, es))), st, today, hash, getText)
  {
    assert (es + more)[..EntriesPerSource] == es[..EntriesPerSource];
  }

  /** The pass over `a + b` is the pass over `a` followed by the pass over `b`. */
  lemma {:induction false} CollectAppend(a: seq<Source>, b: seq<Source>, st: State, today: int,
                                         hash: string -> Key, getText: string -> string)
    ensures Collect(a + b, st, today, hash, getText)
         == Collect(b, Collect(a, st, today, hash, getText), today, hash, getText)
    decreases |a|
  {
    if a == [] {
      assert a + b == b;
    } else {
      assert (a + b)[0] == a[0];
      assert (a + b)[1..] == a[1..] + b;
      CollectAppend(a[1..], b, ProcessSource(a[0], st, today, hash, getText), today, hash, getText);
    }
  }

  /**
   * Whatever happens inside one source (an error status, a transport error, an
   * entry that raises), the sources after it are processed from the state it
   * left, and a source that did not answer with 200 is as if absent.
   */
  lemma SourcesIsolated(before: seq<Source>, src: Source, after: seq<Source>, st: State, today: int,
                        hash: string -> Key, getText: string -> string)
    ensures Collect(before + [src] + after, st, today, hash, getText)
         == Collect(after, ProcessSource(src, Collect(before, st, today, hash, getText), today, hash, getText),
                    today, hash, getText)
    ensures !Answered(src) ==>
      Collect(before + [src] + after, st, today, hash, getText) == Collect(before + after, st, today, hash, getText)
  {
    CollectAppend(before + [src], after, st, today, hash, getText);
    CollectAppend(before, [src], st, today, hash, getText);
    CollectAppend(before, after, st, today, hash, getText);
  }

  /**
   * No link is collected twice in a run, even from two sources: the hashes of
   * the collected items are pairwise different, all in the returned history
   * with today's date, and none was in the pruned history.
   */
  lemma CollectedOnce(stored: Stored, now: Clock, sources: seq<Source>, hash: string -> Key,
                      getText: string -> string)
    requires ValidClock(now)
    requires FetchRssData(stored, now, sources, hash, getText).Success?
    ensures var st := FetchRssData(stored, now, sources, hash, getText).value;
      && (forall i, j :: 0 <= i < j < |st.items| ==> st.items[i].url != st.items[j].url)
      && (forall i :: 0 <= i < |st.items| ==>
            hash(st.items[i].url) in st.seen && st.seen[hash(st.items[i].url)] == now.day
            && hash(st.items[i].url) !in Prune(stored, now).value)
  {
    var st := FetchRssData(stored, now, sources, hash, getText).value;
    forall i, j | 0 <= i < j < |st.items| ensures st.items[i].url != st.items[j].url {
      assert hash(st.items[i].url) != hash(st.items[j].url);
    }
  }

  /**
   * Deduplication against the history: a link recorded fewer than five days
   * ago is not collected again.
   */
  lemma YoungLinkNotCollected(stored: Stored, now: Clock, sources: seq<Source>, hash: string -> Key,
                              getText: string -> string, link: string, d: int)
    requires ValidClock(now)
    requires FetchRssData(stored, now, sources, hash, getText).Success?
    requires hash(link) in stored && stored[hash(link)] == Day(d) && now.day - d < RetentionDays
    ensures forall item :: item in FetchRssData(stored, now, sources, hash, getText).value.items ==> item.url != link
  {
    CollectedOnce(stored, now, sources, hash, getText);
  }

  /** An unseen, titled link heading an answered feed is the source's first item. */
  lemma FreshHeadCollected(src: Source, st: State, today: int, hash: string -> Key,
                           getText: string -> string, e: Entry)
    requires Answered(src)
    requires src.outcome.feed.entries != [] && src.outcome.feed.entries[0] == e
    requires e.link.Some? && e.title.Some? && hash(e.link.value) !in st.seen
    ensures var r := ProcessSource(src, st, today, hash, getText);
      |r.items| > |st.items| && r.items[|st.items|].url == e.link.value
  {
    var es := Examined(src.outcome.feed);
    var name := SourceName(src.outcome.feed);
    assert es[0] == e;
    assert [e] + es[1..] == es;
    var step := ProcessEntry(e, src.category, name, st, today, hash, getText);
    assert step.state.items == st.items + [step.state.items[|st.items|]];
    EntriesAppend([e], es[1..], src.category, name, st, today, hash, getText);
    var r := ProcessEntries(es, src.category, name, st, today, hash, getText);
    assert step.state.items <= r.state.items;
  }

  /**
   * Expiry: a link recorded five or more days ago is collected again when it
   * heads the first source.
   */
  lemma ExpiredLinkReappears(stored: Stored, now: Clock, sources: seq<Source>, hash: string -> Key,
                             getText: string -> string, e: Entry, d: int)
    requires ValidClock(now)
    requires Prune(stored, now).Success?
    requires e.link.Some? && e.title.Some?
    requires hash(e.link.value) in stored && stored[hash(e.link.value)] == Day(d)
    requires now.day - d >= RetentionDays
    requires sources != [] && Answered(sources[0])
    requires sources[0].outcome.feed.entries != [] && sources[0].outcome.feed.entries[0] == e
    ensures var r := FetchRssData(stored, now, sources, hash, getText);
      r.Success? && r.value.items != [] && r.value.items[0].url == e.link.value
  {
    var st0 := State(Prune(stored, now).value, []);
    FreshHeadCollected(sources[0], st0, now.day, hash, getText, e);
    var mid := ProcessSource(sources[0], st0, now.day, hash, getText);
    var r := Collect(sources, st0, now.day, hash, getText);
    assert r == Collect(sources[1..], mid, now.day, hash, getText);
    assert mid.items <= r.items;
  }

  /** With the configured eight sources a run collects at most 24 items. */
  lemma ConfiguredRunBound(stored: Stored, now: Clock, fetch: string -> FetchOutcome,
                           hash: string -> Key, getText: string -> string)
    requires ValidClock(now)
    requires FetchRssData(stored, now, Schedule(RssSources, fetch), hash, getText).Success?
    ensures |FetchRssData(stored, now, Schedule(RssSources, fetch), hash, getText).value.items| <= 24
  {
    assert UrlCount(RssSources[2..]) == 2;
    assert UrlCount(RssSources[1..]) == 4;
    assert UrlCount(RssSources) == 8;
  }
}

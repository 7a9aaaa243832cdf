# Daily news digest: the deduplicating collection pass, in Dafny

This project models the core of a daily news-digest bot. Once a day the bot
reads a list of RSS sources and collects new items. It asks a language model
to summarize them and mails the result. A small history file is saved
after every run that produced a summary, whether or not the mail went out. It
holds the hash of every new link such a run looked at, including a link whose
entry had no title and so gave no item. Those links are not collected again
for 5 days.

The model covers the logic of `main.py`:

- **Text** (`text.dfy`): `clean_html`. This is the whitespace collapse
  `" ".join(text.split())`, the cut to 300 characters, `strip()` and the
  trailing `"..."`. Whitespace is exactly the set of code points Python's
  `str.split()` and `str.strip()` use.
- **History** (`history.dfy`): loading the history file ("parse or empty"),
  saving it, and pruning entries that are 5 or more whole days old. The clock
  is a day number plus the seconds since midnight. `ElapsedDays` models
  `timedelta.days` as floor division, and a lemma shows it equals the
  difference of day numbers. A stored date either parses (`Day`) or does not
  (`Malformed`). A malformed date makes the prune raise, and so it ends the
  whole run.
- **Feeds** (`feeds.dfy`): `fetch_rss_data` as a fold over the sources, in
  configured order, threading a `State` (history so far, items so far).
  Sources with a transport error or a status other than 200 are skipped. Only
  the first 3 entries of a feed are looked at. A link whose hash is already
  in the history is skipped. Otherwise the hash is recorded with today's date
  *before* the item is built. Then a missing title raises: the link stays
  recorded, no item is added, and the rest of that source is abandoned. A
  missing link raises before anything is recorded.
- **Digest** (`digest.dfy`): the `__main__` gate. With no items the run
  stops. When the summarizer returns nothing, nothing is mailed or saved.
  Otherwise the mail is sent and then the history is saved. A failure inside
  the SMTP exchange is caught by `send_email`, so it does not stop the save.

The link hash, BeautifulSoup's text extraction, the summarizer and the mail
transport are function parameters. The hash is deterministic by construction.
It is not assumed to be injective: two different links may share a hash, and
the second is then skipped.

Some details of the program that the model keeps exactly:

- The summary fallback is `summary`, then `description`, then `""`
  (main.py:118-119). A `summary` that is present but empty is used as it is.
- The retention window is 5 days (main.py:84) and the per-source cap is 3
  (main.py:108).
- A malformed stored date raises out of the prune (main.py:83-84), which ends
  the run.
- There is one recipient (main.py:217, 223).

## Model

| member | source | states |
|---|---|---|
| Text.Collapse | main.py:74 | The collapsed text is canonical: no whitespace at the ends, and each whitespace character is one plain space between two words. It has the same words as the input. |
| Text.SplitJoin | main.py:74 | Splitting the single-space join of a list of words gives back exactly those words. |
| Text.JoinCanonical | main.py:74 | Joining words with single spaces gives canonical text, which is non-empty when there is a word. |
| Text.Strip | main.py:74 | The stripped text neither starts nor ends with whitespace and is no longer than the input. It is empty only when the input is all whitespace. Text that already has no whitespace at its ends is returned unchanged, so stripping twice is stripping once. |
| Text.CleanHtml | main.py:69-74 | Empty markup gives `""`, and only empty markup does. Otherwise the result is at most 303 characters and ends with `"..."`. What comes before the ellipsis is a prefix of the collapsed text. That prefix is the first 300 characters (or all of them), minus at most one trailing space, and has no whitespace at either end. |
| Text.StripCanonicalPrefix | main.py:74 | Stripping a prefix of collapsed text removes at most one trailing space and nothing at the front. |
| Text.ShortTextKeptWhole | main.py:74 | Collapsed text of 300 characters or fewer is kept whole, followed by `"..."`. |
| History.ElapsedIsDayDifference | main.py:84 | With the clock inside its day, `(now - midnight(d)).days` rounded down is `today - d`. |
| History.Load | main.py:54-61 | A missing or unreadable history file reads as the empty history; a parsed file reads as its content. |
| History.Persist | main.py:64-66 | The saved file has exactly the in-memory keys, each with its recorded day as a date. |
| History.Prune | main.py:83-84 | The prune raises iff some stored date is malformed. Otherwise a key is kept iff its date is a day fewer than 5 days before today. Kept keys keep their date, and no key is added. |
| History.PersistPruneRoundTrip | main.py:83-84 | A saved history whose entries are all younger than 5 days reads and prunes back to itself. |
| History.PruneIdempotent | main.py:83-84 | Saving a pruned history and pruning it again on the same day changes nothing. |
| History.ExpiryBoundary | main.py:83-84 | A hash dated day d is still kept on day d+4 and is gone on day d+5. |
| Feeds.RawSummary | main.py:118-119 | The summary text is `summary` when present, even when empty; otherwise `description` when present; otherwise `""`. |
| Feeds.Schedule | main.py:94-96 | The visit list has one source per configured URL, each paired with its own fetch outcome. |
| Feeds.Examined | main.py:108 | At most 3 entries are looked at: the first 3 when the feed has that many, otherwise all of them, as a prefix of the feed. |
| Feeds.ProcessEntry | main.py:108-127 | A missing link raises with nothing changed. A hash already seen is skipped with nothing changed. Otherwise the hash is recorded with today's date whatever follows. The step raises iff the title is missing. At most the one item built from this entry is appended, and one is appended iff the link is unseen and the title is present. |
| Feeds.ProcessEntries | main.py:97-129 | Over one feed's entries, the history only gains keys, all dated today. Old dates are unchanged. Items are only appended, at most one per entry, and their hashes are new and pairwise different. Their links and the new keys come from these entries. Each item carries the source's category and feed title. |
| Feeds.ProcessSource | main.py:96-129 | A transport error or a status other than 200 leaves history and items unchanged. An answered source adds at most 3 items, all drawn from its first 3 entries, with its category and feed title (or "News"). |
| Feeds.Collect | main.py:94-129 | Over all sources, the same growth invariant holds. At most 3 items come per source. Every new key and every item link comes from the first 3 entries of a source that answered 200. |
| Feeds.FetchRssData | main.py:77-131 | The pass raises iff the prune does. The returned history is the pruned history plus new keys, all dated today. Each collected item's hash is a new key. No two items share a hash. |
| Feeds.EntriesAppend | main.py:97-129 | Processing `es + rest` is processing `es`, then `rest` unless an entry of `es` raised. An exception abandons exactly the remaining entries of that source. |
| Feeds.RecordedButNotCollected | main.py:112-127 | An unseen link whose entry has no title ends up recorded as seen, yields no item, and stops the source. |
| Feeds.EntryComplete | main.py:109-127 | An entry with a link and a title does not raise. It records its link's hash, and it appends an item exactly when that hash was not yet in the history. |
| Feeds.EntriesComplete | main.py:108-127 | When no entry of a feed raises, the loop records the hash of every link it looks at. The items it appends carry exactly the hashes that were not in the history before. |
| Feeds.SourceComplete | main.py:96-129 | The same completeness for one source: nothing is gained from a source that did not answer 200. |
| Feeds.CollectComplete | main.py:94-129 | The same completeness over all sources: the history gains exactly the hashes of the examined links, and the new items carry exactly the gained hashes. |
| Feeds.EveryNewLinkCollected | main.py:80-131 | When no looked-at entry raises, the returned history is the pruned history plus the hash of every looked-at link. The collected items carry exactly the hashes of those links that were not in the pruned history. |
| Feeds.LaterEntriesIgnored | main.py:108 | Entries after the third never change what a source contributes. |
| Feeds.CollectAppend | main.py:94-96 | The pass over `a + b` is the pass over `a` followed by the pass over `b` from the state it left. |
| Feeds.SourcesIsolated | main.py:96-129 | Later sources are processed from the state an earlier source left, whatever happened in it. A source that did not answer 200 is as if it were absent. |
| Feeds.CollectedOnce | main.py:110-115 | No link is collected twice in a run, even from two sources. Every collected item's hash is in the returned history, dated today, and was not in the pruned history. |
| Feeds.YoungLinkNotCollected | main.py:110-113 | A link stored fewer than 5 days ago is not collected. |
| Feeds.FreshHeadCollected | main.py:108-127 | An unseen link with a title at the head of an answered feed becomes that source's first new item. |
| Feeds.ExpiredLinkReappears | main.py:83-121 | A link stored 5 or more days ago is collected again when it heads the first source and has a title. |
| Feeds.ConfiguredRunBound | main.py:26-45 | With the eight configured sources a run collects at most 24 items. |
| Digest.Gate | main.py:231-239 | With a valid configuration, the run crashes iff the fetch raised. It finishes iff items were collected and the summarizer returned a non-empty report. A finished run does exactly three things: it summarizes the collected items, sends one mail carrying the summarizer's report, and saves the returned history. The file then holds exactly that history. No other run mails or saves, and it leaves the file unchanged. The summarizer only ever sees the collected, non-empty list. |
| Digest.DailyRun | main.py:230-239 | The run crashes iff the loaded history holds a malformed date. A run that does not finish leaves the file unchanged. A finished run leaves only entries younger than 5 days. It keeps every young entry it loaded with its date. It dates today the hash of every link it summarized. |
| Digest.SavedHistory | main.py:83-115 | When the pass succeeds, the history it returns for saving holds only entries younger than 5 days. It keeps every young stored entry with its date, and it dates today the hash of every collected link. |
| Digest.SaveIgnoresDelivery | main.py:220-239 | Whether the mail was delivered changes neither how the run ends nor the history file it leaves. |
| Digest.NoRepeatWithinRetention | main.py:83-239 | After a finished run, a run fewer than 5 days later collects none of the links the first run summarized, whatever its sources. This holds even if the first mail failed. |

## Left out

- HTTP fetching with `requests` (timeout, user-agent headers, main.py:89-99): each source's outcome is an input. It is either a transport error or a status code with an already parsed feed.
- Feed parsing with `feedparser` (main.py:106): entries are records with optional `link`, `title`, `summary` and `description`, and the feed title is optional. A malformed body is just a feed with no entries.
- HTML-to-text with BeautifulSoup (main.py:71-72): a parameter `getText`. It is assumed not to raise.
- MD5 (main.py:50-51): an arbitrary deterministic function from links to keys, not assumed injective.
- JSON file I/O (main.py:54-66): the file is modelled as absent, unreadable or parsed into a map. A JSON document that is not an object is not modelled. Stored values that are not `YYYY-MM-DD` dates are `Malformed`; `strptime`'s own parsing is not modelled.
- Wall clock: one clock reading serves both the prune and `today_str`. A run that crosses midnight between the two `datetime.now()` calls is not modelled.
- The language-model call, prompt text and numbering (main.py:136-185): a parameter `summarize` that returns a report or nothing. An exception from the request inside the `try` (main.py:175-185) gives `None`, as in the code. Its own `if not items` guard is unreachable behind the gate.
- The configuration is assumed valid. Constructing the API client (main.py:149) is outside any `try` and raises without an API key. Building the mail headers with `formataddr` (main.py:215-218) is outside the `try` of main.py:220 and raises on a missing or non-ASCII address. Either failure ends the run after summarizing and before saving; neither is modelled.
- Writing the history file is assumed to succeed. A failing write in `save_history` (main.py:65-66) would raise after the mail was sent.
- The e-mail body template, CSS, subject line and SMTP transport (main.py:190-227): a parameter `deliver` gives only whether the send succeeded.
- Logging with `print` and the process exit status.
- Text.Strip: its contract does not say that the result is a contiguous slice of the input. Text.StripCanonicalPrefix states exactly what is removed for the only kind of input `clean_html` strips.
- Feeds.Schedule: states the number of sources and the pairing of each URL with its fetch outcome, not the category-then-URL order, which its body fixes.

/**
 * The persisted link history (main.py:54-66) and its pruning at the start of
 * `fetch_rss_data` (main.py:80-84). Keys are link hashes; values are the day
 * a link was last recorded. Dates are day numbers: the stored `YYYY-MM-DD`
 * string either parses to one (`Day`) or does not (`Malformed`).
 */
module History {
  import opened Wrappers

  /** The hash of a link (an MD5 hex digest in the program). */
  type Key = string

  /** Entries are kept while they are younger than this many whole days. */
  const RetentionDays: int := 5

  const SecondsPerDay: int := 86400

  /** A reading of the wall clock: a day number and the seconds since that day's midnight. */
  datatype Clock = Clock(day: int, second: int)

  predicate ValidClock(now: Clock) {
    0 <= now.second < SecondsPerDay
  }

  /** A stored date as `strptime(v, "%Y-%m-%d")` sees it. */
  datatype Stamp = Day(n: int) | Malformed(text: string)

  /** The history file's content: hash to stored date. */
  type Stored = map<Key, Stamp>

  /** The in-memory history of one run: hash to the day it was recorded. */
  type Seen = map<Key, int>

  /** Why a run stops before fetching anything. */
  datatype Crash = MalformedDate

  /** What reading the history file can find. */
  datatype HistoryFile = Absent | Unreadable | Parsed(entries: Stored)

  /**
   * `(now - strptime(d)).days`: the time since midnight of day `d`, in whole
   * days rounded down, as a `timedelta` normalises it.
   */
  function ElapsedDays(now: Clock, d: int): int {
    (now.day * SecondsPerDay + now.second - d * SecondsPerDay) / SecondsPerDay
  }

  /** With the clock inside its day, the whole days elapsed are the difference of day numbers. */
  lemma ElapsedIsDayDifference(now: Clock)
    requires ValidClock(now)
    ensures forall d :: ElapsedDays(now, d) == now.day - d
  {
    forall d ensures ElapsedDays(now, d) == now.day - d {
      var q := now.day - d;
      assert now.day * SecondsPerDay + now.second - d * SecondsPerDay == q * SecondsPerDay + now.second;
    }
  }

  /** `load_history`: the parsed file, or an empty history when it is missing or unreadable. */
  function Load(file: HistoryFile): (h: Stored)
    ensures file.Parsed? ==> h == file.entries
    ensures !file.Parsed? ==> h == map[]
  {
    match file
    case Parsed(entries) => entries
    case _ => map[]
  }

  /** `save_history`: every recorded day written back as a date. */
  function Persist(seen: Seen): (stored: Stored)
    ensures stored.Keys == seen.Keys
    ensures forall k :: k in stored ==> stored[k] == Day(seen[k])
  {
    map k | k in seen :: Day(seen[k])
  }

  /**
   * The `valid_history` comprehension: entries recorded fewer than five whole
   * days before `now` are kept with their day; an unparsable date raises.
   */
  function Prune(stored: Stored, now: Clock): (r: Result<Seen, Crash>)
    requires ValidClock(now)
    ensures r.Failure? <==> exists k :: k in stored && stored[k].Malformed?
    ensures r.Success? ==> forall k ::
      k in r.value <==> k in stored && stored[k].Day? && now.day - stored[k].n < RetentionDays
    ensures r.Success? ==> forall k :: k in r.value ==> stored[k] == Day(r.value[k])
  {
    if exists k :: k in stored && stored[k].Malformed? then Failure(MalformedDate)
    else
      ElapsedIsDayDifference(now);
      Success(map k | k in stored && ElapsedDays(now, stored[k].n) < RetentionDays :: stored[k].n)
  }

  /**
   * A history saved by a run and read back by a later run on a day when
   * every entry is still young gives back exactly that history.
   */
  lemma PersistPruneRoundTrip(seen: Seen, now: Clock)
    requires ValidClock(now)
    requires forall k :: k in seen ==> now.day - seen[k] < RetentionDays
    ensures Prune(Persist(seen), now) == Success(seen)
  {
    var r := Prune(Persist(seen), now);
    assert r.Success?;
    assert r.value.Keys == seen.Keys;
    forall k | k in seen ensures r.value[k] == seen[k] {
      assert Persist(seen)[k] == Day(r.value[k]) == Day(seen[k]);
    }
    assert r.value == seen;
  }

  /** Pruning twice on the same day prunes nothing more. */
  lemma PruneIdempotent(stored: Stored, now: Clock)
    requires ValidClock(now)
    requires Prune(stored, now).Success?
    ensures Prune(Persist(Prune(stored, now).value), now) == Prune(stored, now)
  {
    PersistPruneRoundTrip(Prune(stored, now).value, now);
  }

  /**
   * A hash recorded on day `d` survives pruning on day `d + RetentionDays - 1`
   * and is dropped on day `d + RetentionDays`.
   */
  lemma ExpiryBoundary(k: Key, d: int, stored: Stored, now: Clock)
    requires ValidClock(now)
    requires Prune(stored, now).Success?
    requires k in stored && stored[k] == Day(d)
    ensures now.day == d + RetentionDays - 1 ==> k in Prune(stored, now).value
    ensures now.day == d + RetentionDays ==> k !in Prune(stored, now).value
  {
  }
}

/**
 * One run of the program (the `__main__` block, main.py:230-239): collect,
 * stop when nothing is new, ask the summarizer, and only when it returned a
 * report send the mail and then save the history. The summarizer and the mail
 * transport are parameters. `send_email` catches the errors of the SMTP
 * exchange (main.py:220-227), so its outcome is recorded but decides nothing.
 * The configuration is taken to be valid: without an API key or with a bad
 * mail address, the client construction (main.py:149) or the mail headers
 * (main.py:215-218) would raise outside any `try`.
 */
module Digest {
  import opened Wrappers
  import opened History
  import opened Feeds

  /** The outside-world actions of a run, in the order they happen. */
  datatype Effect =
    | Summarize(items: seq<Item>)
    | SendEmail(report: string, delivered: bool)
    | SaveHistory(entries: Stored)

  /** How a run ends. */
  datatype Exit =
    | Crashed       // an unparsable stored date raised out of the prune
    | NothingNew    // no item collected: `exit(0)`
    | NoReport      // the summarizer returned None or an empty string
    | Finished      // mail sent (or its SMTP failure logged) and history saved

  /** A finished run: how it ended, what it did, and the history file it leaves. */
  datatype Run = Run(exit: Exit, effects: seq<Effect>, file: HistoryFile)

  /** Python's truth value of the summarizer's result (`if report:`). */
  predicate Truthy(report: Option<string>) {
    report.Some? && report.value != ""
  }

  /**
   * The gate of main.py:231-239, given what `fetch_rss_data` returned: stop
   * when it raised or found nothing, otherwise summarize; mail and then save
   * only when the summarizer returned a non-empty report.
   */
  function Gate(fetched: Result<State, Crash>, file: HistoryFile, summarize: seq<Item> -> Option<string>,
                deliver: string -> bool): (r: Run)
    ensures r.exit == Crashed <==> fetched.Failure?
    ensures r.exit == Finished <==>
      fetched.Success? && fetched.value.items != [] && Truthy(summarize(fetched.value.items))
    ensures r.exit == Finished ==>
      && r.file == Parsed(Persist(fetched.value.seen))
      && var report := summarize(fetched.value.items).value;
         r.effects == [Summarize(fetched.value.items), SendEmail(report, deliver(report)),
                       SaveHistory(Persist(fetched.value.seen))]
    ensures r.exit != Finished ==> r.file == file
    ensures forall i :: 0 <= i < |r.effects| && r.effects[i].SaveHistory? ==>
      r.exit == Finished && i == |r.effects| - 1
    ensures forall i :: 0 <= i < |r.effects| && r.effects[i].SendEmail? ==> r.exit == Finished
    ensures forall i :: 0 <= i < |r.effects| && r.effects[i].Summarize? ==>
      fetched.Success? && r.effects[i].items == fetched.value.items != []
  {
    match fetched
    case Failure(_) => Run(Crashed, [], file)
    case Success(st) =>
      if st.items == [] then Run(NothingNew, [], file)
      else
        var report := summarize(st.items);
        if !Truthy(report) then Run(NoReport, [Summarize(st.items)], file)
        else
          var saved := Persist(st.seen);
          Run(Finished, [Summarize(st.items), SendEmail(report.value, deliver(report.value)), SaveHistory(saved)],
              Parsed(saved))
  }

  /**
   * One run of the program: load the history, collect, and pass the result
   * through the gate. A finished run leaves a file holding the young part of
   * the history it loaded, unchanged, and every summarized link's hash dated
   * today; nothing older than the retention window survives.
   */
  function DailyRun(file: HistoryFile, now: Clock, sources: seq<Source>, hash: string -> Key,
                    getText: string -> string, summarize: seq<Item> -> Option<string>,
                    deliver: string -> bool): (r: Run)
    requires ValidClock(now)
    ensures r.exit == Crashed <==> exists k :: k in Load(file) && Load(file)[k].Malformed?
    ensures r.exit != Finished ==> r.file == file
    ensures r.exit == Finished ==>
      && r.file.Parsed?
      && (forall k :: k in r.file.entries ==>
            r.file.entries[k].Day? && now.day - r.file.entries[k].n < RetentionDays)
      && (forall k :: k in Load(file) && Load(file)[k].Day? && now.day - Load(file)[k].n < RetentionDays ==>
            k in r.file.entries && r.file.entries[k] == Load(file)[k])
      && |r.effects| > 0 && r.effects[0].Summarize?
      && (forall i :: 0 <= i < |r.effects[0].items| ==>
            hash(r.effects[0].items[i].url) in r.file.entries
            && r.file.entries[hash(r.effects[0].items[i].url)] == Day(now.day))
  {
    SavedHistory(Load(file), now, sources, hash, getText);
    Gate(FetchRssData(Load(file), now, sources, hash, getText), file, summarize, deliver)
  }

  /**
   * The history a successful collection pass would save: only young entries,
   * every young stored entry unchanged, and every collected link's hash dated
   * today.
   */
  lemma SavedHistory(stored: Stored, now: Clock, sources: seq<Source>, hash: string -> Key,
                     getText: string -> string)
    requires ValidClock(now)
    ensures FetchRssData(stored, now, sources, hash, getText).Success? ==>
      var st := FetchRssData(stored, now, sources, hash, getText).value;
      var saved := Persist(st.seen);
      && (forall k :: k in saved ==> saved[k].Day? && now.day - saved[k].n < RetentionDays)
      && (forall k :: k in stored && stored[k].Day? && now.day - stored[k].n < RetentionDays ==>
            k in saved && saved[k] == stored[k])
      && (forall i :: 0 <= i < |st.items| ==>
            hash(st.items[i].url) in saved && saved[hash(st.items[i].url)] == Day(now.day))
  {
    if FetchRssData(stored, now, sources, hash, getText).Success? {
      CollectedOnce(stored, now, sources, hash, getText);
    }
  }

  /** Whether the mail went out changes neither how the run ends nor what it saves. */
  lemma SaveIgnoresDelivery(file: HistoryFile, now: Clock, sources: seq<Source>, hash: string -> Key,
                            getText: string -> string, summarize: seq<Item> -> Option<string>,
                            deliver: string -> bool, deliver': string -> bool)
    requires ValidClock(now)
    ensures DailyRun(file, now, sources, hash, getText, summarize, deliver).exit
         == DailyRun(file, now, sources, hash, getText, summarize, deliver').exit
    ensures DailyRun(file, now, sources, hash, getText, summarize, deliver).file
         == DailyRun(file, now, sources, hash, getText, summarize, deliver').file
  {
  }

  /**
   * Across runs: once a run has finished on day `now`, a later run fewer than
   * five days after it collects none of the links the first run summarized,
   * whatever its sources say and whether or not the first mail was delivered.
   */
  lemma {:induction false} NoRepeatWithinRetention(
    file: HistoryFile, now: Clock, sources: seq<Source>, hash: string -> Key,
    getText: string -> string, summarize: seq<Item> -> Option<string>, deliver: string -> bool,
    later: Clock, laterSources: seq<Source>)
    requires ValidClock(now) && ValidClock(later)
    requires later.day - now.day < RetentionDays
    requires DailyRun(file, now, sources, hash, getText, summarize, deliver).exit == Finished
    ensures var first := FetchRssData(Load(file), now, sources, hash, getText).value;
      var second := FetchRssData(Load(DailyRun(file, now, sources, hash, getText, summarize, deliver).file),
                                 later, laterSources, hash, getText);
      && second.Success?
      && forall i, j :: 0 <= i < |first.items| && 0 <= j < |second.value.items| ==>
           first.items[i].url != second.value.items[j].url
  {
    var r := DailyRun(file, now, sources, hash, getText, summarize, deliver);
    var first := FetchRssData(Load(file), now, sources, hash, getText).value;
    var stored := Load(r.file);
    assert stored == Persist(first.seen);
    var second := FetchRssData(stored, later, laterSources, hash, getText);
    assert !exists k :: k in stored && stored[k].Malformed?;
    CollectedOnce(Load(file), now, sources, hash, getText);
    forall i, j | 0 <= i < |first.items| && 0 <= j < |second.value.items|
      ensures first.items[i].url != second.value.items[j].url
    {
      var u := first.items[i].url;
      assert stored[hash(u)] == Day(now.day);
      YoungLinkNotCollected(stored, later, laterSources, hash, getText, u, now.day);
      assert second.value.items[j] in second.value.items;
    }
  }
}

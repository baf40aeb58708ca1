/**
 * The request history: a most-recent-first log of successful requests,
 * capped at ten entries, mirrored under one storage key.
 */
module History {
  import opened Wrappers
  import opened RequestBuilder

  /** At most this many entries are kept. */
  const Capacity := 10

  /** The storage key the log is written under. */
  const StorageKey := "requestHistory"

  /** A snapshot of a sent request; `time` is the display timestamp. */
  datatype HistoryEntry = HistoryEntry(
    httpMethod: string,
    url: string,
    headers: seq<Pair>,
    body: string,
    time: string)

  /**
   * What a storage key holds: a log written by this screen (the JSON text
   * is taken to read back as what was written) or text that does not parse.
   */
  datatype Stored = Written(entries: seq<HistoryEntry>) | Unreadable

  function Min(a: int, b: int): int
  {
    if a <= b then a else b
  }

  /** `s.slice(0, n)` for `n >= 0`: the first `n` elements, or all of them. */
  function Take<T>(s: seq<T>, n: nat): (r: seq<T>)
    ensures |r| == Min(|s|, n)
    ensures r <= s
  {
    if |s| <= n then s else s[..n]
  }

  /**
   * `[entry, ...history.slice(0, 9)]`: the new entry goes in front, and of
   * the old log only the nine newest stay, so the oldest falls off a full log.
   */
  function Prepend(history: seq<HistoryEntry>, entry: HistoryEntry): (r: seq<HistoryEntry>)
    ensures |r| == Min(|history| + 1, Capacity)
    ensures r[0] == entry
    ensures r[1..] == history[..Min(|history|, Capacity - 1)]
  {
    [entry] + Take(history, Capacity - 1)
  }

  /** The log after `entries` were saved one after another, oldest first. */
  function SaveAll(history: seq<HistoryEntry>, entries: seq<HistoryEntry>): seq<HistoryEntry>
    decreases |entries|
  {
    if entries == [] then history
    else Prepend(SaveAll(history, entries[..|entries| - 1]), entries[|entries| - 1])
  }

  function Reversed<T>(s: seq<T>): (r: seq<T>)
    ensures |r| == |s|
    ensures forall i :: 0 <= i < |s| ==> r[i] == s[|s| - 1 - i]
  {
    if s == [] then [] else [s[|s| - 1]] + Reversed(s[..|s| - 1])
  }

  /**
   * After any non-empty run of saves the log is exactly the ten most recent
   * requests, newest first, topped up from the log it started with.
   */
  lemma {:induction false} SaveAllKeepsMostRecent(history: seq<HistoryEntry>, entries: seq<HistoryEntry>)
    requires entries != [] || |history| <= Capacity
    ensures SaveAll(history, entries) == Take(Reversed(entries) + history, Capacity)
    decreases |entries|
  {
    if entries != [] {
      var init, last := entries[..|entries| - 1], entries[|entries| - 1];
      var before := SaveAll(history, init);
      if init == [] {
        assert before == history;
        assert Reversed(entries) == [last];
      } else {
        SaveAllKeepsMostRecent(history, init);
        assert before == Take(Reversed(init) + history, Capacity);
        assert Reversed(entries) == [last] + Reversed(init);
      }
      var all := Reversed(init) + history;
      assert Take(before, Capacity - 1) == Take(all, Capacity - 1);
      assert [last] + all == Reversed(entries) + history;
    }
  }

  /**
   * The load at start-up, `JSON.parse(getItem(key)) || []`: an absent key
   * gives the empty log, a written log reads back as written, and unreadable
   * text makes the parse throw, which nothing catches (`None`).
   */
  function Load(storage: map<string, Stored>): (r: Option<seq<HistoryEntry>>)
    ensures StorageKey !in storage ==> r == Some([])
    ensures StorageKey in storage ==> (r.None? <==> storage[StorageKey].Unreadable?)
    ensures r.Some? && StorageKey in storage ==> r.value == storage[StorageKey].entries
  {
    if StorageKey !in storage then Some([])
    else match storage[StorageKey]
      case Written(entries) => Some(entries)
      case Unreadable => None
  }

  /** What a save writes is exactly what the next start-up loads. */
  lemma SaveThenLoad(storage: map<string, Stored>, history: seq<HistoryEntry>, entry: HistoryEntry)
    ensures Load(storage[StorageKey := Written(Prepend(history, entry))]) == Some(Prepend(history, entry))
  {
  }
}

/**
 * The screen's state, one field per state hook, plus the browser storage it
 * writes to. Each method is one event handler: the start-up load, a save to
 * history, a send, a replay from history and the three edits the screen offers.
 */
module PostPerson {
  import opened Wrappers
  import opened Values
  import opened RequestBuilder
  import opened ContentType
  import opened History
  import opened Transaction

  /** The URL the screen opens with. */
  const DefaultUrl := "https://jsonplaceholder.typicode.com/posts"

  class PostPersonState {
    var httpMethod: string
    var url: string
    var activeTab: string
    var queryParams: seq<Pair>
    var headers: seq<Pair>
    var body: string
    var response: Response
    var history: seq<HistoryEntry>
    var responseType: ResponseType
    /** The browser's key-value storage, as this screen sees it. */
    var storage: map<string, Stored>

    /** The request being edited. */
    function CurrentDraft(): Draft
      reads this
    {
      Draft(httpMethod, url, activeTab, queryParams, headers, body)
    }

    /** The in-memory log and the stored log agree. */
    predicate InSync()
      reads this
    {
      if StorageKey in storage then storage[StorageKey] == Written(history) else history == []
    }

    /** The initial values of the state hooks; storage is whatever the browser holds. */
    constructor (storage: map<string, Stored>)
      ensures CurrentDraft() == Draft("GET", DefaultUrl, "Params", [], [], "{}")
      ensures response == Empty && history == [] && responseType == Json
      ensures this.storage == storage
    {
      httpMethod, url, activeTab := "GET", DefaultUrl, "Params";
      queryParams, headers, body := [], [], "{}";
      response, history, responseType := Empty, [], Json;
      this.storage := storage;
    }

    /**
     * The mount effect: the stored log replaces the in-memory one, or the
     * empty log when nothing is stored. Unreadable text makes the parse
     * throw; `ok` is false and nothing changes.
     */
    method LoadHistory() returns (ok: bool)
      modifies this
      ensures ok <==> Load(storage).Some?
      ensures history == if ok then Load(storage).value else old(history)
      ensures ok ==> InSync()
      ensures CurrentDraft() == old(CurrentDraft()) && storage == old(storage)
      ensures response == old(response) && responseType == old(responseType)
    {
      var loaded := Load(storage);
      ok := loaded.Some?;
      if ok {
        history := loaded.value;
      }
    }

    /**
     * Puts `entry` in front of the log, keeps at most ten entries and writes
     * the new log under the storage key.
     */
    method SaveToHistory(entry: HistoryEntry)
      modifies this
      ensures history == Prepend(old(history), entry)
      ensures |history| <= Capacity && history[0] == entry
      ensures storage == old(storage)[StorageKey := Written(history)]
      ensures InSync()
      ensures CurrentDraft() == old(CurrentDraft())
      ensures response == old(response) && responseType == old(responseType)
    {
      var updated := Prepend(history, entry);
      history := updated;
      storage := storage[StorageKey := Written(updated)];
    }

    /**
     * Sends the current draft. `parse` is the JSON parser, `http` the HTTP
     * client, `elapsed` the measured latency and `now` the display time.
     * Returns the request issued, if any. The displayed response, the
     * response type and the history end as `Execute` says: one saved entry
     * on success; on any failure the log and storage are untouched.
     */
    method SendRequest(parse: string -> Result<Value, string>, http: RequestConfig -> Transport,
                       elapsed: int, now: string)
      returns (issued: Option<RequestConfig>)
      modifies this
      ensures var o := Execute(old(CurrentDraft()), parse, http, elapsed, now);
        && issued == o.issued
        && response == o.response
        && responseType == (if o.detected.Some? then o.detected.value else old(responseType))
        && history == (if o.entry.Some? then Prepend(old(history), o.entry.value) else old(history))
        && storage == (if o.entry.Some? then old(storage)[StorageKey := Written(history)] else old(storage))
      ensures old(InSync()) ==> InSync()
      ensures CurrentDraft() == old(CurrentDraft())
    {
      var config := BuildConfig(CurrentDraft(), parse);
      if config.Failure? {
        response := Errored(Caught(Thrown(config.error, None)));
        return None;
      }
      issued := Some(config.value);
      match http(config.value)
      case Rejected(message, resp) =>
        response := Errored(Caught(Thrown(message, resp)));
      case Delivered(res) =>
        response := Received(res.data, res.status, res.headers, elapsed);
        if ContentTypeKey !in res.headers {
          response := Errored(Caught(Thrown(MissingContentTypeMessage, None)));
        } else {
          responseType := Classify(res.headers[ContentTypeKey]);
          SaveToHistory(HistoryEntry(httpMethod, url, headers, body, now));
        }
    }

    /**
     * A click on a history entry: method, URL, headers and body are
     * overwritten with the entry's; the tab, query parameters, response,
     * response type, log and storage stay as they were.
     */
    method Replay(req: HistoryEntry)
      modifies this
      ensures httpMethod == req.httpMethod && url == req.url && headers == req.headers && body == req.body
      ensures activeTab == old(activeTab) && queryParams == old(queryParams)
      ensures response == old(response) && responseType == old(responseType)
      ensures history == old(history) && storage == old(storage)
    {
      httpMethod := req.httpMethod;
      url := req.url;
      headers := req.headers;
      body := req.body;
    }

    /** The method selector. */
    method SelectMethod(m: string)
      modifies this`httpMethod
      ensures httpMethod == m
    {
      httpMethod := m;
    }

    /** The URL field. */
    method EditUrl(u: string)
      modifies this`url
      ensures url == u
    {
      url := u;
    }

    /** The JSON / XML / HTML buttons: a manual override of the response type. */
    method ChooseResponseType(t: ResponseType)
      modifies this`responseType
      ensures responseType == t
    {
      responseType := t;
    }
  }
}

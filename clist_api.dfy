/** The contest cache file and its refresh rule (remind/util/clist_api.py). */
module ClistApi {
  import opened Results
  import opened Rounds

  /** `_CLIST_API_TIME_DIFFERENCE`: seconds a snapshot stays fresh. */
  const TimeDifference: int := 30 * 60

  /** The JSON object in the db file. A key that is absent is `None`; an object
      without either key is the empty dict, which Python treats as falsy. */
  datatype Db = Db(querytime: Option<int>, objects: Option<seq<RawContest>>)

  /** What `requests.get` produced: a response, or an exception. */
  datatype HttpReply =
    | Raised
    | Response(status: int, objects: Option<seq<RawContest>>)

  /** `_query_api`: the `objects` list of a 200 response; any other status, a body
      without `objects`, or an exception becomes `ClientError`. */
  function QueryApi(reply: HttpReply): (r: Result<seq<RawContest>>)
    ensures r.Success? <==> reply.Response? && reply.status == 200 && reply.objects.Some?
    ensures r.Success? ==> r.value == reply.objects.value
    ensures r.Failure? ==> r.error == ClientError
  {
    match reply
    case Raised => Failure(ClientError)
    case Response(status, objects) =>
      if status != 200 then Failure(ClientError)
      else if objects.None? then Failure(ClientError)
      else Success(objects.value)
  }

  /** `db['querytime'] if db and db['querytime'] else 0`, where `file` is `None` when
      the file could not be read. A non-empty object without `querytime` raises. */
  function LastQueryTime(file: Option<Db>): (r: Result<int>)
    ensures file.None? ==> r == Success(0)
    ensures file.Some? && file.value == Db(None, None) ==> r == Success(0)
    ensures file.Some? && file.value.querytime.None? && file.value.objects.Some? ==> r == Failure(KeyError)
    ensures file.Some? && file.value.querytime.Some? ==> r == Success(file.value.querytime.value)
  {
    match file
    case None => Success(0)
    case Some(db) =>
      if db == Db(None, None) then Success(0)
      else if db.querytime.None? then Failure(KeyError)
      else if db.querytime.value == 0 then Success(0)
      else Success(db.querytime.value)
  }

  /** How a call of `cache` ended. */
  datatype CacheOutcome = Fresh | QueryFailed | Replaced | CacheRaised(error: Error)

  /** The next file content and the outcome of `cache(forced)` at time `now`, where
      `query` is what `_query_api` would give if it were called. */
  function CacheStep(file: Option<Db>, forced: bool, now: int, query: Result<seq<RawContest>>)
    : (Option<Db>, CacheOutcome)
  {
    match LastQueryTime(file)
    case Failure(e) => (file, CacheRaised(e))
    case Success(last) =>
      if !forced && now - last < TimeDifference then (file, Fresh)
      else if query.Failure? then (file, QueryFailed)
      else (Some(Db(Some(now), Some(query.value))), Replaced)
  }

  /** Not forced and fresher than the window: no query, file unchanged. */
  lemma FreshSkips(file: Option<Db>, now: int, query: Result<seq<RawContest>>, last: int)
    requires LastQueryTime(file) == Success(last) && now - last < TimeDifference
    ensures CacheStep(file, false, now, query) == (file, Fresh)
  {
  }

  /** A forced call always queries, however fresh the snapshot. */
  lemma ForcedQueries(file: Option<Db>, now: int, query: Result<seq<RawContest>>)
    requires LastQueryTime(file).Success?
    ensures CacheStep(file, true, now, query).1 in {QueryFailed, Replaced}
  {
  }

  /** A failed query leaves the file as it was. */
  lemma FailureKeepsSnapshot(file: Option<Db>, forced: bool, now: int, e: Error)
    ensures CacheStep(file, forced, now, Failure(e)).0 == file
  {
  }

  /** A successful query replaces the file with exactly `{querytime: now, objects}`. */
  lemma SuccessReplaces(file: Option<Db>, forced: bool, now: int, contests: seq<RawContest>, last: int)
    requires LastQueryTime(file) == Success(last)
    requires forced || now - last >= TimeDifference
    ensures CacheStep(file, forced, now, Success(contests)) == (Some(Db(Some(now), Some(contests))), Replaced)
  {
  }

  /** Right after a replacement, an unforced call within the window
      does not query again. */
  lemma ReplacedIsFresh(file: Option<Db>, forced: bool, now: int, later: int, contests: seq<RawContest>,
                        query: Result<seq<RawContest>>)
    requires now <= later < now + TimeDifference
    requires CacheStep(file, forced, now, Success(contests)).1 == Replaced
    ensures CacheStep(CacheStep(file, forced, now, Success(contests)).0, false, later, query).1 == Fresh
  {
  }

  /** The db file on disk. */
  class ContestStore {
    var file: Option<Db>

    constructor (initial: Option<Db>)
      ensures file == initial
    {
      file := initial;
    }

    /** `cache(forced)`: reads the last query time, returns early when fresh and not
        forced or when the query fails, and otherwise overwrites the file. */
    method Cache(forced: bool, now: int, query: Result<seq<RawContest>>) returns (outcome: CacheOutcome)
      modifies this
      ensures (file, outcome) == CacheStep(old(file), forced, now, query)
    {
      var last := LastQueryTime(file);
      if last.Failure? {
        return CacheRaised(last.error);
      }
      if !forced && now - last.value < TimeDifference {
        return Fresh;
      }
      if query.Failure? {
        return QueryFailed;
      }
      file := Some(Db(Some(now), Some(query.value)));
      outcome := Replaced;
    }
  }
}

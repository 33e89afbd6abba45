/**
 The fetch-info coordinator of the feeds controller.

 A request names a URL; the coordinator derives a cache key from it, reads
 the shared cache, and on a miss writes a `queued` placeholder and enqueues
 one background job carrying the URL and the key. The record it read or
 wrote is rendered with status 500 when its status is `error`, and with
 the default status 200 otherwise.

 The cache is a map from keys to records and the job queue is the sequence
 of jobs handed to the worker, oldest first. The worker's eventual write
 and the cache's expiry of a key are explicit operations.

 `Fetch`, `WriteBack` and `Expire` state the behaviour on values; the
 class `Coordinator` holds the same state in fields and its methods are
 proved to follow those functions.
 */
module FetchInfo {
  import opened Values

  /** Every key the coordinator derives starts with this namespace. */
  const KeyPrefix: string := "feeds/fetch_info/"
  /** Status of the placeholder written on a miss. */
  const QueuedStatus: string := "queued"
  /** Status a worker writes when the fetch failed. */
  const ErrorStatus: string := "error"
  const OkCode: int := 200
  const ServerErrorCode: int := 500

  /** A cached fetch-info record: its status, the URL, and whatever else the worker stored. */
  datatype Record = Record(status: string, url: string, details: map<string, Json>)

  /** A background job as enqueued: the URL to fetch and the key to write the result to. */
  datatype Job = Job(url: string, key: string)

  /** Why a request was refused before the cache was consulted. */
  datatype Failure =
    | MissingUrl   // no `url` parameter at all
    | InvalidUrl   // an empty `url` parameter

  /** What the action answers: a rendered record with an HTTP status, or a raised error. */
  datatype Response = Rendered(body: Record, code: int) | Raised(failure: Failure)

  /** The shared state: the cache and the jobs enqueued so far. */
  datatype Store = Store(cache: map<string, Record>, jobs: seq<Job>)

  // ---------------------------------------------------------------------------
  // Cache keys
  // ---------------------------------------------------------------------------

  /** The key under which the record for `url` is cached: the prefix, then the URL verbatim. */
  function CacheKey(url: string): (key: string)
    ensures |key| == |KeyPrefix| + |url|
    ensures key[..|KeyPrefix|] == KeyPrefix && key[|KeyPrefix|..] == url
  {
    KeyPrefix + url
  }

  /** The URL a key stands for, if the key lies in the fetch-info namespace. */
  function UrlOfKey(key: string): (url: Option<string>)
  {
    if |KeyPrefix| <= |key| && key[..|KeyPrefix|] == KeyPrefix then Some(key[|KeyPrefix|..]) else None
  }

  lemma KeyRoundTrip(url: string)
    ensures UrlOfKey(CacheKey(url)) == Some(url)
  {
  }

  lemma KeyFromUrl(key: string, url: string)
    requires UrlOfKey(key) == Some(url)
    ensures CacheKey(url) == key
  {
  }

  /** Distinct URLs have distinct keys, so requests for different URLs never share a cache entry. */
  lemma CacheKeyInjective(u: string, v: string)
    ensures CacheKey(u) == CacheKey(v) <==> u == v
  {
  }

  // ---------------------------------------------------------------------------
  // One request
  // ---------------------------------------------------------------------------

  /** The record written on a miss: status `queued`, the URL, nothing else. */
  function Placeholder(url: string): (rec: Record)
    ensures rec.status == QueuedStatus && rec.url == url && rec.details == map[]
  {
    Record(QueuedStatus, url, map[])
  }

  /** The HTTP status a record is rendered with. */
  function HttpCode(rec: Record): (code: int)
    ensures code == ServerErrorCode <==> rec.status == ErrorStatus
    ensures code != ServerErrorCode ==> code == OkCode
  {
    if rec.status == ErrorStatus then ServerErrorCode else OkCode
  }

  /**
   One `fetch_info` request on the store `s`: the new store and the response.
   A missing or empty URL is refused with the store unchanged; a hit answers
   the stored record and changes nothing; a miss caches the placeholder,
   appends one job for the URL's key and answers the placeholder with 200.
   */
  function Fetch(s: Store, param: Option<string>): (out: (Store, Response))
    ensures param.None? ==> out == (s, Raised(MissingUrl))
    ensures param == Some("") ==> out == (s, Raised(InvalidUrl))
    ensures param.Some? && param.value != "" && CacheKey(param.value) in s.cache ==>
              var rec := s.cache[CacheKey(param.value)];
              out.0 == s && out.1 == Rendered(rec, HttpCode(rec))
    ensures param.Some? && param.value != "" && CacheKey(param.value) !in s.cache ==>
              out.0.cache == s.cache[CacheKey(param.value) := Placeholder(param.value)] &&
              out.0.jobs == s.jobs + [Job(param.value, CacheKey(param.value))] &&
              out.1 == Rendered(Placeholder(param.value), OkCode)
  {
    match param
    case None => (s, Raised(MissingUrl))
    case Some(url) =>
      if url == "" then (s, Raised(InvalidUrl))
      else
        var key := CacheKey(url);
        if key in s.cache then
          (s, Rendered(s.cache[key], HttpCode(s.cache[key])))
        else
          var rec := Placeholder(url);
          (Store(s.cache[key := rec], s.jobs + [Job(url, key)]), Rendered(rec, HttpCode(rec)))
  }

  /** The worker's write: the whole record under `key` is replaced; the queue is untouched. */
  function WriteBack(s: Store, key: string, rec: Record): (t: Store)
    ensures key in t.cache && t.cache[key] == rec
    ensures forall k :: k != key ==> (k in t.cache <==> k in s.cache)
    ensures forall k :: k != key && k in s.cache ==> t.cache[k] == s.cache[k]
    ensures t.jobs == s.jobs
  {
    Store(s.cache[key := rec], s.jobs)
  }

  /** The cache forgetting `key`, as when its entry expires. */
  function Expire(s: Store, key: string): (t: Store)
    ensures key !in t.cache
    ensures forall k :: k != key ==> (k in t.cache <==> k in s.cache)
    ensures forall k :: k != key && k in s.cache ==> t.cache[k] == s.cache[k]
    ensures t.jobs == s.jobs
  {
    Store(s.cache - {key}, s.jobs)
  }

  /** A missing or empty URL is refused, and the cache and the queue stay as they were. */
  lemma FetchRefusesMissingOrEmptyUrl(s: Store)
    ensures Fetch(s, None) == (s, Raised(MissingUrl))
    ensures Fetch(s, Some("")) == (s, Raised(InvalidUrl))
  {
  }

  /** On a miss the placeholder is cached, exactly one job is appended, and the placeholder is answered with 200. */
  lemma FetchMiss(s: Store, url: string)
    requires url != "" && CacheKey(url) !in s.cache
    ensures Fetch(s, Some(url)).0.cache == s.cache[CacheKey(url) := Placeholder(url)]
    ensures Fetch(s, Some(url)).0.jobs == s.jobs + [Job(url, CacheKey(url))]
    ensures Fetch(s, Some(url)).1 == Rendered(Placeholder(url), OkCode)
  {
  }

  /** On a hit nothing changes and the stored record is answered verbatim. */
  lemma FetchHit(s: Store, url: string)
    requires url != "" && CacheKey(url) in s.cache
    ensures Fetch(s, Some(url)).0 == s
    ensures Fetch(s, Some(url)).1.Rendered?
    ensures Fetch(s, Some(url)).1.body == s.cache[CacheKey(url)]
    ensures Fetch(s, Some(url)).1.code == (if s.cache[CacheKey(url)].status == ErrorStatus then ServerErrorCode else OkCode)
  {
  }

  /** A request touches no other key, never removes a job, and enqueues at most one job, for its own key. */
  lemma FetchFrame(s: Store, param: Option<string>, key: string)
    requires param.None? || key != CacheKey(param.value)
    ensures key in Fetch(s, param).0.cache <==> key in s.cache
    ensures key in s.cache ==> Fetch(s, param).0.cache[key] == s.cache[key]
    ensures var jobs := Fetch(s, param).0.jobs;
            jobs == s.jobs || (param.Some? && jobs == s.jobs + [Job(param.value, CacheKey(param.value))])
  {
  }

  /** The response is rendered with 500 exactly when the returned record's status is `error`, otherwise with 200. */
  lemma FetchStatusCode(s: Store, url: string)
    requires url != ""
    ensures Fetch(s, Some(url)).1.Rendered?
    ensures Fetch(s, Some(url)).1.code == ServerErrorCode <==> Fetch(s, Some(url)).1.body.status == ErrorStatus
    ensures Fetch(s, Some(url)).1.code != ServerErrorCode ==> Fetch(s, Some(url)).1.code == OkCode
  {
  }

  /** Two requests in a row for one URL leave the store as the first left it and answer the same record. */
  lemma FetchTwice(s: Store, url: string)
    requires url != ""
    ensures var (s1, r1) := Fetch(s, Some(url));
            var (s2, r2) := Fetch(s1, Some(url));
            s2 == s1 && r2 == r1 &&
            CountJobs(s2.jobs, CacheKey(url)) == CountJobs(s.jobs, CacheKey(url)) + (if CacheKey(url) in s.cache then 0 else 1)
  {
    var key := CacheKey(url);
    if key !in s.cache {
      CountJobsAppend(s.jobs, [Job(url, key)], key);
    }
  }

  /** Once the worker has written its record, a request answers that record and enqueues nothing. */
  lemma FetchAfterWorkerWrite(s: Store, url: string, rec: Record)
    requires url != ""
    ensures var t := WriteBack(s, CacheKey(url), rec);
            Fetch(t, Some(url)) == (t, Rendered(rec, HttpCode(rec)))
  {
  }

  /** Once the entry has expired, a request behaves like the very first one: placeholder and a fresh job. */
  lemma FetchAfterExpiry(s: Store, url: string)
    requires url != ""
    ensures var t := Expire(s, CacheKey(url));
            Fetch(t, Some(url)) ==
              (Store(s.cache[CacheKey(url) := Placeholder(url)], s.jobs + [Job(url, CacheKey(url))]),
               Rendered(Placeholder(url), OkCode))
  {
    var t := Expire(s, CacheKey(url));
    assert t.cache[CacheKey(url) := Placeholder(url)] == s.cache[CacheKey(url) := Placeholder(url)];
  }

  // ---------------------------------------------------------------------------
  // Sequences of events
  // ---------------------------------------------------------------------------

  /** What may happen to the store: a request, a worker's write, or an expiry. */
  datatype Event =
    | Request(param: Option<string>)
    | WorkerDone(key: string, rec: Record)
    | Expiry(key: string)

  function Step(s: Store, e: Event): Store
  {
    match e
    case Request(param) => Fetch(s, param).0
    case WorkerDone(key, rec) => WriteBack(s, key, rec)
    case Expiry(key) => Expire(s, key)
  }

  /** The store after the events, in order. */
  function Run(s: Store, events: seq<Event>): Store
    decreases |events|
  {
    if events == [] then s else Run(Step(s, events[0]), events[1..])
  }

  /** The number of jobs in `jobs` that write to `key`. */
  function CountJobs(jobs: seq<Job>, key: string): (n: nat)
    ensures n <= |jobs|
    ensures n == 0 <==> forall i :: 0 <= i < |jobs| ==> jobs[i].key != key
  {
    if jobs == [] then 0 else (if jobs[0].key == key then 1 else 0) + CountJobs(jobs[1..], key)
  }

  lemma {:induction false} CountJobsAppend(a: seq<Job>, b: seq<Job>, key: string)
    ensures CountJobs(a + b, key) == CountJobs(a, key) + CountJobs(b, key)
  {
    if a != [] {
      assert (a + b)[0] == a[0] && (a + b)[1..] == a[1..] + b;
      CountJobsAppend(a[1..], b, key);
    } else {
      assert a + b == b;
    }
  }

  /** Every job carries a non-empty URL and the key derived from it. */
  ghost predicate JobsKeyed(s: Store)
  {
    forall i :: 0 <= i < |s.jobs| ==> s.jobs[i].url != "" && s.jobs[i].key == CacheKey(s.jobs[i].url)
  }

  lemma {:induction false} RunKeepsJobsKeyed(s: Store, events: seq<Event>)
    requires JobsKeyed(s)
    ensures JobsKeyed(Run(s, events))
    decreases |events|
  {
    if events != [] {
      var t := Step(s, events[0]);
      assert JobsKeyed(t);
      RunKeepsJobsKeyed(t, events[1..]);
    }
  }

  /** How one event changes the number of jobs for `key`, and that a cached key stays cached unless it expires. */
  lemma StepJobs(s: Store, e: Event, key: string)
    ensures CountJobs(Step(s, e).jobs, key) ==
            CountJobs(s.jobs, key) + (if e.Request? && e.param.Some? && e.param.value != "" &&
                                         CacheKey(e.param.value) == key && key !in s.cache then 1 else 0)
    ensures key in s.cache && e != Expiry(key) ==> key in Step(s, e).cache
    ensures e.Request? && e.param.Some? && e.param.value != "" && CacheKey(e.param.value) == key ==> key in Step(s, e).cache
  {
    if e.Request? && e.param.Some? && e.param.value != "" {
      var url := e.param.value;
      if CacheKey(url) !in s.cache {
        CountJobsAppend(s.jobs, [Job(url, CacheKey(url))], key);
      }
    }
  }

  /**
   As long as `key` does not expire, the events enqueue at most one job for
   it, and none at all if it was already cached: in this sequential model,
   whose cache never fails a read or a write, no URL has two fetches in
   flight within one expiry window.
   */
  lemma {:induction false} AtMostOneJobPerKey(s: Store, events: seq<Event>, key: string)
    requires Expiry(key) !in events
    ensures CountJobs(Run(s, events).jobs, key) <= CountJobs(s.jobs, key) + (if key in s.cache then 0 else 1)
    ensures key in s.cache ==> key in Run(s, events).cache
    decreases |events|
  {
    if events != [] {
      assert events == [events[0]] + events[1..];
      StepJobs(s, events[0], key);
      AtMostOneJobPerKey(Step(s, events[0]), events[1..], key);
    }
  }

  /** Starting from an empty cache and queue, no key ever has two jobs while it does not expire. */
  lemma AtMostOneJobFromEmpty(events: seq<Event>, key: string)
    requires Expiry(key) !in events
    ensures CountJobs(Run(Store(map[], []), events).jobs, key) <= 1
  {
    AtMostOneJobPerKey(Store(map[], []), events, key);
  }

  /**
   With requests only, a URL gets exactly one job if it was not cached and
   was requested at least once, and no job otherwise.
   */
  lemma {:induction false} RequestsEnqueueOnce(s: Store, events: seq<Event>, url: string)
    requires url != ""
    requires forall i :: 0 <= i < |events| ==> events[i].Request?
    ensures CountJobs(Run(s, events).jobs, CacheKey(url)) ==
            CountJobs(s.jobs, CacheKey(url)) + (if CacheKey(url) !in s.cache && Request(Some(url)) in events then 1 else 0)
    decreases |events|
  {
    if events != [] {
      var key := CacheKey(url);
      var e := events[0];
      assert events == [e] + events[1..];
      StepJobs(s, e, key);
      if e.param.Some? {
        CacheKeyInjective(e.param.value, url);
      }
      RequestsEnqueueOnce(Step(s, e), events[1..], url);
    }
  }

  // ---------------------------------------------------------------------------
  // The coordinator over mutable state
  // ---------------------------------------------------------------------------

  /** The coordinator with the cache and the job queue as its fields. */
  class Coordinator {
    var cache: map<string, Record>
    var jobs: seq<Job>

    /** The state as a value, for the functions above. */
    function Snapshot(): Store
      reads this
    {
      Store(cache, jobs)
    }

    /**
     Every job in the log carries a non-empty URL and that URL's key. The
     constructor establishes it and every method keeps it; it is a stated
     invariant only, no other contract relies on it.
     */
    ghost predicate Valid()
      reads this
    {
      JobsKeyed(Snapshot())
    }

    constructor ()
      ensures Valid()
      ensures cache == map[] && jobs == []
    {
      cache := map[];
      jobs := [];
    }

    /** Cache read: the stored record, or none on a miss. */
    method Read(key: string) returns (rec: Option<Record>)
      ensures rec.Some? <==> key in cache
      ensures rec.Some? ==> rec.value == cache[key]
    {
      rec := if key in cache then Some(cache[key]) else None;
    }

    /** The `fetch_info` action. */
    method FetchInfo(param: Option<string>) returns (r: Response)
      requires Valid()
      modifies this
      ensures Valid()
      ensures (Snapshot(), r) == Fetch(old(Snapshot()), param)
      ensures param.None? || param == Some("") ==> r.Raised? && unchanged(this)
      ensures param.Some? && param.value != "" && CacheKey(param.value) in old(cache) ==>
                unchanged(this) && r == Rendered(old(cache)[CacheKey(param.value)], HttpCode(old(cache)[CacheKey(param.value)]))
      ensures param.Some? && param.value != "" && CacheKey(param.value) !in old(cache) ==>
                cache == old(cache)[CacheKey(param.value) := Placeholder(param.value)] &&
                jobs == old(jobs) + [Job(param.value, CacheKey(param.value))] &&
                r == Rendered(Placeholder(param.value), OkCode)
    {
      if param.None? {
        r := Raised(MissingUrl);
        return;
      }
      var url := param.value;
      if url == "" {
        r := Raised(InvalidUrl);
        return;
      }
      var key := CacheKey(url);
      var cached := Read(key);
      var rec: Record;
      if cached.None? {
        rec := Placeholder(url);
        cache := cache[key := rec];
        jobs := jobs + [Job(url, key)];
      } else {
        rec := cached.value;
      }
      if rec.status == ErrorStatus {
        r := Rendered(rec, ServerErrorCode);
      } else {
        r := Rendered(rec, OkCode);
      }
    }

    /** The worker's completion: replaces the record under `key`. */
    method WorkerWrite(key: string, rec: Record)
      requires Valid()
      modifies this
      ensures Valid()
      ensures Snapshot() == WriteBack(old(Snapshot()), key, rec)
      ensures cache == old(cache)[key := rec] && jobs == old(jobs)
    {
      cache := cache[key := rec];
    }

    /** The cache dropping `key` when its entry expires. */
    method Evict(key: string)
      requires Valid()
      modifies this
      ensures Valid()
      ensures Snapshot() == Expire(old(Snapshot()), key)
      ensures cache == old(cache) - {key} && jobs == old(jobs)
    {
      cache := cache - {key};
    }
  }

  /**
   A session on one URL: the first request answers the queued placeholder
   and enqueues a job, a repeat answers the same and enqueues nothing, a
   completed record from the worker is answered with 200, an error record
   with 500, and after expiry the next request is queued again with a fresh
   job.
   */
  method ExampleSession(url: string, result: map<string, Json>, detail: map<string, Json>)
    requires url != ""
  {
    var c := new Coordinator();
    var r1 := c.FetchInfo(Some(url));
    assert r1 == Rendered(Record(QueuedStatus, url, map[]), 200);
    assert |c.jobs| == 1;
    var r2 := c.FetchInfo(Some(url));
    assert r2 == r1 && |c.jobs| == 1;
    var done := Record("complete", url, result);
    c.WorkerWrite(CacheKey(url), done);
    var r3 := c.FetchInfo(Some(url));
    assert r3 == Rendered(done, 200) && |c.jobs| == 1;
    var failed := Record(ErrorStatus, url, detail);
    c.WorkerWrite(CacheKey(url), failed);
    var r4 := c.FetchInfo(Some(url));
    assert r4 == Rendered(failed, 500);
    c.Evict(CacheKey(url));
    var r5 := c.FetchInfo(Some(url));
    assert r5 == r1 && |c.jobs| == 2;
  }
}

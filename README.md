# Feeds controller: fetch-info coordinator and DMFR view

A Dafny model of two actions of the transit feed registry's feeds API
controller.

- **`fetch_info`** (module `FetchInfo`, file `fetch_info.dfy`) coordinates a
  slow fetch of feed metadata. Given a URL, it derives the cache key
  `"feeds/fetch_info/" + url` and reads the shared cache. On a miss it
  writes a `{status: queued, url}` placeholder and enqueues one background
  job `(url, key)`. It renders the record it read or wrote, with HTTP
  status 500 when the record's status is `error` and 200 otherwise. A
  missing or empty URL raises an error before the cache is touched.
  `Fetch` states one request on a `Store` value (the cache as a map, the
  enqueued jobs as a sequence). `WriteBack` and `Expire` are the worker's
  full-record write and the cache's expiry of a key. Class `Coordinator`
  keeps the same state in two fields, and its methods are proved to follow
  these functions. The lemmas cover single requests, two requests in a row,
  a request after the worker's write and after expiry, and arbitrary
  sequences of requests, worker writes and expiries: while a key does not
  expire, it never gets more than one job.
- **`dmfr`** (module `DmfrView`, file `dmfr.dfy`) renders every feed as a
  DMFR entry. The entry carries `spec`, `id`, `urls` and `license`. It has
  `authorization` only when the authorization is present,
  `feed_namespace_id` only for a feed with exactly one operator, and
  `associated_feeds` only for `gtfs-rt` feeds. The associated feeds are
  the operators' feeds in order, with the feed itself removed and no
  de-duplication.
- `values.dfy` (module `Values`) holds `Option`, the JSON values stored in
  the feed's JSON columns, and ActiveSupport's `blank?`/`present?` on them.

How the code treats bad input, and what the model makes of it:
- An empty `url` makes the action raise a plain exception before the cache
  is read. The model answers `Raised(InvalidUrl)` and leaves the cache and
  the queue as they were.
- A request without a `url` parameter also raises, because `empty?` is
  called on nil. The model answers `Raised(MissingUrl)`, with no other
  effect.

## Model

| member | source | states |
|---|---|---|
| FetchInfo.CacheKey | app/controllers/api/v1/feeds_controller.rb:10 | the key is the prefix `feeds/fetch_info/` followed by the URL verbatim |
| FetchInfo.KeyRoundTrip | app/controllers/api/v1/feeds_controller.rb:10 | stripping the prefix from a URL's key gives back the URL |
| FetchInfo.KeyFromUrl | app/controllers/api/v1/feeds_controller.rb:10 | every key in the fetch-info namespace is the key of the URL it encodes |
| FetchInfo.CacheKeyInjective | app/controllers/api/v1/feeds_controller.rb:10 | two URLs share a key iff they are equal |
| FetchInfo.Fetch | app/controllers/api/v1/feeds_controller.rb:6-22 | one request: a missing or empty URL raises with the store unchanged; on a hit the store is unchanged and the stored record is answered with its code; on a miss the key maps to the placeholder, one job `(url, key)` is appended and the placeholder is answered with 200 |
| FetchInfo.Placeholder | app/controllers/api/v1/feeds_controller.rb:13 | the miss placeholder has status `queued`, the request's URL and no other field |
| FetchInfo.HttpCode | app/controllers/api/v1/feeds_controller.rb:17-21 | the code is 500 iff the record's status is `error`, and 200 otherwise |
| FetchInfo.WriteBack | app/controllers/api/v1/feeds_controller.rb:15 | the worker's write replaces the record under its key, leaves every other key and the queue alone |
| FetchInfo.Expire | app/controllers/api/v1/feeds_controller.rb:14 | expiry removes exactly that key from the cache and leaves the queue alone |
| FetchInfo.FetchRefusesMissingOrEmptyUrl | app/controllers/api/v1/feeds_controller.rb:7-8 | a missing or empty URL raises, with the cache and queue unchanged |
| FetchInfo.FetchMiss | app/controllers/api/v1/feeds_controller.rb:11-16 | on a miss the key maps to the placeholder, exactly one job `(url, key)` is appended, and the placeholder is answered with 200 |
| FetchInfo.FetchHit | app/controllers/api/v1/feeds_controller.rb:11-21 | on a hit the store is unchanged and the stored record is answered verbatim, with 500 iff its status is `error` |
| FetchInfo.FetchFrame | app/controllers/api/v1/feeds_controller.rb:10-16 | a request leaves every other key as it was and appends either nothing or its own one job |
| FetchInfo.FetchStatusCode | app/controllers/api/v1/feeds_controller.rb:17-21 | for a non-empty URL the answer is rendered, with 500 iff the returned record's status is `error` and 200 otherwise, `queued` included |
| FetchInfo.FetchTwice | app/controllers/api/v1/feeds_controller.rb:11-16 | a second request for the same URL changes nothing and returns the first answer; together they enqueue one job for the key, or none if it was cached |
| FetchInfo.FetchAfterWorkerWrite | app/controllers/api/v1/feeds_controller.rb:11-21 | after the worker writes a record, a request answers that record with its status code and changes nothing |
| FetchInfo.FetchAfterExpiry | app/controllers/api/v1/feeds_controller.rb:11-16 | after the key expires, a request behaves like the first one: placeholder cached, one fresh job, placeholder answered |
| FetchInfo.CountJobs | app/controllers/api/v1/feeds_controller.rb:15 | the count of jobs for a key is zero iff no job carries that key |
| FetchInfo.StepJobs | app/controllers/api/v1/feeds_controller.rb:11-16 | an event adds one job for a key exactly when it is a request for that key's URL on a miss; a cached key stays cached unless it expires |
| FetchInfo.RunKeepsJobsKeyed | app/controllers/api/v1/feeds_controller.rb:10-15 | every enqueued job carries a non-empty URL and that URL's key, whatever events happen |
| FetchInfo.AtMostOneJobPerKey | app/controllers/api/v1/feeds_controller.rb:9-16 | in any sequence of requests and worker writes without expiry of a key, that key gains at most one job, and none if it was cached |
| FetchInfo.AtMostOneJobFromEmpty | app/controllers/api/v1/feeds_controller.rb:9-16 | from an empty cache and queue, a key that does not expire never has two jobs |
| FetchInfo.RequestsEnqueueOnce | app/controllers/api/v1/feeds_controller.rb:11-16 | with requests only, a URL gains exactly one job if it was uncached and requested at least once, and none otherwise |
| FetchInfo.Coordinator.Read | app/controllers/api/v1/feeds_controller.rb:11 | the cache read returns the stored record iff the key is present |
| FetchInfo.Coordinator.FetchInfo | app/controllers/api/v1/feeds_controller.rb:6-22 | the action's new state and answer are those of `Fetch`; refused URLs, hits and misses are spelled out on the fields |
| FetchInfo.Coordinator.WorkerWrite | app/controllers/api/v1/feeds_controller.rb:15 | the fields follow `WriteBack`: one key replaced, the queue unchanged |
| FetchInfo.Coordinator.Evict | app/controllers/api/v1/feeds_controller.rb:14 | the fields follow `Expire`: one key removed, the queue unchanged |
| Values.UnicodeSpacesAreBlank | app/controllers/api/v1/feeds_controller.rb:34 | strings of Unicode spaces alone (no-break space, ideographic space, line separator) are not present; a string with another character is |
| DmfrView.OperatorFeedIds | app/controllers/api/v1/feeds_controller.rb:41 | no operators flatten to no feeds, one operator to exactly its own feeds, and every operator's feeds appear with their full multiplicity |
| DmfrView.OperatorFeedIdsConcat | app/controllers/api/v1/feeds_controller.rb:41 | flattening distributes over concatenation, so the feeds come operator by operator in the operators' order |
| DmfrView.OperatorFeedIdsOne | app/controllers/api/v1/feeds_controller.rb:41 | a single operator contributes exactly its own feeds, once each and in its order; with `OperatorFeedIdsConcat` this fixes the flattened list |
| DmfrView.OperatorFeedIdsMembers | app/controllers/api/v1/feeds_controller.rb:41 | an id is in the flattened operator feeds iff some operator of the feed lists it |
| DmfrView.Without | app/controllers/api/v1/feeds_controller.rb:41 | rejecting the feed removes every occurrence of it and keeps every other id as often as it occurred |
| DmfrView.WithoutConcat | app/controllers/api/v1/feeds_controller.rb:41 | rejecting distributes over concatenation, so what remains keeps its order |
| DmfrView.WithoutAbsent | app/controllers/api/v1/feeds_controller.rb:41 | a list that does not contain the feed is kept unchanged |
| DmfrView.AssociatedFeeds | app/controllers/api/v1/feeds_controller.rb:41 | the associated feeds never contain the feed itself |
| DmfrView.AssociatedFeedsMembers | app/controllers/api/v1/feeds_controller.rb:41 | an id is associated iff it is not the feed and some operator of the feed lists it |
| DmfrView.AssociatedFeedsCounts | app/controllers/api/v1/feeds_controller.rb:41 | every other feed appears as many times as the operators list it, so there is no de-duplication |
| DmfrView.EntryFor | app/controllers/api/v1/feeds_controller.rb:28-44 | `spec`, `id`, `urls`, `license` are copied; `authorization` is present iff the feed's authorization is present, and is then its serialisation; `feed_namespace_id` is present iff there is exactly one operator, and is then that operator's id; `associated_feeds` is present iff the format is `gtfs-rt`, and never lists the feed |
| DmfrView.Entries | app/controllers/api/v1/feeds_controller.rb:27-45 | one entry per feed, in the feeds' order, each the entry for its feed |
| DmfrView.Dmfr | app/controllers/api/v1/feeds_controller.rb:25-47 | the document carries the DMFR schema URL, license `CC0-1.0`, and one entry per feed in order |

## Left out

- Cache expiry time (`expires_in: FeedInfo::CACHE_EXPIRATION`): there is no clock. Expiry is the explicit operation `Expire` / `Coordinator.Evict`.
- The race between two concurrent requests, and between a request and the worker: the model is sequential. The double enqueue that two interleaved requests can cause is not modelled.
- The worker's own fetch and the contents of its record (`FeedInfoWorker` is not part of this model): its write is `WriteBack` with an arbitrary record. The enqueued-jobs sequence is a log and is never consumed.
- Cache failures: `Rails.cache.read` answers nil both on a miss and when the cache store cannot be reached, so the code treats an unreachable cache as a miss. `Rails.cache.write` can also fail silently, and then every later request misses again and enqueues another job. The model's cache never fails a read or a write, and `AtMostOneJobPerKey` holds only under that assumption.
- Enqueue failures: `FeedInfoWorker.perform_async` can raise, for example when the job queue's store cannot be reached. The placeholder has already been written by then, so the action raises and the key answers `queued` with 200, with no job behind it, until it expires. The model's enqueue never fails. `RequestsEnqueueOnce` (exactly one job) and `AtMostOneJobPerKey` rely on that assumption.
- The `url` parameter is modelled as a string only. Rails can also pass an array (`?url[]=a`) or a nested hash (`?url[k]=v`) as `params[:url]`. The code accepts those too: `empty?` works on them, and the key interpolation turns them into text. So the array `["a"]` and the string `["a"]`, brackets and quotes included, share the key `feeds/fetch_info/["a"]`, and the second of the two requests is answered with a placeholder whose `url` is the array. `CacheKeyInjective` is stated for string URLs only, for this reason.
- CacheKeyInjective: proved for string URLs only; an array or hash `url` parameter can share its key with a string, as the line above explains.
- Cached values that are not records: a stored `false` or `nil` would read as a miss in the code; the model's cache holds records only.
- JSON rendering: responses are `Response` and `DmfrDocument` values. `authorization.to_json` is the parameter `toJson`.
- Feed identity: the code compares ActiveRecord objects (`f == feed`); the model compares onestop ids, which the registry keeps unique.
- Database loading and order: `Feed.where('').includes('operators')` is the input sequence, in whatever order the database returns it.
- JSON numbers are integers only: the controller copies `urls` and `license` without looking inside them, so their numbers need no other form.
- `download_latest_feed_version` and `feed_version_update_statistics`: a database lookup with a redirect, and a delegation to `Feed.feed_version_update_statistics`, which is not part of this model.
- `index_query`, `index_includes`, `sort_reorder`: composition of database query scopes whose meaning lives in code that is not part of this model.
- `query_params`: API documentation metadata with no behaviour.

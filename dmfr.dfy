/**
 The `dmfr` action of the feeds controller: every feed of the registry
 rendered as one entry of a DMFR document.

 An entry always carries the feed's format (as `spec`), its onestop id,
 its URLs and its license. It carries the serialised authorization only
 when the authorization is present, the namespace id only when the feed
 has exactly one operator, and the list of associated feeds only for
 `gtfs-rt` feeds. That list holds the feeds of all the feed's operators,
 operator by operator, with the feed itself removed and nothing else
 dropped.

 Operators hold their feeds by onestop id, and a feed is identified by its
 onestop id. Serialising the authorization to a JSON string is the
 parameter `toJson`.
 */
module DmfrView {
  import opened Values

  const SchemaUrl: string := "https://dmfr.transit.land/json-schema/dmfr.schema-v0.1.0.json"
  const DocumentLicense: string := "CC0-1.0"
  /** The format whose entries list associated feeds. */
  const RealtimeFormat: string := "gtfs-rt"

  datatype Operator = Operator(onestopId: string, feedIds: seq<string>)

  datatype Feed = Feed(
    onestopId: string,
    feedFormat: string,
    urls: Json,
    license: Json,
    authorization: Json,
    operators: seq<Operator>)

  /** One entry of the `feeds` list, its optional members as `Option`s. */
  datatype FeedEntry = FeedEntry(
    spec: string,
    id: string,
    urls: Json,
    license: Json,
    authorization: Option<string>,
    feedNamespaceId: Option<string>,
    associatedFeeds: Option<seq<string>>)

  datatype DmfrDocument = DmfrDocument(schema: string, feeds: seq<FeedEntry>, licenseSpdxIdentifier: string)

  /** The feeds of the operators, operator by operator, flattened. */
  function OperatorFeedIds(operators: seq<Operator>): (ids: seq<string>)
    ensures operators == [] ==> ids == []
    ensures |operators| == 1 ==> ids == operators[0].feedIds
    ensures forall k :: 0 <= k < |operators| ==> multiset(operators[k].feedIds) <= multiset(ids)
  {
    if operators == [] then []
    else
      var rest := OperatorFeedIds(operators[1..]);
      assert forall k :: 1 <= k < |operators| ==> operators[k] == operators[1..][k - 1];
      operators[0].feedIds + rest
  }

  /** Flattening distributes over concatenation: the operators' feeds follow the operators' order. */
  lemma {:induction false} OperatorFeedIdsConcat(a: seq<Operator>, b: seq<Operator>)
    ensures OperatorFeedIds(a + b) == OperatorFeedIds(a) + OperatorFeedIds(b)
  {
    if a == [] {
      assert a + b == b;
    } else {
      assert (a + b)[0] == a[0] && (a + b)[1..] == a[1..] + b;
      OperatorFeedIdsConcat(a[1..], b);
    }
  }

  /**
   A single operator contributes its own feeds, once each and in its order;
   with `OperatorFeedIdsConcat` this fixes the flattened list completely.
   */
  lemma OperatorFeedIdsOne(o: Operator)
    ensures OperatorFeedIds([o]) == o.feedIds
  {
  }

  lemma {:induction false} OperatorFeedIdsMembers(operators: seq<Operator>, id: string)
    ensures id in OperatorFeedIds(operators) <==> exists k :: 0 <= k < |operators| && id in operators[k].feedIds
  {
    if operators != [] {
      OperatorFeedIdsMembers(operators[1..], id);
      assert forall k :: 1 <= k < |operators| ==> operators[k] == operators[1..][k - 1];
    }
  }

  /** `ids` with every occurrence of `self` rejected and the rest kept in order. */
  function Without(ids: seq<string>, self: string): (r: seq<string>)
    ensures self !in r
    ensures multiset(r) == multiset(ids)[self := 0]
  {
    if ids == [] then []
    else
      assert ids == [ids[0]] + ids[1..];
      (if ids[0] == self then [] else [ids[0]]) + Without(ids[1..], self)
  }

  /** Rejecting distributes over concatenation, so the order of what remains is the order of the input. */
  lemma {:induction false} WithoutConcat(a: seq<string>, b: seq<string>, self: string)
    ensures Without(a + b, self) == Without(a, self) + Without(b, self)
  {
    if a == [] {
      assert a + b == b;
    } else {
      assert (a + b)[0] == a[0] && (a + b)[1..] == a[1..] + b;
      WithoutConcat(a[1..], b, self);
    }
  }

  /** A list without `self` in it is left as it is. */
  lemma {:induction false} WithoutAbsent(ids: seq<string>, self: string)
    requires self !in ids
    ensures Without(ids, self) == ids
  {
    if ids != [] {
      WithoutAbsent(ids[1..], self);
    }
  }

  /** The feeds associated with `feed`: its operators' feeds, the feed itself rejected. */
  function AssociatedFeeds(feed: Feed): (ids: seq<string>)
    ensures feed.onestopId !in ids
  {
    Without(OperatorFeedIds(feed.operators), feed.onestopId)
  }

  /** An id is associated with a feed exactly when it is another feed of one of the feed's operators. */
  lemma AssociatedFeedsMembers(feed: Feed, id: string)
    ensures id in AssociatedFeeds(feed) <==>
            id != feed.onestopId && exists k :: 0 <= k < |feed.operators| && id in feed.operators[k].feedIds
  {
    var all := OperatorFeedIds(feed.operators);
    OperatorFeedIdsMembers(feed.operators, id);
    assert id in AssociatedFeeds(feed) <==> multiset(AssociatedFeeds(feed))[id] > 0;
    assert id in all <==> multiset(all)[id] > 0;
  }

  /** Every other feed keeps all its occurrences: shared by two operators, it is listed twice. */
  lemma AssociatedFeedsCounts(feed: Feed, id: string)
    requires id != feed.onestopId
    ensures multiset(AssociatedFeeds(feed))[id] == multiset(OperatorFeedIds(feed.operators))[id]
  {
  }

  /** The entry for one feed. */
  function EntryFor(feed: Feed, toJson: Json -> string): (e: FeedEntry)
    ensures e.spec == feed.feedFormat && e.id == feed.onestopId
    ensures e.urls == feed.urls && e.license == feed.license
    ensures e.authorization.Some? <==> Present(feed.authorization)
    ensures e.authorization.Some? ==> e.authorization.value == toJson(feed.authorization)
    ensures e.feedNamespaceId.Some? <==> |feed.operators| == 1
    ensures e.feedNamespaceId.Some? ==> e.feedNamespaceId.value == feed.operators[0].onestopId
    ensures e.associatedFeeds.Some? <==> feed.feedFormat == RealtimeFormat
    ensures e.associatedFeeds.Some? ==>
              e.associatedFeeds.value == AssociatedFeeds(feed) && feed.onestopId !in e.associatedFeeds.value
  {
    FeedEntry(
      feed.feedFormat,
      feed.onestopId,
      feed.urls,
      feed.license,
      if Present(feed.authorization) then Some(toJson(feed.authorization)) else None,
      if |feed.operators| == 1 then Some(feed.operators[0].onestopId) else None,
      if feed.feedFormat == RealtimeFormat then Some(AssociatedFeeds(feed)) else None)
  }

  /** The entries for the feeds, one per feed, in the feeds' order. */
  function Entries(feeds: seq<Feed>, toJson: Json -> string): (entries: seq<FeedEntry>)
    ensures |entries| == |feeds|
    ensures forall i :: 0 <= i < |feeds| ==> entries[i] == EntryFor(feeds[i], toJson)
  {
    if feeds == [] then [] else [EntryFor(feeds[0], toJson)] + Entries(feeds[1..], toJson)
  }

  /** The rendered document. */
  function Dmfr(feeds: seq<Feed>, toJson: Json -> string): (doc: DmfrDocument)
    ensures doc.schema == SchemaUrl && doc.licenseSpdxIdentifier == DocumentLicense
    ensures |doc.feeds| == |feeds|
    ensures forall i :: 0 <= i < |feeds| ==> doc.feeds[i] == EntryFor(feeds[i], toJson)
  {
    DmfrDocument(SchemaUrl, Entries(feeds, toJson), DocumentLicense)
  }
}

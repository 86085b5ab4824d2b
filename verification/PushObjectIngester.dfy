/** A push request: the body arrives in blocks and becomes one object of the store. */
module PushObjectIngester {
  import opened Basics
  import opened StableOrder
  import opened SessionUrls
  import opened PullObjectIngester

  type Bytes = seq<bv8>

  function Flatten(blocks: seq<Bytes>): Bytes {
    if blocks == [] then [] else Flatten(blocks[..|blocks| - 1]) + blocks[|blocks| - 1]
  }

  /** What `addObject` is called with. */
  datatype PushedObject = PushedObject(key: string, body: Bytes, metadata: StoredObject)

  /** The metadata is made before the id: the first object of a request is stored under a new id,
      with metadata that carry the empty id. */
  function Pushed(objectId: string, newId: string, urlPath: string, body: Bytes,
                  serverPrefix: string, distributionBase: Option<string>): PushedObject {
    PushedObject(if objectId == "" then newId else objectId, body,
      StoredObject(objectId, PushedUrl(serverPrefix, urlPath), PushedUrl(serverPrefix, urlPath), urlPath,
                   Some(serverPrefix), distributionBase))
  }

  /** A pushed path is announced as the distribution base and the path, and the swap can be undone. */
  lemma PushedLocationSwapsBack(objectId: string, newId: string, urlPath: string, body: Bytes,
                                serverPrefix: string, distributionBase: string)
    requires StartsWith(urlPath, "/") && serverPrefix != "" && distributionBase != ""
    ensures var stored := Pushed(objectId, newId, urlPath, body, serverPrefix, Some(distributionBase)).metadata;
            var location := Location(stored.fetchedUrl, stored.ingestBaseUrl, stored.distributionBaseUrl);
            && location == distributionBase + urlPath[1..]
            && Location(location, Some(distributionBase), Some(serverPrefix)) == stored.fetchedUrl
  {
    BuiltLocationSwapsBack(serverPrefix, urlPath[1..], distributionBase);
  }

  /** Therefore a pushed object that is fetched again by its id never counts as pending, and every
      such fetch queues it once more. */
  lemma PushedObjectIsQueuedAgain(s: IngesterState, pushed: PushedObject, deadline: Deadline, store: map<string, StoredObject>)
    requires pushed.key != "" && pushed.metadata.objectId == "" && pushed.key in store && store[pushed.key] == pushed.metadata
    requires IndexOf(s.pending, pushed.key) == |s.pending|
    ensures var once := FetchId(s, pushed.key, deadline, store).value;
            var twice := FetchId(once, pushed.key, deadline, store);
            twice.Some? && |twice.value.pending| == |s.pending| + 2
  {
    hide FetchItem;
    FetchedIdIsPendingIff(s, pushed.key, deadline, store);
    FetchAddsOne(s, Refetch(pushed.metadata, deadline));
    FetchAddsOne(FetchId(s, pushed.key, deadline, store).value, Refetch(pushed.metadata, deadline));
  }

  lemma FetchAddsOne(s: IngesterState, item: IngestItem)
    ensures |FetchItem(s, item).pending| == |s.pending| + 1
  {
  }

  class Request {
    const urlPath: string
    var objectId: string
    var bodyBlocks: seq<Bytes>
    var totalBodySize: nat

    ghost predicate Valid()
      reads this
    {
      totalBodySize == |Flatten(bodyBlocks)|
    }

    constructor (urlPath: string)
      ensures Valid() && this.urlPath == urlPath && objectId == "" && bodyBlocks == []
    {
      this.urlPath, objectId, bodyBlocks, totalBodySize := urlPath, "", [], 0;
    }

    method AddBodyBlock(block: Bytes)
      requires Valid()
      modifies this`bodyBlocks, this`totalBodySize
      ensures Valid() && Flatten(bodyBlocks) == old(Flatten(bodyBlocks)) + block
      ensures bodyBlocks == old(bodyBlocks) + [block] && totalBodySize == old(totalBodySize) + |block|
    {
      bodyBlocks := bodyBlocks + [block];
      totalBodySize := totalBodySize + |block|;
      assert bodyBlocks[..|bodyBlocks| - 1] == old(bodyBlocks);
    }

    /** The object handed to the store: the blocks in order of arrival, in the size reserved. */
    method ProcessRequest(newId: string, serverPrefix: string, distributionBase: Option<string>) returns (pushed: PushedObject)
      requires Valid()
      modifies this`objectId
      ensures Valid() && objectId == pushed.key
      ensures pushed == Pushed(old(objectId), newId, urlPath, Flatten(bodyBlocks), serverPrefix, distributionBase)
      ensures |pushed.body| == totalBodySize
      ensures pushed.body == Flatten(bodyBlocks) && pushed.key == (if old(objectId) == "" then newId else old(objectId))
      ensures var url := if urlPath != "" && urlPath[0] == '/' then serverPrefix + urlPath[1..] else urlPath;
              pushed.metadata == StoredObject(old(objectId), url, url, urlPath, Some(serverPrefix), distributionBase)
    {
      var url := if StartsWith(urlPath, "/") then serverPrefix + urlPath[1..] else urlPath;
      var metadata := StoredObject(objectId, url, url, urlPath, Some(serverPrefix), distributionBase);
      var body: Bytes := [];
      for i := 0 to |bodyBlocks|
        invariant body == Flatten(bodyBlocks[..i])
      {
        assert bodyBlocks[..i + 1][..i] == bodyBlocks[..i];
        body := body + bodyBlocks[i];
      }
      assert bodyBlocks[..|bodyBlocks|] == bodyBlocks;
      if objectId == "" {
        objectId := newId;
      }
      pushed := PushedObject(objectId, body, metadata);
    }
  }
}

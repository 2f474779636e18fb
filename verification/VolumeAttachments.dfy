/** The cache of volume attachments: one map from "pv/node" to the attachment, one from attachment name to that key. */
module VolumeAttachments {
  import opened Kube
  import opened World

  type Cache = map<string, VolumeAttachment>
  type NameIndex = map<string, string>

  function CacheKey(pv: string, node: string): string {
    pv + "/" + node
  }

  /** The attachment belongs under this key. */
  predicate Fits(va: VolumeAttachment, key: string) {
    va.pv.Some? && CacheKey(va.pv.value, va.node) == key
  }

  /** The last listed attachment that belongs under the key. */
  function LastFit(items: seq<VolumeAttachment>, key: string): Option<VolumeAttachment> {
    if items == [] then None
    else
      var last := items[|items| - 1];
      if Fits(last, key) then Some(last) else LastFit(items[..|items| - 1], key)
  }

  /** The key of the last listed attachment of this name that has a volume. */
  function LastKey(items: seq<VolumeAttachment>, name: string): Option<string> {
    if items == [] then None
    else
      var last := items[|items| - 1];
      if last.name == name && last.pv.Some? then Some(CacheKey(last.pv.value, last.node))
      else LastKey(items[..|items| - 1], name)
  }

  function Lookup<T>(m: map<string, T>, key: string): Option<T> {
    if key in m then Some(m[key]) else None
  }

  /** The two maps are what reading the whole list gives. */
  ghost predicate Rebuilt(items: seq<VolumeAttachment>, cache: Cache, names: NameIndex) {
    && (forall key :: Lookup(cache, key) == LastFit(items, key))
    && (forall name :: Lookup(names, name) == LastKey(items, name))
  }

  /** Names are unique in a listing, as the API server keeps them. */
  ghost predicate DistinctNames(items: seq<VolumeAttachment>) {
    forall i, k :: 0 <= i < k < |items| ==> items[i].name != items[k].name
  }

  /** Every entry sits under the key of its own volume and node, and its name leads back to that key. */
  ghost predicate Coherent(cache: Cache, names: NameIndex) {
    forall key :: key in cache ==> Fits(cache[key], key) && Lookup(names, cache[key].name) == Some(key)
  }

  ghost predicate Holds(cache: Cache, name: string) {
    exists key :: key in cache && cache[key].name == name
  }

  function Purged(cache: Cache, names: NameIndex, name: string): (Cache, NameIndex) {
    if name in names then (cache - {names[name]}, names - {name}) else (cache, names)
  }

  class Client {
    var volumeAttachmentCache: Cache         // a nil map reads like an empty one
    var volumeAttachmentNameToKey: NameIndex

    constructor ()
      ensures volumeAttachmentCache == map[] && volumeAttachmentNameToKey == map[]
    {
      volumeAttachmentCache, volumeAttachmentNameToKey := map[], map[];
    }

    /** On a hit nothing is asked; on a miss all attachments are listed, and both maps are rebuilt. */
    method GetCachedVolumeAttachment(world: World, pv: string, node: string)
      returns (va: Result<Option<VolumeAttachment>>, ghost log: seq<Event>)
      modifies this, world`trace
      ensures world.trace == old(world.trace) + log
      ensures CacheKey(pv, node) in old(volumeAttachmentCache) ==>
                && va == Ok(Some(old(volumeAttachmentCache)[CacheKey(pv, node)])) && log == []
                && volumeAttachmentCache == old(volumeAttachmentCache)
                && volumeAttachmentNameToKey == old(volumeAttachmentNameToKey)
      ensures CacheKey(pv, node) !in old(volumeAttachmentCache) ==>
                && |log| == 1 && log[0].AttachmentsListed?
                && match log[0].items
                   case Err(e) =>
                     && va == Err(e)
                     && volumeAttachmentCache == old(volumeAttachmentCache)
                     && volumeAttachmentNameToKey == old(volumeAttachmentNameToKey)
                   case Ok(items) =>
                     && va == Ok(LastFit(items, CacheKey(pv, node)))
                     && Rebuilt(items, volumeAttachmentCache, volumeAttachmentNameToKey)
    {
      log := [];
      var key := CacheKey(pv, node);
      if key in volumeAttachmentCache { return Ok(Some(volumeAttachmentCache[key])), log; }
      var listing := world.ListAttachments();
      log := [AttachmentsListed(listing)];
      if listing.Err? { return Err(listing.error), log; }
      Rebuild(listing.value);
      va := Ok(Lookup(volumeAttachmentCache, key));
    }

    method Rebuild(items: seq<VolumeAttachment>)
      modifies this
      ensures Rebuilt(items, volumeAttachmentCache, volumeAttachmentNameToKey)
    {
      volumeAttachmentCache, volumeAttachmentNameToKey := map[], map[];
      for i := 0 to |items|
        invariant Rebuilt(items[..i], volumeAttachmentCache, volumeAttachmentNameToKey)
      {
        assert items[..i + 1][..i] == items[..i];
        var item := items[i];
        if item.pv.Some? {
          var vaKey := CacheKey(item.pv.value, item.node);
          volumeAttachmentCache := volumeAttachmentCache[vaKey := item];
          volumeAttachmentNameToKey := volumeAttachmentNameToKey[item.name := vaKey];
        }
      }
      assert items[..|items|] == items;
    }

    /** The API server is asked to delete the attachment, and the name is purged whatever it answers. */
    method DeleteVolumeAttachment(world: World, name: string) returns (err: Failure)
      modifies this, world`trace
      ensures world.trace == old(world.trace) + [Did(DeleteAttachment(name), err)]
      ensures (volumeAttachmentCache, volumeAttachmentNameToKey) ==
                Purged(old(volumeAttachmentCache), old(volumeAttachmentNameToKey), name)
    {
      err := world.Do(DeleteAttachment(name));
      if name in volumeAttachmentNameToKey {
        var vaKey := volumeAttachmentNameToKey[name];
        volumeAttachmentCache := volumeAttachmentCache - {vaKey};
        volumeAttachmentNameToKey := volumeAttachmentNameToKey - {name};
      }
    }
  }

  // ---------------------------------------------------------------- the maps stay coherent

  lemma {:induction false} FitIsListed(items: seq<VolumeAttachment>, key: string)
    ensures LastFit(items, key).Some? ==>
              exists i :: 0 <= i < |items| && items[i] == LastFit(items, key).value && Fits(items[i], key)
    ensures LastFit(items, key).None? ==> forall i :: 0 <= i < |items| ==> !Fits(items[i], key)
  {
    if items != [] {
      var before, last := items[..|items| - 1], items[|items| - 1];
      FitIsListed(before, key);
      if !Fits(last, key) && LastFit(items, key).Some? {
        var i :| 0 <= i < |before| && before[i] == LastFit(before, key).value && Fits(before[i], key);
        assert items[i] == before[i];
      } else if !Fits(last, key) {
        assert forall i :: 0 <= i < |before| ==> items[i] == before[i];
      } else {
        assert items[|items| - 1] == LastFit(items, key).value;
      }
    }
  }

  lemma {:induction false} KeyOfListed(items: seq<VolumeAttachment>, i: nat)
    requires DistinctNames(items) && i < |items| && items[i].pv.Some?
    ensures LastKey(items, items[i].name) == Some(CacheKey(items[i].pv.value, items[i].node))
  {
    if i < |items| - 1 {
      assert items[|items| - 1].name != items[i].name;
      KeyOfListed(items[..|items| - 1], i);
    }
  }

  lemma RebuildIsCoherent(items: seq<VolumeAttachment>, cache: Cache, names: NameIndex)
    requires DistinctNames(items) && Rebuilt(items, cache, names)
    ensures Coherent(cache, names)
    ensures forall name :: Holds(cache, name) ==> exists i :: 0 <= i < |items| && items[i].name == name
  {
    forall key | key in cache
      ensures Fits(cache[key], key) && Lookup(names, cache[key].name) == Some(key)
      ensures exists i :: 0 <= i < |items| && items[i].name == cache[key].name
    {
      assert Lookup(cache, key) == LastFit(items, key);
      FitIsListed(items, key);
      var i :| 0 <= i < |items| && items[i] == LastFit(items, key).value && Fits(items[i], key);
      KeyOfListed(items, i);
    }
  }

  /** Purging a name leaves the maps coherent and no entry of that name. */
  lemma PurgeClears(cache: Cache, names: NameIndex, name: string)
    requires Coherent(cache, names)
    ensures var (cache', names') := Purged(cache, names, name);
            Coherent(cache', names') && !Holds(cache', name) && cache'.Keys <= cache.Keys &&
            forall other :: Holds(cache', other) ==> Holds(cache, other)
  {
    var (cache', names') := Purged(cache, names, name);
    forall key | key in cache'
      ensures cache[key].name != name && Fits(cache'[key], key) && Lookup(names', cache'[key].name) == Some(key)
    {
      assert Lookup(names, cache[key].name) == Some(key);
    }
  }

  // ---------------------------------------------------------------- a hit is an answer to the question

  /** Keys tell volume and node apart when no volume name holds a slash. */
  lemma KeysTellApart(pv1: string, node1: string, pv2: string, node2: string)
    requires '/' !in pv1 && '/' !in pv2 && CacheKey(pv1, node1) == CacheKey(pv2, node2)
    ensures pv1 == pv2 && node1 == node2
  {
    FirstSlash(pv1, node1);
    FirstSlash(pv2, node2);
    assert CacheKey(pv1, node1)[..|pv1|] == pv1 && CacheKey(pv1, node1)[|pv1| + 1..] == node1;
    assert CacheKey(pv2, node2)[..|pv2|] == pv2 && CacheKey(pv2, node2)[|pv2| + 1..] == node2;
  }

  /** A key belongs to one pair only exactly when neither part of the pair holds a slash. */
  lemma KeyIsUnambiguous(pv: string, node: string)
    ensures (forall pv2, node2 :: CacheKey(pv2, node2) == CacheKey(pv, node) ==> pv2 == pv && node2 == node) <==>
            '/' !in pv && '/' !in node
  {
    var key := CacheKey(pv, node);
    assert key[|pv|] == '/';
    if i :| 0 <= i < |key| && key[i] == '/' && i != |pv| {
      assert CacheKey(key[..i], key[i + 1..]) == key;
      assert i < |pv| ==> pv[i] == '/';
      assert |pv| < i ==> node[i - |pv| - 1] == '/';
    } else {
      assert forall i :: 0 <= i < |pv| ==> key[i] == pv[i];
      assert forall i :: 0 <= i < |node| ==> key[|pv| + 1 + i] == node[i];
      forall pv2, node2 | CacheKey(pv2, node2) == key ensures pv2 == pv && node2 == node {
        assert key[|pv2|] == '/';
        assert key[..|pv|] == pv && key[|pv| + 1..] == node;
        assert CacheKey(pv2, node2)[..|pv2|] == pv2 && CacheKey(pv2, node2)[|pv2| + 1..] == node2;
      }
    }
  }

  /** What a look-up finds in a coherent cache is attached to exactly the volume and node that were asked for, given
      slash-free volume names. */
  lemma HitAnswersTheQuestion(cache: Cache, names: NameIndex, pv: string, node: string)
    requires Coherent(cache, names) && CacheKey(pv, node) in cache && '/' !in pv
    requires forall key :: key in cache && cache[key].pv.Some? ==> '/' !in cache[key].pv.value
    ensures cache[CacheKey(pv, node)].pv == Some(pv) && cache[CacheKey(pv, node)].node == node
  {
    var va := cache[CacheKey(pv, node)];
    KeysTellApart(va.pv.value, va.node, pv, node);
  }
}

/** The front end's client-side models: the per-id caches of lores and
    collections (web/src/models/Lore.ts, web/src/models/Collection.ts) and
    the story view built from the back end's answer
    (web/src/models/Story.ts).

    A `Deferred` is a promise resolved from outside: it is settled once,
    and a later `resolve` has no effect. A cache lookup that misses reports
    `fetch`, the query it sends; the query's answer is delivered later by
    the `Settle…` methods, which are the `.then` callbacks. A character
    reference (`Character.findOrCreate(id)`) is kept as the id it was
    asked for. */
module WebModels {
  import opened Common

  class Deferred<T> {
    var value: Option<T>

    constructor ()
      ensures value == None
    {
      value := None;
    }

    method Resolve(v: T)
      modifies this
      ensures value == if old(value).None? then Some(v) else old(value)
    {
      if value.None? {
        value := Some(v);
      }
    }
  }

  /** The static `cache` map of a model class with its `findOrCreate`. */
  class DeferredCache<T> {
    var entries: map<int, Deferred<T>>

    constructor ()
      ensures entries == map[]
    {
      entries := map[];
    }

    /** A hit returns the stored deferred and sends nothing; a miss stores
        a new pending deferred under `id`, sends the query and returns it. */
    method FindOrCreate(id: int) returns (d: Deferred<T>, fetch: bool)
      modifies this
      ensures id in old(entries) ==> d == old(entries)[id] && !fetch && entries == old(entries)
      ensures id !in old(entries) ==> fresh(d) && d.value == None && fetch && entries == old(entries)[id := d]
      ensures id in entries && entries[id] == d
    {
      if id in entries {
        d := entries[id];
        fetch := false;
      } else {
        d := new Deferred();
        entries := entries[id := d];
        fetch := true;
      }
    }

    /** Asking twice for one id gives the same object, and the second call
        sends no query; other ids keep their entries. */
    method FindTwice(id: int) returns (first: Deferred<T>, second: Deferred<T>, fetched: bool)
      modifies this
      ensures first == second && fetched == (id !in old(entries))
      ensures entries == old(entries)[id := first]
      ensures forall k :: k in old(entries) && k != id ==> k in entries && entries[k] == old(entries)[k]
    {
      first, fetched := FindOrCreate(id);
      var again;
      second, again := FindOrCreate(id);
      assert !again;
    }
  }

  /** What `lores.find` and `collections.find` answer. */
  datatype CatalogRow = CatalogRow(id: int, imageUrl: string, name: string, about: string)

  datatype Lore = Lore(id: int, imageUrl: string, name: string, about: string)

  datatype Collection = Collection(id: int, imageUrl: string, name: string, about: string)

  /** `Lore.fromBackendModel` */
  function LoreOf(data: CatalogRow): Lore
  {
    Lore(data.id, data.imageUrl, data.name, data.about)
  }

  /** `Collection.fromBackendModel` */
  function CollectionOf(data: CatalogRow): Collection
  {
    Collection(data.id, data.imageUrl, data.name, data.about)
  }

  /** The answer to a lore query: null stays null. */
  method SettleLore(d: Deferred<Option<Lore>>, data: Option<CatalogRow>)
    modifies d
    ensures old(d.value).None? && data.None? ==> d.value == Some(None)
    ensures old(d.value).None? && data.Some? ==> d.value == Some(Some(LoreOf(data.value)))
    ensures old(d.value).Some? ==> d.value == old(d.value)
  {
    if data.Some? {
      d.Resolve(Some(LoreOf(data.value)));
    } else {
      d.Resolve(None);
    }
  }

  /** The answer to a collection query: null stays null. */
  method SettleCollection(d: Deferred<Option<Collection>>, data: Option<CatalogRow>)
    modifies d
    ensures old(d.value).None? && data.None? ==> d.value == Some(None)
    ensures old(d.value).None? && data.Some? ==> d.value == Some(Some(CollectionOf(data.value)))
    ensures old(d.value).Some? ==> d.value == old(d.value)
  {
    if data.Some? {
      d.Resolve(Some(CollectionOf(data.value)));
    } else {
      d.Resolve(None);
    }
  }

  datatype ContentRow = ContentRow(charId: int, content: Option<string>, createdAt: string)

  /** What `story.find` answers, with `userMap` already parsed. */
  datatype StoryRow = StoryRow(id: int, charIds: seq<int>, userIds: seq<int>, userMap: map<int, int>,
                               name: Option<string>, fabula: Option<string>, content: seq<ContentRow>)

  /** A player and the character reference looked up in `userMap`; a user
      missing from the map asks for `undefined`. */
  datatype StoryUser = StoryUser(userId: int, character: Option<int>)

  datatype LatestContent = LatestContent(character: int, content: Option<string>, createdAt: string)

  datatype Story = Story(id: int, users: seq<StoryUser>, characters: seq<int>, name: Option<string>,
                         fabula: Option<string>, latestContent: Option<LatestContent>)

  function UserChar(userMap: map<int, int>, userId: int): Option<int> {
    if userId in userMap then Some(userMap[userId]) else None
  }

  /** `Story.fromBackendModel` */
  function StoryOf(data: StoryRow): (r: Story)
    ensures r.id == data.id && r.name == data.name && r.fabula == data.fabula
    ensures |r.users| == |data.userIds|
    ensures forall i :: 0 <= i < |r.users| ==>
              r.users[i].userId == data.userIds[i]
              && (data.userIds[i] in data.userMap <==> r.users[i].character.Some?)
              && (r.users[i].character.Some? ==> r.users[i].character.value == data.userMap[data.userIds[i]])
    ensures r.characters == data.charIds
    ensures r.latestContent.None? <==> data.content == []
    ensures r.latestContent.Some? ==>
              r.latestContent.value.character == data.content[0].charId
              && r.latestContent.value.content == data.content[0].content
              && r.latestContent.value.createdAt == data.content[0].createdAt
  {
    Story(data.id,
          seq(|data.userIds|, i requires 0 <= i < |data.userIds| =>
            StoryUser(data.userIds[i], UserChar(data.userMap, data.userIds[i]))),
          data.charIds, data.name, data.fabula,
          if |data.content| > 0
          then Some(LatestContent(data.content[0].charId, data.content[0].content, data.content[0].createdAt))
          else None)
  }

  /** The story cache: it is read, but nothing ever stores into it. */
  class StoryCache {
    var cache: map<int, Story>

    constructor ()
      ensures cache == map[]
    {
      cache := map[];
    }

    /** `Story.findOrCreate`: a new deferred each call, settled at once on a
        hit; a miss sends the query. The cache is left as it was. */
    method FindOrCreate(id: int) returns (d: Deferred<Option<Story>>, fetch: bool)
      ensures fresh(d)
      ensures id in cache ==> d.value == Some(Some(cache[id])) && !fetch
      ensures id !in cache ==> d.value == None && fetch
    {
      d := new Deferred();
      if id in cache {
        d.Resolve(Some(cache[id]));
        fetch := false;
      } else {
        fetch := true;
      }
    }
  }

  /** The answer to a story query: a missing story resolves to
      `undefined`. */
  method SettleStory(d: Deferred<Option<Story>>, data: Option<StoryRow>)
    modifies d
    ensures old(d.value).None? && data.None? ==> d.value == Some(None)
    ensures old(d.value).None? && data.Some? ==> d.value == Some(Some(StoryOf(data.value)))
    ensures old(d.value).Some? ==> d.value == old(d.value)
  {
    if data.Some? {
      d.Resolve(Some(StoryOf(data.value)));
    } else {
      d.Resolve(None);
    }
  }
}

/** The services the story commands of the API server act on: the story
    rows and the user messages in Postgres, the per-story advisory locks
    and the pool's checked-out connections, and the Redis keys and
    published channel messages. Ids are assigned by the database and are
    not modelled; the lock is keyed by the story id itself. */
module ApiStore {
  import opened Common

  type StoryId = string
  type UserId = string

  datatype StoryRow = StoryRow(userId: UserId, userCharId: int, charIds: seq<int>, reason: Option<string>)

  /** A user message inserted by `advance`. */
  datatype UserLine = UserLine(storyId: StoryId, charId: int, userId: UserId, text: string,
                               tokenUsage: nat, tokenLength: nat)

  /** A Redis string value and the expiry (in seconds) it was set with. */
  datatype Stored = Stored(value: string, expiresIn: Option<nat>)

  /** A message published on a Redis channel. */
  datatype Published = Published(channel: string, message: string)

  class Store {
    var stories: map<StoryId, StoryRow>
    var posted: seq<UserLine>
    /** Stories whose advisory lock is held. */
    var locks: set<StoryId>
    /** Connections checked out of the pool and not released. */
    var connections: nat
    var keys: map<string, Stored>
    var published: seq<Published>
    /** Busy heartbeat intervals still writing, one entry per interval. */
    var heartbeats: multiset<StoryId>

    constructor (stories: map<StoryId, StoryRow>)
      ensures this.stories == stories && posted == [] && locks == {} && connections == 0
      ensures keys == map[] && published == [] && heartbeats == multiset{}
    {
      this.stories := stories;
      posted := [];
      locks := {};
      connections := 0;
      keys := map[];
      published := [];
      heartbeats := multiset{};
    }

    /** `pg.pool.connect()` followed by `pg_try_advisory_lock`: a
        connection is checked out whether or not the lock is taken. */
    method TryLock(id: StoryId) returns (locked: bool)
      modifies this
      ensures locked <==> id !in old(locks)
      ensures locks == old(locks) + {id}
      ensures connections == old(connections) + 1
      ensures stories == old(stories) && posted == old(posted) && keys == old(keys)
      ensures published == old(published) && heartbeats == old(heartbeats)
    {
      locked := id !in locks;
      locks := locks + {id};
      connections := connections + 1;
    }

    /** `pg_advisory_unlock` and `release()` of the locking connection. */
    method Unlock(id: StoryId)
      requires connections > 0
      modifies this
      ensures locks == old(locks) - {id}
      ensures connections == old(connections) - 1
      ensures stories == old(stories) && posted == old(posted) && keys == old(keys)
      ensures published == old(published) && heartbeats == old(heartbeats)
    {
      locks := locks - {id};
      connections := connections - 1;
    }

    method Publish(channel: string, message: string)
      modifies this
      ensures published == old(published) + [Published(channel, message)]
      ensures stories == old(stories) && posted == old(posted) && keys == old(keys)
      ensures locks == old(locks) && connections == old(connections) && heartbeats == old(heartbeats)
    {
      published := published + [Published(channel, message)];
    }

    method Set(key: string, value: Stored)
      modifies this
      ensures keys == old(keys)[key := value]
      ensures stories == old(stories) && posted == old(posted) && published == old(published)
      ensures locks == old(locks) && connections == old(connections) && heartbeats == old(heartbeats)
    {
      keys := keys[key := value];
    }

    method SetCharIds(id: StoryId, charIds: seq<int>)
      requires id in stories
      modifies this
      ensures stories == old(stories)[id := old(stories)[id].(charIds := charIds)]
      ensures posted == old(posted) && keys == old(keys) && published == old(published)
      ensures locks == old(locks) && connections == old(connections) && heartbeats == old(heartbeats)
    {
      stories := stories[id := stories[id].(charIds := charIds)];
    }

    method SetReason(id: StoryId, reason: Option<string>)
      requires id in stories
      modifies this
      ensures stories == old(stories)[id := old(stories)[id].(reason := reason)]
      ensures posted == old(posted) && keys == old(keys) && published == old(published)
      ensures locks == old(locks) && connections == old(connections) && heartbeats == old(heartbeats)
    {
      stories := stories[id := stories[id].(reason := reason)];
    }
  }
}

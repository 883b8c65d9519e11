/** The older `story.advance` mutation of api/src/trpc/commands/story/advance.ts.
    It shares the guards and the try-lock with the newer one, but:
    a missing key is recorded as the story's reason before the error is
    thrown, a successful call leaves the reason as it was, nothing is
    caught, the heartbeat interval is never stopped (`unref` only lets the
    process exit), and the busy key is never reset, only "0" published. */
module LegacyAdvanceCommand {
  import opened Common
  import opened ApiStore
  import opened AdvanceCommand

  method Advance(store: Store, prefix: Option<string>, user: UserId, id: StoryId,
                 message: Option<string>, tok: string -> nat, apiKey: Option<string>,
                 generation: Result<int>)
    returns (r: Result<int>)
    modifies store
    ensures var g := Guard(old(store.stories), id, user, message, tok);
            g.Err? ==> r == Err(g.error) && unchanged(store)
    ensures var g := Guard(old(store.stories), id, user, message, tok);
            g.Ok? && id in old(store.locks) ==>
              && r == Err(StoryBusy)
              && store.connections == old(store.connections) + 1
              && store.locks == old(store.locks) && store.stories == old(store.stories)
              && store.posted == old(store.posted) && store.keys == old(store.keys)
              && store.published == old(store.published) && store.heartbeats == old(store.heartbeats)
    // The lock is released, but the heartbeat for this story keeps running
    // and the busy key is left to its last one-second expiry.
    ensures var g := Guard(old(store.stories), id, user, message, tok);
            g.Ok? && id !in old(store.locks) ==>
              && r == Outcome(apiKey, generation)
              && store.locks == old(store.locks) && store.connections == old(store.connections)
              && store.heartbeats == old(store.heartbeats) + multiset{id}
              && store.keys == old(store.keys)
              && store.posted == old(store.posted) + Inserted(id, g.value, user, message, tok, apiKey)
              // Only a missing key writes the reason; success leaves a stale one in place.
              && store.stories == (if Truthy(apiKey) then old(store.stories)
                                   else old(store.stories)[id := g.value.(reason := Some(KeyNotSet.message))])
              && store.published == old(store.published)
                   + [Published(BusyCh(prefix, id), EncodeBusy(true)), Published(BusyCh(prefix, id), EncodeBusy(false))]
  {
    var g := Guard(store.stories, id, user, message, tok);
    if g.Err? {
      return Err(g.error);
    }
    var locked := store.TryLock(id);
    if !locked {
      return Err(StoryBusy);
    }
    store.Publish(BusyCh(prefix, id), EncodeBusy(true));
    store.heartbeats := store.heartbeats + multiset{id};
    r := TryBody(store, user, id, g.value, message, tok, apiKey, generation);
    // finally
    store.Unlock(id);
    store.Publish(BusyCh(prefix, id), EncodeBusy(false));
    assert store.locks == old(store.locks) by {
      assert id !in old(store.locks);
    }
  }

  /** The `try` block: a missing key is written as the reason; otherwise
      the user message, if any, is inserted and the generation's result
      returned. */
  method TryBody(store: Store, user: UserId, id: StoryId, row: StoryRow, message: Option<string>,
                 tok: string -> nat, apiKey: Option<string>, generation: Result<int>)
    returns (r: Result<int>)
    requires id in store.stories && store.stories[id] == row
    modifies store
    ensures r == Outcome(apiKey, generation)
    ensures store.locks == old(store.locks) && store.connections == old(store.connections)
    ensures store.heartbeats == old(store.heartbeats) && store.keys == old(store.keys)
    ensures store.published == old(store.published)
    ensures store.posted == old(store.posted) + Inserted(id, row, user, message, tok, apiKey)
    ensures store.stories == (if Truthy(apiKey) then old(store.stories)
                              else old(store.stories)[id := row.(reason := Some(KeyNotSet.message))])
  {
    if !Truthy(apiKey) {
      store.SetReason(id, Some(KeyNotSet.message));
      r := Err(KeyNotSet);
    } else {
      if Truthy(message) {
        store.posted := store.posted + [UserLine(id, row.userCharId, user, message.value, 0, tok(message.value))];
      }
      r := generation;
    }
  }
}

/** The `story.advance` mutation of api/src/server/trpc/commands/story/advance.ts:
    guards, the story's advisory try-lock, the busy flag published and kept
    alive by a heartbeat, the failure reason cleared before generation and
    recorded on error, and the `finally` block that always unlocks and
    clears the busy flag.

    The generation itself (`advance` of the turn engine) is the outcome it
    produced, passed in as `generation`; the tokenizer is the parameter
    `tok`; the Redis key prefix, which may be absent, is `prefix`. */
module AdvanceCommand {
  import opened Common
  import opened ApiStore

  const InputTokenLimit: nat := 1024

  const StoryNotFound: Error := Error(NotFound, "Story not found")
  const NotYourStory: Error := Error(Forbidden, "Not your story")
  const MessageTooLong: Error := Error(PayloadTooLarge, "Message too long")
  const StoryBusy: Error := Error(PreconditionFailed, "Story is busy")
  const KeyNotSet: Error := Error(PreconditionFailed, "OpenAI API key is not set")

  /** `redis.prefix + ...`: an absent prefix concatenates as "null". */
  function PrefixText(prefix: Option<string>): string {
    if prefix.Some? then prefix.value else "null"
  }

  function BusyCh(prefix: Option<string>, id: StoryId): string {
    PrefixText(prefix) + "story:" + id + ":busy"
  }

  function ReasonCh(prefix: Option<string>, id: StoryId): string {
    PrefixText(prefix) + "story:" + id + ":reason"
  }

  /** The busy and reason channels never coincide, whatever the ids. */
  lemma ChannelsDistinct(prefix: Option<string>, a: StoryId, b: StoryId)
    ensures BusyCh(prefix, a) != ReasonCh(prefix, b)
  {
    var x := BusyCh(prefix, a);
    var y := ReasonCh(prefix, b);
    assert x[|x| - 1] == 'y';
    assert y[|y| - 1] == 'n';
  }

  /** Each story has its own busy channel. */
  lemma BusyChInjective(prefix: Option<string>, a: StoryId, b: StoryId)
    requires BusyCh(prefix, a) == BusyCh(prefix, b)
    ensures a == b
  {
    var p := PrefixText(prefix) + "story:";
    assert BusyCh(prefix, a) == p + (a + ":busy");
    assert BusyCh(prefix, b) == p + (b + ":busy");
    assert (a + ":busy")[..|a|] == a;
    assert (b + ":busy")[..|b|] == b;
    assert BusyCh(prefix, a)[|p|..] == a + ":busy";
    assert BusyCh(prefix, b)[|p|..] == b + ":busy";
  }

  /** Each story has its own reason channel. */
  lemma ReasonChInjective(prefix: Option<string>, a: StoryId, b: StoryId)
    requires ReasonCh(prefix, a) == ReasonCh(prefix, b)
    ensures a == b
  {
    var p := PrefixText(prefix) + "story:";
    assert ReasonCh(prefix, a) == p + (a + ":reason");
    assert ReasonCh(prefix, b) == p + (b + ":reason");
    assert (a + ":reason")[..|a|] == a;
    assert (b + ":reason")[..|b|] == b;
    assert ReasonCh(prefix, a)[|p|..] == a + ":reason";
    assert ReasonCh(prefix, b)[|p|..] == b + ":reason";
  }

  function EncodeBusy(busy: bool): string {
    if busy then "1" else "0"
  }

  /** `setBusy`: the value, with an expiry only when `ex` is truthy. */
  function BusyValue(busy: bool, ex: Option<nat>): (v: Stored)
    ensures v.value == EncodeBusy(busy)
    ensures v.expiresIn.Some? <==> ex.Some? && ex.value != 0
  {
    Stored(EncodeBusy(busy), if ex.Some? && ex.value != 0 then ex else None)
  }

  /** `pubReason`: `reason || ""`. */
  function EncodeReason(reason: Option<string>): (m: string)
    ensures m == "" <==> !Truthy(reason)
  {
    if Truthy(reason) then reason.value else ""
  }

  /** The checks that run before the lock is touched, in source order. */
  function Guard(stories: map<StoryId, StoryRow>, id: StoryId, user: UserId,
                 message: Option<string>, tok: string -> nat): Result<StoryRow>
  {
    if id !in stories then Err(StoryNotFound)
    else if stories[id].userId != user then Err(NotYourStory)
    else if Truthy(message) && tok(message.value) > InputTokenLimit then Err(MessageTooLong)
    else Ok(stories[id])
  }

  /** The guards pass exactly for the owner of an existing story with no
      message or one within the token limit, and the first failing check
      decides the error. */
  lemma GuardSpec(stories: map<StoryId, StoryRow>, id: StoryId, user: UserId,
                  message: Option<string>, tok: string -> nat)
    ensures var g := Guard(stories, id, user, message, tok);
            && (g.Ok? <==> id in stories && stories[id].userId == user
                           && (!Truthy(message) || tok(message.value) <= InputTokenLimit))
            && (g.Ok? ==> g.value == stories[id])
            && (id !in stories ==> g == Err(StoryNotFound))
            && (id in stories && stories[id].userId != user ==> g == Err(NotYourStory))
            && (id in stories && stories[id].userId == user && g.Err? ==> g == Err(MessageTooLong))
  {}

  /** What the `try` block and its `catch` return. */
  function Outcome(apiKey: Option<string>, generation: Result<int>): Result<int> {
    if !Truthy(apiKey) then Err(KeyNotSet) else generation
  }

  /** The user message the transaction inserts, if any: only once the key
      is known, and only for a truthy message. */
  function Inserted(id: StoryId, row: StoryRow, user: UserId, message: Option<string>,
                    tok: string -> nat, apiKey: Option<string>): (ls: seq<UserLine>)
    ensures |ls| <= 1
    ensures ls != [] ==> ls[0].charId == row.userCharId && ls[0].userId == user
                         && ls[0].tokenUsage == 0 && ls[0].tokenLength == tok(ls[0].text)
  {
    if Truthy(apiKey) && Truthy(message)
    then [UserLine(id, row.userCharId, user, message.value, 0, tok(message.value))]
    else []
  }

  /** The reason messages a call publishes while it holds the lock: the
      cleared reason once the key is known, then the error's message on
      failure. */
  function ReasonsAnnounced(prefix: Option<string>, id: StoryId, apiKey: Option<string>, r: Result<int>): seq<Published> {
    (if Truthy(apiKey) then [Published(ReasonCh(prefix, id), EncodeReason(None))] else [])
    + (if r.Err? then [Published(ReasonCh(prefix, id), EncodeReason(Some(r.error.message)))] else [])
  }

  /** Everything one call publishes after taking the lock: busy first,
      not-busy last. */
  function Announced(prefix: Option<string>, id: StoryId, apiKey: Option<string>, r: Result<int>): seq<Published> {
    [Published(BusyCh(prefix, id), EncodeBusy(true))]
    + ReasonsAnnounced(prefix, id, apiKey, r)
    + [Published(BusyCh(prefix, id), EncodeBusy(false))]
  }

  /** The reason a finished call leaves on the story: null after success,
      the error's message after a failure. */
  function ReasonAfter(r: Result<int>): Option<string> {
    if r.Ok? then None else Some(r.error.message)
  }

  /** One tick of the 500 ms heartbeat: while the call that started it is
      not done, the busy key is set to "1" for one second. */
  method Heartbeat(store: Store, prefix: Option<string>, id: StoryId)
    modifies store
    ensures id in old(store.heartbeats) ==> store.keys == old(store.keys)[BusyCh(prefix, id) := BusyValue(true, Some(1))]
    ensures id !in old(store.heartbeats) ==> store.keys == old(store.keys)
    ensures store.stories == old(store.stories) && store.posted == old(store.posted)
    ensures store.published == old(store.published) && store.locks == old(store.locks)
    ensures store.connections == old(store.connections) && store.heartbeats == old(store.heartbeats)
  {
    if id in store.heartbeats {
      store.Set(BusyCh(prefix, id), BusyValue(true, Some(1)));
    }
  }

  method Advance(store: Store, prefix: Option<string>, user: UserId, id: StoryId,
                 message: Option<string>, tok: string -> nat, apiKey: Option<string>,
                 generation: Result<int>)
    returns (r: Result<int>)
    modifies store
    ensures var g := Guard(old(store.stories), id, user, message, tok);
            g.Err? ==> r == Err(g.error) && unchanged(store)
    // A held lock: the error, and only the checked-out connection is left behind.
    ensures var g := Guard(old(store.stories), id, user, message, tok);
            g.Ok? && id in old(store.locks) ==>
              && r == Err(StoryBusy)
              && store.connections == old(store.connections) + 1
              && store.locks == old(store.locks) && store.stories == old(store.stories)
              && store.posted == old(store.posted) && store.keys == old(store.keys)
              && store.published == old(store.published) && store.heartbeats == old(store.heartbeats)
    ensures var g := Guard(old(store.stories), id, user, message, tok);
            g.Ok? && id !in old(store.locks) ==>
              && r == Outcome(apiKey, generation)
              && store.locks == old(store.locks) && store.connections == old(store.connections)
              && store.heartbeats == old(store.heartbeats)
              && store.keys == old(store.keys)[BusyCh(prefix, id) := BusyValue(false, None)]
              && store.posted == old(store.posted) + Inserted(id, g.value, user, message, tok, apiKey)
              && store.stories == old(store.stories)[id := g.value.(reason := ReasonAfter(r))]
              && store.published == old(store.published) + Announced(prefix, id, apiKey, r)
  {
    var g := Guard(store.stories, id, user, message, tok);
    if g.Err? {
      return Err(g.error);
    }
    var locked := store.TryLock(id);
    if !locked {
      return Err(StoryBusy);
    }
    store.Publish(BusyCh(prefix, id), EncodeBusy(true));
    store.heartbeats := store.heartbeats + multiset{id};
    r := Attempt(store, prefix, user, id, g.value, message, tok, apiKey, generation);
    Release(store, prefix, id);
    assert store.locks == old(store.locks) by {
      assert id !in old(store.locks);
    }
    AnnouncedAfter(old(store.published), prefix, id, apiKey, r);
  }

  /** Busy, then the reasons, then not busy, appended one after the other. */
  lemma AnnouncedAfter(before: seq<Published>, prefix: Option<string>, id: StoryId, apiKey: Option<string>,
                       r: Result<int>)
    ensures before + [Published(BusyCh(prefix, id), EncodeBusy(true))] + ReasonsAnnounced(prefix, id, apiKey, r)
            + [Published(BusyCh(prefix, id), EncodeBusy(false))]
            == before + Announced(prefix, id, apiKey, r)
  {
  }

  /** The `finally` block: give back the lock and its connection, stop
      the heartbeat, then store and announce that the story is not busy. */
  method Release(store: Store, prefix: Option<string>, id: StoryId)
    requires store.connections > 0
    modifies store
    ensures store.locks == old(store.locks) - {id} && store.connections == old(store.connections) - 1
    ensures store.heartbeats == old(store.heartbeats) - multiset{id}
    ensures store.keys == old(store.keys)[BusyCh(prefix, id) := BusyValue(false, None)]
    ensures store.published == old(store.published) + [Published(BusyCh(prefix, id), EncodeBusy(false))]
    ensures store.stories == old(store.stories) && store.posted == old(store.posted)
  {
    store.Unlock(id);
    store.heartbeats := store.heartbeats - multiset{id};
    store.Set(BusyCh(prefix, id), BusyValue(false, None));
    store.Publish(BusyCh(prefix, id), EncodeBusy(false));
  }

  /** The `try` block and its `catch`, with the lock held. */
  method Attempt(store: Store, prefix: Option<string>, user: UserId, id: StoryId, row: StoryRow,
                 message: Option<string>, tok: string -> nat, apiKey: Option<string>,
                 generation: Result<int>)
    returns (r: Result<int>)
    requires id in store.stories && store.stories[id] == row
    modifies store
    ensures r == Outcome(apiKey, generation)
    ensures store.locks == old(store.locks) && store.connections == old(store.connections)
    ensures store.heartbeats == old(store.heartbeats) && store.keys == old(store.keys)
    ensures store.posted == old(store.posted) + Inserted(id, row, user, message, tok, apiKey)
    ensures store.stories == old(store.stories)[id := row.(reason := ReasonAfter(r))]
    ensures store.published == old(store.published) + ReasonsAnnounced(prefix, id, apiKey, r)
  {
    if !Truthy(apiKey) {
      r := Err(KeyNotSet);
    } else {
      Prepare(store, prefix, user, id, row, message, tok);
      r := generation;
    }
    if r.Err? {
      store.SetReason(id, Some(r.error.message));
      store.Publish(ReasonCh(prefix, id), EncodeReason(Some(r.error.message)));
    }
  }

  /** The transaction that clears the reason and inserts the user
      message, then the published empty reason. */
  method Prepare(store: Store, prefix: Option<string>, user: UserId, id: StoryId, row: StoryRow,
                 message: Option<string>, tok: string -> nat)
    requires id in store.stories && store.stories[id] == row
    modifies store
    ensures store.locks == old(store.locks) && store.connections == old(store.connections)
    ensures store.heartbeats == old(store.heartbeats) && store.keys == old(store.keys)
    ensures store.posted == old(store.posted) + Inserted(id, row, user, message, tok, Some("key"))
    ensures store.stories == old(store.stories)[id := row.(reason := None)]
    ensures store.published == old(store.published) + [Published(ReasonCh(prefix, id), EncodeReason(None))]
  {
    store.SetReason(id, None);
    if Truthy(message) {
      store.posted := store.posted + [UserLine(id, row.userCharId, user, message.value, 0, tok(message.value))];
    }
    store.Publish(ReasonCh(prefix, id), EncodeReason(None));
  }
}

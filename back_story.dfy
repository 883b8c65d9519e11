/** The story mutations of the `back` server that take the user's turn:
    `addContent` of back/src/trpc/routers/commands/story/addContent.ts (one
    user per story), `addContent` of back/src/trpc/routers/story/addContent.ts
    (several users, each playing the character `userMap` gives them) and
    `sendMessage` of back/src/trpc/routers/story/sendMessage.ts. Each runs
    its checks and its writes in one transaction, so a failed check writes
    nothing.

    The tokenizer is the parameter `tok`; the caller's energy balance, read
    inside the transaction, is the parameter `energy`. */
module BackStory {
  import opened Common

  /** A story row, with the columns of both schema versions: the owner and
      the owner's character, or the players and their characters. */
  datatype StoryRow = StoryRow(userId: int, userCharId: int, userIds: seq<int>, userMap: map<int, int>,
                               charIds: seq<int>, nextCharId: Option<int>, busy: bool, buffer: seq<nat>)

  datatype Content = Content(storyId: nat, charId: int, userId: int, tokenLength: Option<nat>,
                             energyCost: Option<nat>, text: string)

  datatype UserMessage = UserMessage(storyId: nat, userId: int, energyCost: nat, text: string)

  const StoryNotFound: Error := Plain("Story not found")
  const StoryBusy: Error := Plain("Story is busy")
  const NotYourTurn: Error := Plain("Not your turn")
  const NotEnoughEnergy: Error := Plain("Not enough energy")

  /** The characters that may speak next: everyone but the player's one. */
  function Others(charIds: seq<int>, userCharId: int): (r: seq<int>)
    ensures userCharId !in r
    ensures forall c :: c in r <==> c in charIds && c != userCharId
    ensures |r| <= |charIds|
  {
    if charIds == [] then []
    else (if charIds[0] == userCharId then [] else [charIds[0]]) + Others(charIds[1..], userCharId)
  }

  /** The checks of the one-user `addContent`, in source order. */
  function OwnerTurnGuard(stories: map<nat, StoryRow>, storyId: nat, user: int): Result<StoryRow> {
    if storyId !in stories || stories[storyId].userId != user then Err(StoryNotFound)
    else if stories[storyId].busy then Err(StoryBusy)
    else if stories[storyId].nextCharId != Some(stories[storyId].userCharId) then Err(NotYourTurn)
    else Ok(stories[storyId])
  }

  lemma OwnerTurnGuardSpec(stories: map<nat, StoryRow>, storyId: nat, user: int)
    ensures var g := OwnerTurnGuard(stories, storyId, user);
            && (g.Ok? <==> storyId in stories && stories[storyId].userId == user && !stories[storyId].busy
                           && stories[storyId].nextCharId == Some(stories[storyId].userCharId))
            && (g.Ok? ==> g.value == stories[storyId])
            && (storyId in stories && stories[storyId].userId == user && stories[storyId].busy ==> g == Err(StoryBusy))
  {}

  /** `JSON.parse(story.userMap)[userId]`: undefined when the user has no
      entry. */
  function PlayerChar(row: StoryRow, user: int): Option<int> {
    if user in row.userMap then Some(row.userMap[user]) else None
  }

  /** The checks of the several-user `addContent`, in source order; the
      result is the row and the player's character. A player missing from
      `userMap` never has the turn: `nextCharId` (a number or null) is never
      `undefined`. */
  function PlayerTurnGuard(stories: map<nat, StoryRow>, storyId: nat, user: int, energy: int): Result<(StoryRow, int)> {
    if storyId !in stories || user !in stories[storyId].userIds then Err(StoryNotFound)
    else if stories[storyId].busy then Err(StoryBusy)
    else
      var c := PlayerChar(stories[storyId], user);
      if c.None? || stories[storyId].nextCharId != c then Err(NotYourTurn)
      else if energy < 1 then Err(NotEnoughEnergy)
      else Ok((stories[storyId], c.value))
  }

  lemma PlayerTurnGuardSpec(stories: map<nat, StoryRow>, storyId: nat, user: int, energy: int)
    ensures var g := PlayerTurnGuard(stories, storyId, user, energy);
            && (g.Ok? <==> storyId in stories && user in stories[storyId].userIds && !stories[storyId].busy
                           && user in stories[storyId].userMap
                           && stories[storyId].nextCharId == Some(stories[storyId].userMap[user])
                           && energy >= 1)
            && (g.Ok? ==> g.value == (stories[storyId], stories[storyId].userMap[user]))
            && (storyId in stories && user in stories[storyId].userIds && user !in stories[storyId].userMap
                ==> g.Err? && g.error != NotEnoughEnergy)
  {}

  /** The checks of `sendMessage`, in source order. */
  function MessageGuard(stories: map<nat, StoryRow>, storyId: nat, user: int, energy: int): (g: Result<StoryRow>)
    ensures g.Ok? <==> storyId in stories && stories[storyId].userId == user && !stories[storyId].busy && energy >= 1
    ensures g.Err? && storyId in stories && stories[storyId].userId == user && !stories[storyId].busy
            ==> g.error == NotEnoughEnergy
  {
    if storyId !in stories || stories[storyId].userId != user then Err(StoryNotFound)
    else if stories[storyId].busy then Err(StoryBusy)
    else if energy < 1 then Err(NotEnoughEnergy)
    else Ok(stories[storyId])
  }

  /** The row after a turn was taken: busy, the new content buffered, and
      the next speaker one of the other characters. `chooseRandom` of an
      empty list is undefined, which leaves the column as it was. */
  predicate TurnTaken(before: StoryRow, after: StoryRow, userCharId: int, contentId: nat) {
    var others := Others(before.charIds, userCharId);
    && after == before.(busy := true, buffer := before.buffer + [contentId], nextCharId := after.nextCharId)
    && (others != [] ==> after.nextCharId.Some? && after.nextCharId.value in others)
    && (others == [] ==> after.nextCharId == before.nextCharId)
  }

  /** After a turn, the story is busy and another character has the turn,
      so the same call is refused until the story is released. */
  lemma TurnPasses(stories: map<nat, StoryRow>, storyId: nat, user: int, after: StoryRow, contentId: nat)
    requires OwnerTurnGuard(stories, storyId, user).Ok?
    requires TurnTaken(stories[storyId], after, stories[storyId].userCharId, contentId)
    ensures OwnerTurnGuard(stories[storyId := after], storyId, user) == Err(StoryBusy)
    ensures Others(stories[storyId].charIds, stories[storyId].userCharId) != []
            ==> after.nextCharId != Some(stories[storyId].userCharId)
  {}

  class BackStore {
    var stories: map<nat, StoryRow>
    var contents: seq<Content>
    var userMessages: seq<UserMessage>

    constructor (stories: map<nat, StoryRow>)
      ensures this.stories == stories && contents == [] && userMessages == []
    {
      this.stories := stories;
      contents := [];
      userMessages := [];
    }

    /** Content ids are assigned in insertion order. */
    function NextContentId(): nat
      reads this
    {
      |contents|
    }

    /** The story update shared by both `addContent` variants. */
    method TakeTurn(storyId: nat, userCharId: int, contentId: nat)
      requires storyId in stories
      modifies this
      ensures storyId in stories && stories == old(stories)[storyId := stories[storyId]]
      ensures TurnTaken(old(stories)[storyId], stories[storyId], userCharId, contentId)
      ensures contents == old(contents) && userMessages == old(userMessages)
    {
      var row := stories[storyId];
      var others := Others(row.charIds, userCharId);
      var next := row.nextCharId;
      if others != [] {
        assert others[0] in others;
        var c :| c in others;
        next := Some(c);
      }
      stories := stories[storyId := row.(busy := true, buffer := row.buffer + [contentId], nextCharId := next)];
    }

    /** `addContent` of back/src/trpc/routers/commands/story/addContent.ts. */
    method AddContent(storyId: nat, user: int, text: string, tok: string -> nat) returns (r: Result<nat>)
      modifies this
      ensures userMessages == old(userMessages)
      ensures var g := OwnerTurnGuard(old(stories), storyId, user);
              g.Err? ==> r == Err(g.error) && stories == old(stories) && contents == old(contents)
      ensures var g := OwnerTurnGuard(old(stories), storyId, user);
              g.Ok? ==>
                && r == Ok(|old(contents)|)
                && contents == old(contents) + [Content(storyId, g.value.userCharId, user, Some(tok(text)), None, text)]
                && storyId in stories && stories == old(stories)[storyId := stories[storyId]]
                && TurnTaken(g.value, stories[storyId], g.value.userCharId, |old(contents)|)
    {
      var g := OwnerTurnGuard(stories, storyId, user);
      if g.Err? {
        return Err(g.error);
      }
      var id := NextContentId();
      contents := contents + [Content(storyId, g.value.userCharId, user, Some(tok(text)), None, text)];
      TakeTurn(storyId, g.value.userCharId, id);
      r := Ok(id);
    }

    /** `addContent` of back/src/trpc/routers/story/addContent.ts. */
    method AddPlayerContent(storyId: nat, user: int, text: string, energy: int) returns (r: Result<nat>)
      modifies this
      ensures userMessages == old(userMessages)
      ensures var g := PlayerTurnGuard(old(stories), storyId, user, energy);
              g.Err? ==> r == Err(g.error) && stories == old(stories) && contents == old(contents)
      ensures var g := PlayerTurnGuard(old(stories), storyId, user, energy);
              g.Ok? ==>
                && r == Ok(|old(contents)|)
                && contents == old(contents) + [Content(storyId, g.value.1, user, None, Some(1), text)]
                && storyId in stories && stories == old(stories)[storyId := stories[storyId]]
                && TurnTaken(g.value.0, stories[storyId], g.value.1, |old(contents)|)
    {
      var g := PlayerTurnGuard(stories, storyId, user, energy);
      if g.Err? {
        return Err(g.error);
      }
      var userCharId := g.value.1;
      var id := NextContentId();
      contents := contents + [Content(storyId, userCharId, user, None, Some(1), text)];
      TakeTurn(storyId, userCharId, id);
      r := Ok(id);
    }

    /** `sendMessage` of back/src/trpc/routers/story/sendMessage.ts: the
        message costs one energy and makes the story busy. */
    method SendMessage(storyId: nat, user: int, text: string, energy: int) returns (r: Result<nat>)
      modifies this
      ensures contents == old(contents)
      ensures var g := MessageGuard(old(stories), storyId, user, energy);
              g.Err? ==> r == Err(g.error) && stories == old(stories) && userMessages == old(userMessages)
      ensures var g := MessageGuard(old(stories), storyId, user, energy);
              g.Ok? ==>
                && r == Ok(|old(userMessages)|)
                && userMessages == old(userMessages) + [UserMessage(storyId, user, 1, text)]
                && stories == old(stories)[storyId := g.value.(busy := true)]
    {
      var g := MessageGuard(stories, storyId, user, energy);
      if g.Err? {
        return Err(g.error);
      }
      stories := stories[storyId := g.value.(busy := true)];
      r := Ok(|userMessages|);
      userMessages := userMessages + [UserMessage(storyId, user, 1, text)];
    }
  }
}

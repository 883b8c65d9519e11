/** Changing a story's cast: `addChar` and `removeChar` of
    api/src/server/trpc/commands/story/, each a chain of guards followed by
    one update of the story's character list under the story's advisory
    lock (`lock` of shared.ts). The NFT ownership check is the parameter
    `ownership`. */
module StoryCast {
  import opened Common
  import opened ApiStore
  import AdvanceCommand

  const MaxChars: nat := 5

  /** The character columns `addChar` reads. */
  datatype CastCharacter = CastCharacter(creatorId: UserId, public: bool,
                                         nftContractAddress: Option<Buffer>, nftTokenId: Option<Buffer>)

  const CharacterNotFound: Error := Error(NotFound, "Character not found")
  const NotYourCharacter: Error := Error(Forbidden, "Not your character")
  const MissingWeb3Token: Error := Error(BadRequest, "Missing web3Token")
  const CastFull: Error := Error(Conflict, "Story already has maximum characters")
  const AlreadyInStory: Error := Error(Conflict, "Character already in story")
  const NotInStory: Error := Error(BadRequest, "Character not in story")
  const MainCharacter: Error := Error(BadRequest, "Cannot remove main character")
  const LastCharacter: Error := Error(BadRequest, "Cannot remove last character")

  /** The checks of `addChar`, in order, up to the lock. A character can
      be added exactly when the story is the user's, the character exists
      and is public or the user's own, its NFT (if any) is proved owned, the
      cast has room, and the character is not in it yet. */
  function AddGuard(stories: map<StoryId, StoryRow>, chars: map<int, CastCharacter>, user: UserId,
                    id: StoryId, charId: int, web3Token: Option<string>, ownership: Option<Error>): (r: Option<Error>)
    ensures r.None? <==>
              && id in stories && stories[id].userId == user
              && charId in chars && (chars[charId].public || chars[charId].creatorId == user)
              && ((chars[charId].nftContractAddress.Some? && chars[charId].nftTokenId.Some?)
                    ==> (Truthy(web3Token) && ownership.None?))
              && |stories[id].charIds| < MaxChars && charId !in stories[id].charIds
    ensures id !in stories ==> r == Some(AdvanceCommand.StoryNotFound)
  {
    if id !in stories then Some(AdvanceCommand.StoryNotFound)
    else if stories[id].userId != user then Some(AdvanceCommand.NotYourStory)
    else if charId !in chars then Some(CharacterNotFound)
    else
      var c := chars[charId];
      if !c.public && c.creatorId != user then Some(NotYourCharacter)
      else if c.nftContractAddress.Some? && c.nftTokenId.Some? && !Truthy(web3Token) then Some(MissingWeb3Token)
      else if c.nftContractAddress.Some? && c.nftTokenId.Some? && ownership.Some? then ownership
      else if |stories[id].charIds| >= MaxChars then Some(CastFull)
      else if charId in stories[id].charIds then Some(AlreadyInStory)
      else None
  }

  /** `[...new Set(charIds.concat([charId]))]`. */
  function Added(charIds: seq<int>, charId: int): seq<int> {
    Distinct(charIds + [charId])
  }

  /** After the guards, the new cast is the old one with the character
      appended, one longer and within the limit; in any case it is
      duplicate-free and holds exactly the old members and the new one. */
  lemma AddedSpec(charIds: seq<int>, charId: int)
    ensures NoDuplicates(Added(charIds, charId))
    ensures forall c :: c in Added(charIds, charId) <==> c in charIds || c == charId
    ensures NoDuplicates(charIds) && charId !in charIds ==> Added(charIds, charId) == charIds + [charId]
    ensures |Added(charIds, charId)| <= |charIds| + 1
  {
    var xs := charIds + [charId];
    DistinctSpec(xs);
    assert forall c :: c in xs <==> c in charIds || c == charId;
    if NoDuplicates(charIds) && charId !in charIds {
      assert NoDuplicates(xs) by {
        forall i, j | 0 <= i < j < |xs| ensures xs[i] != xs[j] {
          if j == |charIds| { assert xs[i] == charIds[i]; }
          else { assert xs[i] == charIds[i] && xs[j] == charIds[j]; }
        }
      }
    }
  }

  /** After the guards, a duplicate-free cast grows by exactly the new
      character, stays duplicate-free and never exceeds the limit. */
  lemma AddKeepsCast(row: StoryRow, charId: int)
    requires NoDuplicates(row.charIds) && charId !in row.charIds && |row.charIds| < MaxChars
    ensures Added(row.charIds, charId) == row.charIds + [charId]
    ensures NoDuplicates(Added(row.charIds, charId)) && |Added(row.charIds, charId)| <= MaxChars
  {
    AddedSpec(row.charIds, charId);
  }

  /** `addChar`: the guards, then the lock (a held lock fails with the
      connection left checked out), the update and the unlock. */
  method AddChar(store: Store, chars: map<int, CastCharacter>, user: UserId, id: StoryId, charId: int,
                 web3Token: Option<string>, ownership: Option<Error>)
    returns (r: Result<()>)
    modifies store
    ensures var g := AddGuard(old(store.stories), chars, user, id, charId, web3Token, ownership);
            g.Some? ==> r == Err(g.value) && unchanged(store)
    ensures var g := AddGuard(old(store.stories), chars, user, id, charId, web3Token, ownership);
            g.None? && id in old(store.locks) ==>
              && r == Err(AdvanceCommand.StoryBusy)
              && store.connections == old(store.connections) + 1
              && store.stories == old(store.stories) && store.locks == old(store.locks)
    ensures var g := AddGuard(old(store.stories), chars, user, id, charId, web3Token, ownership);
            g.None? && id !in old(store.locks) ==>
              && r == Ok(())
              && store.stories == old(store.stories)[id := old(store.stories)[id].(charIds := Added(old(store.stories)[id].charIds, charId))]
              && store.connections == old(store.connections) && store.locks == old(store.locks)
    ensures store.posted == old(store.posted) && store.keys == old(store.keys)
    ensures store.published == old(store.published) && store.heartbeats == old(store.heartbeats)
  {
    var g := AddGuard(store.stories, chars, user, id, charId, web3Token, ownership);
    if g.Some? {
      return Err(g.value);
    }
    var locked := store.TryLock(id);
    if !locked {
      return Err(AdvanceCommand.StoryBusy);
    }
    store.SetCharIds(id, Added(store.stories[id].charIds, charId));
    store.Unlock(id);
    r := Ok(());
  }

  /** The checks of `removeChar`, in order, up to the lock. A character
      can be removed exactly when the story is the user's, the character is
      in it, it is not the user's own character, and more than two
      characters are cast. */
  function RemoveGuard(stories: map<StoryId, StoryRow>, user: UserId, id: StoryId, charId: int): (r: Option<Error>)
    ensures r.None? <==>
              && id in stories && stories[id].userId == user && charId in stories[id].charIds
              && charId != stories[id].userCharId && |stories[id].charIds| > 2
  {
    if id !in stories then Some(AdvanceCommand.StoryNotFound)
    else if stories[id].userId != user then Some(AdvanceCommand.NotYourStory)
    else if charId !in stories[id].charIds then Some(NotInStory)
    else if charId == stories[id].userCharId then Some(MainCharacter)
    else if |stories[id].charIds| <= 2 then Some(LastCharacter)
    else None
  }

  /** `charIds.filter((c) => c !== charId)`. */
  function Removed(charIds: seq<int>, charId: int): (r: seq<int>)
    ensures |r| <= |charIds|
  {
    if charIds == [] then []
    else (if charIds[0] == charId then [] else [charIds[0]]) + Removed(charIds[1..], charId)
  }

  /** The filter drops every occurrence of the character and keeps every
      other one, in order; it shortens the list exactly by the number of
      occurrences. */
  lemma {:induction false} RemovedSpec(charIds: seq<int>, charId: int)
    ensures forall c :: c in Removed(charIds, charId) <==> c in charIds && c != charId
    ensures |Removed(charIds, charId)| == |charIds| - multiset(charIds)[charId]
    ensures charId !in charIds ==> Removed(charIds, charId) == charIds
  {
    if charIds != [] {
      RemovedSpec(charIds[1..], charId);
      assert charIds == [charIds[0]] + charIds[1..];
      assert multiset(charIds) == multiset{charIds[0]} + multiset(charIds[1..]);
    }
  }

  /** After the guards, with a duplicate-free cast, removal leaves at least
      two characters, among them the user's own, and no duplicate. */
  lemma RemoveKeepsCast(row: StoryRow, charId: int)
    requires NoDuplicates(row.charIds) && charId in row.charIds
    requires charId != row.userCharId && |row.charIds| > 2
    ensures |Removed(row.charIds, charId)| == |row.charIds| - 1 >= 2
    ensures row.userCharId in row.charIds ==> row.userCharId in Removed(row.charIds, charId)
    ensures NoDuplicates(Removed(row.charIds, charId))
  {
    RemovedSpec(row.charIds, charId);
    DistinctCount(row.charIds, charId);
    RemovedNoDuplicates(row.charIds, charId);
  }

  lemma {:induction false} DistinctCount(xs: seq<int>, x: int)
    requires NoDuplicates(xs) && x in xs
    ensures multiset(xs)[x] == 1
  {
    if xs[0] == x {
      assert xs == [x] + xs[1..];
      assert x !in xs[1..] by {
        forall j | 0 <= j < |xs[1..]| ensures xs[1..][j] != x {
          assert xs[1..][j] == xs[j + 1];
        }
      }
      assert multiset(xs) == multiset{x} + multiset(xs[1..]);
    } else {
      assert xs == [xs[0]] + xs[1..];
      assert multiset(xs) == multiset{xs[0]} + multiset(xs[1..]);
      DistinctCount(xs[1..], x);
    }
  }

  lemma {:induction false} RemovedNoDuplicates(xs: seq<int>, x: int)
    requires NoDuplicates(xs)
    ensures NoDuplicates(Removed(xs, x))
  {
    if xs != [] {
      RemovedNoDuplicates(xs[1..], x);
      RemovedSpec(xs[1..], x);
      var rest := Removed(xs[1..], x);
      assert xs[0] !in rest by {
        forall j | 0 <= j < |xs[1..]| ensures xs[1..][j] != xs[0] {
          assert xs[1..][j] == xs[j + 1];
        }
      }
    }
  }

  /** `removeChar`: the guards, then the lock, the update and the unlock. */
  method RemoveChar(store: Store, user: UserId, id: StoryId, charId: int) returns (r: Result<()>)
    modifies store
    ensures var g := RemoveGuard(old(store.stories), user, id, charId);
            g.Some? ==> r == Err(g.value) && unchanged(store)
    ensures var g := RemoveGuard(old(store.stories), user, id, charId);
            g.None? && id in old(store.locks) ==>
              && r == Err(AdvanceCommand.StoryBusy)
              && store.connections == old(store.connections) + 1
              && store.stories == old(store.stories) && store.locks == old(store.locks)
    ensures var g := RemoveGuard(old(store.stories), user, id, charId);
            g.None? && id !in old(store.locks) ==>
              && r == Ok(())
              && store.stories == old(store.stories)[id := old(store.stories)[id].(charIds := Removed(old(store.stories)[id].charIds, charId))]
              && store.connections == old(store.connections) && store.locks == old(store.locks)
    ensures store.posted == old(store.posted) && store.keys == old(store.keys)
    ensures store.published == old(store.published) && store.heartbeats == old(store.heartbeats)
  {
    var g := RemoveGuard(store.stories, user, id, charId);
    if g.Some? {
      return Err(g.value);
    }
    var locked := store.TryLock(id);
    if !locked {
      return Err(AdvanceCommand.StoryBusy);
    }
    store.SetCharIds(id, Removed(store.stories[id].charIds, charId));
    store.Unlock(id);
    r := Ok(());
  }
}

/** The three story-creation mutations:
    api/src/server/trpc/commands/story/create.ts (in a lore, with NFT-bound
    characters), api/src/trpc/commands/story/create.ts (in a collection) and
    back/src/trpc/commands/story/create.ts (in a collection, with ERC-1155
    characters, and the first speaker drawn at once). Each is a chain of
    checks ending in one insert.

    The NFT ownership check and the ERC-1155 balance are the parameters
    `ownership` and `holds`; the random draw of the first speaker is the
    parameter `draw`. */
module StoryCreate {
  import opened Common

  /** The character columns the checks read, across schema versions. */
  datatype Character = Character(nftContractAddress: Option<Buffer>, nftTokenId: Option<Buffer>,
                                 erc1155Address: Option<Buffer>, erc1155Id: Option<Buffer>)

  /** The inserted row; `setting` is the lore or the collection. */
  datatype NewStory = NewStory(setting: int, charIds: seq<int>, userId: int, userCharId: int,
                               fabula: Option<string>, nextCharId: Option<int>, busy: bool)

  const DuplicateCharacter: Error := Plain("Duplicate character id")
  const EmptyCharacterList: Error := Plain("Empty character list")
  const LoreNotFound: Error := Error(BadRequest, "Lore not found")
  const CollectionNotFound: Error := Error(BadRequest, "Collection not found")
  const CharacterNotFound: Error := Plain("Character not found")
  const MissingWeb3Token: Error := Error(BadRequest, "Missing web3Token")
  const InvalidErc1155Id: Error := Plain("Invalid ERC1155 id")
  const NoWeb3Provider: Error := Plain("User has no Web3 provider")
  const InsufficientBalance: Error := Plain("Insufficient character token balance")

  function Existing(chars: map<int, Character>, ids: seq<int>): (r: seq<int>)
    ensures |r| <= |ids|
    ensures |r| == |ids| <==> forall i :: 0 <= i < |ids| ==> ids[i] in chars
    ensures forall x :: x in r <==> x in ids && x in chars
  {
    if ids == [] then []
    else (if ids[0] in chars then [ids[0]] else []) + Existing(chars, ids[1..])
  }

  /** `findMany({where: {id: {in: ids}}})`: each existing character once,
      in the order of the requested ids. */
  function Found(chars: map<int, Character>, ids: seq<int>): seq<int> {
    Existing(chars, Distinct(ids))
  }

  /** With distinct non-user ids, the count check passes exactly when every
      id names a character and the user's character is not among the
      others. */
  lemma FoundAll(chars: map<int, Character>, user: int, others: seq<int>)
    requires NoDuplicates(others)
    ensures |Found(chars, [user] + others)| == 1 + |others|
            <==> user in chars && user !in others && forall c :: c in others ==> c in chars
  {
    var ids := [user] + others;
    DistinctSpec(ids);
    ConsMembers(user, others);
    if user in others {
      assert ids[0] == user;
      ConsRepeats(user, others);
    } else {
      ConsDistinct(user, others);
      AllExisting(chars, ids);
    }
  }

  lemma ConsMembers(user: int, others: seq<int>)
    ensures forall c :: c in [user] + others <==> c == user || c in others
  {}

  /** Putting a member of the list in front repeats it. */
  lemma ConsRepeats(user: int, others: seq<int>)
    requires user in others
    ensures !NoDuplicates([user] + others)
  {
    var j :| 0 <= j < |others| && others[j] == user;
    assert ([user] + others)[0] == ([user] + others)[j + 1];
  }

  /** Putting a new id in front of distinct ids keeps them distinct. */
  lemma ConsDistinct(user: int, others: seq<int>)
    requires NoDuplicates(others) && user !in others
    ensures NoDuplicates([user] + others)
  {
    var ids := [user] + others;
    forall i, j | 0 <= i < j < |ids| ensures ids[i] != ids[j] {
      if i > 0 { assert ids[i] == others[i - 1] && ids[j] == others[j - 1]; }
      else { assert ids[j] in others; }
    }
  }

  /** Every id exists exactly when every member of the list does. */
  lemma AllExisting(chars: map<int, Character>, ids: seq<int>)
    ensures (forall i :: 0 <= i < |ids| ==> ids[i] in chars) <==> (forall c :: c in ids ==> c in chars)
  {
    if forall c :: c in ids ==> c in chars {
      forall i | 0 <= i < |ids| ensures ids[i] in chars {
        assert ids[i] in ids;
      }
    }
  }

  /** The checks every variant starts with: the set of other characters
      must be as long as the list, and not empty. */
  function ListGuard(others: seq<int>): (r: Option<Error>)
    ensures r.None? <==> NoDuplicates(others) && others != []
  {
    DistinctSpec(others);
    if |Distinct(others)| != |others| then Some(DuplicateCharacter)
    else if |Distinct(others)| == 0 then Some(EmptyCharacterList)
    else None
  }

  /** The per-character loop of the lore variant: an NFT-bound character
      needs a web3 token, and its ownership check may throw. */
  function NftError(chars: map<int, Character>, found: seq<int>, web3Token: Option<string>,
                    ownership: int -> Option<Error>): Option<Error>
    requires forall i :: 0 <= i < |found| ==> found[i] in chars
  {
    if found == [] then None
    else if NftBound(chars[found[0]]) && !Truthy(web3Token) then Some(MissingWeb3Token)
    else if NftBound(chars[found[0]]) && ownership(found[0]).Some? then ownership(found[0])
    else NftError(chars, found[1..], web3Token, ownership)
  }

  /** The loop lets the creation through exactly when every NFT-bound
      character comes with a token and passes the ownership check. */
  lemma {:induction false} NftErrorSpec(chars: map<int, Character>, found: seq<int>, web3Token: Option<string>,
                                        ownership: int -> Option<Error>)
    requires forall i :: 0 <= i < |found| ==> found[i] in chars
    ensures NftError(chars, found, web3Token, ownership).None?
            <==> forall c :: c in found && NftBound(chars[c]) ==> Truthy(web3Token) && ownership(c).None?
    decreases |found|
  {
    if found != [] {
      NftErrorSpec(chars, found[1..], web3Token, ownership);
      assert forall c :: c in found <==> c == found[0] || c in found[1..] by {
        assert found == [found[0]] + found[1..];
      }
    }
  }

  predicate NftBound(c: Character) {
    c.nftContractAddress.Some? && c.nftTokenId.Some?
  }

  /** `create` of api/src/server/trpc/commands/story/create.ts. A truthy
      `web3Token` is verified before the NFT loop, whether or not any
      character is NFT-bound; `tokenValid` is whether `Web3Token.verify`
      accepts it. */
  function CreateInLore(user: int, loreId: int, userCharId: int, others: seq<int>, fabula: Option<string>,
                        web3Token: Option<string>, tokenValid: bool, lores: set<int>,
                        chars: map<int, Character>, ownership: int -> Option<Error>): Result<NewStory>
  {
    var listError := ListGuard(others);
    if listError.Some? then Err(listError.value)
    else if loreId !in lores then Err(LoreNotFound)
    else
      var found := Found(chars, [userCharId] + others);
      if |found| != 1 + |Distinct(others)| then Err(CharacterNotFound)
      else if Truthy(web3Token) && !tokenValid then Err(InvalidWeb3Token)
      else
        var nft := NftError(chars, found, web3Token, ownership);
        if nft.Some? then Err(nft.value)
        else Ok(NewStory(loreId, [userCharId] + Distinct(others), user, userCharId, fabula, None, false))
  }

  /** A story is created exactly when the other characters are distinct
      and not empty, the lore exists, every character exists and the user's
      one is not repeated, a web3 token, when given, verifies, and every
      NFT-bound character is backed by a token its owner holds; the cast is the user's character followed by
      the others in input order. */
  lemma CreateInLoreSpec(user: int, loreId: int, userCharId: int, others: seq<int>, fabula: Option<string>,
                         web3Token: Option<string>, tokenValid: bool, lores: set<int>,
                         chars: map<int, Character>, ownership: int -> Option<Error>)
    ensures var r := CreateInLore(user, loreId, userCharId, others, fabula, web3Token, tokenValid, lores, chars, ownership);
            && (r.Ok? <==>
                  && NoDuplicates(others) && others != [] && loreId in lores
                  && userCharId in chars && userCharId !in others && (forall c :: c in others ==> c in chars)
                  && (Truthy(web3Token) ==> tokenValid)
                  && (forall c :: c in chars && (c == userCharId || c in others) && NftBound(chars[c])
                        ==> Truthy(web3Token) && ownership(c).None?))
            && (r.Ok? ==> r.value == NewStory(loreId, [userCharId] + others, user, userCharId, fabula, None, false))
            && (r.Ok? ==> |r.value.charIds| == 1 + |others| && r.value.charIds[0] == userCharId)
  {
    DistinctSpec(others);
    if NoDuplicates(others) {
      FoundAll(chars, userCharId, others);
      var found := Found(chars, [userCharId] + others);
      FoundMembers(chars, [userCharId] + others);
      NftErrorSpec(chars, found, web3Token, ownership);
      assert forall c :: c in [userCharId] + others <==> c == userCharId || c in others;
    }
  }

  lemma FoundMembers(chars: map<int, Character>, ids: seq<int>)
    ensures forall c :: c in Found(chars, ids) <==> c in ids && c in chars
  {
    DistinctSpec(ids);
  }

  /** `create` of api/src/trpc/commands/story/create.ts. */
  function CreateInCollection(user: int, collectionId: int, userCharId: int, others: seq<int>,
                              fabula: Option<string>, collections: set<int>,
                              chars: map<int, Character>): Result<NewStory>
  {
    var listError := ListGuard(others);
    if listError.Some? then Err(listError.value)
    else if collectionId !in collections then Err(CollectionNotFound)
    else if |Found(chars, [userCharId] + others)| != 1 + |Distinct(others)| then Err(CharacterNotFound)
    else Ok(NewStory(collectionId, [userCharId] + Distinct(others), user, userCharId, fabula, None, false))
  }

  lemma CreateInCollectionSpec(user: int, collectionId: int, userCharId: int, others: seq<int>,
                               fabula: Option<string>, collections: set<int>, chars: map<int, Character>)
    ensures var r := CreateInCollection(user, collectionId, userCharId, others, fabula, collections, chars);
            && (r.Ok? <==>
                  && NoDuplicates(others) && others != [] && collectionId in collections
                  && userCharId in chars && userCharId !in others && (forall c :: c in others ==> c in chars))
            && (r.Ok? ==> r.value == NewStory(collectionId, [userCharId] + others, user, userCharId, fabula, None, false))
            && (!NoDuplicates(others) ==> r == Err(DuplicateCharacter))
            && (others == [] ==> r == Err(EmptyCharacterList))
  {
    DistinctSpec(others);
    if NoDuplicates(others) {
      FoundAll(chars, userCharId, others);
    }
  }

  /** The per-character loop of the back variant. */
  function Erc1155Error(chars: map<int, Character>, found: seq<int>, hasIdentity: bool,
                        holds: int -> bool): Option<Error>
    requires forall i :: 0 <= i < |found| ==> found[i] in chars
  {
    if found == [] then None
    else
      var c := chars[found[0]];
      if c.erc1155Address.Some? && !c.erc1155Id.Some? then Some(InvalidErc1155Id)
      else if c.erc1155Address.Some? && !hasIdentity then Some(NoWeb3Provider)
      else if c.erc1155Address.Some? && !holds(found[0]) then Some(InsufficientBalance)
      else Erc1155Error(chars, found[1..], hasIdentity, holds)
  }

  /** The loop lets the creation through exactly when every token-bound
      character has a token id, the user has a web3 identity, and holds
      that token. */
  lemma {:induction false} Erc1155ErrorSpec(chars: map<int, Character>, found: seq<int>, hasIdentity: bool,
                                            holds: int -> bool)
    requires forall i :: 0 <= i < |found| ==> found[i] in chars
    ensures Erc1155Error(chars, found, hasIdentity, holds).None?
            <==> forall c :: c in found && chars[c].erc1155Address.Some?
                             ==> chars[c].erc1155Id.Some? && hasIdentity && holds(c)
    decreases |found|
  {
    if found != [] {
      Erc1155ErrorSpec(chars, found[1..], hasIdentity, holds);
      assert forall c :: c in found <==> c == found[0] || c in found[1..] by {
        assert found == [found[0]] + found[1..];
      }
    }
  }

  /** `create` of back/src/trpc/commands/story/create.ts: the story starts
      busy, with one of the other characters to speak first. */
  function CreateWithTokens(user: int, collectionId: int, userCharId: int, others: seq<int>,
                            fabula: Option<string>, collections: set<int>, chars: map<int, Character>,
                            hasIdentity: bool, holds: int -> bool, draw: nat): Result<NewStory>
  {
    var listError := ListGuard(others);
    if listError.Some? then Err(listError.value)
    else if collectionId !in collections then Err(CollectionNotFound)
    else
      var found := Found(chars, [userCharId] + others);
      if |found| != 1 + |Distinct(others)| then Err(CharacterNotFound)
      else
        FoundMembers(chars, [userCharId] + others);
        var tokenError := Erc1155Error(chars, found, hasIdentity, holds);
        if tokenError.Some? then Err(tokenError.value)
        else
          var set_ := Distinct(others);
          Ok(NewStory(collectionId, [userCharId] + set_, user, userCharId, fabula,
                      Some(set_[draw % |set_|]), true))
  }

  lemma CreateWithTokensSpec(user: int, collectionId: int, userCharId: int, others: seq<int>,
                             fabula: Option<string>, collections: set<int>, chars: map<int, Character>,
                             hasIdentity: bool, holds: int -> bool, draw: nat)
    ensures var r := CreateWithTokens(user, collectionId, userCharId, others, fabula, collections, chars,
                                      hasIdentity, holds, draw);
            && (r.Ok? ==>
                  && r.value.busy && r.value.charIds == [userCharId] + others
                  && r.value.nextCharId.Some? && r.value.nextCharId.value in others
                  && r.value.nextCharId.value != userCharId)
            && (r.Ok? ==> forall c :: c in chars && (c == userCharId || c in others) && chars[c].erc1155Address.Some?
                            ==> chars[c].erc1155Id.Some? && hasIdentity && holds(c))
            && (r.Ok? <==> CreateInCollection(user, collectionId, userCharId, others, fabula, collections, chars).Ok?
                           && Erc1155Error(chars, Found(chars, [userCharId] + others), hasIdentity, holds).None?)
  {
    DistinctSpec(others);
    var found := Found(chars, [userCharId] + others);
    FoundMembers(chars, [userCharId] + others);
    CreateInCollectionSpec(user, collectionId, userCharId, others, fabula, collections, chars);
    Erc1155ErrorSpec(chars, found, hasIdentity, holds);
    assert forall c :: c in [userCharId] + others <==> c == userCharId || c in others;
  }
}

/** Characters and lores of the API server:
    api/src/server/trpc/commands/characters/{create,update,find,filterByLore}.ts
    and api/src/server/trpc/commands/lores/{create,update,find}.ts. Each is a
    guard chain over one record followed by one insert or update, or a
    read with fields hidden from viewers other than the creator.

    The tokenizer is the parameter `tok`; the NFT ownership check of a
    character update is the parameter `ownership`. */
module Catalog {
  import opened Common
  import opened ApiStore

  const CharacterNameMax: nat := 32
  const CharacterAboutMax: nat := 256
  const PersonalityMaxTokens: nat := 512
  const LoreNameMax: nat := 32
  const LoreAboutMax: nat := 512
  const PromptMaxTokens: nat := 512

  const LoreNotFound: Error := Error(NotFound, "Lore not found")
  const CharacterNotFound: Error := Error(NotFound, "Character not found")
  const NameTooLong: Error := Error(PreconditionFailed, "name is too long")
  const AboutTooLong: Error := Error(PreconditionFailed, "about is too long")
  const PersonalityTooLong: Error := Error(PreconditionFailed, "personality is too long")
  const PromptTooLong: Error := Error(PreconditionFailed, "prompt is too long")
  const NotCharacterCreator: Error := Error(Unauthorized, "You are not the creator of this character")
  const NotLoreCreator: Error := Error(Unauthorized, "You are not the creator of this lore")
  const NoChanges: Error := Error(BadRequest, "No changes")
  const CharacterStaysPublic: Error := Error(BadRequest, "Cannot make a public character private")
  const LoreStaysPublic: Error := Error(BadRequest, "Cannot make a public lore private")
  const CannotChangeNft: Error := Error(BadRequest, "Cannot change NFT")
  const NftNotEnabled: Error := Error(BadRequest, "NFT not enabled for this character")

  /** A stored character; `personality` is absent only in a view that
      hides it. */
  datatype CharacterRecord = CharacterRecord(loreId: int, creatorId: UserId, public: bool, name: string,
                                             about: string, personality: Option<string>,
                                             nftContractAddress: Option<Buffer>, nftTokenId: Option<Buffer>,
                                             nftUri: Option<string>)

  /** A stored lore; `setup` is absent only in a view that hides it. */
  datatype LoreRecord = LoreRecord(creatorId: UserId, public: bool, name: string, about: string,
                                   setup: Option<string>)

  // Creation

  /** `characters.create`: the lore must exist, then the name, the about
      text and the personality's token count are capped, in that order.
      The text caps compare `.length`, in UTF-16 code units. */
  function CreateCharacter(user: UserId, loreId: int, public: bool, name: string, about: string,
                           personality: string, lores: set<int>, tok: string -> nat): (r: Result<CharacterRecord>)
    ensures r.Ok? <==> loreId in lores && Utf16Length(name) <= CharacterNameMax
                       && Utf16Length(about) <= CharacterAboutMax
                       && tok(personality) <= PersonalityMaxTokens
    ensures loreId !in lores ==> r == Err(LoreNotFound)
    ensures loreId in lores && Utf16Length(name) > CharacterNameMax ==> r == Err(NameTooLong)
    ensures r.Ok? ==> && r.value.creatorId == user && r.value.loreId == loreId && r.value.public == public
                      && r.value.name == name && r.value.about == about && r.value.personality == Some(personality)
                      && r.value.nftContractAddress.None? && r.value.nftTokenId.None? && r.value.nftUri.None?
  {
    if loreId !in lores then Err(LoreNotFound)
    else if Utf16Length(name) > CharacterNameMax then Err(NameTooLong)
    else if Utf16Length(about) > CharacterAboutMax then Err(AboutTooLong)
    else if tok(personality) > PersonalityMaxTokens then Err(PersonalityTooLong)
    else Ok(CharacterRecord(loreId, user, public, name, about, Some(personality), None, None, None))
  }

  /** `lores.create`: name, about and prompt caps, the first failure wins;
      the prompt is stored as the lore's setup. */
  function CreateLore(user: UserId, public: bool, name: string, about: string, prompt: string,
                      tok: string -> nat): (r: Result<LoreRecord>)
    ensures r.Ok? <==> Utf16Length(name) <= LoreNameMax && Utf16Length(about) <= LoreAboutMax
                       && tok(prompt) <= PromptMaxTokens
    ensures Utf16Length(name) > LoreNameMax ==> r == Err(NameTooLong)
    ensures Utf16Length(name) <= LoreNameMax && Utf16Length(about) > LoreAboutMax ==> r == Err(AboutTooLong)
    ensures r.Ok? ==> r.value.setup == Some(prompt) && r.value.creatorId == user && r.value.public == public
                      && r.value.name == name && r.value.about == about
  {
    if Utf16Length(name) > LoreNameMax then Err(NameTooLong)
    else if Utf16Length(about) > LoreAboutMax then Err(AboutTooLong)
    else if tok(prompt) > PromptMaxTokens then Err(PromptTooLong)
    else Ok(LoreRecord(user, public, name, about, Some(prompt)))
  }

  // Character update

  /** The `nft` input: a full NFT binding, or a new metadata uri for the
      one already bound. */
  datatype NftInput =
    | FullNft(contractAddress: Buffer, tokenId: Buffer, uri: string, web3Token: string)
    | UriOnly(uri: string, web3Token: string)

  datatype CharacterPatch = CharacterPatch(public: Option<bool>, name: Option<string>, about: Option<string>,
                                           personality: Option<string>, nft: Option<NftInput>)

  /** JavaScript `a ?? b`. */
  function Coalesce<T>(a: Option<T>, b: T): (r: T)
    ensures a.Some? ==> r == a.value
    ensures a.None? ==> r == b
  {
    if a.Some? then a.value else b
  }

  /** The update payload: every field is the input's value when given and
      the stored one otherwise. */
  function MergeCharacter(c: CharacterRecord, p: CharacterPatch): CharacterRecord {
    CharacterRecord(
      c.loreId, c.creatorId,
      Coalesce(p.public, c.public),
      Coalesce(p.name, c.name),
      Coalesce(p.about, c.about),
      if p.personality.Some? then p.personality else c.personality,
      if p.nft.Some? && p.nft.value.FullNft? then Some(p.nft.value.contractAddress) else c.nftContractAddress,
      if p.nft.Some? && p.nft.value.FullNft? then Some(p.nft.value.tokenId) else c.nftTokenId,
      if p.nft.Some? then Some(p.nft.value.uri) else c.nftUri)
  }

  /** Applying the same patch twice is applying it once, and a patch
      giving nothing changes nothing. */
  lemma MergeCharacterIdempotent(c: CharacterRecord, p: CharacterPatch)
    ensures MergeCharacter(MergeCharacter(c, p), p) == MergeCharacter(c, p)
    ensures p == CharacterPatch(None, None, None, None, None) ==> MergeCharacter(c, p) == c
  {
  }

  predicate NoCharacterChange(p: CharacterPatch) {
    p.public.None? && p.name.None? && p.about.None? && p.personality.None? && p.nft.None?
  }

  /** `characters.update`. */
  function UpdateCharacter(chars: map<int, CharacterRecord>, user: UserId, charId: int, p: CharacterPatch,
                           ownership: Option<Error>): (r: Result<CharacterRecord>)
    ensures r.Ok? <==>
              && charId in chars && chars[charId].creatorId == user && !NoCharacterChange(p)
              && !(p.public == Some(false) && chars[charId].public)
              && (p.nft.Some? ==>
                    && ownership.None?
                    && (p.nft.value.FullNft? ==> chars[charId].nftContractAddress.None?)
                    && (p.nft.value.UriOnly? ==> chars[charId].nftContractAddress.Some?))
    ensures r.Ok? ==> var c := chars[charId];
              && (p.name.None? ==> r.value.name == c.name) && (p.name.Some? ==> r.value.name == p.name.value)
              && (p.about.None? ==> r.value.about == c.about) && (p.about.Some? ==> r.value.about == p.about.value)
              && (p.public.None? ==> r.value.public == c.public)
              && (p.public.Some? ==> r.value.public == p.public.value)
              && (c.public ==> r.value.public)
              && (p.personality.Some? ==> r.value.personality == p.personality)
              && (p.personality.None? ==> r.value.personality == c.personality)
              && (p.nft.None? ==> && r.value.nftContractAddress == c.nftContractAddress
                                  && r.value.nftTokenId == c.nftTokenId && r.value.nftUri == c.nftUri)
              && (p.nft.Some? ==> r.value.nftUri == Some(p.nft.value.uri))
              && (p.nft.Some? && p.nft.value.FullNft? ==>
                    && r.value.nftContractAddress == Some(p.nft.value.contractAddress)
                    && r.value.nftTokenId == Some(p.nft.value.tokenId))
              && (p.nft.Some? && p.nft.value.UriOnly? ==>
                    r.value.nftContractAddress == c.nftContractAddress && r.value.nftTokenId == c.nftTokenId)
              && (c.nftContractAddress.Some? ==> r.value.nftContractAddress == c.nftContractAddress)
              && r.value.creatorId == c.creatorId && r.value.loreId == c.loreId
    ensures charId !in chars ==> r == Err(CharacterNotFound)
  {
    if charId !in chars then Err(CharacterNotFound)
    else
      var c := chars[charId];
      if c.creatorId != user then Err(NotCharacterCreator)
      else if NoCharacterChange(p) then Err(NoChanges)
      else if p.public == Some(false) && c.public then Err(CharacterStaysPublic)
      else if p.nft.Some? && p.nft.value.FullNft? && c.nftContractAddress.Some? then Err(CannotChangeNft)
      else if p.nft.Some? && p.nft.value.UriOnly? && c.nftContractAddress.None? then Err(NftNotEnabled)
      else if p.nft.Some? && ownership.Some? then Err(ownership.value)
      else Ok(MergeCharacter(c, p))
  }

  // Lore update

  datatype LorePatch = LorePatch(public: Option<bool>, name: Option<string>, about: Option<string>,
                                 prompt: Option<string>)

  /** `!input.public && !input.name && !input.about && !input.prompt`:
      a falsy test, so `public: false` and empty strings count as no
      change. */
  predicate NoLoreChange(p: LorePatch) {
    p.public != Some(true) && !Truthy(p.name) && !Truthy(p.about) && !Truthy(p.prompt)
  }

  function MergeLore(l: LoreRecord, p: LorePatch): LoreRecord {
    LoreRecord(l.creatorId, Coalesce(p.public, l.public), Coalesce(p.name, l.name),
               Coalesce(p.about, l.about), if p.prompt.Some? then p.prompt else l.setup)
  }

  /** `lores.update`. The caps are skipped for empty strings, and `??`
      lets an empty string through to the stored record. */
  function UpdateLore(lores: map<int, LoreRecord>, user: UserId, loreId: int, p: LorePatch,
                      tok: string -> nat): (r: Result<LoreRecord>)
    ensures r.Ok? <==>
              && loreId in lores && lores[loreId].creatorId == user && !NoLoreChange(p)
              && !(p.public == Some(false) && lores[loreId].public)
              && (Truthy(p.name) ==> Utf16Length(p.name.value) <= LoreNameMax)
              && (Truthy(p.about) ==> Utf16Length(p.about.value) <= LoreAboutMax)
              && (Truthy(p.prompt) ==> tok(p.prompt.value) <= PromptMaxTokens)
    ensures r.Ok? ==> var l := lores[loreId];
              && (p.name.Some? ==> r.value.name == p.name.value) && (p.name.None? ==> r.value.name == l.name)
              && (p.about.Some? ==> r.value.about == p.about.value) && (p.about.None? ==> r.value.about == l.about)
              && (p.prompt.Some? ==> r.value.setup == p.prompt) && (p.prompt.None? ==> r.value.setup == l.setup)
              && (p.public.Some? ==> r.value.public == p.public.value)
              && (p.public.None? ==> r.value.public == l.public)
              && (l.public ==> r.value.public) && r.value.creatorId == l.creatorId
    ensures loreId !in lores ==> r == Err(LoreNotFound)
  {
    if loreId !in lores then Err(LoreNotFound)
    else
      var l := lores[loreId];
      if l.creatorId != user then Err(NotLoreCreator)
      else if NoLoreChange(p) then Err(NoChanges)
      else if p.public == Some(false) && l.public then Err(LoreStaysPublic)
      else if Truthy(p.name) && Utf16Length(p.name.value) > LoreNameMax then Err(NameTooLong)
      else if Truthy(p.about) && Utf16Length(p.about.value) > LoreAboutMax then Err(AboutTooLong)
      else if Truthy(p.prompt) && tok(p.prompt.value) > PromptMaxTokens then Err(PromptTooLong)
      else Ok(MergeLore(l, p))
  }

  /** The falsy "no changes" test at work: a private lore cannot be sent
      `public: false` alone, while a public flag with an empty name clears
      the name. */
  lemma LoreUpdateFalsy(l: LoreRecord, user: UserId, tok: string -> nat)
    requires l.creatorId == user
    ensures UpdateLore(map[1 := l], user, 1, LorePatch(Some(false), None, None, None), tok) == Err(NoChanges)
    ensures UpdateLore(map[1 := l], user, 1, LorePatch(Some(true), Some(""), None, None), tok)
            == Ok(LoreRecord(user, true, "", l.about, l.setup))
  {
  }

  // Reads

  /** Whether a viewer (absent when anonymous) may see a record. */
  predicate Visible(public: bool, creatorId: UserId, viewer: Option<UserId>) {
    public || viewer == Some(creatorId)
  }

  /** `characters.find`: null for a missing or hidden character; the
      creator gets the record, anyone else the record without its
      personality. */
  function FindCharacter(chars: map<int, CharacterRecord>, id: int, viewer: Option<UserId>): (r: Option<CharacterRecord>)
    ensures r.Some? <==> id in chars && Visible(chars[id].public, chars[id].creatorId, viewer)
    ensures r.Some? && viewer == Some(chars[id].creatorId) ==> r.value == chars[id]
    ensures r.Some? && viewer != Some(chars[id].creatorId) ==>
              r.value.personality.None? && r.value.(personality := chars[id].personality) == chars[id]
  {
    if id !in chars then None
    else
      var c := chars[id];
      if !c.public && viewer != Some(c.creatorId) then None
      else if viewer == Some(c.creatorId) then Some(c)
      else Some(c.(personality := None))
  }

  /** `lores.find`: the same rule, hiding the setup. */
  function FindLore(lores: map<int, LoreRecord>, id: int, viewer: Option<UserId>): (r: Option<LoreRecord>)
    ensures r.Some? <==> id in lores && Visible(lores[id].public, lores[id].creatorId, viewer)
    ensures r.Some? && viewer == Some(lores[id].creatorId) ==> r.value == lores[id]
    ensures r.Some? && viewer != Some(lores[id].creatorId) ==>
              r.value.setup.None? && r.value.(setup := lores[id].setup) == lores[id]
  {
    if id !in lores then None
    else
      var l := lores[id];
      if !l.public && viewer != Some(l.creatorId) then None
      else if viewer == Some(l.creatorId) then Some(l)
      else Some(l.(setup := None))
  }

  /** A row of the `filterByLore` query. */
  datatype LoreCharacter = LoreCharacter(id: int, creatorId: UserId, public: bool)

  /** `filterByLore`: the ids of the rows the viewer may see, in row
      order; `rows` are the lore's characters as the query returns them,
      by ascending id. */
  function FilterByLore(rows: seq<LoreCharacter>, viewer: Option<UserId>): (r: seq<int>)
    ensures |r| <= |rows|
  {
    if rows == [] then []
    else
      (if Visible(rows[0].public, rows[0].creatorId, viewer) then [rows[0].id] else [])
      + FilterByLore(rows[1..], viewer)
  }

  predicate Ascending(xs: seq<int>) {
    forall i, j :: 0 <= i < j < |xs| ==> xs[i] < xs[j]
  }

  function Ids(rows: seq<LoreCharacter>): (r: seq<int>)
    ensures |r| == |rows| && forall i :: 0 <= i < |rows| ==> r[i] == rows[i].id
  {
    if rows == [] then [] else [rows[0].id] + Ids(rows[1..])
  }

  /** The ids shown are exactly the visible rows' ids. */
  lemma {:induction false} FilterByLoreMembers(rows: seq<LoreCharacter>, viewer: Option<UserId>)
    ensures forall x :: x in FilterByLore(rows, viewer) <==>
              exists i :: 0 <= i < |rows| && rows[i].id == x && Visible(rows[i].public, rows[i].creatorId, viewer)
  {
    if rows != [] {
      FilterByLoreMembers(rows[1..], viewer);
      var rest := FilterByLore(rows[1..], viewer);
      forall x | x in FilterByLore(rows, viewer)
        ensures exists i :: 0 <= i < |rows| && rows[i].id == x && Visible(rows[i].public, rows[i].creatorId, viewer)
      {
        if x !in rest {
          assert rows[0].id == x && Visible(rows[0].public, rows[0].creatorId, viewer);
        } else {
          var i :| 0 <= i < |rows[1..]| && rows[1..][i].id == x && Visible(rows[1..][i].public, rows[1..][i].creatorId, viewer);
          assert rows[i + 1] == rows[1..][i];
        }
      }
      forall x | exists i :: 0 <= i < |rows| && rows[i].id == x && Visible(rows[i].public, rows[i].creatorId, viewer)
        ensures x in FilterByLore(rows, viewer)
      {
        var i :| 0 <= i < |rows| && rows[i].id == x && Visible(rows[i].public, rows[i].creatorId, viewer);
        if i > 0 {
          assert rows[1..][i - 1] == rows[i];
          assert x in rest;
        }
      }
    }
  }

  /** An anonymous viewer is shown the public characters only. */
  lemma FilterByLoreAnonymous(rows: seq<LoreCharacter>)
    ensures forall x :: x in FilterByLore(rows, None) <==>
              exists i :: 0 <= i < |rows| && rows[i].id == x && rows[i].public
  {
    FilterByLoreMembers(rows, None);
  }

  /** The result keeps the rows' order: ascending ids stay ascending. */
  lemma {:induction false} FilterByLoreAscending(rows: seq<LoreCharacter>, viewer: Option<UserId>)
    requires Ascending(Ids(rows))
    ensures Ascending(FilterByLore(rows, viewer))
  {
    if rows != [] {
      var rest := FilterByLore(rows[1..], viewer);
      assert Ascending(Ids(rows[1..])) by {
        forall i, j | 0 <= i < j < |rows[1..]| ensures Ids(rows[1..])[i] < Ids(rows[1..])[j] {
          assert Ids(rows)[i + 1] < Ids(rows)[j + 1];
        }
      }
      FilterByLoreAscending(rows[1..], viewer);
      if Visible(rows[0].public, rows[0].creatorId, viewer) {
        FilterByLoreMembers(rows[1..], viewer);
        var r := FilterByLore(rows, viewer);
        assert r == [rows[0].id] + rest;
        forall i, j | 0 <= i < j < |r| ensures r[i] < r[j] {
          if i == 0 {
            assert r[j] in rest;
            var k :| 0 <= k < |rows[1..]| && rows[1..][k].id == r[j] && Visible(rows[1..][k].public, rows[1..][k].creatorId, viewer);
            assert Ids(rows)[0] < Ids(rows)[k + 1];
          } else {
            assert r[i] == rest[i - 1] && r[j] == rest[j - 1];
          }
        }
      }
    }
  }
}

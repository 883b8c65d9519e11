/** Energy on the API server: the balance formula of api/src/logic/energy.ts
    and the two claims of api/src/server/trpc/commands/me/energy/
    (claimDiscord.ts, claimWeb3.ts).

    The Discord guild lookup, the configured amounts and rates, and the
    receiver events read from the chain are parameters. */
module Energy {
  import opened Common
  import opened ApiStore

  const DiscordReason: string := "discordGuildMembership"
  const WeiPerEther: nat := 1_000_000_000_000_000_000

  const NoDiscordIdentity: Error := Error(PreconditionFailed, "You are not logged in with Discord.")
  const AlreadyGranted: Error := Error(PreconditionFailed, "You already have a grant for this reason.")

  datatype Grant = Grant(userId: UserId, reason: string, amount: int)

  /** A claimed on-chain purchase; `(txHash, logIndex)` identifies the
      event. */
  datatype Purchase = Purchase(userId: UserId, blockNumber: int, logIndex: int, txHash: string,
                               value: nat, amount: int)

  /** A story of the user, with the `energyUsage` of each of its contents. */
  datatype StoryUsage = StoryUsage(userId: UserId, usages: seq<Option<int>>)

  /** The Redis keys caching a user's balance parts. */
  datatype CacheKey = GrantsKey(user: UserId) | Web3PurchasesKey(user: UserId)

  // getBalance

  function GrantAmounts(user: UserId, grants: seq<Grant>): seq<int> {
    if grants == [] then []
    else (if grants[0].userId == user then [grants[0].amount] else []) + GrantAmounts(user, grants[1..])
  }

  function PurchaseAmounts(user: UserId, purchases: seq<Purchase>): seq<int> {
    if purchases == [] then []
    else (if purchases[0].userId == user then [purchases[0].amount] else []) + PurchaseAmounts(user, purchases[1..])
  }

  /** `content.energyUsage || 0` */
  function Usage(u: Option<int>): int {
    if u.Some? then u.value else 0
  }

  function StoryEnergy(usages: seq<Option<int>>): int {
    if usages == [] then 0 else Usage(usages[0]) + StoryEnergy(usages[1..])
  }

  function ContentEnergy(user: UserId, stories: seq<StoryUsage>): int {
    if stories == [] then 0
    else (if stories[0].userId == user then StoryEnergy(stories[0].usages) else 0) + ContentEnergy(user, stories[1..])
  }

  /** `getBalance`: purchases, minus the energy the user's stories used,
      plus grants. */
  function Balance(user: UserId, purchases: seq<Purchase>, stories: seq<StoryUsage>, grants: seq<Grant>): int {
    Sum(PurchaseAmounts(user, purchases)) - ContentEnergy(user, stories) + Sum(GrantAmounts(user, grants))
  }

  lemma {:induction false} GrantAmountsAppend(user: UserId, grants: seq<Grant>, g: Grant)
    ensures GrantAmounts(user, grants + [g]) == GrantAmounts(user, grants) + (if g.userId == user then [g.amount] else [])
  {
    if grants != [] {
      assert (grants + [g])[1..] == grants[1..] + [g];
      GrantAmountsAppend(user, grants[1..], g);
    } else {
      assert grants + [g] == [g];
    }
  }

  /** One more grant of `a` to the user raises the balance by exactly `a`;
      a grant to anyone else leaves it alone. */
  lemma BalanceAfterGrant(user: UserId, purchases: seq<Purchase>, stories: seq<StoryUsage>, grants: seq<Grant>, g: Grant)
    ensures g.userId == user ==>
              Balance(user, purchases, stories, grants + [g]) == Balance(user, purchases, stories, grants) + g.amount
    ensures g.userId != user ==>
              Balance(user, purchases, stories, grants + [g]) == Balance(user, purchases, stories, grants)
  {
    GrantAmountsAppend(user, grants, g);
    SumAppend(GrantAmounts(user, grants), if g.userId == user then [g.amount] else []);
  }

  lemma {:induction false} StoryEnergyAppend(usages: seq<Option<int>>, u: Option<int>)
    ensures StoryEnergy(usages + [u]) == StoryEnergy(usages) + Usage(u)
  {
    if usages != [] {
      assert (usages + [u])[1..] == usages[1..] + [u];
      StoryEnergyAppend(usages[1..], u);
    } else {
      assert usages + [u] == [u];
    }
  }

  lemma {:induction false} ContentEnergyUpdate(user: UserId, stories: seq<StoryUsage>, i: nat, s: StoryUsage)
    requires i < |stories| && stories[i].userId == s.userId
    ensures ContentEnergy(user, stories[i := s])
            == ContentEnergy(user, stories) - (if s.userId == user then StoryEnergy(stories[i].usages) - StoryEnergy(s.usages) else 0)
  {
    if i > 0 {
      assert stories[i := s][1..] == stories[1..][i - 1 := s];
      ContentEnergyUpdate(user, stories[1..], i - 1, s);
    } else {
      assert stories[i := s][1..] == stories[1..];
    }
  }

  /** One more content of the user's, in any of the user's stories, lowers
      the balance by its usage (a null usage counts as 0); the content of
      another user's story does not count. */
  lemma BalanceAfterContent(user: UserId, purchases: seq<Purchase>, stories: seq<StoryUsage>, grants: seq<Grant>,
                            i: nat, u: Option<int>)
    requires i < |stories|
    ensures var after := stories[i := stories[i].(usages := stories[i].usages + [u])];
            Balance(user, purchases, after, grants)
            == Balance(user, purchases, stories, grants) - (if stories[i].userId == user then Usage(u) else 0)
  {
    StoryEnergyAppend(stories[i].usages, u);
    ContentEnergyUpdate(user, stories, i, stories[i].(usages := stories[i].usages + [u]));
  }

  /** A user with no records has a zero balance, whatever others hold. */
  lemma BalanceOfNobody(user: UserId, purchases: seq<Purchase>, stories: seq<StoryUsage>, grants: seq<Grant>)
    requires forall p :: p in purchases ==> p.userId != user
    requires forall s :: s in stories ==> s.userId != user
    requires forall g :: g in grants ==> g.userId != user
    ensures Balance(user, purchases, stories, grants) == 0
  {
    NoPurchases(user, purchases);
    NoContent(user, stories);
    NoGrants(user, grants);
  }

  lemma {:induction false} NoPurchases(user: UserId, purchases: seq<Purchase>)
    requires forall p :: p in purchases ==> p.userId != user
    ensures PurchaseAmounts(user, purchases) == []
  {
    if purchases != [] {
      assert purchases[0] in purchases;
      assert forall p :: p in purchases[1..] ==> p in purchases;
      NoPurchases(user, purchases[1..]);
    }
  }

  lemma {:induction false} NoContent(user: UserId, stories: seq<StoryUsage>)
    requires forall s :: s in stories ==> s.userId != user
    ensures ContentEnergy(user, stories) == 0
  {
    if stories != [] {
      assert stories[0] in stories;
      assert forall s :: s in stories[1..] ==> s in stories;
      NoContent(user, stories[1..]);
    }
  }

  lemma {:induction false} NoGrants(user: UserId, grants: seq<Grant>)
    requires forall g :: g in grants ==> g.userId != user
    ensures GrantAmounts(user, grants) == []
  {
    if grants != [] {
      assert grants[0] in grants;
      assert forall g :: g in grants[1..] ==> g in grants;
      NoGrants(user, grants[1..]);
    }
  }

  // Claims

  /** What the Discord guild-member lookup answers: the member, the
      `{user: null}` object it returns on a 404, or the error it throws on
      any other failure. */
  datatype GuildAnswer = Member(id: string) | NotInGuild | LookupFailed(error: Error)

  /** A receiver event read from the chain. */
  datatype ReceiverEvent = ReceiverEvent(blockNumber: int, logIndex: int, txHash: string, value: nat)

  /** `value.mul(rate).div(parseEther("1"))` on non-negative values. */
  function EnergyFor(value: nat, rate: nat): nat {
    value * rate / WeiPerEther
  }

  /** The energy bought is the value times the rate in whole ethers,
      rounded down. */
  lemma EnergyForRoundsDown(value: nat, rate: nat)
    ensures EnergyFor(value, rate) * WeiPerEther <= value * rate < (EnergyFor(value, rate) + 1) * WeiPerEther
  {
  }

  /** The loop body of `claimWeb3` over events in order: events under the
      minimum are skipped, the others become the user's purchase rows. */
  function Kept(user: UserId, events: seq<ReceiverEvent>, rate: nat, minValue: nat): seq<Purchase> {
    if events == [] then []
    else
      var e := events[|events| - 1];
      Kept(user, events[..|events| - 1], rate, minValue)
      + (if e.value < minValue then [] else [Purchase(user, e.blockNumber, e.logIndex, e.txHash, e.value, EnergyFor(e.value, rate))])
  }

  /** Every kept row is the user's, comes from an event at or above the
      minimum, and carries that event's energy; there are at most as many
      rows as events. */
  lemma {:induction false} KeptSpec(user: UserId, events: seq<ReceiverEvent>, rate: nat, minValue: nat)
    ensures |Kept(user, events, rate, minValue)| <= |events|
    ensures forall p :: p in Kept(user, events, rate, minValue) ==>
              && p.userId == user && p.value >= minValue && p.amount == EnergyFor(p.value, rate)
              && ReceiverEvent(p.blockNumber, p.logIndex, p.txHash, p.value) in events
    decreases |events|
  {
    if events != [] {
      var init := events[..|events| - 1];
      KeptSpec(user, init, rate, minValue);
      assert forall e :: e in init ==> e in events;
      assert events[|events| - 1] in events;
    }
  }

  function PurchaseKey(p: Purchase): (string, int) {
    (p.txHash, p.logIndex)
  }

  function KeySet(purchases: seq<Purchase>): set<(string, int)> {
    set p | p in purchases :: PurchaseKey(p)
  }

  /** The block of the user's latest claimed purchase. */
  function LatestClaimed(user: UserId, purchases: seq<Purchase>): (r: Option<int>)
    ensures r.None? <==> forall p :: p in purchases ==> p.userId != user
    ensures r.Some? ==> exists p :: p in purchases && p.userId == user && p.blockNumber == r.value
    ensures r.Some? ==> forall p :: p in purchases && p.userId == user ==> p.blockNumber <= r.value
  {
    if purchases == [] then None
    else
      var rest := LatestClaimed(user, purchases[1..]);
      assert forall p :: p in purchases <==> p == purchases[0] || p in purchases[1..];
      var p := purchases[0];
      if p.userId != user then rest
      else if rest.Some? && rest.value >= p.blockNumber then rest
      else Some(p.blockNumber)
  }

  /** `latestClaimedBlock ? latestClaimedBlock - 1 : undefined`: the events
      are asked for from one block before the latest claimed one, or with
      no start when there is none (or it is block 0). */
  function StartBlock(latest: Option<int>): (r: Option<int>)
    ensures r.Some? <==> latest.Some? && latest.value != 0
    ensures r.Some? ==> r.value == latest.value - 1
  {
    if latest.Some? && latest.value != 0 then Some(latest.value - 1) else None
  }

  /** How many blocks back `getReceiverEvents` reads when it is given no
      start (the provider's range limit). */
  const DefaultWindow: int := 9000

  /** `if (!fromBlock) fromBlock = getBlockNumber() - 9000`: the block the
      log query starts at, given the chain head. */
  function QueryFrom(fromBlock: Option<int>, head: int): int {
    if fromBlock.None? || fromBlock.value == 0 then head - DefaultWindow else fromBlock.value
  }

  /** The claim reads the last 9000 blocks exactly when no block was
      claimed yet or the latest claimed one is block 0 or 1 (both falsy
      tests together), and otherwise from one block before the latest
      claimed one. */
  lemma ClaimWindow(latest: Option<int>, head: int)
    requires latest.Some? ==> latest.value >= 0
    ensures var from := QueryFrom(StartBlock(latest), head);
            && (latest.None? || latest.value <= 1 ==> from == head - DefaultWindow)
            && (latest.Some? && latest.value > 1 ==> from == latest.value - 1)
  {
  }

  class Ledger {
    var grants: seq<Grant>
    var purchases: seq<Purchase>
    /** Cache keys deleted, in order. */
    var invalidated: seq<CacheKey>

    constructor (grants: seq<Grant>, purchases: seq<Purchase>)
      ensures this.grants == grants && this.purchases == purchases && invalidated == []
    {
      this.grants := grants;
      this.purchases := purchases;
      invalidated := [];
    }

    predicate HasDiscordGrant(user: UserId)
      reads this
    {
      exists g :: g in grants && g.userId == user && g.reason == DiscordReason
    }

    /** No user holds two Discord grants. */
    predicate OneDiscordGrantEach()
      reads this
    {
      forall i, j :: 0 <= i < j < |grants| && grants[i].reason == DiscordReason && grants[j].reason == DiscordReason
                     ==> grants[i].userId != grants[j].userId
    }

    /** `claimDiscord`. The guard on the guild answer tests it for
        falsiness, and every answer the lookup returns is an object, so a
        user outside the guild still passes: its "not a member" error is
        never raised. */
    method ClaimDiscord(user: UserId, hasIdentity: bool, answer: GuildAnswer, amount: int) returns (r: Result<int>)
      modifies this
      ensures !hasIdentity ==> r == Err(NoDiscordIdentity) && unchanged(this)
      ensures hasIdentity && answer.LookupFailed? ==> r == Err(answer.error) && unchanged(this)
      ensures hasIdentity && !answer.LookupFailed? && old(HasDiscordGrant(user)) ==>
                r == Err(AlreadyGranted) && unchanged(this)
      ensures hasIdentity && !answer.LookupFailed? && !old(HasDiscordGrant(user)) ==>
                && r == Ok(amount)
                && grants == old(grants) + [Grant(user, DiscordReason, amount)]
                && invalidated == old(invalidated) + [GrantsKey(user)]
                && purchases == old(purchases)
      ensures old(OneDiscordGrantEach()) ==> OneDiscordGrantEach()
      ensures HasDiscordGrant(user) <==> old(HasDiscordGrant(user)) || r.Ok?
    {
      if !hasIdentity {
        return Err(NoDiscordIdentity);
      }
      if answer.LookupFailed? {
        return Err(answer.error);
      }
      // The falsy test on the answer never fires: every answer is an object.
      if HasDiscordGrant(user) {
        return Err(AlreadyGranted);
      }
      ghost var before := grants;
      ghost var wasOne := OneDiscordGrantEach();
      assert forall g :: g in before && g.userId == user ==> g.reason != DiscordReason;
      grants := grants + [Grant(user, DiscordReason, amount)];
      invalidated := invalidated + [GrantsKey(user)];
      r := Ok(amount);
      assert grants[|before|] in grants;
      if wasOne {
        forall i, j | 0 <= i < j < |grants| && grants[i].reason == DiscordReason && grants[j].reason == DiscordReason
          ensures grants[i].userId != grants[j].userId
        {
          if j == |before| {
            assert grants[i] == before[i];
            assert before[i] in before;
          } else {
            assert grants[i] == before[i] && grants[j] == before[j];
          }
        }
      }
      assert forall g :: g in before ==> g in grants;
    }

    /** `claimWeb3`: verify the web3 token (`tokenValid` is whether
        `Web3Token.verify` accepts it), read the events from the start
        block, keep those at or above the minimum, and insert them skipping
        the ones already claimed; the result is the number of rows
        inserted. */
    method ClaimWeb3(user: UserId, tokenValid: bool, receiverEvents: Option<int> -> seq<ReceiverEvent>,
                     rate: nat, minValue: nat)
      returns (r: Result<nat>)
      modifies this
      ensures !tokenValid ==> r == Err(InvalidWeb3Token) && unchanged(this)
      ensures tokenValid ==> r.Ok?
      ensures var data := Kept(user, receiverEvents(StartBlock(LatestClaimed(user, old(purchases)))), rate, minValue);
              tokenValid ==>
              && (data == [] ==> r.value == 0 && unchanged(this))
              && (data != [] ==>
                    && purchases == old(purchases) + Fresh(KeySet(old(purchases)), data, PurchaseKey)
                    && r.value == |purchases| - |old(purchases)| <= |data|
                    && invalidated == old(invalidated) + [Web3PurchasesKey(user)]
                    && grants == old(grants))
      ensures forall p :: p in purchases && p !in old(purchases) ==> p.userId == user && p.value >= minValue
    {
      if !tokenValid {
        return Err(InvalidWeb3Token);
      }
      var events := receiverEvents(StartBlock(LatestClaimed(user, purchases)));
      var data: seq<Purchase> := [];
      var i := 0;
      while i < |events|
        invariant 0 <= i <= |events|
        invariant data == Kept(user, events[..i], rate, minValue)
      {
        var e := events[i];
        assert events[..i + 1][..i] == events[..i];
        if e.value >= minValue {
          data := data + [Purchase(user, e.blockNumber, e.logIndex, e.txHash, e.value, EnergyFor(e.value, rate))];
        }
        i := i + 1;
      }
      assert events[..i] == events;
      if |data| == 0 {
        return Ok(0);
      }
      invalidated := invalidated + [Web3PurchasesKey(user)];
      var inserted := Fresh(KeySet(purchases), data, PurchaseKey);
      FreshNew(KeySet(purchases), data, PurchaseKey);
      KeptSpec(user, events, rate, minValue);
      purchases := purchases + inserted;
      r := Ok(|inserted|);
    }
  }

  /** Claims never stack: every claim keeps at most one Discord grant per
      user, and a second claim after a successful one is refused. */
  method ClaimTwice(ledger: Ledger, user: UserId, answer: GuildAnswer, amount: int)
    returns (first: Result<int>, second: Result<int>)
    requires !answer.LookupFailed? && ledger.OneDiscordGrantEach()
    modifies ledger
    ensures second == Err(AlreadyGranted)
    ensures ledger.OneDiscordGrantEach() && ledger.HasDiscordGrant(user)
  {
    first := ledger.ClaimDiscord(user, true, answer, amount);
    second := ledger.ClaimDiscord(user, true, answer, amount);
  }
}

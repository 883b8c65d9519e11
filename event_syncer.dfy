/** The energy purchase syncer of back/src/eventSyncer.ts: the conversion
    of a `Receive` log of the receiver contract into a purchase row, and
    the loop that pages through the historical logs from the latest
    stored block.

    The log query is the parameter `query` (the logs from a block up to
    the chain head, a page of at most 100), the user upsert by address is
    `userOf`. */
module EventSyncer {
  import opened Common
  import Energy

  /** Energy per ether. */
  const ExchangeRate: nat := 25
  /** `parseEther("0.05")` */
  const MinAmount: nat := 50_000_000_000_000_000

  datatype Log = Log(blockNumber: int, timestamp: int, logIndex: int, txHash: string, data: nat,
                     topics: seq<string>)

  datatype OnChainPurchase = OnChainPurchase(blockNumber: int, logIndex: int, txHash: string, blockTime: int,
                                             userId: int, energy: nat, value: nat)

  /** JavaScript `s.slice(k)` for `k >= 0`. */
  function SliceFrom(s: string, k: nat): string {
    if k <= |s| then s[k..] else ""
  }

  /** `"0x" + topics[1].slice(26)`: the last 40 hex digits of a 32-byte
      topic, which under the Solidity contract ABI specification holds an
      indexed address left-padded with zeros. */
  function EvmAddress(topic: string): string {
    "0x" + SliceFrom(topic, 26)
  }

  /** An indexed address, as the event's topic carries it. */
  function PaddedTopic(address: string): string {
    "0x" + seq(24, _ => '0') + address
  }

  /** Reading the padded topic gives back the address. */
  lemma EvmAddressOfTopic(address: string)
    ensures EvmAddress(PaddedTopic(address)) == "0x" + address
  {
    assert PaddedTopic(address)[26..] == address;
  }

  /** `logToOnChainEnergyPurchaseObject`: null below the minimum amount; a
      missing address topic throws. */
  function Convert(log: Log, userOf: string -> int): (r: Result<Option<OnChainPurchase>>)
    ensures r == Ok(None) <==> log.data < MinAmount
    ensures r.Err? <==> log.data >= MinAmount && |log.topics| < 2
    ensures r.Ok? && r.value.Some? ==>
              && r.value.value.value == log.data >= MinAmount
              && r.value.value.energy == Energy.EnergyFor(log.data, ExchangeRate)
              && r.value.value.blockNumber == log.blockNumber && r.value.value.logIndex == log.logIndex
              && r.value.value.userId == userOf(EvmAddress(log.topics[1]))
  {
    if log.data < MinAmount then Ok(None)
    else if |log.topics| < 2 then Err(TypeError)
    else
      Ok(Some(OnChainPurchase(log.blockNumber, log.logIndex, log.txHash, log.timestamp * 1000,
                              userOf(EvmAddress(log.topics[1])), Energy.EnergyFor(log.data, ExchangeRate), log.data)))
  }

  /** `Promise.all(logs.map(convert))` and the filter dropping nulls: the
      first failure rejects the whole page. */
  function ConvertAll(logs: seq<Log>, userOf: string -> int): Result<seq<OnChainPurchase>> {
    if logs == [] then Ok([])
    else
      var first := Convert(logs[0], userOf);
      var rest := ConvertAll(logs[1..], userOf);
      if first.Err? then Err(first.error)
      else if rest.Err? then rest
      else Ok((if first.value.Some? then [first.value.value] else []) + rest.value)
  }

  predicate Valid(p: OnChainPurchase) {
    p.value >= MinAmount && p.energy == Energy.EnergyFor(p.value, ExchangeRate)
  }

  /** Every converted row passes the threshold and carries its energy, one
      row at most per log. */
  lemma {:induction false} ConvertAllSpec(logs: seq<Log>, userOf: string -> int)
    ensures ConvertAll(logs, userOf).Ok? ==>
              |ConvertAll(logs, userOf).value| <= |logs|
              && forall p :: p in ConvertAll(logs, userOf).value ==> Valid(p)
    ensures (forall i :: 0 <= i < |logs| ==> logs[i].data < MinAmount) ==> ConvertAll(logs, userOf) == Ok([])
  {
    if logs != [] {
      ConvertAllSpec(logs[1..], userOf);
      if forall i :: 0 <= i < |logs| ==> logs[i].data < MinAmount {
        assert forall i :: 0 <= i < |logs[1..]| ==> logs[1..][i].data < MinAmount by {
          forall i | 0 <= i < |logs[1..]| ensures logs[1..][i].data < MinAmount {
            assert logs[1..][i] == logs[i + 1];
          }
        }
      }
    }
  }

  function Key(p: OnChainPurchase): (string, int) {
    (p.txHash, p.logIndex)
  }

  /** `createMany({data: rows, skipDuplicates: true})` on the purchase
      table, whose unique key is the transaction and log index: `Fresh`
      with that key written in. */
  function FreshRows(existing: set<(string, int)>, rows: seq<OnChainPurchase>): seq<OnChainPurchase>
    decreases |rows|
  {
    if rows == [] then []
    else if Key(rows[0]) in existing then FreshRows(existing, rows[1..])
    else [rows[0]] + FreshRows(existing + {Key(rows[0])}, rows[1..])
  }

  lemma {:induction false} FreshRowsIsFresh(existing: set<(string, int)>, rows: seq<OnChainPurchase>)
    ensures FreshRows(existing, rows) == Fresh(existing, rows, Key)
    decreases |rows|
  {
    if rows != [] {
      if Key(rows[0]) in existing {
        FreshRowsIsFresh(existing, rows[1..]);
      } else {
        FreshRowsIsFresh(existing + {Key(rows[0])}, rows[1..]);
      }
    }
  }

  /** The keys of the stored rows, gathered row by row. */
  function KeySet(rows: seq<OnChainPurchase>): set<(string, int)> {
    if rows == [] then {} else {Key(rows[0])} + KeySet(rows[1..])
  }

  /** A row's key is among the keys of the rows holding it. */
  lemma {:induction false} KeySetHas(rows: seq<OnChainPurchase>)
    ensures forall i :: 0 <= i < |rows| ==> Key(rows[i]) in KeySet(rows)
  {
    if rows != [] {
      KeySetHas(rows[1..]);
      assert forall i :: 1 <= i < |rows| ==> rows[i] == rows[1..][i - 1];
    }
  }

  /** `logs.filter((l) => l.block.number == block).map((l) => l.logIndex)` */
  function IndicesAt(logs: seq<Log>, block: int): seq<int> {
    if logs == [] then []
    else (if logs[0].blockNumber == block then [logs[0].logIndex] else []) + IndicesAt(logs[1..], block)
  }

  lemma {:induction false} IndicesAtSpec(logs: seq<Log>, block: int)
    ensures forall x :: x in IndicesAt(logs, block) <==>
              exists i :: 0 <= i < |logs| && logs[i].blockNumber == block && logs[i].logIndex == x
  {
    if logs != [] {
      IndicesAtSpec(logs[1..], block);
      assert forall i :: 1 <= i < |logs| ==> logs[1..][i - 1] == logs[i];
      forall x | exists i :: 0 <= i < |logs| && logs[i].blockNumber == block && logs[i].logIndex == x
        ensures x in IndicesAt(logs, block)
      {
        var i :| 0 <= i < |logs| && logs[i].blockNumber == block && logs[i].logIndex == x;
        if i > 0 { assert logs[1..][i - 1] == logs[i]; }
      }
    }
  }

  /** No log of the page is new: each is at `fromBlock` with an index
      already seen (the negation of the `find`). */
  predicate AllSeen(logs: seq<Log>, fromBlock: int, seen: seq<int>) {
    forall i :: 0 <= i < |logs| ==> logs[i].blockNumber == fromBlock && logs[i].logIndex in seen
  }

  /** Why the loop may end normally: it reached the chain head, or the
      page from its block is empty or holds nothing new. */
  predicate Stopped(s: SyncState, latestChain: int, query: int -> seq<Log>) {
    s.fromBlock >= latestChain || query(s.fromBlock) == [] || AllSeen(query(s.fromBlock), s.fromBlock, s.seen)
  }

  datatype SyncState = SyncState(fromBlock: int, seen: seq<int>, latestSaved: int, saved: seq<OnChainPurchase>)

  datatype Outcome = Finished | Crashed(error: Error) | OutOfFuel

  /** One page past the stop checks: save the converted rows, move to the
      last log's block and remember the indices of the logs at it. */
  function NextPage(s: SyncState, logs: seq<Log>, userOf: string -> int): Result<SyncState>
    requires logs != []
  {
    var events := ConvertAll(logs, userOf);
    if events.Err? then Err(events.error)
    else
      var last := logs[|logs| - 1].blockNumber;
      var saved := if events.value == [] then s.saved else s.saved + FreshRows(KeySet(s.saved), events.value);
      var latest := if events.value == [] then s.latestSaved else events.value[|events.value| - 1].blockNumber;
      Ok(SyncState(last, IndicesAt(logs, last), latest, saved))
  }

  /** After a page the loop resumes at the last log's block, remembers
      exactly the indices of the page's logs in that block, and moves the
      latest saved block to the last converted row's block when there is
      one. */
  lemma NextPageSpec(s: SyncState, logs: seq<Log>, userOf: string -> int)
    requires logs != [] && NextPage(s, logs, userOf).Ok?
    ensures var t := NextPage(s, logs, userOf).value;
            && t.fromBlock == logs[|logs| - 1].blockNumber
            && (forall x :: x in t.seen <==>
                  exists i :: 0 <= i < |logs| && logs[i].blockNumber == t.fromBlock && logs[i].logIndex == x)
            && logs[|logs| - 1].logIndex in t.seen
            && var events := ConvertAll(logs, userOf).value;
               (events == [] ==> t.latestSaved == s.latestSaved && t.saved == s.saved)
               && (events != [] ==> t.latestSaved == events[|events| - 1].blockNumber)
  {
    var t := NextPage(s, logs, userOf).value;
    IndicesAtSpec(logs, t.fromBlock);
    assert logs[|logs| - 1].blockNumber == t.fromBlock;
  }

  /** The historical loop, with at most `fuel` pages: stop at the chain
      head, or when out of pages; otherwise take the page from the
      current block. */
  function Sync(fuel: nat, s: SyncState, latestChain: int, query: int -> seq<Log>, userOf: string -> int): (SyncState, Outcome)
    decreases fuel, 1
  {
    if s.fromBlock >= latestChain then (s, Finished)
    else if fuel == 0 then (s, OutOfFuel)
    else SyncPage(fuel, s, query(s.fromBlock), latestChain, query, userOf)
  }

  /** One turn of the loop on the page `logs`: stop when it is empty or
      holds nothing new, crash when a conversion fails, and otherwise save
      it and go on with one page less. */
  function SyncPage(fuel: nat, s: SyncState, logs: seq<Log>, latestChain: int, query: int -> seq<Log>,
                    userOf: string -> int): (SyncState, Outcome)
    requires fuel > 0
    decreases fuel, 0
  {
    if logs == [] || AllSeen(logs, s.fromBlock, s.seen) then (s, Finished)
    else
      var next := NextPage(s, logs, userOf);
      if next.Err? then (s, Crashed(next.error))
      else Sync(fuel - 1, next.value, latestChain, query, userOf)
  }

  /** The loop ends normally only when it has reached the chain head, or
      met an empty page or one with nothing new. */
  lemma {:induction false} SyncFinished(fuel: nat, s: SyncState, latestChain: int, query: int -> seq<Log>,
                                        userOf: string -> int, r: (SyncState, Outcome))
    requires r == Sync(fuel, s, latestChain, query, userOf)
    ensures r.1 == Finished ==> Stopped(r.0, latestChain, query)
    decreases fuel
  {
    if s.fromBlock < latestChain && fuel > 0 {
      var logs := query(s.fromBlock);
      assert r == SyncPage(fuel, s, logs, latestChain, query, userOf);
      if logs != [] && !AllSeen(logs, s.fromBlock, s.seen) {
        var next := NextPage(s, logs, userOf);
        if next.Ok? {
          SyncFinished(fuel - 1, next.value, latestChain, query, userOf, r);
        }
      }
    }
  }

  /** The rows the loop saves keep the stored ones, and no two rows share
      a transaction and log index. */
  lemma {:induction false} SyncSaves(fuel: nat, s: SyncState, latestChain: int, query: int -> seq<Log>,
                                     userOf: string -> int, r: (SyncState, Outcome))
    requires r == Sync(fuel, s, latestChain, query, userOf)
    requires GoodRows(s.saved)
    ensures GoodRows(r.0.saved) && Extends(s.saved, r.0.saved)
    decreases fuel
  {
    if s.fromBlock < latestChain && fuel > 0 {
      var logs := query(s.fromBlock);
      assert r == SyncPage(fuel, s, logs, latestChain, query, userOf);
      if logs != [] && !AllSeen(logs, s.fromBlock, s.seen) {
        var next := NextPage(s, logs, userOf);
        if next.Ok? {
          NextPageSaves(s, logs, userOf);
          SyncSaves(fuel - 1, next.value, latestChain, query, userOf, r);
          ExtendsTrans(s.saved, next.value.saved, r.0.saved);
          return;
        }
      }
    }
    assert r.0 == s;
    assert s.saved[..|s.saved|] == s.saved;
  }

  /** Every stored row is a valid purchase and no two share a key. */
  predicate GoodRows(rows: seq<OnChainPurchase>) {
    (forall p :: p in rows ==> Valid(p)) && UniqueKeys(rows)
  }

  /** No two rows share a transaction and log index. */
  predicate UniqueKeys(rows: seq<OnChainPurchase>) {
    forall i, j :: 0 <= i < j < |rows| ==> Key(rows[i]) != Key(rows[j])
  }

  lemma UniqueKeysOf(rows: seq<OnChainPurchase>)
    ensures UniqueKeys(rows) <==> NoDuplicates(Keys(rows, Key))
  {
    KeysIndex(rows, Key);
  }

  /** `rows` keeps `before` as its prefix. */
  predicate Extends(before: seq<OnChainPurchase>, rows: seq<OnChainPurchase>) {
    |rows| >= |before| && rows[..|before|] == before
  }

  lemma ExtendsTrans(a: seq<OnChainPurchase>, b: seq<OnChainPurchase>, c: seq<OnChainPurchase>)
    requires Extends(a, b) && Extends(b, c)
    ensures Extends(a, c)
  {
    assert c[..|a|] == c[..|b|][..|a|];
  }

  lemma NextPageSaves(s: SyncState, logs: seq<Log>, userOf: string -> int)
    requires logs != [] && NextPage(s, logs, userOf).Ok?
    requires GoodRows(s.saved)
    ensures GoodRows(NextPage(s, logs, userOf).value.saved)
    ensures Extends(s.saved, NextPage(s, logs, userOf).value.saved)
  {
    var events := ConvertAll(logs, userOf).value;
    ConvertAllSpec(logs, userOf);
    UniqueKeysOf(s.saved);
    UniqueKeysOf(NextPage(s, logs, userOf).value.saved);
    if events != [] {
      var added := FreshRows(KeySet(s.saved), events);
      FreshRowsIsFresh(KeySet(s.saved), events);
      FreshNew(KeySet(s.saved), events, Key);
      KeysAppend(s.saved, added);
      assert (s.saved + added)[..|s.saved|] == s.saved;
      KeysIndex(s.saved, Key);
      KeysIndex(added, Key);
      assert forall i :: 0 <= i < |added| ==> Keys(added, Key)[i] !in KeySet(s.saved) by {
        forall i | 0 <= i < |added| ensures Keys(added, Key)[i] !in KeySet(s.saved) {
          assert added[i] in added;
        }
      }
      KeySetHas(s.saved);
      DisjointUnique(Keys(s.saved, Key), Keys(added, Key), KeySet(s.saved));
    }
  }

  lemma KeysAppend(a: seq<OnChainPurchase>, b: seq<OnChainPurchase>)
    ensures Keys(a + b, Key) == Keys(a, Key) + Keys(b, Key)
  {
    KeysIndex(a + b, Key);
    KeysIndex(a, Key);
    KeysIndex(b, Key);
  }

  lemma DisjointUnique<K>(xs: seq<K>, ys: seq<K>, s: set<K>)
    requires NoDuplicates(xs) && NoDuplicates(ys)
    requires forall i :: 0 <= i < |xs| ==> xs[i] in s
    requires forall i :: 0 <= i < |ys| ==> ys[i] !in s
    ensures NoDuplicates(xs + ys)
  {
    var zs := xs + ys;
    forall i, j | 0 <= i < j < |zs| ensures zs[i] != zs[j] {
      if j < |xs| { assert zs[i] == xs[i] && zs[j] == xs[j]; }
      else if i >= |xs| { assert zs[i] == ys[i - |xs|] && zs[j] == ys[j - |xs|]; }
      else { assert zs[i] == xs[i] && zs[j] == ys[j - |xs|]; }
    }
  }

  /** When a block holds more logs than a page, the next query returns the
      same logs of that block again, and the loop stops there. */
  lemma RepeatedPageStops(s: SyncState, logs: seq<Log>, userOf: string -> int, again: seq<Log>)
    requires logs != [] && NextPage(s, logs, userOf).Ok?
    requires var t := NextPage(s, logs, userOf).value;
             forall i :: 0 <= i < |again| ==> again[i].blockNumber == t.fromBlock && again[i] in logs
    ensures var t := NextPage(s, logs, userOf).value;
            AllSeen(again, t.fromBlock, t.seen)
  {
    var t := NextPage(s, logs, userOf).value;
    IndicesAtSpec(logs, t.fromBlock);
    forall i | 0 <= i < |again| ensures again[i].logIndex in t.seen {
      var k :| 0 <= k < |logs| && logs[k] == again[i];
    }
  }

  /** The latest stored block, or 0 when nothing is stored (the first
      row by descending block number). */
  function LatestBlock(rows: seq<OnChainPurchase>): (r: int)
    ensures rows == [] ==> r == 0
    ensures forall i :: 0 <= i < |rows| ==> rows[i].blockNumber <= r
    ensures rows != [] ==> exists i :: 0 <= i < |rows| && rows[i].blockNumber == r
  {
    if rows == [] then 0
    else if |rows| == 1 then rows[0].blockNumber
    else
      var rest := LatestBlock(rows[1..]);
      assert forall i :: 1 <= i < |rows| ==> rows[i] == rows[1..][i - 1];
      if rows[0].blockNumber >= rest then rows[0].blockNumber
      else
        var k :| 0 <= k < |rows[1..]| && rows[1..][k].blockNumber == rest;
        assert rows[k + 1].blockNumber == rest;
        rest
  }

  class Syncer {
    var fromBlock: int
    var seen: seq<int>
    var latestSaved: int
    var saved: seq<OnChainPurchase>

    function State(): SyncState
      reads this
    {
      SyncState(fromBlock, seen, latestSaved, saved)
    }

    /** Start at the latest stored purchase's block (0 when none), with no
        index seen yet. */
    constructor (stored: seq<OnChainPurchase>)
      ensures fromBlock == latestSaved == LatestBlock(stored) && seen == [] && saved == stored
    {
      var latest := LatestBlock(stored);
      fromBlock := latest;
      latestSaved := latest;
      seen := [];
      saved := stored;
    }

    /** The realtime subscription's handler: save the converted log,
        skipping a duplicate. */
    method OnLog(log: Log, userOf: string -> int) returns (r: Result<()>)
      modifies this
      ensures var c := Convert(log, userOf);
              && (c.Err? ==> r == Err(c.error) && unchanged(this))
              && (c == Ok(None) ==> r == Ok(()) && unchanged(this))
              && (c.Ok? && c.value.Some? ==>
                    r == Ok(()) && saved == old(saved) + FreshRows(KeySet(old(saved)), [c.value.value])
                    && fromBlock == old(fromBlock) && seen == old(seen) && latestSaved == old(latestSaved))
    {
      var c := Convert(log, userOf);
      if c.Err? {
        return Err(c.error);
      }
      if c.value.Some? {
        saved := saved + FreshRows(KeySet(saved), [c.value.value]);
      }
      r := Ok(());
    }

    /** One iteration past the stop checks. */
    method Page(logs: seq<Log>, userOf: string -> int) returns (r: Result<()>)
      requires logs != []
      modifies this
      ensures var n := NextPage(old(State()), logs, userOf);
              && (n.Err? ==> r == Err(n.error) && unchanged(this))
              && (n.Ok? ==> r == Ok(()) && State() == n.value)
    {
      var events := ConvertAll(logs, userOf);
      if events.Err? {
        return Err(events.error);
      }
      if |events.value| > 0 {
        saved := saved + FreshRows(KeySet(saved), events.value);
        latestSaved := events.value[|events.value| - 1].blockNumber;
      }
      fromBlock := logs[|logs| - 1].blockNumber;
      seen := IndicesAt(logs, fromBlock);
      r := Ok(());
    }

    /** One turn of the historical loop: `going` when it went on to the
        next page. */
    method Step(latestChain: int, query: int -> seq<Log>, userOf: string -> int, n: nat)
      returns (going: bool, outcome: Outcome)
      modifies this
      ensures going ==> n > 0 && Sync(n, old(State()), latestChain, query, userOf)
                                 == Sync(n - 1, State(), latestChain, query, userOf)
      ensures !going ==> Sync(n, old(State()), latestChain, query, userOf) == (State(), outcome)
    {
      going := false;
      outcome := Finished;
      if fromBlock >= latestChain {
        return;
      }
      if n == 0 {
        outcome := OutOfFuel;
        return;
      }
      var logs := query(fromBlock);
      if |logs| == 0 || AllSeen(logs, fromBlock, seen) {
        return;
      }
      var r := Page(logs, userOf);
      if r.Err? {
        outcome := Crashed(r.error);
      } else {
        going := true;
      }
    }

    /** The historical loop, for at most `fuel` pages. */
    method SyncHistory(latestChain: int, query: int -> seq<Log>, userOf: string -> int, fuel: nat)
      returns (outcome: Outcome)
      modifies this
      ensures (State(), outcome) == Sync(fuel, old(State()), latestChain, query, userOf)
    {
      ghost var goal := Sync(fuel, State(), latestChain, query, userOf);
      var n := fuel;
      while true
        invariant goal == Sync(n, State(), latestChain, query, userOf)
        decreases n
      {
        var going;
        going, outcome := Step(latestChain, query, userOf, n);
        if !going {
          return;
        }
        n := n - 1;
      }
    }
  }
}

/** The `story.onStatus` subscription of
    api/src/server/trpc/subscriptions/story/onStatus.ts: it decodes the
    messages `story.advance` publishes on a story's reason and busy
    channels, and first emits a snapshot of the busy key and the stored
    reason. */
module OnStatus {
  import opened Common
  import opened ApiStore
  import opened AdvanceCommand

  /** What one emission carries: `{reason}`, `{busy}`, or both for the
      initial snapshot. */
  datatype Status =
    | ReasonUpdate(reason: Option<string>)
    | BusyUpdate(busy: bool)
    | Current(busy: bool, reason: Option<string>)

  predicate IsDigit(c: char, hex: bool) {
    ('0' <= c <= '9') || (hex && (('a' <= c <= 'f') || ('A' <= c <= 'F')))
  }

  /** Whether the run of digits that starts `s` holds a nonzero digit. */
  function NonZeroRun(s: string, hex: bool): bool {
    if s == [] || !IsDigit(s[0], hex) then false
    else s[0] != '0' || NonZeroRun(s[1..], hex)
  }

  lemma {:induction false} NonZeroRunSpec(s: string, hex: bool)
    ensures NonZeroRun(s, hex) <==>
            exists i :: 0 <= i < |s| && s[i] != '0' && forall j :: 0 <= j <= i ==> IsDigit(s[j], hex)
  {
    if s == [] || !IsDigit(s[0], hex) {
    } else if s[0] != '0' {
      assert forall j :: 0 <= j <= 0 ==> IsDigit(s[j], hex);
    } else {
      NonZeroRunSpec(s[1..], hex);
      if NonZeroRun(s, hex) {
        var i :| 0 <= i < |s[1..]| && s[1..][i] != '0' && forall j :: 0 <= j <= i ==> IsDigit(s[1..][j], hex);
        assert forall j :: 0 <= j <= i + 1 ==> IsDigit(s[j], hex) by {
          forall j | 0 <= j <= i + 1 ensures IsDigit(s[j], hex) {
            if j > 0 { assert s[j] == s[1..][j - 1]; }
          }
        }
        assert s[i + 1] != '0';
      }
      if exists i :: 0 <= i < |s| && s[i] != '0' && forall j :: 0 <= j <= i ==> IsDigit(s[j], hex) {
        var i :| 0 <= i < |s| && s[i] != '0' && forall j :: 0 <= j <= i ==> IsDigit(s[j], hex);
        assert i > 0;
        assert forall j :: 0 <= j <= i - 1 ==> IsDigit(s[1..][j], hex) by {
          forall j | 0 <= j <= i - 1 ensures IsDigit(s[1..][j], hex) {
            assert s[1..][j] == s[j + 1];
          }
        }
        assert s[1..][i - 1] != '0';
      }
    }
  }

  /** The text `parseInt` reads digits from after the white space and the
      sign, and whether it reads them as hexadecimal (a `0x`/`0X` prefix). */
  function Unsigned(s: string): string {
    var t := DropSpaces(s);
    if t != [] && (t[0] == '+' || t[0] == '-') then t[1..] else t
  }

  predicate HexPrefixed(u: string) {
    |u| >= 2 && u[0] == '0' && (u[1] == 'x' || u[1] == 'X')
  }

  /** `!!parseInt(s)`: NaN (no digits) and zero are false; any nonzero
      digit in the leading run makes the number nonzero. */
  function ParseIntTruthy(s: string): bool {
    var u := Unsigned(s);
    if HexPrefixed(u) then NonZeroRun(u[2..], true) else NonZeroRun(u, false)
  }

  /** A single decimal digit parses to itself: truthy unless it is 0. */
  lemma ParseIntDigit(c: char)
    requires '0' <= c <= '9'
    ensures ParseIntTruthy([c]) <==> c != '0'
  {
    assert !IsSpace(c);
    assert DropSpaces([c]) == [c];
    assert Unsigned([c]) == [c];
    assert !HexPrefixed([c]);
    assert [c][1..] == [];
    assert !NonZeroRun([], false);
  }

  /** White space and a sign are skipped, and the digits stop at the first
      other character. */
  lemma ParseIntSignedPrefix()
    ensures ParseIntTruthy(" -12px")
  {
    assert DropSpaces(" -12px") == "-12px" by {
      assert IsSpace(' ') && !IsSpace('-');
      assert " -12px"[1..] == "-12px";
    }
    assert Unsigned(" -12px") == "12px";
    assert !HexPrefixed("12px");
  }

  /** A `0x` prefix reads hexadecimal digits; with none after it the result
      is NaN. */
  lemma ParseIntHex()
    ensures ParseIntTruthy("0x1f") && !ParseIntTruthy("0x")
  {
    assert !IsSpace('0');
    assert Unsigned("0x1f") == "0x1f" && HexPrefixed("0x1f");
    assert "0x1f"[2..] == "1f";
    assert Unsigned("0x") == "0x" && HexPrefixed("0x");
    assert "0x"[2..] == "";
  }

  /** Only zeros before the first non-digit make zero. */
  lemma ParseIntZeros()
    ensures !ParseIntTruthy("00") && !ParseIntTruthy("0.5")
  {
    assert !IsSpace('0');
    assert Unsigned("00") == "00" && !HexPrefixed("00");
    assert "00"[1..] == "0";
    assert "0"[1..] == "";
    assert Unsigned("0.5") == "0.5" && !HexPrefixed("0.5");
    assert "0.5"[1..] == ".5";
  }

  /** Text that does not start with a digit is NaN. */
  lemma ParseIntNaN()
    ensures !ParseIntTruthy("abc")
  {
    assert !IsSpace('a');
    assert Unsigned("abc") == "abc" && !HexPrefixed("abc");
  }

  /** The message handler: the reason channel is compared first; a message
      on any other channel emits nothing. */
  function Decode(prefix: Option<string>, id: StoryId, channel: string, message: string): Option<Status> {
    if channel == ReasonCh(prefix, id) then Some(ReasonUpdate(if message == "" then None else Some(message)))
    else if channel == BusyCh(prefix, id) then Some(BusyUpdate(ParseIntTruthy(message)))
    else None
  }

  /** The busy flag published by `story.advance` decodes to itself. */
  lemma DecodeBusy(prefix: Option<string>, id: StoryId, busy: bool)
    ensures Decode(prefix, id, BusyCh(prefix, id), EncodeBusy(busy)) == Some(BusyUpdate(busy))
  {
    ChannelsDistinct(prefix, id, id);
    ParseIntDigit('1');
    ParseIntDigit('0');
  }

  /** A published reason decodes to itself when truthy, and to null when
      it was null or empty. */
  lemma DecodeReason(prefix: Option<string>, id: StoryId, reason: Option<string>)
    ensures Decode(prefix, id, ReasonCh(prefix, id), EncodeReason(reason))
            == Some(ReasonUpdate(if Truthy(reason) then reason else None))
  {}

  /** Messages about another story emit nothing. */
  lemma DecodeOtherStory(prefix: Option<string>, id: StoryId, other: StoryId, message: string)
    requires other != id
    ensures Decode(prefix, id, BusyCh(prefix, other), message) == None
    ensures Decode(prefix, id, ReasonCh(prefix, other), message) == None
  {
    ChannelsDistinct(prefix, other, id);
    ChannelsDistinct(prefix, id, other);
    if BusyCh(prefix, other) == BusyCh(prefix, id) { BusyChInjective(prefix, other, id); }
    if ReasonCh(prefix, other) == ReasonCh(prefix, id) { ReasonChInjective(prefix, other, id); }
  }

  /** What the handler emits for one message: the decoded status, if any. */
  function Emitted(prefix: Option<string>, id: StoryId, m: Published): seq<Status> {
    var d := Decode(prefix, id, m.channel, m.message);
    if d.Some? then [d.value] else []
  }

  function Emitter(prefix: Option<string>, id: StoryId): Published -> seq<Status> {
    m => Emitted(prefix, id, m)
  }

  /** The emissions for a run of messages, in order. */
  function DecodeAll(prefix: Option<string>, id: StoryId, ms: seq<Published>): seq<Status> {
    FlatMap(Emitter(prefix, id), ms)
  }

  lemma DecodeAllAppend(prefix: Option<string>, id: StoryId, xs: seq<Published>, ys: seq<Published>)
    ensures DecodeAll(prefix, id, xs + ys) == DecodeAll(prefix, id, xs) + DecodeAll(prefix, id, ys)
  {
    FlatMapAppend(Emitter(prefix, id), xs, ys);
  }

  lemma DecodeAllOne(prefix: Option<string>, id: StoryId, m: Published)
    ensures DecodeAll(prefix, id, [m]) == Emitted(prefix, id, m)
  {
    var e := Emitter(prefix, id);
    assert [m][1..] == [];
    assert FlatMap(e, [m]) == e(m) + FlatMap(e, []);
    assert e(m) == Emitted(prefix, id, m);
  }

  lemma DecodeAllBusy(prefix: Option<string>, id: StoryId, busy: bool)
    ensures DecodeAll(prefix, id, [Published(BusyCh(prefix, id), EncodeBusy(busy))]) == [BusyUpdate(busy)]
  {
    DecodeAllOne(prefix, id, Published(BusyCh(prefix, id), EncodeBusy(busy)));
    DecodeBusy(prefix, id, busy);
  }

  lemma DecodeAllReason(prefix: Option<string>, id: StoryId, reason: Option<string>)
    ensures DecodeAll(prefix, id, [Published(ReasonCh(prefix, id), EncodeReason(reason))])
            == [ReasonUpdate(if Truthy(reason) then reason else None)]
  {
    DecodeAllOne(prefix, id, Published(ReasonCh(prefix, id), EncodeReason(reason)));
    DecodeReason(prefix, id, reason);
  }

  lemma DecodeAllFour(prefix: Option<string>, id: StoryId, w: seq<Published>, x: seq<Published>,
                      y: seq<Published>, z: seq<Published>)
    ensures DecodeAll(prefix, id, w + (x + y) + z)
            == DecodeAll(prefix, id, w) + DecodeAll(prefix, id, x) + DecodeAll(prefix, id, y) + DecodeAll(prefix, id, z)
  {
    DecodeAllAppend(prefix, id, w + (x + y), z);
    DecodeAllAppend(prefix, id, w, x + y);
    DecodeAllAppend(prefix, id, x, y);
  }

  /** The cleared reason, published once the key is known. */
  lemma DecodeCleared(prefix: Option<string>, id: StoryId, apiKey: Option<string>)
    ensures DecodeAll(prefix, id, if Truthy(apiKey) then [Published(ReasonCh(prefix, id), EncodeReason(None))] else [])
            == if Truthy(apiKey) then [ReasonUpdate(None)] else []
  {
    if Truthy(apiKey) {
      DecodeAllReason(prefix, id, None);
    }
  }

  /** The error's message, published on failure. */
  lemma DecodeFailure(prefix: Option<string>, id: StoryId, r: Result<int>)
    ensures DecodeAll(prefix, id, if r.Err? then [Published(ReasonCh(prefix, id), EncodeReason(Some(r.error.message)))] else [])
            == if r.Err? then [ReasonUpdate(if r.error.message == "" then None else Some(r.error.message))] else []
  {
    if r.Err? {
      DecodeAllReason(prefix, id, Some(r.error.message));
    }
  }

  /** A subscriber to the story sees what one `story.advance` call that took
      the lock published as: busy, the cleared reason once the key is
      known, the error's message on failure, then not busy. */
  lemma {:induction false} DecodeAnnounced(prefix: Option<string>, id: StoryId, apiKey: Option<string>, r: Result<int>)
    ensures DecodeAll(prefix, id, Announced(prefix, id, apiKey, r))
            == [BusyUpdate(true)]
               + (if Truthy(apiKey) then [ReasonUpdate(None)] else [])
               + (if r.Err? then [ReasonUpdate(if r.error.message == "" then None else Some(r.error.message))] else [])
               + [BusyUpdate(false)]
  {
    var k := if Truthy(apiKey) then [Published(ReasonCh(prefix, id), EncodeReason(None))] else [];
    var e := if r.Err? then [Published(ReasonCh(prefix, id), EncodeReason(Some(r.error.message)))] else [];
    DecodeAllFour(prefix, id, [Published(BusyCh(prefix, id), EncodeBusy(true))], k, e,
                  [Published(BusyCh(prefix, id), EncodeBusy(false))]);
    DecodeAllBusy(prefix, id, true);
    DecodeAllBusy(prefix, id, false);
    DecodeCleared(prefix, id, apiKey);
    DecodeFailure(prefix, id, r);
  }

  /** The first emission: `story.reason` as loaded and `!!parseInt(res || "")`
      of the busy key; an unknown story is NOT_FOUND. */
  function Snapshot(stories: map<StoryId, StoryRow>, keys: map<string, Stored>,
                    prefix: Option<string>, id: StoryId): (r: Result<Status>)
    ensures r.Err? <==> id !in stories
    ensures r.Err? ==> r.error == StoryNotFound
  {
    if id !in stories then Err(StoryNotFound)
    else
      var res := if BusyCh(prefix, id) in keys then keys[BusyCh(prefix, id)].value else "";
      Ok(Current(ParseIntTruthy(res), stories[id].reason))
  }

  /** After a `story.advance` call that took the lock, a new subscriber sees
      the story not busy and its reason as the call left it. */
  lemma SnapshotAfterAdvance(stories: map<StoryId, StoryRow>, keys: map<string, Stored>,
                             prefix: Option<string>, id: StoryId, row: StoryRow, r: Result<int>)
    requires id in stories && stories[id] == row.(reason := ReasonAfter(r))
    requires BusyCh(prefix, id) in keys && keys[BusyCh(prefix, id)] == BusyValue(false, None)
    ensures Snapshot(stories, keys, prefix, id) == Ok(Current(false, ReasonAfter(r)))
  {
    ParseIntDigit('0');
  }

  /** While the heartbeat holds the key at "1", a new subscriber sees the
      story busy. */
  lemma SnapshotWhileBusy(stories: map<StoryId, StoryRow>, keys: map<string, Stored>,
                          prefix: Option<string>, id: StoryId)
    requires id in stories
    requires BusyCh(prefix, id) in keys && keys[BusyCh(prefix, id)] == BusyValue(true, Some(1))
    ensures Snapshot(stories, keys, prefix, id) == Ok(Current(true, stories[id].reason))
  {
    ParseIntDigit('1');
  }
}

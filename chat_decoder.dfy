/** The byte protocol a chat session's language-model process writes on its
    standard output, as read by `sendMessage` in
    back/src/trpc/routers/chat/session/sendMessage.ts and, in an older form,
    in back/src/trpc/routers/chat.ts.

    Bytes arrive in three stages. In the prediction stage 0x02 opens the
    token stream, 0x1f ends a token, 0x03 ends the stream and 0x1d moves to
    the summary; in the summary stage 0x1e moves to the buffer; in the
    buffer stage 0x04 ends the processing. Every other byte is appended to
    the current string as the character with that code, one character per
    byte. */
module ChatDecoder {
  import opened Common

  newtype byte = x: int | 0 <= x < 256

  const StreamStart: byte := 0x02
  const TokenEnd: byte := 0x1f
  const StreamEnd: byte := 0x03
  const SummaryStart: byte := 0x1d
  const BufferStart: byte := 0x1e
  const ProcessingEnd: byte := 0x04

  /** `String.fromCharCode(byte)` */
  function Char(b: byte): char {
    (b as int) as char
  }

  function Chars(bs: seq<byte>): (s: string)
    ensures |s| == |bs|
    ensures forall i :: 0 <= i < |bs| ==> s[i] == Char(bs[i])
  {
    seq(|bs|, i requires 0 <= i < |bs| => Char(bs[i]))
  }

  lemma CharsAppend(xs: seq<byte>, ys: seq<byte>)
    ensures Chars(xs + ys) == Chars(xs) + Chars(ys)
  {
    assert forall i :: 0 <= i < |xs + ys| ==> Chars(xs + ys)[i] == (Chars(xs) + Chars(ys))[i];
  }

  /** Which of the two handlers reads the bytes: the session one emits a
      text-complete update at 0x03 and a finalized update at 0x04; the
      older chat one only resolves its `done` at 0x04. */
  datatype Variant = SessionHandler | ChatHandler

  datatype Stage = Prediction | ConversationSummary | ConversationBuffer

  function Rank(s: Stage): nat {
    match s
    case Prediction => 0
    case ConversationSummary => 1
    case ConversationBuffer => 2
  }

  /** The updates the handler emits about the character message. */
  datatype Update = Token(token: string) | TextComplete | Finalized

  /** The handler's variables, and whether `textDone` / `processingDone`
      (the older handler's `done`) have been resolved. */
  datatype State = State(stage: Stage, token: string, text: string, summary: string, buffer: string,
                         updates: seq<Update>, textDone: bool, processingDone: bool)

  const Initial: State := State(Prediction, "", "", "", "", [], false, false)

  /** One byte, as the `switch` of the data handler treats it. */
  function Step(v: Variant, s: State, b: byte): State {
    match s.stage
    case Prediction =>
      if b == StreamStart then s
      else if b == TokenEnd then s.(updates := s.updates + [Token(s.token)], text := s.text + s.token, token := "")
      else if b == StreamEnd then
        (if v == SessionHandler then s.(updates := s.updates + [TextComplete], textDone := true) else s)
      else if b == SummaryStart then s.(stage := ConversationSummary)
      else s.(token := s.token + [Char(b)])
    case ConversationSummary =>
      if b == BufferStart then s.(stage := ConversationBuffer)
      else s.(summary := s.summary + [Char(b)])
    case ConversationBuffer =>
      if b == ProcessingEnd then
        (if v == SessionHandler then s.(updates := s.updates + [Finalized], processingDone := true)
         else s.(processingDone := true))
      else s.(buffer := s.buffer + [Char(b)])
  }

  /** The bytes in arrival order, across any number of chunks. */
  function Run(v: Variant, s: State, bs: seq<byte>): State
    decreases |bs|
  {
    if bs == [] then s else Step(v, Run(v, s, bs[..|bs| - 1]), bs[|bs| - 1])
  }

  /** Chunk boundaries do not matter. */
  lemma {:induction false} RunAppend(v: Variant, s: State, xs: seq<byte>, ys: seq<byte>)
    ensures Run(v, s, xs + ys) == Run(v, Run(v, s, xs), ys)
    decreases |ys|
  {
    if ys == [] {
      assert xs + ys == xs;
    } else {
      assert (xs + ys)[..|xs + ys| - 1] == xs + ys[..|ys| - 1];
      RunAppend(v, s, xs, ys[..|ys| - 1]);
    }
  }

  /** The stage only moves forward. */
  lemma {:induction false} StageForward(v: Variant, s: State, bs: seq<byte>)
    ensures Rank(Run(v, s, bs).stage) >= Rank(s.stage)
    decreases |bs|
  {
    if bs != [] {
      StageForward(v, s, bs[..|bs| - 1]);
    }
  }

  function Tokens(us: seq<Update>): seq<string> {
    if us == [] then []
    else (if us[0].Token? then [us[0].token] else []) + Tokens(us[1..])
  }

  function Join(ts: seq<string>): string {
    if ts == [] then "" else ts[0] + Join(ts[1..])
  }

  lemma {:induction false} TokensAppend(xs: seq<Update>, ys: seq<Update>)
    ensures Tokens(xs + ys) == Tokens(xs) + Tokens(ys)
  {
    if xs == [] {
      assert xs + ys == ys;
    } else {
      assert (xs + ys)[1..] == xs[1..] + ys;
      TokensAppend(xs[1..], ys);
    }
  }

  lemma {:induction false} JoinAppend(xs: seq<string>, ys: seq<string>)
    ensures Join(xs + ys) == Join(xs) + Join(ys)
  {
    if xs == [] {
      assert xs + ys == ys;
    } else {
      assert (xs + ys)[1..] == xs[1..] + ys;
      JoinAppend(xs[1..], ys);
    }
  }

  lemma TokensOne(u: Update)
    ensures Tokens([u]) == if u.Token? then [u.token] else []
  {
    assert [u][1..] == [];
  }

  lemma JoinOne(t: string)
    ensures Join([t]) == t
  {
    assert [t][1..] == [];
  }

  /** `text` is the emitted tokens, concatenated in order. */
  predicate TextIsTokens(s: State) {
    s.text == Join(Tokens(s.updates))
  }

  /** Appending one update to a state whose text is its tokens. */
  lemma AppendUpdate(us: seq<Update>, u: Update)
    ensures Join(Tokens(us + [u])) == Join(Tokens(us)) + (if u.Token? then u.token else "")
  {
    TokensAppend(us, [u]);
    TokensOne(u);
    if u.Token? {
      JoinAppend(Tokens(us), [u.token]);
      JoinOne(u.token);
    } else {
      assert Tokens(us) + [] == Tokens(us);
    }
  }

  lemma StepKeepsText(v: Variant, s: State, b: byte)
    requires TextIsTokens(s)
    ensures TextIsTokens(Step(v, s, b))
  {
    if s.stage == Prediction && b == TokenEnd {
      AppendUpdate(s.updates, Token(s.token));
    } else if s.stage == Prediction && b == StreamEnd && v == SessionHandler {
      AppendUpdate(s.updates, TextComplete);
    } else if s.stage == ConversationBuffer && b == ProcessingEnd && v == SessionHandler {
      AppendUpdate(s.updates, Finalized);
    }
  }

  lemma {:induction false} RunKeepsText(v: Variant, s: State, bs: seq<byte>)
    requires TextIsTokens(s)
    ensures TextIsTokens(Run(v, s, bs))
    decreases |bs|
  {
    if bs != [] {
      RunKeepsText(v, s, bs[..|bs| - 1]);
      StepKeepsText(v, Run(v, s, bs[..|bs| - 1]), bs[|bs| - 1]);
    }
  }

  /** One byte in the buffer stage. */
  lemma BufferStep(v: Variant, s: State, b: byte)
    requires s.stage == ConversationBuffer
    ensures var t := Step(v, s, b);
            && t.stage == ConversationBuffer
            && t.buffer == s.buffer + Chars(Without([b], ProcessingEnd))
            && t.token == s.token && t.text == s.text && t.summary == s.summary && t.textDone == s.textDone
            && (t.processingDone <==> s.processingDone || b == ProcessingEnd)
  {
    assert [b][1..] == [];
    assert Without([b], ProcessingEnd) == if b == ProcessingEnd then [] else [b];
  }

  /** Once in the buffer stage, the stage stays there: every byte other
      than 0x04 is appended to the buffer, 0x04 only signals the end again,
      and nothing else changes. */
  lemma {:induction false} BufferStageSticks(v: Variant, s: State, bs: seq<byte>)
    requires s.stage == ConversationBuffer
    ensures var t := Run(v, s, bs);
            && t.stage == ConversationBuffer
            && t.buffer == s.buffer + Chars(Without(bs, ProcessingEnd))
            && t.token == s.token && t.text == s.text && t.summary == s.summary && t.textDone == s.textDone
            && (t.processingDone <==> s.processingDone || ProcessingEnd in bs)
    decreases |bs|
  {
    if bs != [] {
      var init := bs[..|bs| - 1];
      var b := bs[|bs| - 1];
      var m := Run(v, s, init);
      BufferStageSticks(v, s, init);
      BufferStep(v, m, b);
      assert bs == init + [b];
      WithoutAppend(init, [b], ProcessingEnd);
      CharsAppend(Without(init, ProcessingEnd), Without([b], ProcessingEnd));
      assert ProcessingEnd in bs <==> ProcessingEnd in init || b == ProcessingEnd;
    }
  }

  /** `bs` with every occurrence of `x` removed. */
  function Without(bs: seq<byte>, x: byte): (r: seq<byte>)
    ensures x !in r && |r| <= |bs|
  {
    if bs == [] then [] else (if bs[0] == x then [] else [bs[0]]) + Without(bs[1..], x)
  }

  lemma {:induction false} WithoutAppend(xs: seq<byte>, ys: seq<byte>, x: byte)
    ensures Without(xs + ys, x) == Without(xs, x) + Without(ys, x)
  {
    if xs == [] {
      assert xs + ys == ys;
    } else {
      var head := if xs[0] == x then [] else [xs[0]];
      assert (xs + ys)[0] == xs[0] && (xs + ys)[1..] == xs[1..] + ys;
      assert Without(xs + ys, x) == head + Without(xs[1..] + ys, x);
      WithoutAppend(xs[1..], ys, x);
      assert Without(xs, x) == head + Without(xs[1..], x);
    }
  }

  lemma {:induction false} WithoutAbsent(bs: seq<byte>, x: byte)
    requires x !in bs
    ensures Without(bs, x) == bs
  {
    if bs != [] {
      WithoutAbsent(bs[1..], x);
    }
  }

  lemma RunOne(v: Variant, s: State, b: byte)
    ensures Run(v, s, [b]) == Step(v, s, b)
  {
    assert [b][..0] == [];
  }

  /** A byte the prediction stage appends to the pending token. */
  predicate TokenByte(b: byte) {
    b != StreamStart && b != TokenEnd && b != StreamEnd && b != SummaryStart
  }

  predicate TokenBytes(bs: seq<byte>) {
    forall i :: 0 <= i < |bs| ==> TokenByte(bs[i])
  }

  lemma {:induction false} PredictionPlain(v: Variant, s: State, bs: seq<byte>)
    requires s.stage == Prediction && TokenBytes(bs)
    ensures Run(v, s, bs) == s.(token := s.token + Chars(bs))
    decreases |bs|
  {
    if bs == [] {
      assert s.token + Chars(bs) == s.token;
    } else {
      var init := bs[..|bs| - 1];
      PredictionPlain(v, s, init);
      assert bs == init + [bs[|bs| - 1]];
      CharsAppend(init, [bs[|bs| - 1]]);
    }
  }

  lemma {:induction false} SummaryPlain(v: Variant, s: State, bs: seq<byte>)
    requires s.stage == ConversationSummary && BufferStart !in bs
    ensures Run(v, s, bs) == s.(summary := s.summary + Chars(bs))
    decreases |bs|
  {
    if bs == [] {
      assert s.summary + Chars(bs) == s.summary;
    } else {
      var init := bs[..|bs| - 1];
      SummaryPlain(v, s, init);
      assert bs == init + [bs[|bs| - 1]];
      CharsAppend(init, [bs[|bs| - 1]]);
    }
  }

  lemma {:induction false} BufferPlain(v: Variant, s: State, bs: seq<byte>)
    requires s.stage == ConversationBuffer && ProcessingEnd !in bs
    ensures Run(v, s, bs) == s.(buffer := s.buffer + Chars(bs))
    decreases |bs|
  {
    if bs == [] {
      assert s.buffer + Chars(bs) == s.buffer;
    } else {
      var init := bs[..|bs| - 1];
      BufferPlain(v, s, init);
      assert bs == init + [bs[|bs| - 1]];
      CharsAppend(init, [bs[|bs| - 1]]);
    }
  }

  /** What the process writes for a reply made of the tokens `ts`, a
      summary and a buffer. */
  function EncodeTokens(ts: seq<seq<byte>>): seq<byte> {
    if ts == [] then [] else ts[0] + [TokenEnd] + EncodeTokens(ts[1..])
  }

  function Frame(ts: seq<seq<byte>>, summary: seq<byte>, buffer: seq<byte>): seq<byte> {
    [StreamStart] + EncodeTokens(ts) + [StreamEnd, SummaryStart] + summary + [BufferStart] + buffer + [ProcessingEnd]
  }

  function TokenTexts(ts: seq<seq<byte>>): seq<string> {
    if ts == [] then [] else [Chars(ts[0])] + TokenTexts(ts[1..])
  }

  function TokenUpdates(ts: seq<seq<byte>>): seq<Update> {
    if ts == [] then [] else [Token(Chars(ts[0]))] + TokenUpdates(ts[1..])
  }

  lemma {:induction false} TokenUpdatesTokens(ts: seq<seq<byte>>)
    ensures Tokens(TokenUpdates(ts)) == TokenTexts(ts)
  {
    if ts != [] {
      TokenUpdatesTokens(ts[1..]);
      TokensAppend([Token(Chars(ts[0]))], TokenUpdates(ts[1..]));
      TokensOne(Token(Chars(ts[0])));
    }
  }

  /** One token and the 0x1f that ends it. */
  lemma OneToken(v: Variant, s: State, t: seq<byte>)
    requires s.stage == Prediction && s.token == "" && TokenBytes(t)
    ensures Run(v, s, t + [TokenEnd]) == s.(updates := s.updates + [Token(Chars(t))], text := s.text + Chars(t))
  {
    PredictionPlain(v, s, t);
    assert s.token + Chars(t) == Chars(t);
    RunAppend(v, s, t, [TokenEnd]);
    RunOne(v, Run(v, s, t), TokenEnd);
  }

  lemma JoinCons(t: string, ts: seq<string>)
    ensures Join([t] + ts) == t + Join(ts)
  {
    assert ([t] + ts)[1..] == ts;
  }

  /** The step of `RunTokens`: the first token, then the rest. */
  lemma RunTokensCons(v: Variant, s: State, ts: seq<seq<byte>>)
    requires s.stage == Prediction && s.token == "" && ts != [] && TokenBytes(ts[0])
    requires var b := s.(updates := s.updates + [Token(Chars(ts[0]))], text := s.text + Chars(ts[0]));
             Run(v, b, EncodeTokens(ts[1..]))
             == b.(text := b.text + Join(TokenTexts(ts[1..])), updates := b.updates + TokenUpdates(ts[1..]))
    ensures Run(v, s, EncodeTokens(ts))
            == s.(text := s.text + Join(TokenTexts(ts)), updates := s.updates + TokenUpdates(ts))
  {
    FirstToken(v, s, ts);
    ConsState(s, ts);
  }

  /** The state after the first token, then the rest, is the state after
      all the tokens. */
  lemma ConsState(s: State, ts: seq<seq<byte>>)
    requires ts != []
    ensures var b := s.(updates := s.updates + [Token(Chars(ts[0]))], text := s.text + Chars(ts[0]));
            b.(text := b.text + Join(TokenTexts(ts[1..])), updates := b.updates + TokenUpdates(ts[1..]))
            == s.(text := s.text + Join(TokenTexts(ts)), updates := s.updates + TokenUpdates(ts))
  {
    JoinCons(Chars(ts[0]), TokenTexts(ts[1..]));
    assert TokenUpdates(ts) == [Token(Chars(ts[0]))] + TokenUpdates(ts[1..]);
  }

  /** Reading the first encoded token leaves the rest to read. */
  lemma FirstToken(v: Variant, s: State, ts: seq<seq<byte>>)
    requires s.stage == Prediction && s.token == "" && ts != [] && TokenBytes(ts[0])
    ensures Run(v, s, EncodeTokens(ts))
            == Run(v, s.(updates := s.updates + [Token(Chars(ts[0]))], text := s.text + Chars(ts[0])),
                   EncodeTokens(ts[1..]))
  {
    var t := ts[0];
    OneToken(v, s, t);
    assert EncodeTokens(ts) == (t + [TokenEnd]) + EncodeTokens(ts[1..]);
    RunAppend(v, s, t + [TokenEnd], EncodeTokens(ts[1..]));
  }

  /** The tokens, each ended by 0x1f, are emitted in order and make up the
      text. */
  lemma {:induction false} RunTokens(v: Variant, s: State, ts: seq<seq<byte>>)
    requires s.stage == Prediction && s.token == ""
    requires forall i :: 0 <= i < |ts| ==> TokenBytes(ts[i])
    ensures Run(v, s, EncodeTokens(ts))
            == s.(text := s.text + Join(TokenTexts(ts)), updates := s.updates + TokenUpdates(ts))
    decreases |ts|
  {
    if ts == [] {
      assert s.text + Join([]) == s.text && s.updates + [] == s.updates;
    } else {
      RunTokens(v, s.(updates := s.updates + [Token(Chars(ts[0]))], text := s.text + Chars(ts[0])), ts[1..]);
      RunTokensCons(v, s, ts);
    }
  }

  lemma RunFramePrefix(v: Variant, ts: seq<seq<byte>>)
    requires forall i :: 0 <= i < |ts| ==> TokenBytes(ts[i])
    ensures Run(v, Initial, [StreamStart] + EncodeTokens(ts) + [StreamEnd, SummaryStart])
            == State(ConversationSummary, "", Join(TokenTexts(ts)), "", "",
                     TokenUpdates(ts) + (if v == SessionHandler then [TextComplete] else []), v == SessionHandler, false)
  {
    var a := Run(v, Initial, [StreamStart] + EncodeTokens(ts));
    RunOpening(v, ts);
    RunAppend(v, Initial, [StreamStart] + EncodeTokens(ts), [StreamEnd, SummaryStart]);
    StreamClose(v, a);
  }

  /** 0x02 and the encoded tokens: the text so far, nothing signalled. */
  lemma RunOpening(v: Variant, ts: seq<seq<byte>>)
    requires forall i :: 0 <= i < |ts| ==> TokenBytes(ts[i])
    ensures Run(v, Initial, [StreamStart] + EncodeTokens(ts))
            == Initial.(text := Join(TokenTexts(ts)), updates := TokenUpdates(ts))
  {
    RunOne(v, Initial, StreamStart);
    RunTokens(v, Initial, ts);
    RunAppend(v, Initial, [StreamStart], EncodeTokens(ts));
  }

  /** 0x03 then 0x1d close the token stream and move to the summary. */
  lemma StreamClose(v: Variant, a: State)
    requires a.stage == Prediction
    ensures Run(v, a, [StreamEnd, SummaryStart])
            == a.(stage := ConversationSummary,
                  updates := a.updates + (if v == SessionHandler then [TextComplete] else []),
                  textDone := a.textDone || v == SessionHandler)
  {
    RunAppend(v, a, [StreamEnd], [SummaryStart]);
    RunOne(v, a, StreamEnd);
    RunOne(v, Step(v, a, StreamEnd), SummaryStart);
    assert [StreamEnd] + [SummaryStart] == [StreamEnd, SummaryStart];
  }

  /** Through the summary to the start of the buffer. */
  lemma RunToBuffer(v: Variant, ts: seq<seq<byte>>, summary: seq<byte>)
    requires forall i :: 0 <= i < |ts| ==> TokenBytes(ts[i])
    requires BufferStart !in summary
    ensures Run(v, Initial, [StreamStart] + EncodeTokens(ts) + [StreamEnd, SummaryStart] + summary + [BufferStart])
            == State(ConversationBuffer, "", Join(TokenTexts(ts)), Chars(summary), "",
                     TokenUpdates(ts) + (if v == SessionHandler then [TextComplete] else []), v == SessionHandler, false)
  {
    var p := [StreamStart] + EncodeTokens(ts) + [StreamEnd, SummaryStart];
    RunFramePrefix(v, ts);
    var a := Run(v, Initial, p);
    SummaryPlain(v, a, summary);
    RunOne(v, Run(v, a, summary), BufferStart);
    RunAppend(v, Initial, p, summary);
    RunAppend(v, Initial, p + summary, [BufferStart]);
    assert "" + Chars(summary) == Chars(summary);
  }

  /** Through the buffer to the 0x04 that ends the processing. */
  lemma RunBuffer(v: Variant, c: State, buffer: seq<byte>)
    requires c.stage == ConversationBuffer && c.buffer == "" && ProcessingEnd !in buffer
    ensures Run(v, c, buffer + [ProcessingEnd])
            == c.(buffer := Chars(buffer), processingDone := true,
                  updates := c.updates + if v == SessionHandler then [Finalized] else [])
  {
    BufferPlain(v, c, buffer);
    assert "" + Chars(buffer) == Chars(buffer);
    RunAppend(v, c, buffer, [ProcessingEnd]);
    RunOne(v, c.(buffer := Chars(buffer)), ProcessingEnd);
    assert c.updates + [] == c.updates;
  }

  /** Round trip: the handler reads back exactly what the process wrote,
      with the reply's tokens emitted one by one, the text their
      concatenation, and (for the session handler) text-complete and
      finalized signalled once each. */
  lemma DecodeFrame(v: Variant, ts: seq<seq<byte>>, summary: seq<byte>, buffer: seq<byte>)
    requires forall i :: 0 <= i < |ts| ==> TokenBytes(ts[i])
    requires BufferStart !in summary && ProcessingEnd !in buffer
    ensures Run(v, Initial, Frame(ts, summary, buffer))
            == State(ConversationBuffer, "", Join(TokenTexts(ts)), Chars(summary), Chars(buffer),
                     TokenUpdates(ts) + (if v == SessionHandler then [TextComplete, Finalized] else []),
                     v == SessionHandler, true)
  {
    var q := [StreamStart] + EncodeTokens(ts) + [StreamEnd, SummaryStart] + summary + [BufferStart];
    RunToBuffer(v, ts, summary);
    RunBuffer(v, Run(v, Initial, q), buffer);
    assert Frame(ts, summary, buffer) == q + (buffer + [ProcessingEnd]);
    RunAppend(v, Initial, q, buffer + [ProcessingEnd]);
    assert TokenUpdates(ts) + (if v == SessionHandler then [TextComplete] else []) + (if v == SessionHandler then [Finalized] else [])
           == TokenUpdates(ts) + (if v == SessionHandler then [TextComplete, Finalized] else []);
  }

  // Chunks

  /** The bytes of the `data` chunks, in arrival order. */
  function Concat(chunks: seq<seq<byte>>): seq<byte>
    decreases |chunks|
  {
    if chunks == [] then [] else Concat(chunks[..|chunks| - 1]) + chunks[|chunks| - 1]
  }

  lemma ConcatStep(chunks: seq<seq<byte>>, n: nat)
    requires n < |chunks|
    ensures Concat(chunks[..n + 1]) == Concat(chunks[..n]) + chunks[n]
  {
    assert chunks[..n + 1][..n] == chunks[..n];
  }

  /** The chunks read so far are a prefix of the whole output. */
  lemma {:induction false} ConcatPrefix(chunks: seq<seq<byte>>, n: nat)
    requires n <= |chunks|
    ensures Concat(chunks[..n]) <= Concat(chunks)
    decreases |chunks|
  {
    if n == |chunks| {
      assert chunks[..n] == chunks;
    } else {
      var init := chunks[..|chunks| - 1];
      assert chunks[..n] == init[..n];
      ConcatPrefix(init, n);
      var c := Concat(init);
      assert (c + chunks[|chunks| - 1])[..|c|] == c;
    }
  }

  /** The two promises the handlers resolve: text-complete at 0x03 (the
      session handler only) and processing-done at 0x04. */
  datatype Signal = TextSignal | ProcessingSignal

  predicate Raised(s: State, sig: Signal) {
    match sig
    case TextSignal => s.textDone
    case ProcessingSignal => s.processingDone
  }

  /** A promise, once resolved, stays resolved. */
  lemma {:induction false} RaisedSticks(v: Variant, s: State, bs: seq<byte>, sig: Signal)
    ensures Raised(s, sig) ==> Raised(Run(v, s, bs), sig)
    decreases |bs|
  {
    if bs != [] {
      RaisedSticks(v, s, bs[..|bs| - 1], sig);
    }
  }

  /** The number of chunks read, counting from `n`, when the signal is
      first seen raised at the end of a chunk; none when it never is. Code
      awaiting the promise resumes there: after the whole chunk that
      resolved it, before the next one. */
  function FirstRaised(v: Variant, chunks: seq<seq<byte>>, sig: Signal, n: nat): (r: Option<nat>)
    requires n <= |chunks|
    ensures r.Some? ==> n <= r.value <= |chunks|
    decreases |chunks| - n
  {
    if Raised(Run(v, Initial, Concat(chunks[..n])), sig) then Some(n)
    else if n == |chunks| then None
    else FirstRaised(v, chunks, sig, n + 1)
  }

  lemma FirstRaisedUnfold(v: Variant, chunks: seq<seq<byte>>, sig: Signal, n: nat)
    requires n <= |chunks|
    ensures FirstRaised(v, chunks, sig, n)
            == if Raised(Run(v, Initial, Concat(chunks[..n])), sig) then Some(n)
               else if n == |chunks| then None
               else FirstRaised(v, chunks, sig, n + 1)
  {
  }

  /** Whether the signal is raised at the end of the first `k` chunks. */
  predicate RaisedAfter(v: Variant, chunks: seq<seq<byte>>, sig: Signal, k: nat)
    requires k <= |chunks|
  {
    Raised(Run(v, Initial, Concat(chunks[..k])), sig)
  }

  /** `FirstRaised` is the least chunk count at or after `n` whose end
      sees the signal raised. */
  lemma {:induction false} FirstRaisedSpec(v: Variant, chunks: seq<seq<byte>>, sig: Signal, n: nat)
    requires n <= |chunks|
    ensures var r := FirstRaised(v, chunks, sig, n);
            && (r.Some? ==> && RaisedAfter(v, chunks, sig, r.value)
                            && forall k :: n <= k < r.value ==> !RaisedAfter(v, chunks, sig, k))
            && (r.None? <==> forall k :: n <= k <= |chunks| ==> !RaisedAfter(v, chunks, sig, k))
    decreases |chunks| - n
  {
    var r := FirstRaised(v, chunks, sig, n);
    FirstRaisedUnfold(v, chunks, sig, n);
    if RaisedAfter(v, chunks, sig, n) {
      assert r == Some(n);
    } else if n == |chunks| {
      assert r == None;
    } else {
      FirstRaisedSpec(v, chunks, sig, n + 1);
      assert r == FirstRaised(v, chunks, sig, n + 1);
    }
  }

  /** Outside the prediction stage the text no longer changes. */
  lemma {:induction false} TextSettled(v: Variant, s: State, bs: seq<byte>)
    requires s.stage != Prediction
    ensures Run(v, s, bs).stage != Prediction && Run(v, s, bs).text == s.text
    decreases |bs|
  {
    if bs != [] {
      TextSettled(v, s, bs[..|bs| - 1]);
    }
  }

  /** Along a well-formed answer, the session handler sees the text
      complete only once 0x03 is read, and then with the whole text. */
  lemma FrameText(ts: seq<seq<byte>>, summary: seq<byte>, buffer: seq<byte>, p: seq<byte>)
    requires forall i :: 0 <= i < |ts| ==> TokenBytes(ts[i])
    requires p <= Frame(ts, summary, buffer)
    ensures Run(SessionHandler, Initial, p).textDone ==> Run(SessionHandler, Initial, p).text == Join(TokenTexts(ts))
  {
    var a := [StreamStart] + EncodeTokens(ts);
    var x := [StreamEnd, SummaryStart] + summary + [BufferStart] + buffer + [ProcessingEnd];
    assert Frame(ts, summary, buffer) == a + x;
    PrefixSplit(p, a, x);
    if |p| <= |a| {
      TextPending(ts, p);
    } else {
      var q := p[|a|..];
      if |q| == 1 {
        TextCompleted(ts, p);
      } else {
        assert q == [StreamEnd, SummaryStart] + q[2..];
        TextKept(ts, p);
      }
    }
  }

  /** A prefix of `a + x` is a prefix of `a`, or `a` followed by a prefix
      of `x`. */
  lemma PrefixSplit<T>(p: seq<T>, a: seq<T>, x: seq<T>)
    requires p <= a + x
    ensures |p| <= |a| ==> p <= a
    ensures |p| > |a| ==> p == a + p[|a|..] && p[|a|..] <= x
  {
    if |p| > |a| {
      assert p == (a + x)[..|p|];
      assert p[..|a|] == a;
    }
  }

  /** Before 0x03 the text is not complete. */
  lemma TextPending(ts: seq<seq<byte>>, p: seq<byte>)
    requires forall i :: 0 <= i < |ts| ==> TokenBytes(ts[i])
    requires p <= [StreamStart] + EncodeTokens(ts)
    ensures !Run(SessionHandler, Initial, p).textDone
  {
    var v := SessionHandler;
    var a := [StreamStart] + EncodeTokens(ts);
    RunOpening(v, ts);
    assert a == p + a[|p|..];
    RunAppend(v, Initial, p, a[|p|..]);
    RaisedSticks(v, Run(v, Initial, p), a[|p|..], TextSignal);
  }

  /** At 0x03 the text is complete and whole. */
  lemma TextCompleted(ts: seq<seq<byte>>, p: seq<byte>)
    requires forall i :: 0 <= i < |ts| ==> TokenBytes(ts[i])
    requires p == [StreamStart] + EncodeTokens(ts) + [StreamEnd]
    ensures Run(SessionHandler, Initial, p).text == Join(TokenTexts(ts))
  {
    var v := SessionHandler;
    var a := [StreamStart] + EncodeTokens(ts);
    RunOpening(v, ts);
    RunAppend(v, Initial, a, [StreamEnd]);
    RunOne(v, Run(v, Initial, a), StreamEnd);
  }

  /** After 0x03 and 0x1d the text stays whole. */
  lemma TextKept(ts: seq<seq<byte>>, p: seq<byte>)
    requires forall i :: 0 <= i < |ts| ==> TokenBytes(ts[i])
    requires var b := [StreamStart] + EncodeTokens(ts) + [StreamEnd, SummaryStart];
             |b| <= |p| && p == b + p[|b|..]
    ensures Run(SessionHandler, Initial, p).text == Join(TokenTexts(ts))
  {
    var v := SessionHandler;
    var b := [StreamStart] + EncodeTokens(ts) + [StreamEnd, SummaryStart];
    RunFramePrefix(v, ts);
    RunAppend(v, Initial, b, p[|b|..]);
    TextSettled(v, Run(v, Initial, b), p[|b|..]);
  }

  /** Along a well-formed answer, the processing is seen done only once
      the whole answer is read. */
  lemma FrameDone(v: Variant, ts: seq<seq<byte>>, summary: seq<byte>, buffer: seq<byte>, p: seq<byte>)
    requires forall i :: 0 <= i < |ts| ==> TokenBytes(ts[i])
    requires BufferStart !in summary && ProcessingEnd !in buffer
    requires p <= Frame(ts, summary, buffer)
    ensures Run(v, Initial, p).processingDone ==> p == Frame(ts, summary, buffer)
  {
    var q := [StreamStart] + EncodeTokens(ts) + [StreamEnd, SummaryStart] + summary + [BufferStart];
    var f := Frame(ts, summary, buffer);
    assert f == q + buffer + [ProcessingEnd];
    RunToBuffer(v, ts, summary);
    if |p| <= |q| {
      assert q == p + q[|p|..];
      RunAppend(v, Initial, p, q[|p|..]);
      RaisedSticks(v, Run(v, Initial, p), q[|p|..], ProcessingSignal);
    } else if |p| < |f| {
      var k := |p| - |q|;
      assert p == q + buffer[..k];
      assert ProcessingEnd !in buffer[..k] by {
        assert forall x :: x in buffer[..k] ==> x in buffer;
      }
      RunAppend(v, Initial, q, buffer[..k]);
      BufferPlain(v, Run(v, Initial, q), buffer[..k]);
    } else {
      assert p == f;
    }
  }

  /** However a well-formed answer is split into chunks, the handler first
      sees the processing done with the whole answer read. */
  lemma FrameChunksDone(v: Variant, ts: seq<seq<byte>>, summary: seq<byte>, buffer: seq<byte>,
                        chunks: seq<seq<byte>>, n: nat)
    requires forall i :: 0 <= i < |ts| ==> TokenBytes(ts[i])
    requires BufferStart !in summary && ProcessingEnd !in buffer
    requires Concat(chunks) == Frame(ts, summary, buffer) && n <= |chunks|
    ensures var f := FirstRaised(v, chunks, ProcessingSignal, n);
            f.Some? && Concat(chunks[..f.value]) == Concat(chunks)
  {
    assert chunks[..|chunks|] == chunks;
    DecodeFrame(v, ts, summary, buffer);
    assert RaisedAfter(v, chunks, ProcessingSignal, |chunks|);
    FirstRaisedSpec(v, chunks, ProcessingSignal, n);
    var f := FirstRaised(v, chunks, ProcessingSignal, n);
    assert RaisedAfter(v, chunks, ProcessingSignal, f.value);
    ConcatPrefix(chunks, f.value);
    FrameDone(v, ts, summary, buffer, Concat(chunks[..f.value]));
  }

  /** However a well-formed answer is split into chunks, the session
      handler first sees the text complete with the whole text. */
  lemma FrameChunksText(ts: seq<seq<byte>>, summary: seq<byte>, buffer: seq<byte>,
                        chunks: seq<seq<byte>>, n: nat)
    requires forall i :: 0 <= i < |ts| ==> TokenBytes(ts[i])
    requires BufferStart !in summary && ProcessingEnd !in buffer
    requires Concat(chunks) == Frame(ts, summary, buffer) && n <= |chunks|
    ensures var t := FirstRaised(SessionHandler, chunks, TextSignal, n);
            t.Some? && Run(SessionHandler, Initial, Concat(chunks[..t.value])).text == Join(TokenTexts(ts))
  {
    var v := SessionHandler;
    assert chunks[..|chunks|] == chunks;
    DecodeFrame(v, ts, summary, buffer);
    assert RaisedAfter(v, chunks, TextSignal, |chunks|);
    FirstRaisedSpec(v, chunks, TextSignal, n);
    var t := FirstRaised(v, chunks, TextSignal, n);
    assert RaisedAfter(v, chunks, TextSignal, t.value);
    ConcatPrefix(chunks, t.value);
    FrameText(ts, summary, buffer, Concat(chunks[..t.value]));
  }

  /** The data handler and the variables it closes over. */
  class Decoder {
    const variant: Variant
    var stage: Stage
    var token: string
    var text: string
    var summary: string
    var buffer: string
    var updates: seq<Update>
    var textDone: bool
    var processingDone: bool

    function Snap(): State
      reads this
    {
      State(stage, token, text, summary, buffer, updates, textDone, processingDone)
    }

    constructor (variant: Variant)
      ensures this.variant == variant && Snap() == Initial
    {
      this.variant := variant;
      stage := Prediction;
      token := "";
      text := "";
      summary := "";
      buffer := "";
      updates := [];
      textDone := false;
      processingDone := false;
    }

    /** The `switch` on one byte. */
    method Push(b: byte)
      modifies this
      ensures Snap() == Step(variant, old(Snap()), b)
    {
      match stage {
        case Prediction =>
          if b == StreamStart {
          } else if b == TokenEnd {
            updates := updates + [Token(token)];
            text := text + token;
            token := "";
          } else if b == StreamEnd {
            if variant == SessionHandler {
              updates := updates + [TextComplete];
              textDone := true;
            }
          } else if b == SummaryStart {
            stage := ConversationSummary;
          } else {
            token := token + [Char(b)];
          }
        case ConversationSummary =>
          if b == BufferStart {
            stage := ConversationBuffer;
          } else {
            summary := summary + [Char(b)];
          }
        case ConversationBuffer =>
          if b == ProcessingEnd {
            if variant == SessionHandler {
              updates := updates + [Finalized];
            }
            processingDone := true;
          } else {
            buffer := buffer + [Char(b)];
          }
      }
    }

    /** One `data` chunk, byte by byte. */
    method Feed(data: seq<byte>)
      modifies this
      ensures Snap() == Run(variant, old(Snap()), data)
      ensures TextIsTokens(old(Snap())) ==> TextIsTokens(Snap())
    {
      var i := 0;
      while i < |data|
        invariant 0 <= i <= |data|
        invariant Snap() == Run(variant, old(Snap()), data[..i])
      {
        Push(data[i]);
        assert data[..i + 1][..i] == data[..i];
        i := i + 1;
      }
      assert data[..i] == data;
      if TextIsTokens(old(Snap())) {
        RunKeepsText(variant, old(Snap()), data);
      }
    }

    /** The `data` event of chunk `m`, after the chunks before it. */
    method FeedNext(chunks: seq<seq<byte>>, m: nat)
      requires m < |chunks| && Snap() == Run(variant, Initial, Concat(chunks[..m]))
      modifies this
      ensures Snap() == Run(variant, Initial, Concat(chunks[..m + 1]))
    {
      Feed(chunks[m]);
      ConcatStep(chunks, m);
      RunAppend(variant, Initial, Concat(chunks[..m]), chunks[m]);
    }

    /** The `data` events from chunk `n` on, up to the one at whose end the
        awaited signal is first raised, or to the last chunk. */
    method FeedUntil(chunks: seq<seq<byte>>, sig: Signal, n: nat) returns (m: nat)
      requires n <= |chunks| && Snap() == Run(variant, Initial, Concat(chunks[..n]))
      modifies this
      ensures var r := FirstRaised(variant, chunks, sig, n);
              && m == (if r.Some? then r.value else |chunks|)
              && (Raised(Snap(), sig) <==> r.Some?)
      ensures Snap() == Run(variant, Initial, Concat(chunks[..m]))
    {
      m := n;
      while m < |chunks| && !Raised(Snap(), sig)
        invariant n <= m <= |chunks|
        invariant Snap() == Run(variant, Initial, Concat(chunks[..m]))
        invariant FirstRaised(variant, chunks, sig, m) == FirstRaised(variant, chunks, sig, n)
        decreases |chunks| - m
      {
        FirstRaisedUnfold(variant, chunks, sig, m);
        assert FirstRaised(variant, chunks, sig, m) == FirstRaised(variant, chunks, sig, m + 1);
        FeedNext(chunks, m);
        m := m + 1;
      }
      FirstRaisedUnfold(variant, chunks, sig, m);
      if Raised(Snap(), sig) {
        assert FirstRaised(variant, chunks, sig, m) == Some(m);
      } else {
        assert FirstRaised(variant, chunks, sig, m) == None;
      }
    }

    /** The `data` events of chunks `n` up to `w`. */
    method FeedTo(chunks: seq<seq<byte>>, n: nat, w: nat)
      requires n <= w <= |chunks| && Snap() == Run(variant, Initial, Concat(chunks[..n]))
      modifies this
      ensures Snap() == Run(variant, Initial, Concat(chunks[..w]))
    {
      var m := n;
      while m < w
        invariant n <= m <= w
        invariant Snap() == Run(variant, Initial, Concat(chunks[..m]))
      {
        FeedNext(chunks, m);
        m := m + 1;
      }
    }
  }
}

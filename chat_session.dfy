/** The chat `sendMessage` mutations: the session one of
    back/src/trpc/routers/chat/session/sendMessage.ts and the older one of
    back/src/trpc/routers/chat.ts. Each checks the session, stores the
    user's message and an empty character message, writes the text to the
    session's language-model process, decodes what the process answers and
    writes the result back.

    The process's answer is the parameter `chunks`: the `data` events of its
    standard output, in arrival order; the clock is `now`; the running processes are
    `processes`, keyed by pid. */
module ChatSession {
  import opened Common
  import opened ChatDecoder

  /** A chat session with the chat it belongs to, as the query selects it. */
  datatype Session = Session(pid: int, endedAt: int, chatId: nat, chatUserId: int, characterId: int)

  /** `process.exitCode`: null while running. */
  datatype Process = Process(exitCode: Option<int>)

  datatype Chat = Chat(summary: Option<string>, buffer: Option<string>)

  /** The message tables: the session procedure writes user and character
      messages, the older one text messages of either actor. */
  datatype Message =
    | UserMessage(chatId: nat, userId: int, userText: string)
    | CharacterMessage(chatId: nat, characterId: int, text: Option<string>, finalized: bool, pid: int)
    | TextMessage(chatId: nat, actorId: int, text: Option<string>)

  /** How a call ends when no error is thrown: with the id of the new
      character message, or never, when the process does not send the
      marker the call awaits. */
  datatype Reply = Sent(characterMessageId: nat) | Hangs

  const SessionNotFound: Error := Plain("Session not found")
  const SessionExpired: Error := Plain("Session expired")
  const ProcessNotFound: Error := Plain("Process not found, re-initialize session")
  const NotFinalized: Error := Plain("Cannot send message until previous message is finalized")

  /** The chat's most recent character message. */
  function Latest(messages: seq<Message>, chatId: nat): (r: Option<nat>)
    ensures r.Some? ==> r.value < |messages| && messages[r.value].CharacterMessage? && messages[r.value].chatId == chatId
    ensures r.Some? ==> forall j :: r.value < j < |messages| ==> !(messages[j].CharacterMessage? && messages[j].chatId == chatId)
    ensures r.None? ==> forall j :: 0 <= j < |messages| ==> !(messages[j].CharacterMessage? && messages[j].chatId == chatId)
    decreases |messages|
  {
    if messages == [] then None
    else
      var last := messages[|messages| - 1];
      if last.CharacterMessage? && last.chatId == chatId then Some(|messages| - 1)
      else Latest(messages[..|messages| - 1], chatId)
  }

  /** `!process || process.exitCode` */
  predicate ProcessGone(processes: map<int, Process>, pid: int) {
    pid !in processes || (processes[pid].exitCode.Some? && processes[pid].exitCode.value != 0)
  }

  /** The checks of the session procedure, in source order. A latest
      character message without text blocks the call only while it belongs
      to the same process; after a re-initialization it is only warned
      about. */
  function SessionGate(sessions: map<nat, Session>, sessionId: nat, user: int, now: int,
                       processes: map<int, Process>, messages: seq<Message>): Result<Session>
  {
    if sessionId !in sessions || sessions[sessionId].chatUserId != user then Err(SessionNotFound)
    else
      var s := sessions[sessionId];
      if s.endedAt < now then Err(SessionExpired)
      else if ProcessGone(processes, s.pid) then Err(ProcessNotFound)
      else
        var l := Latest(messages, s.chatId);
        if l.Some? && !Truthy(messages[l.value].text) && messages[l.value].pid == s.pid then Err(NotFinalized)
        else Ok(s)
  }

  lemma SessionGateSpec(sessions: map<nat, Session>, sessionId: nat, user: int, now: int,
                        processes: map<int, Process>, messages: seq<Message>)
    ensures var g := SessionGate(sessions, sessionId, user, now, processes, messages);
            && (g.Ok? <==>
                  && sessionId in sessions && sessions[sessionId].chatUserId == user
                  && now <= sessions[sessionId].endedAt
                  && !ProcessGone(processes, sessions[sessionId].pid)
                  && var l := Latest(messages, sessions[sessionId].chatId);
                     !(l.Some? && !Truthy(messages[l.value].text) && messages[l.value].pid == sessions[sessionId].pid))
            && (g.Ok? ==> g.value == sessions[sessionId])
            && (g.Err? ==> g.error in {SessionNotFound, SessionExpired, ProcessNotFound, NotFinalized})
            && (sessionId !in sessions ==> g == Err(SessionNotFound))
  {}

  /** A process may answer a message that was never finalized when the
      session has been re-initialized since: such a message does not block. */
  lemma StaleMessageDoesNotBlock(sessions: map<nat, Session>, sessionId: nat, user: int, now: int,
                                 processes: map<int, Process>, messages: seq<Message>)
    requires sessionId in sessions && sessions[sessionId].chatUserId == user
    requires now <= sessions[sessionId].endedAt && !ProcessGone(processes, sessions[sessionId].pid)
    requires forall j :: 0 <= j < |messages| && messages[j].CharacterMessage? ==> messages[j].pid != sessions[sessionId].pid
    ensures SessionGate(sessions, sessionId, user, now, processes, messages) == Ok(sessions[sessionId])
  {}

  /** The older procedure's checks: it only asks that the process exist. */
  function ChatGate(sessions: map<nat, Session>, sessionId: nat, user: int, now: int,
                    processes: map<int, Process>): (g: Result<Session>)
    ensures g.Ok? <==> sessionId in sessions && sessions[sessionId].chatUserId == user
                       && now <= sessions[sessionId].endedAt && sessions[sessionId].pid in processes
    ensures g.Ok? ==> g.value == sessions[sessionId]
  {
    if sessionId !in sessions || sessions[sessionId].chatUserId != user then Err(SessionNotFound)
    else if sessions[sessionId].endedAt < now then Err(SessionExpired)
    else if sessions[sessionId].pid !in processes then Err(ProcessNotFound)
    else Ok(sessions[sessionId])
  }

  /** The chat after the process finished: the buffer is always written,
      the summary only when the process printed one. */
  function WriteBack(chat: Chat, s: State): Chat {
    chat.(summary := if |s.summary| > 0 then Some(s.summary) else chat.summary, buffer := Some(s.buffer))
  }

  /** What the session procedure reads from the decoder: the text, once
      the call resumes after the chunk that completed it, and the state the
      finalization reads. The finalization waits for the text write, during
      which `writeDelay` more chunks may arrive, and then for the chunk that
      completes the processing; after it the handler is removed, so later
      chunks are never read. */
  datatype Capture = Capture(text: Option<string>, final: Option<State>)

  function SessionCapture(chunks: seq<seq<byte>>, writeDelay: nat): Capture {
    match FirstRaised(SessionHandler, chunks, TextSignal, 0)
    case None => Capture(None, None)
    case Some(t) =>
      var f := FinalAt(chunks, t, writeDelay);
      Capture(Some(Run(SessionHandler, Initial, Concat(chunks[..t])).text),
              if f.Some? then Some(Run(SessionHandler, Initial, Concat(chunks[..f.value]))) else None)
  }

  /** The chunk count at whose end the finalization runs, when the text
      was completed after `t` chunks. */
  function FinalAt(chunks: seq<seq<byte>>, t: nat, writeDelay: nat): (r: Option<nat>)
    requires t <= |chunks|
    ensures r.Some? ==> r.value <= |chunks|
  {
    FirstRaised(SessionHandler, chunks, ProcessingSignal, if t + writeDelay < |chunks| then t + writeDelay else |chunks|)
  }

  /** The reading between the text write and the finalization. */
  method AwaitFinal(d: Decoder, chunks: seq<seq<byte>>, t: nat, writeDelay: nat)
    requires d.variant == SessionHandler && t <= |chunks|
    requires d.Snap() == Run(SessionHandler, Initial, Concat(chunks[..t]))
    modifies d
    ensures var f := FinalAt(chunks, t, writeDelay);
            && (d.processingDone <==> f.Some?)
            && (f.Some? ==> d.Snap() == Run(SessionHandler, Initial, Concat(chunks[..f.value])))
  {
    var w := if t + writeDelay < |chunks| then t + writeDelay else |chunks|;
    d.FeedTo(chunks, t, w);
    var f := d.FeedUntil(chunks, ProcessingSignal, w);
  }

  /** What the older procedure reads: the state after the chunk that
      completes the processing, when one does. */
  function ChatCapture(chunks: seq<seq<byte>>): Option<State> {
    var f := FirstRaised(ChatHandler, chunks, ProcessingSignal, 0);
    if f.Some? then Some(Run(ChatHandler, Initial, Concat(chunks[..f.value]))) else None
  }

  /** For a well-formed answer, however it is split into chunks and however
      long the text write takes, the session procedure stores the whole
      text, and the chat keeps the summary and buffer the process wrote, an
      empty summary keeping the old one. */
  lemma SessionFrame(chunks: seq<seq<byte>>, writeDelay: nat, ts: seq<seq<byte>>, summary: seq<byte>,
                     buffer: seq<byte>, chat: Chat)
    requires forall i :: 0 <= i < |ts| ==> TokenBytes(ts[i])
    requires BufferStart !in summary && ProcessingEnd !in buffer
    requires Concat(chunks) == Frame(ts, summary, buffer)
    ensures var c := SessionCapture(chunks, writeDelay);
            && c.text == Some(Join(TokenTexts(ts)))
            && c.final.Some?
            && WriteBack(chat, c.final.value).buffer == Some(Chars(buffer))
            && WriteBack(chat, c.final.value).summary == (if summary == [] then chat.summary else Some(Chars(summary)))
  {
    FrameCapture(chunks, writeDelay, ts, summary, buffer);
    DecodeFrame(SessionHandler, ts, summary, buffer);
  }

  lemma FrameCapture(chunks: seq<seq<byte>>, writeDelay: nat, ts: seq<seq<byte>>, summary: seq<byte>,
                     buffer: seq<byte>)
    requires forall i :: 0 <= i < |ts| ==> TokenBytes(ts[i])
    requires BufferStart !in summary && ProcessingEnd !in buffer
    requires Concat(chunks) == Frame(ts, summary, buffer)
    ensures SessionCapture(chunks, writeDelay)
            == Capture(Some(Join(TokenTexts(ts))), Some(Run(SessionHandler, Initial, Concat(chunks))))
  {
    FrameChunksText(ts, summary, buffer, chunks, 0);
    var t := FirstRaised(SessionHandler, chunks, TextSignal, 0).value;
    FrameChunksDone(SessionHandler, ts, summary, buffer, chunks,
                    if t + writeDelay < |chunks| then t + writeDelay else |chunks|);
    CaptureWhole(chunks, writeDelay, t);
  }

  /** The capture when the finalization runs with every chunk read. */
  lemma CaptureWhole(chunks: seq<seq<byte>>, writeDelay: nat, t: nat)
    requires FirstRaised(SessionHandler, chunks, TextSignal, 0) == Some(t)
    requires var f := FirstRaised(SessionHandler, chunks, ProcessingSignal,
                                  if t + writeDelay < |chunks| then t + writeDelay else |chunks|);
             f.Some? && Concat(chunks[..f.value]) == Concat(chunks)
    ensures SessionCapture(chunks, writeDelay)
            == Capture(Some(Run(SessionHandler, Initial, Concat(chunks[..t])).text),
                       Some(Run(SessionHandler, Initial, Concat(chunks))))
  {
    CaptureAt(chunks, writeDelay, t, FinalAt(chunks, t, writeDelay).value);
  }

  /** The capture, once the two resumption points are known. */
  lemma CaptureAt(chunks: seq<seq<byte>>, writeDelay: nat, t: nat, f: nat)
    requires FirstRaised(SessionHandler, chunks, TextSignal, 0) == Some(t)
    requires FinalAt(chunks, t, writeDelay) == Some(f)
    ensures SessionCapture(chunks, writeDelay)
            == Capture(Some(Run(SessionHandler, Initial, Concat(chunks[..t])).text),
                       Some(Run(SessionHandler, Initial, Concat(chunks[..f]))))
  {
  }

  /** The same for the older procedure: the text is the whole reply, and
      the chat keeps what the process wrote. */
  lemma ChatFrame(chunks: seq<seq<byte>>, ts: seq<seq<byte>>, summary: seq<byte>, buffer: seq<byte>, chat: Chat)
    requires forall i :: 0 <= i < |ts| ==> TokenBytes(ts[i])
    requires BufferStart !in summary && ProcessingEnd !in buffer
    requires Concat(chunks) == Frame(ts, summary, buffer)
    ensures var c := ChatCapture(chunks);
            && c.Some? && c.value.text == Join(TokenTexts(ts))
            && WriteBack(chat, c.value).buffer == Some(Chars(buffer))
            && WriteBack(chat, c.value).summary == (if summary == [] then chat.summary else Some(Chars(summary)))
  {
    FrameChunksDone(ChatHandler, ts, summary, buffer, chunks, 0);
    DecodeFrame(ChatHandler, ts, summary, buffer);
  }

  /** An answer that arrives in one chunk is read whole: the text and the
      finalization both see everything the process wrote. */
  lemma SessionOneChunk(output: seq<byte>, writeDelay: nat)
    ensures var s := Run(SessionHandler, Initial, output);
            SessionCapture([output], writeDelay)
            == if !s.textDone then Capture(None, None)
               else Capture(Some(s.text), if s.processingDone then Some(s) else None)
  {
    var chunks := [output];
    assert chunks[..0] == [] && chunks[..1] == chunks;
    assert Concat(chunks) == output by {
      assert Concat(chunks) == Concat([]) + output;
    }
    assert Run(SessionHandler, Initial, Concat(chunks[..0])) == Initial;
    FirstRaisedUnfold(SessionHandler, chunks, TextSignal, 0);
    FirstRaisedUnfold(SessionHandler, chunks, TextSignal, 1);
    assert FinalAt(chunks, 1, writeDelay) == FirstRaised(SessionHandler, chunks, ProcessingSignal, 1);
    FirstRaisedUnfold(SessionHandler, chunks, ProcessingSignal, 1);
  }

  class ChatStore {
    var sessions: map<nat, Session>
    var chats: map<nat, Chat>
    var messages: seq<Message>

    /** Every session's chat exists. */
    predicate Valid()
      reads this
    {
      forall k :: k in sessions ==> sessions[k].chatId in chats
    }

    constructor (sessions: map<nat, Session>, chats: map<nat, Chat>)
      requires forall k :: k in sessions ==> sessions[k].chatId in chats
      ensures Valid() && this.sessions == sessions && this.chats == chats && messages == []
    {
      this.sessions := sessions;
      this.chats := chats;
      messages := [];
    }

    /** `sendMessage` of back/src/trpc/routers/chat/session/sendMessage.ts.
        The process's answer arrives as `chunks`. The call returns once the
        text is complete; the finalization is written afterwards, once the
        process reports it. */
    method SendSessionMessage(sessionId: nat, user: int, text: string, now: int,
                              processes: map<int, Process>, chunks: seq<seq<byte>>, writeDelay: nat)
      returns (r: Result<Reply>)
      requires Valid()
      modifies this
      ensures Valid() && sessions == old(sessions)
      ensures var g := SessionGate(old(sessions), sessionId, user, now, processes, old(messages));
              g.Err? ==> r == Err(g.error) && messages == old(messages) && chats == old(chats)
      ensures var g := SessionGate(old(sessions), sessionId, user, now, processes, old(messages));
              g.Ok? ==>
                var c := SessionCapture(chunks, writeDelay);
                var id := |old(messages)| + 1;
                && r == Ok(if c.text.Some? then Sent(id) else Hangs)
                && messages == old(messages)
                     + [UserMessage(g.value.chatId, user, text),
                        CharacterMessage(g.value.chatId, g.value.characterId, c.text, c.final.Some?, g.value.pid)]
                && chats == (if c.final.Some?
                             then old(chats)[g.value.chatId := WriteBack(old(chats)[g.value.chatId], c.final.value)]
                             else old(chats))
    {
      var g := SessionGate(sessions, sessionId, user, now, processes, messages);
      if g.Err? {
        return Err(g.error);
      }
      var session := g.value;
      messages := messages + [UserMessage(session.chatId, user, text)];
      var id := |messages|;
      messages := messages + [CharacterMessage(session.chatId, session.characterId, None, false, session.pid)];
      var d := new Decoder(SessionHandler);
      assert chunks[..0] == [];
      var t := d.FeedUntil(chunks, TextSignal, 0);
      if !d.textDone {
        return Ok(Hangs);
      }
      r := Settle(session, id, d, chunks, t, writeDelay);
    }

    /** Once the text is complete: write it, let the chunks that arrive
        during the write be read, then wait for the chunk that completes
        the processing and write the finalization and the chat's summary
        and buffer. */
    method Settle(session: Session, id: nat, d: Decoder, chunks: seq<seq<byte>>, t: nat, writeDelay: nat)
      returns (r: Result<Reply>)
      requires Valid() && session.chatId in chats && id < |messages|
      requires d.variant == SessionHandler && FirstRaised(SessionHandler, chunks, TextSignal, 0) == Some(t)
      requires d.Snap() == Run(SessionHandler, Initial, Concat(chunks[..t]))
      modifies this, d
      ensures Valid() && sessions == old(sessions)
      ensures var c := SessionCapture(chunks, writeDelay);
              && r == Ok(Sent(id))
              && messages == old(messages)[id := CharacterMessage(session.chatId, session.characterId, c.text,
                                                                   c.final.Some?, session.pid)]
              && chats == (if c.final.Some?
                           then old(chats)[session.chatId := WriteBack(old(chats)[session.chatId], c.final.value)]
                           else old(chats))
    {
      var said := d.text;
      messages := messages[id := CharacterMessage(session.chatId, session.characterId, Some(said), false, session.pid)];
      AwaitFinal(d, chunks, t, writeDelay);
      if d.processingDone {
        messages := messages[id := CharacterMessage(session.chatId, session.characterId, Some(said), true, session.pid)];
        chats := chats[session.chatId := WriteBack(chats[session.chatId], d.Snap())];
      }
      r := Ok(Sent(id));
    }

    /** `sendMessage` of back/src/trpc/routers/chat.ts: it waits for the end
        of the processing, stops reading, and then writes the text and the
        chat together. */
    method SendChatMessage(sessionId: nat, user: int, text: string, now: int,
                           processes: map<int, Process>, chunks: seq<seq<byte>>)
      returns (r: Result<Reply>)
      requires Valid()
      modifies this
      ensures Valid() && sessions == old(sessions)
      ensures var g := ChatGate(old(sessions), sessionId, user, now, processes);
              g.Err? ==> r == Err(g.error) && messages == old(messages) && chats == old(chats)
      ensures var g := ChatGate(old(sessions), sessionId, user, now, processes);
              g.Ok? ==>
                var c := ChatCapture(chunks);
                var id := |old(messages)| + 1;
                && r == Ok(if c.Some? then Sent(id) else Hangs)
                && messages == old(messages)
                     + [TextMessage(g.value.chatId, user, Some(text)),
                        TextMessage(g.value.chatId, g.value.characterId, if c.Some? then Some(c.value.text) else None)]
                && chats == (if c.Some?
                             then old(chats)[g.value.chatId := WriteBack(old(chats)[g.value.chatId], c.value)]
                             else old(chats))
    {
      var g := ChatGate(sessions, sessionId, user, now, processes);
      if g.Err? {
        return Err(g.error);
      }
      var session := g.value;
      messages := messages + [TextMessage(session.chatId, user, Some(text))];
      var id := |messages|;
      messages := messages + [TextMessage(session.chatId, session.characterId, None)];
      var d := new Decoder(ChatHandler);
      assert chunks[..0] == [];
      var f := d.FeedUntil(chunks, ProcessingSignal, 0);
      if !d.processingDone {
        return Ok(Hangs);
      }
      messages := messages[id := TextMessage(session.chatId, session.characterId, Some(d.text))];
      chats := chats[session.chatId := WriteBack(chats[session.chatId], d.Snap())];
      r := Ok(Sent(id));
    }
  }
}

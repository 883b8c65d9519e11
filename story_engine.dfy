/** The turn engine of api/src/ai/story.ts: `advance` assembles the prompt
    from the cast, the rolling summary (or the fabula) and the buffered
    contents, attributes the model's reply to a speaker by its leading
    `<Name>:` tag, and compacts the buffer into a new summary once it passes
    the hard token limit.

    The tokenizer, the ISO time formatting and the clock are parameters of
    the model (`World`); the two language-model calls are the answers they
    produced (`Completion`, `SummaryCompletion`). The prompt wording is
    abstracted into `Body` constructors. */
module StoryEngine {
  import opened Common

  const SoftBufferLimit: nat := 384
  const HardBufferLimit: nat := 768
  /** The narrator: the character every untagged reply is attributed to. */
  const NarratorId: int := 0

  datatype Character = Character(id: int, name: string, personality: string)

  /** A row of the story's content log. `tokenLength` is measured once,
      when the row is inserted. */
  datatype Content = Content(id: int, charId: int, text: string, tokenLength: nat,
                             tokenUsage: nat, createdAt: int)

  datatype Role = System | Assistant | User

  /** What a prompt entry says; the wording of the templates is not modelled. */
  datatype Body =
    | Framing
    | Setup(setup: string)
    | Sheet(name: string, personality: string)
    | PriorEvents(summary: string)
    | Said(text: string)
    | SaidAt(time: string, text: string)
    | AiStarts
    | Instruction(candidates: seq<string>, mainCharacter: string, now: string)

  datatype Entry = Entry(role: Role, name: Option<string>, body: Body)

  /** The environment of one call: the loaded characters (in the order the
      database returned them), the tokenizer, the ISO formatting of a time,
      the current time and the creation time of the new row. */
  datatype World = World(characters: seq<Character>, tok: string -> nat,
                         iso: int -> string, now: int, createdAt: int)

  // ---------------------------------------------------------------------
  // Looking characters up (`characters.find`)
  // ---------------------------------------------------------------------

  function FindById(cs: seq<Character>, id: int): Option<Character> {
    if cs == [] then None
    else if cs[0].id == id then Some(cs[0])
    else FindById(cs[1..], id)
  }

  function FindByName(cs: seq<Character>, name: string): Option<Character> {
    if cs == [] then None
    else if cs[0].name == name then Some(cs[0])
    else FindByName(cs[1..], name)
  }

  /** `find` by id yields a loaded character with that id, and nothing
      exactly when no loaded character has it. */
  lemma {:induction false} FindByIdSpec(cs: seq<Character>, id: int)
    ensures FindById(cs, id).Some? ==> FindById(cs, id).value in cs && FindById(cs, id).value.id == id
    ensures FindById(cs, id).None? <==> forall i :: 0 <= i < |cs| ==> cs[i].id != id
  {
    if cs != [] && cs[0].id != id {
      FindByIdSpec(cs[1..], id);
      assert forall i :: 1 <= i < |cs| ==> cs[i] == cs[1..][i - 1];
    }
  }

  /** The same for `find` by name. */
  lemma {:induction false} FindByNameSpec(cs: seq<Character>, name: string)
    ensures FindByName(cs, name).Some? ==> FindByName(cs, name).value in cs && FindByName(cs, name).value.name == name
    ensures FindByName(cs, name).None? <==> forall i :: 0 <= i < |cs| ==> cs[i].name != name
  {
    if cs != [] && cs[0].name != name {
      FindByNameSpec(cs[1..], name);
      assert forall i :: 1 <= i < |cs| ==> cs[i] == cs[1..][i - 1];
    }
  }

  /** `find` returns the first match: no earlier character matches. */
  lemma {:induction false} FindByNameFirst(cs: seq<Character>, name: string, i: nat)
    requires i < |cs| && cs[i].name == name
    ensures FindByName(cs, name).Some?
    ensures exists j :: 0 <= j <= i && cs[j] == FindByName(cs, name).value
                        && forall m :: 0 <= m < j ==> cs[m].name != name
  {
    if cs[0].name != name {
      FindByNameFirst(cs[1..], name, i - 1);
      var j :| 0 <= j <= i - 1 && cs[1..][j] == FindByName(cs[1..], name).value
               && forall m :: 0 <= m < j ==> cs[1..][m].name != name;
      assert cs[j + 1] == FindByName(cs, name).value;
      assert forall m :: 0 <= m < j + 1 ==> cs[m].name != name by {
        forall m | 0 <= m < j + 1 ensures cs[m].name != name {
          if m > 0 { assert cs[m] == cs[1..][m - 1]; }
        }
      }
    } else {
      assert cs[0] == FindByName(cs, name).value;
    }
  }

  // ---------------------------------------------------------------------
  // Name mangling: `name.replace(/\s+/g, "_")`
  // ---------------------------------------------------------------------

  /** Every maximal run of whitespace becomes one underscore. */
  function Underscored(s: string): string
    decreases |s|
  {
    if s == [] then []
    else if IsSpace(s[0]) then "_" + Underscored(DropSpaces(s[1..]))
    else [s[0]] + Underscored(s[1..])
  }

  lemma {:induction false} UnderscoredHasNoSpace(s: string)
    ensures NoSpace(Underscored(s))
    ensures |Underscored(s)| <= |s|
    decreases |s|
  {
    if s == [] {
    } else if IsSpace(s[0]) {
      UnderscoredHasNoSpace(DropSpaces(s[1..]));
    } else {
      UnderscoredHasNoSpace(s[1..]);
    }
  }

  lemma {:induction false} UnderscoredKeepsPlainNames(s: string)
    requires NoSpace(s)
    ensures Underscored(s) == s
  {
    if s != [] {
      UnderscoredKeepsPlainNames(s[1..]);
    }
  }

  /** Mangling is idempotent. */
  lemma UnderscoredIdempotent(s: string)
    ensures Underscored(Underscored(s)) == Underscored(s)
  {
    UnderscoredHasNoSpace(s);
    UnderscoredKeepsPlainNames(Underscored(s));
  }

  // ---------------------------------------------------------------------
  // Speaker attribution: `content.match(/^<([^>]+)>:(.*)/)`
  // ---------------------------------------------------------------------

  /** The characters JavaScript's `.` does not match. */
  predicate IsLineTerminator(c: char) {
    c == '\n' || c == '\r' || c == '\U{2028}' || c == '\U{2029}'
  }

  /** Index of the first `c` in `s`, or `|s|`. */
  function IndexOf(s: string, c: char): (p: nat)
    ensures p <= |s|
    ensures forall i :: 0 <= i < p ==> s[i] != c
    ensures p < |s| ==> s[p] == c
  {
    if s == [] then 0
    else if s[0] == c then 0
    else 1 + IndexOf(s[1..], c)
  }

  /** What `(.*)` captures: the text up to the first line terminator. */
  function FirstLine(s: string): (r: string)
    ensures |r| <= |s| && r == s[..|r|]
    ensures forall i :: 0 <= i < |r| ==> !IsLineTerminator(r[i])
    ensures |r| < |s| ==> IsLineTerminator(s[|r|])
  {
    if s == [] || IsLineTerminator(s[0]) then [] else [s[0]] + FirstLine(s[1..])
  }

  datatype Tag = Tag(name: string, text: string)

  /** The match of `^<([^>]+)>:(.*)` against a reply: the name is everything
      up to the first `>`, which must be followed by `:`. */
  function MatchTag(reply: string): Option<Tag> {
    if |reply| > 0 && reply[0] == '<' then
      var p := 1 + IndexOf(reply[1..], '>');
      if 2 <= p && p + 1 < |reply| && reply[p + 1] == ':' then
        Some(Tag(reply[1..p], FirstLine(reply[p + 2..])))
      else None
    else None
  }

  /** Every reply of the shape `<name>:rest` matches, with the captured
      text cut at the first line terminator. */
  lemma TagOfTaggedReply(name: string, rest: string)
    requires name != [] && '>' !in name
    ensures MatchTag("<" + name + ">:" + rest) == Some(Tag(name, FirstLine(rest)))
  {
    var reply := "<" + name + ">:" + rest;
    assert reply[1..] == name + ['>'] + (":" + rest);
    IndexOfAfter(name, '>', ":" + rest);
    assert reply[1..1 + |name|] == name;
    assert reply[|name| + 2] == ':';
    assert reply[|name| + 3..] == rest;
  }

  /** The first `c` in `prefix + [c] + suffix` is the one after `prefix`
      when `prefix` has none. */
  lemma IndexOfAfter(prefix: string, c: char, suffix: string)
    requires c !in prefix
    ensures IndexOf(prefix + [c] + suffix, c) == |prefix|
  {
    var s := prefix + [c] + suffix;
    assert s[|prefix|] == c;
    assert forall i :: 0 <= i < |prefix| ==> s[i] == prefix[i];
  }

  /** Conversely, every match comes from a reply of that shape. */
  lemma TaggedReplyOfTag(reply: string)
    requires MatchTag(reply).Some?
    ensures var t := MatchTag(reply).value;
            t.name != [] && '>' !in t.name &&
            reply == "<" + t.name + ">:" + reply[|t.name| + 3..] &&
            t.text == FirstLine(reply[|t.name| + 3..])
  {
    var t := MatchTag(reply).value;
    var p := 1 + IndexOf(reply[1..], '>');
    assert t.name == reply[1..p];
    forall i | 0 <= i < |t.name| ensures t.name[i] != '>' {
      assert t.name[i] == reply[1..][i];
    }
    assert reply == "<" + t.name + ">:" + reply[p + 2..];
  }

  datatype Attribution = Attribution(speaker: Character, text: string)

  /** The narrator speaks `text`; a cast loaded without character 0 makes
      the source read `.id` of `undefined`. */
  function Narrated(cs: seq<Character>, text: string): Result<Attribution> {
    match FindById(cs, NarratorId)
    case Some(c) => Ok(Attribution(c, text))
    case None => Err(TypeError)
  }

  function Attribute(cs: seq<Character>, reply: string): Result<Attribution> {
    var tag := MatchTag(reply);
    if tag.Some? && tag.value.text != "" then
      match FindByName(cs, tag.value.name)
      case Some(c) => Ok(Attribution(c, tag.value.text))
      case None => Narrated(cs, tag.value.text)
    else Narrated(cs, reply)
  }

  /** A tagged reply with a non-empty line goes to the first loaded
      character of that exact name, whoever it is (the user's own character
      and the narrator included). */
  lemma AttributeTagged(cs: seq<Character>, name: string, rest: string)
    requires name != [] && '>' !in name && FirstLine(rest) != []
    requires FindByName(cs, name).Some?
    ensures Attribute(cs, "<" + name + ">:" + rest)
            == Ok(Attribution(FindByName(cs, name).value, FirstLine(rest)))
  {
    TagOfTaggedReply(name, rest);
  }

  /** A tag naming nobody loaded gives the line, without the tag, to the
      narrator. */
  lemma AttributeUnknownName(cs: seq<Character>, name: string, rest: string)
    requires name != [] && '>' !in name && FirstLine(rest) != []
    requires forall i :: 0 <= i < |cs| ==> cs[i].name != name
    ensures Attribute(cs, "<" + name + ">:" + rest) == Narrated(cs, FirstLine(rest))
  {
    FindByNameSpec(cs, name);
    TagOfTaggedReply(name, rest);
  }

  /** A reply without a usable tag (no match, or an empty line after the
      colon) is the narrator's, verbatim. */
  lemma AttributeUntagged(cs: seq<Character>, reply: string)
    requires MatchTag(reply).None? || MatchTag(reply).value.text == ""
    ensures Attribute(cs, reply) == Narrated(cs, reply)
  {}

  /** `<Alice>: Hello` is Alice's, and her line keeps the space after the
      colon. */
  lemma AttributeAlice(cs: seq<Character>, alice: Character)
    requires alice.name == "Alice" && cs == [alice]
    ensures Attribute(cs, "<Alice>: Hello") == Ok(Attribution(alice, " Hello"))
  {
    assert "<Alice>: Hello" == "<" + "Alice" + ">:" + " Hello";
    assert FirstLine(" Hello") == " Hello";
    AttributeTagged(cs, "Alice", " Hello");
  }

  // ---------------------------------------------------------------------
  // Context assembly
  // ---------------------------------------------------------------------

  function Header(setup: Option<string>): seq<Entry> {
    [Entry(System, None, Framing)]
    + (if Truthy(setup) then [Entry(System, None, Setup(setup.value))] else [])
  }

  /** One sheet per loaded character, in load order, with its personality. */
  function Sheets(cs: seq<Character>): (r: seq<Entry>)
    ensures |r| == |cs|
  {
    if cs == [] then []
    else Sheets(cs[..|cs| - 1]) + [Entry(System, None, Sheet(cs[|cs| - 1].name, cs[|cs| - 1].personality))]
  }

  /** The summary, or the fabula when there is no summary yet. */
  function Recap(summary: Option<string>, fabula: Option<string>): seq<Entry> {
    var s := Or(summary, fabula);
    if Truthy(s) then [Entry(System, None, PriorEvents(s.value))] else []
  }

  /** The narrator's rows are the assistant's own lines; everyone else's are
      named user lines stamped with their creation time. */
  function Utterance(cs: seq<Character>, c: Content, iso: int -> string): Result<Entry> {
    if c.charId == NarratorId then Ok(Entry(Assistant, None, Said(c.text)))
    else match FindById(cs, c.charId)
      case Some(ch) => Ok(Entry(User, Some(Underscored(ch.name)), SaidAt(iso(c.createdAt), c.text)))
      case None => Err(TypeError)
  }

  function Transcript(cs: seq<Character>, contents: seq<Content>, iso: int -> string): (r: Result<seq<Entry>>)
    ensures r.Ok? ==> |r.value| == |contents|
  {
    if contents == [] then Ok([])
    else match Transcript(cs, contents[..|contents| - 1], iso)
      case Err(e) => Err(e)
      case Ok(t) =>
        match Utterance(cs, contents[|contents| - 1], iso)
        case Err(e) => Err(e)
        case Ok(u) => Ok(t + [u])
  }

  /** The characters the model may speak as: neither the user's nor the
      narrator. */
  function Candidates(cs: seq<Character>, userCharId: int): (r: seq<Character>)
    ensures |r| <= |cs|
  {
    if cs == [] then []
    else (if cs[0].id != userCharId && cs[0].id != NarratorId then [cs[0]] else [])
         + Candidates(cs[1..], userCharId)
  }

  lemma {:induction false} CandidatesMembers(cs: seq<Character>, userCharId: int)
    ensures forall c :: c in Candidates(cs, userCharId) <==> c in cs && c.id != userCharId && c.id != NarratorId
  {
    if cs != [] {
      CandidatesMembers(cs[1..], userCharId);
    }
  }

  function Names(cs: seq<Character>): (r: seq<string>)
    ensures |r| == |cs|
  {
    if cs == [] then [] else [cs[0].name] + Names(cs[1..])
  }

  /** The prompt `advance` sends. It fails as the source does when the
      user's character or every candidate is missing from the loaded cast,
      or when a buffered row's author is not loaded. */
  function Context(setup: Option<string>, cs: seq<Character>, summary: Option<string>,
                   fabula: Option<string>, buffer: seq<Content>, userCharId: int,
                   iso: int -> string, now: int): Result<seq<Entry>>
  {
    var lines := if buffer == [] then Ok([Entry(System, None, AiStarts)]) else Transcript(cs, buffer, iso);
    var main := FindById(cs, userCharId);
    var candidates := Candidates(cs, userCharId);
    if lines.Err? || main.None? || candidates == [] then Err(TypeError)
    else Ok(Header(setup) + Sheets(cs) + Recap(summary, fabula) + lines.value
            + [Entry(System, None, Instruction(Names(candidates), main.value.name, iso(now)))])
  }

  /** The prompt's entries: the length-known parts in order. */
  function Lines(cs: seq<Character>, buffer: seq<Content>, iso: int -> string): Result<seq<Entry>> {
    if buffer == [] then Ok([Entry(System, None, AiStarts)]) else Transcript(cs, buffer, iso)
  }

  lemma ContextParts(setup: Option<string>, cs: seq<Character>, summary: Option<string>,
                     fabula: Option<string>, buffer: seq<Content>, userCharId: int,
                     iso: int -> string, now: int)
    requires Context(setup, cs, summary, fabula, buffer, userCharId, iso, now).Ok?
    ensures Lines(cs, buffer, iso).Ok? && FindById(cs, userCharId).Some? && Candidates(cs, userCharId) != []
    ensures Context(setup, cs, summary, fabula, buffer, userCharId, iso, now).value
            == Header(setup) + Sheets(cs) + Recap(summary, fabula) + Lines(cs, buffer, iso).value
               + [Entry(System, None, Instruction(Names(Candidates(cs, userCharId)), FindById(cs, userCharId).value.name, iso(now)))]
  {}

  /** The prompt opens with the framing and the setup, when there is one,
      and closes with the instruction naming the candidate speakers (never
      the user's character nor the narrator) and the user's character. */
  lemma ContextEnds(setup: Option<string>, cs: seq<Character>, summary: Option<string>,
                    fabula: Option<string>, buffer: seq<Content>, userCharId: int,
                    iso: int -> string, now: int)
    requires Context(setup, cs, summary, fabula, buffer, userCharId, iso, now).Ok?
    ensures var r := Context(setup, cs, summary, fabula, buffer, userCharId, iso, now).value;
            && r[0] == Entry(System, None, Framing)
            && (Truthy(setup) ==> r[1] == Entry(System, None, Setup(setup.value)))
            && r[|r| - 1] == Entry(System, None, Instruction(Names(Candidates(cs, userCharId)),
                                                             FindById(cs, userCharId).value.name, iso(now)))
            && FindById(cs, userCharId).value.id == userCharId
            && forall c :: c in Candidates(cs, userCharId) ==> c.id != userCharId && c.id != NarratorId
  {
    ContextParts(setup, cs, summary, fabula, buffer, userCharId, iso, now);
    CandidatesMembers(cs, userCharId);
    FindByIdSpec(cs, userCharId);
    Framed(Header(setup), Sheets(cs), Recap(summary, fabula), Lines(cs, buffer, iso).value,
           Entry(System, None, Instruction(Names(Candidates(cs, userCharId)), FindById(cs, userCharId).value.name, iso(now))));
  }

  lemma Framed(head: seq<Entry>, a: seq<Entry>, b: seq<Entry>, c: seq<Entry>, last: Entry)
    ensures var r := head + a + b + c + [last];
            && (forall i :: 0 <= i < |head| ==> r[i] == head[i])
            && r[|r| - 1] == last
  {}

  /** After the header comes one sheet per loaded character, in load order,
      each with that character's personality. */
  lemma ContextSheets(setup: Option<string>, cs: seq<Character>, summary: Option<string>,
                      fabula: Option<string>, buffer: seq<Content>, userCharId: int,
                      iso: int -> string, now: int)
    requires Context(setup, cs, summary, fabula, buffer, userCharId, iso, now).Ok?
    ensures var r := Context(setup, cs, summary, fabula, buffer, userCharId, iso, now).value;
            var h := |Header(setup)|;
            && |r| > h + |cs|
            && forall i :: 0 <= i < |cs| ==> r[h + i] == Entry(System, None, Sheet(cs[i].name, cs[i].personality))
  {
    ContextParts(setup, cs, summary, fabula, buffer, userCharId, iso, now);
    SheetsBetween(Header(setup), cs, Recap(summary, fabula) + Lines(cs, buffer, iso).value
                  + [Entry(System, None, Instruction(Names(Candidates(cs, userCharId)), FindById(cs, userCharId).value.name, iso(now)))]);
  }

  lemma SheetsBetween(head: seq<Entry>, cs: seq<Character>, rest: seq<Entry>)
    ensures var r := head + Sheets(cs) + rest;
            forall i :: 0 <= i < |cs| ==> r[|head| + i] == Entry(System, None, Sheet(cs[i].name, cs[i].personality))
  {
    var sheets := Sheets(cs);
    SheetsAt(cs);
    forall i | 0 <= i < |cs| ensures (head + sheets + rest)[|head| + i] == sheets[i] {}
  }

  /** After the sheets comes the recap: the summary, or the fabula while
      there is no summary, when either is non-empty. */
  lemma ContextRecap(setup: Option<string>, cs: seq<Character>, summary: Option<string>,
                     fabula: Option<string>, buffer: seq<Content>, userCharId: int,
                     iso: int -> string, now: int)
    requires Context(setup, cs, summary, fabula, buffer, userCharId, iso, now).Ok?
    requires Truthy(Or(summary, fabula))
    ensures var r := Context(setup, cs, summary, fabula, buffer, userCharId, iso, now).value;
            var p := |Header(setup)| + |cs|;
            p < |r| && r[p] == Entry(System, None, PriorEvents(Or(summary, fabula).value))
  {
    ContextParts(setup, cs, summary, fabula, buffer, userCharId, iso, now);
    var lines := Lines(cs, buffer, iso).value;
    LinesBetween(Header(setup) + Sheets(cs), Recap(summary, fabula), lines,
                 Entry(System, None, Instruction(Names(Candidates(cs, userCharId)), FindById(cs, userCharId).value.name, iso(now))));
  }

  /** With an empty buffer, the entry before the instruction tells the
      model to open the scene. */
  lemma ContextOpening(setup: Option<string>, cs: seq<Character>, summary: Option<string>,
                       fabula: Option<string>, userCharId: int, iso: int -> string, now: int)
    requires Context(setup, cs, summary, fabula, [], userCharId, iso, now).Ok?
    ensures var r := Context(setup, cs, summary, fabula, [], userCharId, iso, now).value;
            |r| >= 2 && r[|r| - 2] == Entry(System, None, AiStarts)
  {
    ContextParts(setup, cs, summary, fabula, [], userCharId, iso, now);
  }

  /** Otherwise the entries before the instruction are the buffered rows,
      one per row in buffer order: the narrator's as the assistant's own
      lines, everyone else's as named, time-stamped user lines. */
  lemma ContextTranscript(setup: Option<string>, cs: seq<Character>, summary: Option<string>,
                          fabula: Option<string>, buffer: seq<Content>, userCharId: int,
                          iso: int -> string, now: int)
    requires Context(setup, cs, summary, fabula, buffer, userCharId, iso, now).Ok?
    ensures var r := Context(setup, cs, summary, fabula, buffer, userCharId, iso, now).value;
            var t := |r| - 1 - |buffer|;
            && t >= |Header(setup)| + |cs|
            && forall i :: 0 <= i < |buffer| ==>
                 Utterance(cs, buffer[i], iso).Ok? && r[t + i] == Utterance(cs, buffer[i], iso).value
  {
    ContextParts(setup, cs, summary, fabula, buffer, userCharId, iso, now);
    var head := Header(setup) + Sheets(cs) + Recap(summary, fabula);
    var last := Entry(System, None, Instruction(Names(Candidates(cs, userCharId)), FindById(cs, userCharId).value.name, iso(now)));
    var lines := Lines(cs, buffer, iso).value;
    var r := Context(setup, cs, summary, fabula, buffer, userCharId, iso, now).value;
    assert r == head + lines + [last];
    assert |head| >= |Header(setup)| + |cs|;
    if buffer != [] {
      TranscriptPlaced(head, cs, buffer, iso, lines, last);
    } else {
      assert |r| - 1 == |head| + 1;
    }
  }

  lemma TranscriptPlaced(head: seq<Entry>, cs: seq<Character>, buffer: seq<Content>, iso: int -> string,
                         lines: seq<Entry>, last: Entry)
    requires Transcript(cs, buffer, iso) == Ok(lines)
    ensures var r := head + lines + [last];
            && |r| - 1 - |buffer| == |head|
            && forall i :: 0 <= i < |buffer| ==>
                 Utterance(cs, buffer[i], iso).Ok? && r[|head| + i] == Utterance(cs, buffer[i], iso).value
  {
    TranscriptAt(cs, buffer, iso);
    Middle(head, lines, last);
  }

  /** Where the middle part of `head + mid + [last]` sits. */
  lemma Middle(head: seq<Entry>, mid: seq<Entry>, last: Entry)
    ensures var r := head + mid + [last];
            && |r| - 1 - |mid| == |head|
            && forall i :: 0 <= i < |mid| ==> r[|head| + i] == mid[i]
  {}

  lemma LinesBetween(head: seq<Entry>, recap: seq<Entry>, lines: seq<Entry>, last: Entry)
    ensures var r := head + recap + lines + [last];
            var t := |r| - 1 - |lines|;
            && t == |head| + |recap|
            && (forall i :: 0 <= i < |lines| ==> r[t + i] == lines[i])
            && (|recap| == 1 ==> r[|head|] == recap[0])
  {}

  lemma {:induction false} SheetsAt(cs: seq<Character>)
    ensures forall i :: 0 <= i < |cs| ==> Sheets(cs)[i] == Entry(System, None, Sheet(cs[i].name, cs[i].personality))
  {
    if cs != [] {
      SheetsAt(cs[..|cs| - 1]);
      assert forall i :: 0 <= i < |cs| - 1 ==> cs[..|cs| - 1][i] == cs[i];
    }
  }

  lemma {:induction false} TranscriptAt(cs: seq<Character>, contents: seq<Content>, iso: int -> string)
    requires Transcript(cs, contents, iso).Ok?
    ensures forall i :: 0 <= i < |contents| ==>
              Utterance(cs, contents[i], iso).Ok? && Transcript(cs, contents, iso).value[i] == Utterance(cs, contents[i], iso).value
  {
    if contents != [] {
      var init := contents[..|contents| - 1];
      TranscriptAt(cs, init, iso);
      assert forall i :: 0 <= i < |init| ==> init[i] == contents[i];
    }
  }

  /** A buffered row whose author is no longer loaded (removed from the
      cast since it spoke) makes the whole prompt fail. */
  lemma ContextNeedsEveryAuthor(setup: Option<string>, cs: seq<Character>, summary: Option<string>,
                                fabula: Option<string>, buffer: seq<Content>, userCharId: int,
                                iso: int -> string, now: int, i: nat)
    requires i < |buffer| && buffer[i].charId != NarratorId
    requires forall j :: 0 <= j < |cs| ==> cs[j].id != buffer[i].charId
    ensures Context(setup, cs, summary, fabula, buffer, userCharId, iso, now) == Err(TypeError)
  {
    FindByIdSpec(cs, buffer[i].charId);
    TranscriptFailsAt(cs, buffer, iso, i);
  }

  lemma {:induction false} TranscriptFailsAt(cs: seq<Character>, contents: seq<Content>, iso: int -> string, i: nat)
    requires i < |contents| && Utterance(cs, contents[i], iso).Err?
    ensures Transcript(cs, contents, iso).Err?
  {
    if i < |contents| - 1 {
      var init := contents[..|contents| - 1];
      assert init[i] == contents[i];
      TranscriptFailsAt(cs, init, iso, i);
    }
  }

  /** The loop of `advance` that pushes one sheet per loaded character. */
  method PushSheets(messages: seq<Entry>, cs: seq<Character>) returns (r: seq<Entry>)
    ensures r == messages + Sheets(cs)
  {
    r := messages;
    var i := 0;
    while i < |cs|
      invariant 0 <= i <= |cs|
      invariant r == messages + Sheets(cs[..i])
    {
      assert cs[..i + 1][..i] == cs[..i];
      r := r + [Entry(System, None, Sheet(cs[i].name, cs[i].personality))];
      i := i + 1;
    }
    assert cs[..|cs|] == cs;
  }

  /** The loop of `advance` that pushes one entry per buffered row; it
      stops at the first row whose author is not loaded. */
  method PushTranscript(messages: seq<Entry>, cs: seq<Character>, buffer: seq<Content>, iso: int -> string)
    returns (r: Result<seq<Entry>>)
    ensures Transcript(cs, buffer, iso).Ok? ==> r == Ok(messages + Transcript(cs, buffer, iso).value)
    ensures Transcript(cs, buffer, iso).Err? ==> r == Err(TypeError)
  {
    var acc := messages;
    var j := 0;
    while j < |buffer|
      invariant 0 <= j <= |buffer|
      invariant Transcript(cs, buffer[..j], iso).Ok?
      invariant acc == messages + Transcript(cs, buffer[..j], iso).value
    {
      assert buffer[..j + 1][..j] == buffer[..j];
      var c := buffer[j];
      assert buffer[..j + 1][j] == c;
      if c.charId == NarratorId {
        acc := acc + [Entry(Assistant, None, Said(c.text))];
      } else {
        var author := FindById(cs, c.charId);
        if author.None? {
          TranscriptFailsAt(cs, buffer, iso, j);
          TranscriptErrIsTypeError(cs, buffer, iso);
          return Err(TypeError);
        }
        acc := acc + [Entry(User, Some(Underscored(author.value.name)), SaidAt(iso(c.createdAt), c.text))];
      }
      j := j + 1;
    }
    assert buffer[..|buffer|] == buffer;
    r := Ok(acc);
  }

  lemma {:induction false} TranscriptErrIsTypeError(cs: seq<Character>, contents: seq<Content>, iso: int -> string)
    ensures Transcript(cs, contents, iso).Err? ==> Transcript(cs, contents, iso).error == TypeError
  {
    if contents != [] {
      TranscriptErrIsTypeError(cs, contents[..|contents| - 1], iso);
    }
  }

  /** The push sequence of `advance` that builds the prompt. */
  method AssembleContext(setup: Option<string>, cs: seq<Character>, summary: Option<string>,
                         fabula: Option<string>, buffer: seq<Content>, userCharId: int,
                         iso: int -> string, now: int) returns (r: Result<seq<Entry>>)
    ensures r == Context(setup, cs, summary, fabula, buffer, userCharId, iso, now)
  {
    var messages := [Entry(System, None, Framing)];
    if Truthy(setup) {
      messages := messages + [Entry(System, None, Setup(setup.value))];
    }
    messages := PushSheets(messages, cs);
    var recap := Or(summary, fabula);
    if Truthy(recap) {
      messages := messages + [Entry(System, None, PriorEvents(recap.value))];
    }
    assert messages == Header(setup) + Sheets(cs) + Recap(summary, fabula);
    if |buffer| > 0 {
      var pushed := PushTranscript(messages, cs, buffer, iso);
      if pushed.Err? {
        return Err(TypeError);
      }
      messages := pushed.value;
    } else {
      messages := messages + [Entry(System, None, AiStarts)];
    }
    assert messages == Header(setup) + Sheets(cs) + Recap(summary, fabula) + Lines(cs, buffer, iso).value;
    var possible := Candidates(cs, userCharId);
    var main := FindById(cs, userCharId);
    if main.None? || |possible| == 0 {
      return Err(TypeError);
    }
    r := Ok(messages + [Entry(System, None, Instruction(Names(possible), main.value.name, iso(now)))]);
  }

  // ---------------------------------------------------------------------
  // The buffer and its compaction
  // ---------------------------------------------------------------------

  function TokenSum(b: seq<Content>): nat {
    if b == [] then 0 else b[0].tokenLength + TokenSum(b[1..])
  }

  lemma {:induction false} TokenSumAppend(a: seq<Content>, b: seq<Content>)
    ensures TokenSum(a + b) == TokenSum(a) + TokenSum(b)
  {
    if a == [] {
      assert a + b == b;
    } else {
      assert (a + b)[1..] == a[1..] + b;
      TokenSumAppend(a[1..], b);
    }
  }

  /** Shorter suffixes of the buffer never weigh more. */
  lemma {:induction false} SuffixSumMonotone(b: seq<Content>, i: nat, j: nat)
    requires i <= j <= |b|
    ensures TokenSum(b[j..]) <= TokenSum(b[i..])
    decreases j - i
  {
    if i < j {
      assert b[i..][1..] == b[i + 1..];
      SuffixSumMonotone(b, i + 1, j);
    }
  }

  /** Ids strictly increase along the log, as the database assigns them. */
  predicate Ascending(cs: seq<Content>) {
    forall i, j :: 0 <= i < j < |cs| ==> cs[i].id < cs[j].id
  }

  /** The rows with `id > c`, in log order. */
  function Since(cs: seq<Content>, c: int): (r: seq<Content>)
    ensures |r| <= |cs|
  {
    if cs == [] then []
    else (if cs[0].id > c then [cs[0]] else []) + Since(cs[1..], c)
  }

  lemma {:induction false} SinceMembers(cs: seq<Content>, c: int)
    ensures forall x :: x in Since(cs, c) <==> x in cs && x.id > c
  {
    if cs != [] {
      SinceMembers(cs[1..], c);
    }
  }

  lemma {:induction false} SinceAppend(a: seq<Content>, b: seq<Content>, c: int)
    ensures Since(a + b, c) == Since(a, c) + Since(b, c)
  {
    if a == [] {
      assert a + b == b;
    } else {
      assert (a + b)[1..] == a[1..] + b;
      SinceAppend(a[1..], b, c);
    }
  }

  lemma {:induction false} SinceAll(cs: seq<Content>, c: int)
    requires forall i :: 0 <= i < |cs| ==> cs[i].id > c
    ensures Since(cs, c) == cs
  {
    if cs != [] {
      SinceAll(cs[1..], c);
    }
  }

  lemma {:induction false} SinceTwice(cs: seq<Content>, c1: int, c2: int)
    requires c1 <= c2
    ensures Since(Since(cs, c1), c2) == Since(cs, c2)
  {
    if cs != [] {
      SinceTwice(cs[1..], c1, c2);
      if cs[0].id > c1 {
        assert Since(cs, c1) == [cs[0]] + Since(cs[1..], c1);
        SinceAppend([cs[0]], Since(cs[1..], c1), c2);
        assert [cs[0]][1..] == [];
        assert Since([cs[0]], c2) == if cs[0].id > c2 then [cs[0]] else [];
      } else {
        assert Since(cs, c1) == Since(cs[1..], c1);
        assert Since(cs, c2) == Since(cs[1..], c2);
      }
    }
  }

  lemma {:induction false} SinceAscending(cs: seq<Content>, c: int)
    requires Ascending(cs)
    ensures Ascending(Since(cs, c))
  {
    if cs != [] {
      SinceAscending(cs[1..], c);
      SinceMembers(cs[1..], c);
      var rest := Since(cs[1..], c);
      assert forall x :: x in rest ==> x in cs[1..];
      forall x | x in rest ensures cs[0].id < x.id {
        var k :| 0 <= k < |cs[1..]| && cs[1..][k] == x;
        assert cs[k + 1] == x;
      }
    }
  }

  /** On an ascending buffer, the rows after `b[k]` are exactly `b[k+1..]`. */
  lemma {:induction false} SinceMember(b: seq<Content>, k: nat)
    requires Ascending(b) && k < |b|
    ensures Since(b, b[k].id) == b[k + 1..]
  {
    if k == 0 {
      SinceAll(b[1..], b[0].id);
    } else {
      SinceMember(b[1..], k - 1);
      assert b[1..][k - 1] == b[k];
      assert b[1..][k..] == b[k + 1..];
    }
  }

  /** The backward scan's answer: the largest index whose suffix reaches the
      soft limit, or -1. */
  function ScanIndex(b: seq<Content>): (k: int)
    ensures -1 <= k < |b|
  {
    if TokenSum(b) < SoftBufferLimit then -1
    else
      var k' := ScanIndex(b[1..]);
      if k' >= 0 then k' + 1 else 0
  }

  predicate IsScanPoint(b: seq<Content>, k: int) {
    && -1 <= k < |b|
    && (k == -1 ==> TokenSum(b) < SoftBufferLimit)
    && (k >= 0 ==> TokenSum(b[k..]) >= SoftBufferLimit && TokenSum(b[k + 1..]) < SoftBufferLimit)
  }

  lemma {:induction false} ScanIndexIsScanPoint(b: seq<Content>)
    ensures IsScanPoint(b, ScanIndex(b))
  {
    if TokenSum(b) >= SoftBufferLimit {
      ScanIndexIsScanPoint(b[1..]);
      var k' := ScanIndex(b[1..]);
      if k' >= 0 {
        assert b[1..][k'..] == b[k' + 1..];
        assert b[1..][k' + 1..] == b[k' + 2..];
      } else {
        assert b[0..] == b;
      }
    }
  }

  /** The scan point is unique, and nothing after it reaches the soft limit. */
  lemma ScanIndexLargest(b: seq<Content>, k: int)
    requires IsScanPoint(b, k)
    ensures k == ScanIndex(b)
    ensures forall j :: k < j <= |b| ==> TokenSum(b[j..]) < SoftBufferLimit
  {
    forall j | k < j <= |b| ensures TokenSum(b[j..]) < SoftBufferLimit {
      SuffixSumMonotone(b, k + 1, j);
    }
    ScanIndexIsScanPoint(b);
    var s := ScanIndex(b);
    if s < k {
      SuffixSumMonotone(b, s + 1, k);
    }
  }

  /** The backward `for` loop of `advance` over the buffer. */
  method ScanBack(b: seq<Content>) returns (k: int)
    ensures k == ScanIndex(b)
  {
    k := |b| - 1;
    var tokens := 0;
    while k >= 0
      invariant -1 <= k < |b|
      invariant tokens == TokenSum(b[k + 1..]) && tokens < SoftBufferLimit
    {
      assert b[k..][1..] == b[k + 1..];
      tokens := tokens + b[k].tokenLength;
      if tokens >= SoftBufferLimit {
        break;
      }
      k := k - 1;
    }
    assert k == -1 ==> b[0..] == b;
    ScanIndexLargest(b, k);
  }

  /** `s.slice(0, end)`: a negative end counts from the back. */
  function JsSliceTo<T>(s: seq<T>, end: int): (r: seq<T>)
    ensures |r| <= |s| && r == s[..|r|]
  {
    var e := if end < 0 then (if |s| + end < 0 then 0 else |s| + end)
             else (if end > |s| then |s| else end);
    s[..e]
  }

  datatype Compaction =
    | Deferred                                           // at or under the hard limit
    | Uncut                                              // over it, but no suffix reaches the soft limit
    | Cut(checkpoint: int, toSummarize: seq<Content>)    // the new checkpoint and the summarizer's lines

  /** The decision `advance` takes once the reply's token length is known:
      the buffer here is the stored one, without the new reply. */
  function Compact(buffer: seq<Content>, replyTokens: nat): Compaction {
    if TokenSum(buffer) + replyTokens <= HardBufferLimit then Deferred
    else
      var k := ScanIndex(buffer);
      if k < 0 then Uncut else Cut(buffer[k].id, JsSliceTo(buffer, k - 1))
  }

  /** Where the checkpoint lands and what is summarized: the checkpoint is
      the scan point's id, so the next buffer is the rows after it, which
      stay under the soft limit; the summarizer gets `buffer.slice(0, k-1)`. */
  lemma CompactCut(buffer: seq<Content>, replyTokens: nat)
    requires Ascending(buffer)
    requires Compact(buffer, replyTokens).Cut?
    ensures var k := ScanIndex(buffer);
            var cut := Compact(buffer, replyTokens);
            && 0 <= k < |buffer|
            && cut.checkpoint == buffer[k].id
            && cut.toSummarize == (if k >= 1 then buffer[..k - 1] else buffer[..|buffer| - 1])
            && Since(buffer, cut.checkpoint) == buffer[k + 1..]
            && TokenSum(buffer[k + 1..]) < SoftBufferLimit
  {
    ScanIndexIsScanPoint(buffer);
    SinceMember(buffer, ScanIndex(buffer));
  }

  /** With a scan point `k >= 1`, the rows at `k-1` and `k` reach neither
      the summarizer nor the next buffer: they drop out of the story's
      context for good. */
  lemma CompactDropsTwoRows(buffer: seq<Content>, replyTokens: nat)
    requires Ascending(buffer)
    requires Compact(buffer, replyTokens).Cut? && ScanIndex(buffer) >= 1
    ensures var k := ScanIndex(buffer);
            var cut := Compact(buffer, replyTokens);
            && buffer[k - 1] !in cut.toSummarize && buffer[k - 1] !in Since(buffer, cut.checkpoint)
            && buffer[k] !in cut.toSummarize && buffer[k] !in Since(buffer, cut.checkpoint)
  {
    var k := ScanIndex(buffer);
    CompactCut(buffer, replyTokens);
    SinceMembers(buffer, buffer[k].id);
    forall x | x in buffer[..k - 1] ensures x.id < buffer[k - 1].id {
      var i :| 0 <= i < k - 1 && buffer[..k - 1][i] == x;
      assert buffer[i] == x;
    }
  }

  /** With a scan point at the first row (one row alone reaches the soft
      limit), the slice end is -1: everything but the last row is
      summarized, and rows `1 .. |buffer|-2` are both summarized and kept in
      the next buffer. */
  lemma CompactFromFirstRow(buffer: seq<Content>, replyTokens: nat)
    requires Ascending(buffer) && |buffer| >= 3
    requires Compact(buffer, replyTokens).Cut? && ScanIndex(buffer) == 0
    ensures var cut := Compact(buffer, replyTokens);
            && cut.toSummarize == buffer[..|buffer| - 1]
            && forall i :: 1 <= i < |buffer| - 1 ==>
                 buffer[i] in cut.toSummarize && buffer[i] in Since(buffer, cut.checkpoint)
  {
    CompactCut(buffer, replyTokens);
    SinceMembers(buffer, buffer[0].id);
    forall i | 1 <= i < |buffer| - 1
      ensures buffer[i] in Compact(buffer, replyTokens).toSummarize
    {
      assert buffer[..|buffer| - 1][i] == buffer[i];
    }
  }

  /** Under the hard limit nothing is compacted. */
  lemma CompactDefers(buffer: seq<Content>, replyTokens: nat)
    requires TokenSum(buffer) + replyTokens <= HardBufferLimit
    ensures Compact(buffer, replyTokens) == Deferred
  {}

  /** The worked example: rows of 100, 100, 100, 100, 300 and 300 tokens
      (ids 1 to 6) and a 10-token reply: the scan stops at index 4, the
      checkpoint becomes 5, the first three rows are summarized and row 4 is
      dropped. */
  lemma CompactExample(iso: int -> string)
    ensures var b := [Content(1, 1, "a", 100, 0, 0), Content(2, 2, "b", 100, 0, 0),
                      Content(3, 1, "c", 100, 0, 0), Content(4, 2, "d", 100, 0, 0),
                      Content(5, 1, "e", 300, 0, 0), Content(6, 2, "f", 300, 0, 0)];
            Compact(b, 10) == Cut(5, b[..3])
  {
    var b := [Content(1, 1, "a", 100, 0, 0), Content(2, 2, "b", 100, 0, 0),
              Content(3, 1, "c", 100, 0, 0), Content(4, 2, "d", 100, 0, 0),
              Content(5, 1, "e", 300, 0, 0), Content(6, 2, "f", 300, 0, 0)];
    assert TokenSum(b[5..]) == 300;
    assert TokenSum(b[4..]) == 600;
    assert TokenSum(b[3..]) == 700;
    assert TokenSum(b[2..]) == 800;
    assert TokenSum(b[1..]) == 900;
    assert TokenSum(b) == 1000;
    assert IsScanPoint(b, 4);
    ScanIndexLargest(b, 4);
  }

  // ---------------------------------------------------------------------
  // One turn
  // ---------------------------------------------------------------------

  /** The chat completion's answer after the retries: a failure, a response
      without a message, or a message. */
  datatype Completion =
    | CompletionFailed(message: string)
    | NoMessage
    | Message(role: Role, content: string, totalTokens: nat)

  /** The summarization completion's answer; a missing choice reads as "". */
  datatype SummaryCompletion = SummaryFailed(message: string) | SummaryText(text: string)

  /** The story row as `advance` reads it. */
  datatype Snapshot = Snapshot(userCharId: int, setup: Option<string>, fabula: Option<string>,
                               checkpoint: Option<int>, summary: Option<string>,
                               contents: seq<Content>)

  /** What one successful turn persists in its final transaction. */
  datatype Turn = Turn(line: Content, checkpoint: Option<int>, summary: Option<string>)

  /** `story.checkpoint || 0` */
  function Floor(checkpoint: Option<int>): int {
    if checkpoint.Some? && checkpoint.value != 0 then checkpoint.value else 0
  }

  function BufferOf(s: Snapshot): seq<Content> {
    Since(s.contents, Floor(s.checkpoint))
  }

  /** The id the log gives the next row. */
  function NextId(cs: seq<Content>): (id: int)
    ensures forall i :: 0 <= i < |cs| && Ascending(cs) ==> cs[i].id < id
  {
    if cs == [] then 1 else cs[|cs| - 1].id + 1
  }

  /** A row stored under the next id keeps the log in ascending order. */
  lemma AppendNext(cs: seq<Content>, line: Content)
    requires Ascending(cs) && line.id == NextId(cs)
    ensures Ascending(cs + [line])
  {
    var r := cs + [line];
    forall i, j | 0 <= i < j < |r| ensures r[i].id < r[j].id {
      if j == |cs| {
        assert r[i] == cs[i];
      } else {
        assert r[i] == cs[i] && r[j] == cs[j];
      }
    }
  }

  /** The reply after the retries, checked and attributed. */
  function Replied(cs: seq<Character>, reply: Completion): Result<Attribution> {
    match reply
    case CompletionFailed(m) => Err(Plain(m))
    case NoMessage => Err(Plain("No message in response from OpenAI"))
    case Message(role, text, _) =>
      if role != Assistant then Err(Plain("Unexpected non-assistant response from OpenAI"))
      else Attribute(cs, text)
  }

  /** The checkpoint and summary a turn writes back. */
  datatype Memory = Memory(checkpoint: Option<int>, summary: Option<string>)

  /** Compaction, given the stored buffer and the reply's token length: a
      cut takes the summarizer's text, which must not be empty. */
  function Settle(buffer: seq<Content>, replyTokens: nat, m: Memory, summarizer: SummaryCompletion): Result<Memory> {
    match Compact(buffer, replyTokens)
    case Cut(checkpoint, _) =>
      (match summarizer
       case SummaryFailed(e) => Err(Plain(e))
       case SummaryText(t) =>
         if t == "" then Err(Plain("No text in response from OpenAI"))
         else Ok(Memory(Some(checkpoint), Some(t))))
    case _ => Ok(m)
  }

  /** The compaction step of `advance`: the token total, the backward scan
      and the summarizer's answer; `toSummarize` is the rows the summarizer
      is sent, none when it is not called. */
  method SettleBuffer(buffer: seq<Content>, replyTokens: nat, m: Memory, summarizer: SummaryCompletion)
    returns (r: Result<Memory>, toSummarize: Option<seq<Content>>)
    ensures r == Settle(buffer, replyTokens, m, summarizer)
    ensures var c := Compact(buffer, replyTokens);
            toSummarize == if c.Cut? then Some(c.toSummarize) else None
  {
    r := Ok(m);
    toSummarize := None;
    if TokenSum(buffer) + replyTokens > HardBufferLimit {
      var k := ScanBack(buffer);
      if k >= 0 {
        toSummarize := Some(JsSliceTo(buffer, k - 1));
        if summarizer.SummaryFailed? {
          r := Err(Plain(summarizer.message));
        } else if summarizer.text == "" {
          r := Err(Plain("No text in response from OpenAI"));
        } else {
          r := Ok(Memory(Some(buffer[k].id), Some(summarizer.text)));
        }
      }
    }
  }

  /** The outcome of `advance` on a snapshot. */
  function Plan(s: Snapshot, w: World, reply: Completion, summarizer: SummaryCompletion): Result<Turn> {
    var buffer := BufferOf(s);
    var context := Context(s.setup, w.characters, s.summary, s.fabula, buffer, s.userCharId, w.iso, w.now);
    if context.Err? then Err(context.error)
    else match Replied(w.characters, reply)
      case Err(e) => Err(e)
      case Ok(a) =>
        var tokens := w.tok(a.text);
        match Settle(buffer, tokens, Memory(s.checkpoint, s.summary), summarizer)
        case Err(e) => Err(e)
        case Ok(m) =>
          Ok(Turn(Content(NextId(s.contents), a.speaker.id, a.text, tokens, reply.totalTokens, w.createdAt),
                  m.checkpoint, m.summary))
  }

  /** A turn stores the attributed reply, measured by the tokenizer, under
      the next id. */
  lemma PlanStoresReply(s: Snapshot, w: World, reply: Completion, summarizer: SummaryCompletion)
    requires Plan(s, w, reply, summarizer).Ok?
    ensures var line := Plan(s, w, reply, summarizer).value.line;
            var a := Attribute(w.characters, reply.content);
            && reply.Message? && reply.role == Assistant && a.Ok?
            && line.charId == a.value.speaker.id && line.text == a.value.text
            && line.tokenLength == w.tok(line.text) && line.tokenUsage == reply.totalTokens
            && line.id == NextId(s.contents)
  {}

  /** A turn whose buffer plus reply stays within the hard limit writes the
      checkpoint and the summary back unchanged. */
  lemma PlanWithinHardLimit(s: Snapshot, w: World, reply: Completion, summarizer: SummaryCompletion)
    requires Plan(s, w, reply, summarizer).Ok?
    requires TokenSum(BufferOf(s)) + Plan(s, w, reply, summarizer).value.line.tokenLength <= HardBufferLimit
    ensures Plan(s, w, reply, summarizer).value.checkpoint == s.checkpoint
    ensures Plan(s, w, reply, summarizer).value.summary == s.summary
  {}

  /** A successful turn's checkpoint and summary are what compaction
      settles on for the stored buffer and the reply's length. */
  lemma PlanSettles(s: Snapshot, w: World, reply: Completion, summarizer: SummaryCompletion)
    requires Plan(s, w, reply, summarizer).Ok?
    ensures var t := Plan(s, w, reply, summarizer).value;
            && Settle(BufferOf(s), t.line.tokenLength, Memory(s.checkpoint, s.summary), summarizer)
               == Ok(Memory(t.checkpoint, t.summary))
            && t.line.id == NextId(s.contents)
  {}

  /** Compaction of the rows after `floor` moves the checkpoint strictly
      forward to one of those rows, below every id still to come, takes the
      summarizer's non-empty text, and leaves a buffer under the soft limit. */
  lemma SettleCompacts(contents: seq<Content>, floor: int, tokens: nat, m: Memory, summarizer: SummaryCompletion)
    requires Ascending(contents)
    requires Compact(Since(contents, floor), tokens).Cut?
    requires Settle(Since(contents, floor), tokens, m, summarizer).Ok?
    ensures var buffer := Since(contents, floor);
            var n := Settle(buffer, tokens, m, summarizer).value;
            && n.checkpoint.Some? && floor < n.checkpoint.value < NextId(contents)
            && (exists i :: 0 <= i < |buffer| && buffer[i].id == n.checkpoint.value)
            && summarizer == SummaryText(n.summary.value) && n.summary.value != ""
            && TokenSum(Since(contents, n.checkpoint.value)) < SoftBufferLimit
  {
    var buffer := Since(contents, floor);
    SinceAscending(contents, floor);
    SettleCut(buffer, tokens, m, summarizer);
    var k := ScanIndex(buffer);
    SinceMembers(contents, floor);
    assert buffer[k] in buffer;
    SinceTwice(contents, floor, buffer[k].id);
    var i :| 0 <= i < |contents| && contents[i] == buffer[k];
    assert contents[i].id < NextId(contents);
  }

  /** The memory a compaction settles on: the scan point's id and the
      summarizer's text, with the rows after the scan point left. */
  lemma SettleCut(buffer: seq<Content>, tokens: nat, m: Memory, summarizer: SummaryCompletion)
    requires Ascending(buffer)
    requires Compact(buffer, tokens).Cut?
    requires Settle(buffer, tokens, m, summarizer).Ok?
    ensures var k := ScanIndex(buffer);
            && 0 <= k < |buffer|
            && summarizer.SummaryText? && summarizer.text != ""
            && Settle(buffer, tokens, m, summarizer).value == Memory(Some(buffer[k].id), Some(summarizer.text))
            && Since(buffer, buffer[k].id) == buffer[k + 1..]
            && TokenSum(buffer[k + 1..]) < SoftBufferLimit
  {
    CompactCut(buffer, tokens);
  }

  /** The gap between the two limits at work: a compaction leaves less
      than the soft limit buffered, so the next turn compacts again only
      when the reply just stored and the next reply together take more than
      the hard limit minus the soft one. */
  lemma CompactionSpacing(contents: seq<Content>, floor: int, tokens: nat, m: Memory,
                          summarizer: SummaryCompletion, line: Content, nextTokens: nat)
    requires Ascending(contents)
    requires Compact(Since(contents, floor), tokens).Cut?
    requires Settle(Since(contents, floor), tokens, m, summarizer).Ok?
    requires line.id == NextId(contents) && line.tokenLength == tokens
    requires tokens + nextTokens <= HardBufferLimit - SoftBufferLimit
    ensures var n := Settle(Since(contents, floor), tokens, m, summarizer).value;
            n.checkpoint.Some? && Compact(Since(contents + [line], n.checkpoint.value), nextTokens) == Deferred
  {
    var n := Settle(Since(contents, floor), tokens, m, summarizer).value;
    SettleCompacts(contents, floor, tokens, m, summarizer);
    var cp := n.checkpoint.value;
    SinceAppend(contents, [line], cp);
    assert Since([line], cp) == [line] by {
      assert [line][1..] == [];
    }
    TokenSumAppend(Since(contents, cp), [line]);
    assert TokenSum([line]) == tokens by {
      assert [line][1..] == [];
    }
  }

  /** A turn that compacts moves the checkpoint strictly forward, to a row
      of the buffer, replaces the summary with the summarizer's non-empty
      text, leaves a stored buffer under the soft limit, and the reply it
      stores opens the next buffer's tail. */
  lemma PlanCompacts(s: Snapshot, w: World, reply: Completion, summarizer: SummaryCompletion)
    requires Ascending(s.contents)
    requires Plan(s, w, reply, summarizer).Ok?
    requires Compact(BufferOf(s), Plan(s, w, reply, summarizer).value.line.tokenLength).Cut?
    ensures var t := Plan(s, w, reply, summarizer).value;
            && t.checkpoint.Some? && t.checkpoint.value > Floor(s.checkpoint)
            && (exists i :: 0 <= i < |BufferOf(s)| && BufferOf(s)[i].id == t.checkpoint.value)
            && summarizer == SummaryText(t.summary.value) && t.summary.value != ""
            && TokenSum(Since(s.contents, t.checkpoint.value)) < SoftBufferLimit
            && Since(s.contents + [t.line], t.checkpoint.value) == Since(s.contents, t.checkpoint.value) + [t.line]
  {
    var t := Plan(s, w, reply, summarizer).value;
    PlanSettles(s, w, reply, summarizer);
    SettleCompacts(s.contents, Floor(s.checkpoint), t.line.tokenLength, Memory(s.checkpoint, s.summary), summarizer);
    SinceAppend(s.contents, [t.line], t.checkpoint.value);
    assert Since([t.line], t.checkpoint.value) == [t.line] by {
      assert [t.line][1..] == [];
    }
  }

  /** An empty summary fails the whole turn: the reply is not stored either. */
  lemma PlanEmptySummaryFails(s: Snapshot, w: World, reply: Completion)
    requires Context(s.setup, w.characters, s.summary, s.fabula, BufferOf(s), s.userCharId, w.iso, w.now).Ok?
    requires Replied(w.characters, reply).Ok?
    requires Compact(BufferOf(s), w.tok(Replied(w.characters, reply).value.text)).Cut?
    ensures Plan(s, w, reply, SummaryText("")) == Err(Plain("No text in response from OpenAI"))
  {}

  /** What the summarizer is sent: the old summary the prompt carries
      (`story.summary || story.fabula`, left out when falsy) and the rows
      listed under the new lines. */
  datatype SummaryRequest = SummaryRequest(oldSummary: Option<string>, newLines: seq<Content>)

  function OldSummary(summary: Option<string>, fabula: Option<string>): (r: Option<string>)
    ensures Truthy(summary) ==> r == summary
    ensures !Truthy(summary) && Truthy(fabula) ==> r == fabula
    ensures !Truthy(summary) && !Truthy(fabula) ==> r.None?
  {
    var o := Or(summary, fabula);
    if Truthy(o) then o else None
  }

  class Story {
    const userCharId: int
    /** The setup of the story's collection. */
    const setup: Option<string>
    const fabula: Option<string>
    var checkpoint: Option<int>
    var summary: Option<string>
    /** The story's content log, in id order. */
    var contents: seq<Content>

    ghost predicate Valid()
      reads this
    {
      Ascending(contents)
    }

    function Snap(): Snapshot
      reads this
    {
      Snapshot(userCharId, setup, fabula, checkpoint, summary, contents)
    }

    constructor (userCharId: int, setup: Option<string>, fabula: Option<string>)
      ensures Valid()
      ensures this.userCharId == userCharId && this.setup == setup && this.fabula == fabula
      ensures checkpoint == None && summary == None && contents == []
    {
      this.userCharId := userCharId;
      this.setup := setup;
      this.fabula := fabula;
      checkpoint := None;
      summary := None;
      contents := [];
    }

    /** `advance`: everything is read, generated and decided first; a single
        final transaction appends the reply and writes the checkpoint and
        summary back, so any failure leaves the story as it was. */
    method Advance(w: World, reply: Completion, summarizer: SummaryCompletion)
      returns (context: Result<seq<Entry>>, request: Option<SummaryRequest>, r: Result<int>)
      requires Valid()
      modifies this
      ensures Valid()
      ensures context == Context(setup, w.characters, old(summary), fabula, BufferOf(old(Snap())),
                                 userCharId, w.iso, w.now)
      ensures var spoken := Replied(w.characters, reply);
              request.Some? <==>
                context.Ok? && spoken.Ok? && Compact(BufferOf(old(Snap())), w.tok(spoken.value.text)).Cut?
      ensures request.Some? ==>
                var spoken := Replied(w.characters, reply);
                request.value == SummaryRequest(OldSummary(old(summary), fabula),
                                                Compact(BufferOf(old(Snap())), w.tok(spoken.value.text)).toSummarize)
      ensures Plan(old(Snap()), w, reply, summarizer).Ok? ==>
                var t := Plan(old(Snap()), w, reply, summarizer).value;
                r == Ok(t.line.id) && contents == old(contents) + [t.line]
                && checkpoint == t.checkpoint && summary == t.summary
      ensures Plan(old(Snap()), w, reply, summarizer).Err? ==>
                r == Err(Plan(old(Snap()), w, reply, summarizer).error) && unchanged(this)
    {
      var buffer := Since(contents, Floor(checkpoint));
      context := AssembleContext(setup, w.characters, summary, fabula, buffer, userCharId, w.iso, w.now);
      if context.Err? {
        return context, None, Err(context.error);
      }
      var spoken := Replied(w.characters, reply);
      if spoken.Err? {
        return context, None, Err(spoken.error);
      }
      var text := spoken.value.text;
      var tokens := w.tok(text);
      var memory, toSummarize := SettleBuffer(buffer, tokens, Memory(checkpoint, summary), summarizer);
      request := if toSummarize.Some? then Some(SummaryRequest(OldSummary(summary, fabula), toSummarize.value))
                 else None;
      if memory.Err? {
        return context, request, Err(memory.error);
      }
      var line := Content(NextId(contents), spoken.value.speaker.id, text, tokens,
                          reply.totalTokens, w.createdAt);
      AppendNext(contents, line);
      contents := contents + [line];
      checkpoint := memory.value.checkpoint;
      summary := memory.value.summary;
      r := Ok(line.id);
    }
  }
}

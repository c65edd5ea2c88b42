/**
 * The chat-history rules of routes/chats.ts: which messages the language model is shown on
 * each turn, and which of them are written back to the day's chat file.  The model's reply
 * is a function of the prompt (`llm`), the clock's strings (`nowLocal`, ISO time) are
 * parameters, and the futures summary is the text `analyzeFuturesForDate` produced.
 */
module Chats {
  import opened Wrappers
  import opened Text
  import opened Positions

  datatype Message = Message(role: string, content: string, tag: Option<string>)

  function System(content: string): Message {
    Message("system", content, None)
  }

  function User(content: string): Message {
    Message("user", content, None)
  }

  function Assistant(content: string): Message {
    Message("assistant", content, None)
  }

  /** The request the latest-news stream sends in the user's place. */
  const LatestNewsRequest := "最新消息更新（自动）"

  /** `buildTimeContext(date)` with `nowLocal()` given as `now`. */
  function TimeContext(date: string, now: string): (m: Message)
    ensures m.role == "system" && m.tag == None
  {
    System("当前日期：" + date + "\n当前时间：" + now + "\n")
  }

  /** The system message that carries the futures analysis. */
  function SummaryMessage(futuresSummary: string): (m: Message)
    ensures m.role == "system" && m.tag == None
  {
    System("期货K线分析：\n" + futuresSummary)
  }

  /** `buildPositionsMessageFromSnapshot`: none without a non-empty snapshot; formatting may throw. */
  function PositionsMessage(r: Render, snap: Option<Snapshot>): (res: Result<Option<Message>>)
    ensures res == Ok(None) <==> snap.None? || snap.value.entries == []
    ensures res.Err? <==>
      snap.Some? && snap.value.entries != [] && FormatPositions(r, snap.value.entries, snap.value.totalAssets).Err?
    ensures res.Ok? && res.value.Some? ==>
      snap.Some? && res.value.value.role == "system" &&
      FormatPositions(r, snap.value.entries, snap.value.totalAssets) == Ok(res.value.value.content)
  {
    if snap.None? || snap.value.entries == [] then Ok(None)
    else
      match FormatPositions(r, snap.value.entries, snap.value.totalAssets)
      case Err(msg) => Err(msg)
      case Ok(text) => Ok(Some(System(text)))
  }

  /** The context put before the history on every turn and never persisted by a turn. */
  function Context(positions: Option<Message>, timeCtx: Message, summary: Message): (c: seq<Message>)
    ensures |c| == if positions.Some? then 3 else 2
  {
    (if positions.Some? then [positions.value] else []) + [timeCtx, summary]
  }

  /** A chat file: absent, present but not JSON, or its `messages` (`[]` when missing). */
  datatype ChatFile = NoChat | BadChat | ChatJson(messages: seq<Message>)

  /** `String(body.text || "").trim()`. */
  function UserText(text: Option<string>): string {
    if text.Some? then Trim(text.value) else ""
  }

  /** What a message turn answers: an HTTP error, or the prompt sent and the history written back. */
  datatype Turn = Refused(status: nat, error: string) | Answered(prompt: seq<Message>, persisted: seq<Message>)

  /** `POST /chat/:date/message` (and its streaming twin). */
  function MessageTurn(text: Option<string>, file: ChatFile, positions: Result<Option<Message>>,
                       timeCtx: Message, summary: Message, llm: seq<Message> -> string): (t: Turn)
    ensures t.Refused? ==> t.status in {400, 404, 500}
  {
    var userText := UserText(text);
    if userText == "" then Refused(400, "empty_text")
    else
      match file
      case NoChat => Refused(404, "not_found")
      case BadChat => Refused(500, "chat_message_failed")
      case ChatJson(base) =>
        match positions
        case Err(_) => Refused(500, "chat_message_failed")
        case Ok(p) =>
          var prompt := Context(p, timeCtx, summary) + base + [User(userText)];
          Answered(prompt, base + [User(userText), Assistant(llm(prompt))])
  }

  /** A blank message is refused whatever the chat file holds. */
  lemma BlankTextRefused(text: Option<string>, file: ChatFile, positions: Result<Option<Message>>,
                         timeCtx: Message, summary: Message, llm: seq<Message> -> string)
    requires text.None? || Trim(text.value) == ""
    ensures MessageTurn(text, file, positions, timeCtx, summary, llm) == Refused(400, "empty_text")
  {
  }

  /** A turn is answered exactly when the text is not blank, the chat parses and the positions format. */
  lemma AnsweredIff(text: Option<string>, file: ChatFile, positions: Result<Option<Message>>,
                    timeCtx: Message, summary: Message, llm: seq<Message> -> string)
    ensures MessageTurn(text, file, positions, timeCtx, summary, llm).Answered? <==>
      UserText(text) != "" && file.ChatJson? && positions.Ok?
    ensures UserText(text) != "" && file.NoChat? ==>
      MessageTurn(text, file, positions, timeCtx, summary, llm) == Refused(404, "not_found")
  {
  }

  /**
   * The prompt is the context, then the stored history and the new message; the written history
   * is the stored one with the new message and the reply: the context is shown, never kept.
   */
  lemma TurnKeepsOnlyTheExchange(text: Option<string>, base: seq<Message>, positions: Option<Message>,
                                 timeCtx: Message, summary: Message, llm: seq<Message> -> string)
    requires UserText(text) != ""
    ensures var t := MessageTurn(text, ChatJson(base), Ok(positions), timeCtx, summary, llm);
      var ctx := Context(positions, timeCtx, summary);
      t.Answered? &&
      t.prompt[..|ctx|] == ctx &&
      t.prompt[|ctx|..] == t.persisted[..|t.persisted| - 1] &&
      t.persisted[..|base|] == base &&
      multiset(t.persisted) == multiset(base) + multiset{User(UserText(text)), Assistant(llm(t.prompt))}
  {
    var t := MessageTurn(text, ChatJson(base), Ok(positions), timeCtx, summary, llm);
    var ctx := Context(positions, timeCtx, summary);
    var u := User(UserText(text));
    assert t.prompt == ctx + (base + [u]);
    assert t.persisted == (base + [u]) + [Assistant(llm(t.prompt))];
  }

  /** Two turns on the same day append two exchanges, in order. */
  lemma TurnsAccumulate(t1: Option<string>, t2: Option<string>, base: seq<Message>, positions: Option<Message>,
                        timeCtx: Message, summary: Message, llm: seq<Message> -> string)
    requires UserText(t1) != "" && UserText(t2) != ""
    ensures var a := MessageTurn(t1, ChatJson(base), Ok(positions), timeCtx, summary, llm);
      var b := MessageTurn(t2, ChatJson(a.persisted), Ok(positions), timeCtx, summary, llm);
      a.Answered? && b.Answered? &&
      b.persisted == base + [User(UserText(t1)), Assistant(llm(a.prompt)),
                             User(UserText(t2)), Assistant(llm(b.prompt))]
  {
  }

  /** `POST /chat/:date/sync-previous`: refused, or the new day's history. */
  datatype Synced = SyncRefused(status: nat, error: string) | SyncCreated(messages: seq<Message>)

  /** `targetExists` is whether today's chat file exists; `previous` is the day before's file. */
  function SyncPrevious(targetExists: bool, previous: ChatFile, timeCtx: Message): (s: Synced)
    ensures s.SyncRefused? ==> s.status in {404, 409, 500}
  {
    if targetExists then SyncRefused(409, "already_exists")
    else
      match previous
      case NoChat => SyncRefused(404, "prev_not_found")
      case BadChat => SyncRefused(500, "sync_failed")
      case ChatJson(ms) => SyncCreated([timeCtx] + ms)
  }

  /** An existing day is never overwritten; otherwise the new history is the time context and then yesterday's. */
  lemma SyncNeverOverwrites(targetExists: bool, previous: ChatFile, timeCtx: Message)
    ensures targetExists ==> SyncPrevious(targetExists, previous, timeCtx) == SyncRefused(409, "already_exists")
    ensures !targetExists && previous.NoChat? ==>
      SyncPrevious(targetExists, previous, timeCtx) == SyncRefused(404, "prev_not_found")
    ensures SyncPrevious(targetExists, previous, timeCtx).SyncCreated? <==> !targetExists && previous.ChatJson?
    ensures SyncPrevious(targetExists, previous, timeCtx).SyncCreated? ==>
      var ms := SyncPrevious(targetExists, previous, timeCtx).messages;
      |ms| == |previous.messages| + 1 && ms[0] == timeCtx && ms[1..] == previous.messages
  {
  }

  /** What a streaming handler (start or latest news) does: it fails, or it shows a prompt and writes a history. */
  datatype Stream = StreamFailed | Streamed(prompt: seq<Message>, persisted: seq<Message>)

  /** A chat that does not exist or does not parse starts from the strategy prompt. */
  function NewsBase(file: ChatFile, strategy: string): (base: seq<Message>)
    ensures file.ChatJson? ==> base == file.messages
    ensures !file.ChatJson? ==> base == [Assistant(strategy)]
  {
    if file.ChatJson? then file.messages else [Assistant(strategy)]
  }

  /** `GET /chat/:date/news/latest/stream`, from the chat file it first reads. */
  function LatestNews(file: ChatFile, strategy: string, positions: Result<Option<Message>>,
                      timeCtx: Message, summary: Message, news: string, llm: seq<Message> -> string): (n: Stream)
    ensures n.StreamFailed? <==> positions.Err?
  {
    match positions
    case Err(_) => StreamFailed
    case Ok(p) =>
      var base := NewsBase(file, strategy);
      var request := [User(LatestNewsRequest), System(news)];
      var prompt := Context(p, timeCtx, summary) + base + request;
      var reply := Message("assistant", llm(prompt), Some("latest_news"));
      Streamed(prompt, base + request + [summary, timeCtx, reply])
  }

  /**
   * Unlike a message turn, the news update keeps its context: after the history come the
   * request, the news, the futures summary, the time context and the tagged reply.
   */
  lemma NewsKeepsItsContext(file: ChatFile, strategy: string, positions: Option<Message>,
                            timeCtx: Message, summary: Message, news: string, llm: seq<Message> -> string)
    ensures var n := LatestNews(file, strategy, Ok(positions), timeCtx, summary, news, llm);
      var base := NewsBase(file, strategy);
      n.Streamed? && |n.persisted| == |base| + 5 && n.persisted[..|base|] == base &&
      n.persisted[|base|..] == [User(LatestNewsRequest), System(news), summary, timeCtx,
                                Message("assistant", llm(n.prompt), Some("latest_news"))]
  {
    var n := LatestNews(file, strategy, Ok(positions), timeCtx, summary, news, llm);
    var base := NewsBase(file, strategy);
    var tail := [User(LatestNewsRequest), System(news), summary, timeCtx,
                 Message("assistant", llm(n.prompt), Some("latest_news"))];
    assert n.persisted == base + tail;
  }

  /** Only the appended reply carries the tag when the stored history carries none. */
  lemma OnlyTheReplyIsTagged(file: ChatFile, strategy: string, positions: Option<Message>,
                             timeCtx: Message, summary: Message, news: string, llm: seq<Message> -> string)
    requires summary.tag == None && timeCtx.tag == None
    requires file.ChatJson? ==> forall i :: 0 <= i < |file.messages| ==> file.messages[i].tag == None
    ensures var n := LatestNews(file, strategy, Ok(positions), timeCtx, summary, news, llm);
      n.Streamed? &&
      forall i :: 0 <= i < |n.persisted| ==> (n.persisted[i].tag.Some? <==> i == |n.persisted| - 1)
  {
    var n := LatestNews(file, strategy, Ok(positions), timeCtx, summary, news, llm);
    var base := NewsBase(file, strategy);
    NewsKeepsItsContext(file, strategy, positions, timeCtx, summary, news, llm);
    forall i | 0 <= i < |n.persisted| ensures n.persisted[i].tag.Some? <==> i == |n.persisted| - 1 {
      if i < |base| {
        assert n.persisted[i] == base[i];
      } else {
        assert n.persisted[i] == n.persisted[|base|..][i - |base|];
      }
    }
  }

  /** Without a readable chat the written history starts with the strategy prompt. */
  lemma NewsOnEmptyDay(file: ChatFile, strategy: string, positions: Option<Message>,
                       timeCtx: Message, summary: Message, news: string, llm: seq<Message> -> string)
    requires !file.ChatJson?
    ensures var n := LatestNews(file, strategy, Ok(positions), timeCtx, summary, news, llm);
      n.Streamed? && |n.persisted| == 6 && n.persisted[0] == Assistant(strategy)
  {
  }

  const OpenerLead := "阅读下面内容并结合我的仓位，给出投资建议；当没有明确信号时，请保持观望。\n\n"

  /** The first user message: the instruction, the positions summary when there is one, then the news. */
  function Opener(positionsSummary: string, news: string): string {
    OpenerLead + (if positionsSummary != "" then positionsSummary + "\n\n" else "") + news
  }

  /** `POST /chat/start/:date`: the whole prompt is kept, followed by the advice. */
  function StartChat(strategy: string, positionsSummary: Result<string>, timeCtx: Message, summary: Message,
                     news: string, llm: seq<Message> -> string): (n: Stream)
    ensures n.StreamFailed? <==> positionsSummary.Err?
  {
    match positionsSummary
    case Err(_) => StreamFailed
    case Ok(ps) =>
      var prompt := [Assistant(strategy), timeCtx, summary, User(Opener(ps, news))];
      Streamed(prompt, prompt + [Assistant(llm(prompt))])
  }

  /** A new chat keeps the strategy, the context and the opener, and ends with the advice. */
  lemma StartKeepsThePrompt(strategy: string, ps: string, timeCtx: Message, summary: Message,
                            news: string, llm: seq<Message> -> string)
    ensures var n := StartChat(strategy, Ok(ps), timeCtx, summary, news, llm);
      n.Streamed? && |n.persisted| == 5 && n.persisted[..4] == n.prompt &&
      n.persisted[0] == Assistant(strategy) && n.persisted[4] == Assistant(llm(n.prompt))
  {
  }

  /** Without positions the opener is the instruction and then the news alone. */
  lemma OpenerWithoutPositions(news: string)
    ensures Opener("", news) == OpenerLead + news
  {
  }

  /** A chat file's object: the handlers replace `messages` and `updatedAt` and keep the rest. */
  class Chat {
    var date: string
    var createdAt: Option<string>
    var messages: seq<Message>
    var updatedAt: Option<string>

    constructor (date: string, createdAt: Option<string>, messages: seq<Message>)
      ensures this.date == date && this.createdAt == createdAt
      ensures this.messages == messages && updatedAt == None
    {
      this.date := date;
      this.createdAt := createdAt;
      this.messages := messages;
      updatedAt := None;
    }

    /** `chat.messages = persisted; chat.updatedAt = now`. */
    method Save(persisted: seq<Message>, now: string)
      modifies this
      ensures messages == persisted && updatedAt == Some(now)
      ensures date == old(date) && createdAt == old(createdAt)
    {
      messages := persisted;
      updatedAt := Some(now);
    }
  }

  /** The file a parsed chat object came from; `found` says whether the file exists at all. */
  function FileOf(found: bool, chat: Chat?): (f: ChatFile)
    reads chat
    ensures f.ChatJson? <==> found && chat != null
  {
    if !found then NoChat else if chat == null then BadChat else ChatJson(chat.messages)
  }

  /**
   * The message handler on the parsed chat object (`null` when the file does not parse): it
   * answers as `MessageTurn` and, when answered, saves the new history in place.
   */
  method PostMessage(text: Option<string>, found: bool, chat: Chat?, positions: Result<Option<Message>>,
                     timeCtx: Message, summary: Message, llm: seq<Message> -> string, now: string)
    returns (t: Turn)
    modifies chat
    ensures t == MessageTurn(text, old(FileOf(found, chat)), positions, timeCtx, summary, llm)
    ensures t.Answered? ==> chat != null && chat.messages == t.persisted && chat.updatedAt == Some(now)
    ensures chat != null ==> chat.date == old(chat.date) && chat.createdAt == old(chat.createdAt)
    ensures t.Refused? && chat != null ==> chat.messages == old(chat.messages) && chat.updatedAt == old(chat.updatedAt)
  {
    t := MessageTurn(text, FileOf(found, chat), positions, timeCtx, summary, llm);
    if t.Answered? {
      chat.Save(t.persisted, now);
    }
  }

  /**
   * The news stream's write: the history built from the first read replaces the messages of the
   * chat read again just before writing (`reread`, or a new `{date, messages: []}`).
   */
  method SaveLatestNews(file: ChatFile, reread: Chat?, date: string, strategy: string,
                        positions: Result<Option<Message>>, timeCtx: Message, summary: Message, news: string,
                        llm: seq<Message> -> string, now: string)
    returns (n: Stream, saved: Chat?)
    modifies reread
    ensures n == LatestNews(file, strategy, positions, timeCtx, summary, news, llm)
    ensures n.StreamFailed? ==> saved == null
    ensures n.Streamed? ==> saved != null && saved.messages == n.persisted && saved.updatedAt == Some(now)
    ensures n.Streamed? && reread != null ==> saved == reread && saved.createdAt == old(reread.createdAt)
    ensures n.Streamed? && reread == null ==> fresh(saved) && saved.date == date && saved.createdAt == None
  {
    n := LatestNews(file, strategy, positions, timeCtx, summary, news, llm);
    saved := null;
    if n.Streamed? {
      if reread != null {
        saved := reread;
      } else {
        saved := new Chat(date, None, []);
      }
      saved.Save(n.persisted, now);
    }
  }
}

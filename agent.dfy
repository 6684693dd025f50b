/**
 * The per-user conversation-history manager of the chat proxy.
 *
 * A `ConversationStore` owns the in-process cache, a map from `"conversation:" + userId`
 * to a `Conversation`. Each of its operations is specified by a function from the cache
 * before to its result and the cache after (`PrepareStep`, `CommitStep`, `TalkStep`,
 * `ResetStep`), whose contracts state what the operation promises.
 *
 * `talkWithGPT` is split around the external completion call: `Prepare` validates,
 * reinitialises the stored conversation when needed and builds the message list to
 * submit; `Commit` receives the call's `Completion` and, on success in memory mode,
 * appends the assistant turn, keeps only the most recent messages and writes the
 * conversation back. Values are immutable, so the cache's copy-on-read behaviour needs
 * no modelling.
 */
module Agent {
  import opened Wrappers
  import opened JsBuiltins

  const ROLE_SYSTEM := "system"
  const ROLE_USER := "user"
  const ROLE_ASSISTANT := "assistant"

  /** Used when the environment does not set HISTORY_LIMIT. */
  const DEFAULT_HISTORY_LIMIT := 20

  const CACHE_KEY_PREFIX := "conversation:"

  const USER_ID_REQUIRED := "userId is required"
  const USER_PROMPT_REQUIRED := "userPrompt is required"
  const NO_RESPONSE := "No response received from OpenAI API"
  const UNKNOWN_ERROR := "Unknown error occurred"

  datatype Message = Message(role: string, content: string)

  datatype Conversation = Conversation(
    messages: seq<Message>,
    lastSystemPrompt: string,
    createdAt: int,
    updatedAt: int)

  /** The request fields the manager reads; an absent `userId` is `None`. */
  datatype Request = Request(
    userId: Option<string>,
    systemPrompt: string,
    userPrompt: string,
    useMemory: bool)

  /** What the external completion call produced. */
  datatype Completion =
    | Throws(message: Option<string>)
    | NoMessage
    | Reply(role: string, content: Option<string>)

  datatype AssistantResponse = AssistantResponse(role: string, content: string)

  /** The success value of `talkWithGPT`; `history` is present only in memory mode. */
  datatype Answer = Answer(response: AssistantResponse, history: Option<seq<Message>>)

  /** The state `talkWithGPT` carries across the completion call. */
  datatype Prepared = Prepared(
    userId: string,
    systemPrompt: string,
    useMemory: bool,
    messagesToSend: seq<Message>,
    conversationToUpdate: Option<Conversation>)

  /** `getUserCacheKey`: the prefix followed by the user id, which can be read back from the key. */
  function CacheKey(userId: string): (key: string)
    ensures |key| == |CACHE_KEY_PREFIX| + |userId|
    ensures key[..|CACHE_KEY_PREFIX|] == CACHE_KEY_PREFIX
    ensures key[|CACHE_KEY_PREFIX|..] == userId
  {
    CACHE_KEY_PREFIX + userId
  }

  /** Distinct user ids never share a cache entry. */
  lemma CacheKeyInjective(a: string, b: string)
    ensures CacheKey(a) == CacheKey(b) <==> a == b
  {
    if CacheKey(a) == CacheKey(b) {
      assert a == CacheKey(a)[|CACHE_KEY_PREFIX|..];
      assert b == CacheKey(b)[|CACHE_KEY_PREFIX|..];
    }
  }

  /**
   * `messages.slice(-limit)`: for a positive limit, the most recent `limit` messages
   * (all of them when there are fewer); a limit of 0 keeps everything, because `-0`
   * is a slice from the start; a negative limit drops that many of the oldest.
   */
  function TrimHistory(messages: seq<Message>, limit: int): (r: seq<Message>)
    ensures limit >= 1 ==> |r| == Min(limit, |messages|)
    ensures limit == 0 ==> r == messages
    ensures limit < 0 ==> |r| == Max(|messages| + limit, 0)
  {
    JsSliceFrom(messages, -limit)
  }

  /** A history that fits within a positive limit is kept whole. */
  lemma TrimHistoryShort(messages: seq<Message>, limit: int)
    requires limit >= 1 && |messages| <= limit
    ensures TrimHistory(messages, limit) == messages
  {
    JsSliceFromIsSuffix(messages, -limit);
  }

  /** A history longer than a positive limit keeps exactly its last `limit` messages. */
  lemma TrimHistoryLong(messages: seq<Message>, limit: int)
    requires limit >= 1 && |messages| > limit
    ensures TrimHistory(messages, limit) == messages[|messages| - limit..]
  {
    JsSliceFromIsSuffix(messages, -limit);
  }

  /**
   * Trimming is insensitive to earlier trimming: appending turns to a trimmed history and
   * trimming again keeps the same messages as trimming the untrimmed sequence once. So after
   * any number of successful turns the stored history is the most recent part of every turn.
   */
  lemma {:induction false} TrimHistoryAbsorbs(s: seq<Message>, t: seq<Message>, limit: int)
    requires limit >= 1
    ensures TrimHistory(TrimHistory(s, limit) + t, limit) == TrimHistory(s + t, limit)
  {
    var a := TrimHistory(s, limit);
    var lhs := TrimHistory(a + t, limit);
    var rhs := TrimHistory(s + t, limit);
    JsSliceFromIsSuffix(s, -limit);
    JsSliceFromIsSuffix(a + t, -limit);
    JsSliceFromIsSuffix(s + t, -limit);
    assert |lhs| == |rhs|;
    forall i | 0 <= i < |lhs|
      ensures lhs[i] == rhs[i]
    {
      var j := |a + t| - |lhs| + i;
      if j < |a| {
        assert (a + t)[j] == s[|s| - |a| + j];
      } else {
        assert (a + t)[j] == t[j - |a|];
      }
    }
  }

  /** The conversation a first request, or a changed system prompt, starts from. */
  function NewConversation(systemPrompt: string, now: int): Conversation {
    Conversation([Message(ROLE_SYSTEM, systemPrompt)], systemPrompt, now, now)
  }

  /** A stored conversation is reused only when it exists and was built for the same system prompt. */
  predicate NeedsReinit(stored: Option<Conversation>, systemPrompt: string) {
    stored.None? || stored.value.lastSystemPrompt != systemPrompt
  }

  /** The conversation a memory-mode request continues: the stored one, or a fresh one. */
  function ConversationInUse(stored: Option<Conversation>, systemPrompt: string, now: int): (c: Conversation)
    ensures c.lastSystemPrompt == systemPrompt
    ensures NeedsReinit(stored, systemPrompt) ==> c == NewConversation(systemPrompt, now)
    ensures !NeedsReinit(stored, systemPrompt) ==> c == stored.value
  {
    if NeedsReinit(stored, systemPrompt) then NewConversation(systemPrompt, now) else stored.value
  }

  /** `error?.message || "Unknown error occurred"`: an absent or empty message falls back to the default. */
  function ErrorMessage(message: Option<string>): (e: string)
    ensures e != ""
    ensures message.Some? && message.value != "" ==> e == message.value
    ensures !(message.Some? && message.value != "") ==> e == UNKNOWN_ERROR
  {
    if message.Some? && message.value != "" then message.value else UNKNOWN_ERROR
  }

  /** Both required fields are present and non-empty (checked before `userId` is trimmed). */
  predicate Admissible(config: Request) {
    config.userId.Some? && config.userId.value != "" && config.userPrompt != ""
  }

  /** The cache's contents: `"conversation:" + userId` to that user's conversation. */
  type Cache = map<string, Conversation>

  /** What an operation returns, together with the cache it leaves behind. */
  datatype Step<T> = Step(result: T, cache: Cache)

  /** `getUserConversation` on a given cache: the entry under the user's key, if any. */
  function Lookup(cache: Cache, userId: string): (r: Option<Conversation>)
    ensures r.Some? <==> CacheKey(userId) in cache
    ensures r.Some? ==> r.value == cache[CacheKey(userId)]
  {
    if CacheKey(userId) in cache then Some(cache[CacheKey(userId)]) else None
  }

  /** `saveUserConversation` changes what the saving user reads back and nothing another user reads. */
  lemma LookupAfterSave(cache: Cache, saved: string, c: Conversation, userId: string)
    ensures Lookup(cache[CacheKey(saved) := c], userId) == if userId == saved then Some(c) else Lookup(cache, userId)
  {
    CacheKeyInjective(saved, userId);
  }

  /** A second write to the same key hides the first. */
  lemma OverwriteTwice(cache: Cache, key: string, first: Conversation, second: Conversation)
    ensures cache[key := first][key := second] == cache[key := second]
  {
  }

  /** Writing back the value already under a key changes nothing. */
  lemma RewriteSame(cache: Cache, key: string)
    requires key in cache
    ensures cache[key := cache[key]] == cache
  {
  }

  /**
   * The store's invariant: every conversation is non-empty when the limit is not negative,
   * and no longer than the limit when the limit is positive.
   */
  predicate WellFormed(cache: Cache, limit: int) {
    && (limit >= 0 ==> forall k :: k in cache ==> cache[k].messages != [])
    && (limit >= 1 ==> forall k :: k in cache ==> |cache[k].messages| <= limit)
  }

  /** Saving a conversation that respects the limit keeps the invariant. */
  lemma SaveKeepsWellFormed(cache: Cache, limit: int, key: string, c: Conversation)
    requires WellFormed(cache, limit)
    requires limit >= 0 ==> c.messages != []
    requires limit >= 1 ==> |c.messages| <= limit
    ensures WellFormed(cache[key := c], limit)
  {
  }

  /**
   * The conversation `updateConversation` builds: the most recent messages, the new system
   * prompt, the creation time of the prior entry unless that is absent or 0, and `now`.
   */
  function UpdatedConversation(prior: Option<Conversation>, messages: seq<Message>, systemPrompt: string,
                               limit: int, now: int): (c: Conversation)
    ensures messages != [] && limit >= 0 ==> c.messages != []
    ensures limit >= 1 ==> |c.messages| <= limit
    ensures prior.Some? && prior.value.createdAt != 0 ==> c.createdAt == prior.value.createdAt
    ensures prior.None? || prior.value.createdAt == 0 ==> c.createdAt == now
  {
    var createdAt := if prior.Some? && prior.value.createdAt != 0 then prior.value.createdAt else now;
    Conversation(TrimHistory(messages, limit), systemPrompt, createdAt, now)
  }

  /**
   * The part of `talkWithGPT` before the completion call, on a given cache. Validation
   * failures touch nothing. Without memory the list is the system and user prompts alone;
   * with memory a missing or outdated entry is replaced first, and the list is that
   * conversation's messages followed by the user prompt.
   */
  function PrepareStep(cache: Cache, config: Request, now: int): (s: Step<Result<string, Prepared>>)
    ensures s.result.Right? <==> Admissible(config)
    ensures config.userId.None? || config.userId.value == "" ==> s == Step(Left(USER_ID_REQUIRED), cache)
    ensures config.userId.Some? && config.userId.value != "" && config.userPrompt == "" ==>
      s == Step(Left(USER_PROMPT_REQUIRED), cache)
    ensures s.result.Right? ==>
      && s.result.value.userId == Trim(config.userId.value)
      && s.result.value.systemPrompt == config.systemPrompt
      && s.result.value.useMemory == config.useMemory
      && |s.result.value.messagesToSend| >= 1
      && s.result.value.messagesToSend[|s.result.value.messagesToSend| - 1] == Message(ROLE_USER, config.userPrompt)
    ensures s.result.Right? && !config.useMemory ==>
      && s.result.value.messagesToSend == [Message(ROLE_SYSTEM, config.systemPrompt), Message(ROLE_USER, config.userPrompt)]
      && s.result.value.conversationToUpdate.None?
      && s.cache == cache
    ensures s.result.Right? && config.useMemory ==>
      var userId := Trim(config.userId.value);
      && Lookup(s.cache, userId) == Some(ConversationInUse(Lookup(cache, userId), config.systemPrompt, now))
      && s.result.value.conversationToUpdate == Lookup(s.cache, userId)
  {
    if config.userId.None? || config.userId.value == "" then
      Step(Left(USER_ID_REQUIRED), cache)
    else if config.userPrompt == "" then
      Step(Left(USER_PROMPT_REQUIRED), cache)
    else
      var userId := Trim(config.userId.value);
      var user := Message(ROLE_USER, config.userPrompt);
      if config.useMemory then
        var stored := Lookup(cache, userId);
        var c := if NeedsReinit(stored, config.systemPrompt) then NewConversation(config.systemPrompt, now) else stored.value;
        var cache' := if NeedsReinit(stored, config.systemPrompt) then cache[CacheKey(userId) := c] else cache;
        Step(Right(Prepared(userId, config.systemPrompt, true, c.messages + [user], Some(c))), cache')
      else
        Step(Right(Prepared(userId, config.systemPrompt, false, [Message(ROLE_SYSTEM, config.systemPrompt), user], None)), cache)
  }

  /** The reinitialisation before the call keeps the invariant, whatever the limit. */
  lemma PrepareKeepsWellFormed(cache: Cache, limit: int, config: Request, now: int)
    requires WellFormed(cache, limit)
    ensures WellFormed(PrepareStep(cache, config, now).cache, limit)
  {
    if Admissible(config) && config.useMemory {
      var userId := Trim(config.userId.value);
      var stored := Lookup(cache, userId);
      SaveKeepsWellFormed(cache, limit, CacheKey(userId), ConversationInUse(stored, config.systemPrompt, now));
    }
  }

  /**
   * The part of `talkWithGPT` after the completion call, on a given cache. A thrown error
   * or a missing message is a `Left` and leaves the cache as it is. A reply is a `Right`;
   * in memory mode the assistant turn is appended to the submitted list, and the most
   * recent messages are stored under the new system prompt and returned as `history`.
   */
  function CommitStep(cache: Cache, limit: int, p: Prepared, outcome: Completion, now: int): (s: Step<Result<string, Answer>>)
    ensures s.result.Right? <==> outcome.Reply?
    ensures outcome.Throws? ==> s == Step(Left(ErrorMessage(outcome.message)), cache)
    ensures outcome.NoMessage? ==> s == Step(Left(NO_RESPONSE), cache)
    ensures outcome.Reply? ==>
      s.result.Right? && s.result.value.response == AssistantResponse(outcome.role, outcome.content.GetOr(""))
    ensures outcome.Reply? && !(p.useMemory && p.conversationToUpdate.Some?) ==>
      s.result.Right? && s.result.value.history.None? && s.cache == cache
    ensures outcome.Reply? && p.useMemory && p.conversationToUpdate.Some? ==>
      var prior := Lookup(cache, p.userId);
      var stored := Lookup(s.cache, p.userId);
      && stored.Some?
      && s.cache == cache[CacheKey(p.userId) := stored.value]
      && stored.value.messages
         == TrimHistory(p.messagesToSend + [Message(ROLE_ASSISTANT, outcome.content.GetOr(""))], limit)
      && stored.value.lastSystemPrompt == p.systemPrompt
      && stored.value.createdAt == (if prior.Some? && prior.value.createdAt != 0 then prior.value.createdAt else now)
      && stored.value.updatedAt == now
      && s.result.Right? && s.result.value.history == Some(stored.value.messages)
    ensures WellFormed(cache, limit) ==> WellFormed(s.cache, limit)
  {
    match outcome
    case Throws(message) => Step(Left(ErrorMessage(message)), cache)
    case NoMessage => Step(Left(NO_RESPONSE), cache)
    case Reply(role, content) =>
      var response := AssistantResponse(role, content.GetOr(""));
      if p.useMemory && p.conversationToUpdate.Some? then
        var messages := p.messagesToSend + [Message(ROLE_ASSISTANT, response.content)];
        var c := UpdatedConversation(Lookup(cache, p.userId), messages, p.systemPrompt, limit, now);
        assert Lookup(cache[CacheKey(p.userId) := c], p.userId) == Some(c);
        Step(Right(Answer(response, Some(c.messages))), cache[CacheKey(p.userId) := c])
      else
        Step(Right(Answer(response, None)), cache)
  }

  /** `talkWithGPT`, with the completion call in between producing `outcome`. */
  function TalkStep(cache: Cache, limit: int, config: Request, outcome: Completion,
                    preparedAt: int, completedAt: int): (s: Step<Result<string, Answer>>)
    ensures s.result.Right? <==> Admissible(config) && outcome.Reply?
    ensures WellFormed(cache, limit) ==> WellFormed(s.cache, limit)
  {
    var prepared := PrepareStep(cache, config, preparedAt);
    assert WellFormed(cache, limit) ==> WellFormed(prepared.cache, limit) by {
      if WellFormed(cache, limit) {
        PrepareKeepsWellFormed(cache, limit, config, preparedAt);
      }
    }
    if prepared.result.Left? then
      Step(Left(prepared.result.error), prepared.cache)
    else
      CommitStep(prepared.cache, limit, prepared.result.value, outcome, completedAt)
  }

  /**
   * One whole request, run without any other request interleaving: it succeeds exactly for
   * a valid request and a reply, and then answers with the reply's role and content. An
   * invalid request fails with the validation message; a valid one fails with the call's
   * error. An invalid request or one without memory leaves the cache as it is.
   */
  lemma TalkWithGPTOutcome(cache: Cache, limit: int, config: Request, outcome: Completion,
                           preparedAt: int, completedAt: int)
    ensures var s := TalkStep(cache, limit, config, outcome, preparedAt, completedAt);
      && (s.result.Right? <==> Admissible(config) && outcome.Reply?)
      && (s.result.Right? ==> outcome.Reply? && s.result.value.response == AssistantResponse(outcome.role, outcome.content.GetOr("")))
      && (!Admissible(config) ==> s == Step(Left(PrepareStep(cache, config, preparedAt).result.error), cache))
      && (Admissible(config) && outcome.Throws? ==> s.result == Left(ErrorMessage(outcome.message)))
      && (Admissible(config) && outcome.NoMessage? ==> s.result == Left(NO_RESPONSE))
      && (Admissible(config) && !config.useMemory ==>
            s.cache == cache && (s.result.Right? ==> s.result.value.history.None?))
  {
    var prepared := PrepareStep(cache, config, preparedAt);
    var s := TalkStep(cache, limit, config, outcome, preparedAt, completedAt);
    if Admissible(config) {
      assert s == CommitStep(prepared.cache, limit, prepared.result.value, outcome, completedAt);
    } else {
      assert s == Step(Left(prepared.result.error), cache);
    }
  }

  /**
   * A valid memory-mode request whose completion call fails: only the reinitialisation
   * done before the call is left behind.
   */
  lemma TalkWithGPTFailure(cache: Cache, limit: int, config: Request, outcome: Completion,
                           preparedAt: int, completedAt: int)
    requires Admissible(config) && config.useMemory && !outcome.Reply?
    ensures var s := TalkStep(cache, limit, config, outcome, preparedAt, completedAt);
      var userId := Trim(config.userId.value);
      s.result.Left? && s.cache == cache[CacheKey(userId) := ConversationInUse(Lookup(cache, userId), config.systemPrompt, preparedAt)]
  {
    var prepared := PrepareStep(cache, config, preparedAt);
    assert TalkStep(cache, limit, config, outcome, preparedAt, completedAt)
        == CommitStep(prepared.cache, limit, prepared.result.value, outcome, completedAt);
  }

  /**
   * A valid memory-mode request whose completion call replies, run without any other
   * request interleaving: the answer carries the reply, and the stored conversation holds
   * the most recent messages of the conversation in use, the user turn and the assistant
   * turn, under the request's system prompt, with the creation time kept unless it is 0;
   * those messages are returned as `history`, and no other user's entry changes.
   */
  lemma TalkWithGPTSuccess(cache: Cache, limit: int, config: Request, role: string, content: Option<string>,
                           preparedAt: int, completedAt: int)
    requires Admissible(config) && config.useMemory
    ensures var s := TalkStep(cache, limit, config, Reply(role, content), preparedAt, completedAt);
      var userId := Trim(config.userId.value);
      var c := ConversationInUse(Lookup(cache, userId), config.systemPrompt, preparedAt);
      var messages := TrimHistory(c.messages + [Message(ROLE_USER, config.userPrompt),
                                                Message(ROLE_ASSISTANT, content.GetOr(""))], limit);
      var stored := Conversation(messages, config.systemPrompt,
                                 if c.createdAt != 0 then c.createdAt else completedAt, completedAt);
      s == Step(Right(Answer(AssistantResponse(role, content.GetOr("")), Some(messages))),
                cache[CacheKey(userId) := stored])
  {
    var userId := Trim(config.userId.value);
    var key := CacheKey(userId);
    var c := ConversationInUse(Lookup(cache, userId), config.systemPrompt, preparedAt);
    var user := Message(ROLE_USER, config.userPrompt);
    var reply := Message(ROLE_ASSISTANT, content.GetOr(""));
    PrepareInMemory(cache, config, preparedAt);
    var p := Prepared(userId, config.systemPrompt, true, c.messages + [user], Some(c));
    assert Lookup(cache[key := c], userId) == Some(c);
    assert p.messagesToSend + [reply] == c.messages + [user, reply];
    var messages := TrimHistory(c.messages + [user, reply], limit);
    var stored := Conversation(messages, config.systemPrompt,
                               if c.createdAt != 0 then c.createdAt else completedAt, completedAt);
    assert UpdatedConversation(Some(c), p.messagesToSend + [reply], config.systemPrompt, limit, completedAt) == stored;
    OverwriteTwice(cache, key, c, stored);
  }

  /**
   * In memory mode, the part before the call puts the conversation in use under the user's
   * key (a reused conversation is already there) and submits its messages followed by the
   * user prompt.
   */
  lemma PrepareInMemory(cache: Cache, config: Request, now: int)
    requires Admissible(config) && config.useMemory
    ensures var userId := Trim(config.userId.value);
      var c := ConversationInUse(Lookup(cache, userId), config.systemPrompt, now);
      PrepareStep(cache, config, now)
      == Step(Right(Prepared(userId, config.systemPrompt, true, c.messages + [Message(ROLE_USER, config.userPrompt)], Some(c))),
              cache[CacheKey(userId) := c])
  {
    var userId := Trim(config.userId.value);
    if !NeedsReinit(Lookup(cache, userId), config.systemPrompt) {
      RewriteSame(cache, CacheKey(userId));
    }
  }

  /**
   * The first successful memory-mode request of a user, or the first after a change of
   * system prompt, stores the most recent of the system prompt, the user turn and the
   * assistant turn, and returns them as `history`.
   */
  lemma FirstTurn(cache: Cache, limit: int, userId: string, systemPrompt: string, userPrompt: string,
                  role: string, content: string, preparedAt: int, completedAt: int)
    requires userId != "" && Trim(userId) == userId && userPrompt != ""
    requires NeedsReinit(Lookup(cache, userId), systemPrompt)
    ensures var messages := TrimHistory([Message(ROLE_SYSTEM, systemPrompt), Message(ROLE_USER, userPrompt),
                                         Message(ROLE_ASSISTANT, content)], limit);
      TalkStep(cache, limit, Request(Some(userId), systemPrompt, userPrompt, true), Reply(role, Some(content)),
               preparedAt, completedAt)
      == Step(Right(Answer(AssistantResponse(role, content), Some(messages))),
              cache[CacheKey(userId) := Conversation(messages, systemPrompt,
                                                     if preparedAt != 0 then preparedAt else completedAt, completedAt)])
  {
    var config := Request(Some(userId), systemPrompt, userPrompt, true);
    TalkWithGPTSuccess(cache, limit, config, role, Some(content), preparedAt, completedAt);
    var c := NewConversation(systemPrompt, preparedAt);
    assert ConversationInUse(Lookup(cache, userId), systemPrompt, preparedAt) == c;
    assert c.messages + [Message(ROLE_USER, userPrompt), Message(ROLE_ASSISTANT, content)]
        == [Message(ROLE_SYSTEM, systemPrompt), Message(ROLE_USER, userPrompt), Message(ROLE_ASSISTANT, content)];
  }

  /**
   * A successful memory-mode request that finds a conversation built for the same system
   * prompt continues it: the stored history becomes the most recent of its messages, the
   * user turn and the assistant turn, and its creation time is kept unless it is 0.
   */
  lemma NextTurn(cache: Cache, limit: int, userId: string, systemPrompt: string, userPrompt: string,
                 role: string, content: string, preparedAt: int, completedAt: int,
                 history: seq<Message>, createdAt: int, updatedAt: int)
    requires userId != "" && Trim(userId) == userId && userPrompt != ""
    requires Lookup(cache, userId) == Some(Conversation(history, systemPrompt, createdAt, updatedAt))
    ensures var messages := TrimHistory(history + [Message(ROLE_USER, userPrompt), Message(ROLE_ASSISTANT, content)], limit);
      TalkStep(cache, limit, Request(Some(userId), systemPrompt, userPrompt, true), Reply(role, Some(content)),
               preparedAt, completedAt)
      == Step(Right(Answer(AssistantResponse(role, content), Some(messages))),
              cache[CacheKey(userId) := Conversation(messages, systemPrompt,
                                                     if createdAt != 0 then createdAt else completedAt, completedAt)])
  {
    var config := Request(Some(userId), systemPrompt, userPrompt, true);
    TalkWithGPTSuccess(cache, limit, config, role, Some(content), preparedAt, completedAt);
    assert ConversationInUse(Lookup(cache, userId), systemPrompt, preparedAt)
        == Conversation(history, systemPrompt, createdAt, updatedAt);
  }

  /**
   * `resetHistory` on a given cache: a user id that is empty or only whitespace is refused
   * and changes nothing; otherwise the entry under the trimmed id is gone, every other
   * user's entry is as it was, and the answer is true whether or not there was one.
   */
  function ResetStep(cache: Cache, userId: string): (s: Step<bool>)
    ensures s.result <==> !AllWhitespace(userId)
    ensures !s.result ==> s.cache == cache
    ensures s.result ==> s.cache == cache - {CacheKey(Trim(userId))}
    ensures s.result ==> Lookup(s.cache, Trim(userId)).None?
    ensures forall u :: u != Trim(userId) ==> Lookup(s.cache, u) == Lookup(cache, u)
  {
    var trimmed := Trim(userId);
    TrimEmptyIffBlank(userId);
    if trimmed == "" then
      Step(false, cache)
    else
      var cache' := cache - {CacheKey(trimmed)};
      assert forall u :: u != trimmed ==> CacheKey(u) != CacheKey(trimmed) by {
        forall u | u != trimmed ensures CacheKey(u) != CacheKey(trimmed) {
          CacheKeyInjective(u, trimmed);
        }
      }
      Step(true, cache')
  }

  /** Resetting the same id twice answers the same and leaves the same cache as resetting it once. */
  lemma ResetIdempotent(cache: Cache, userId: string)
    ensures var once := ResetStep(cache, userId);
      ResetStep(once.cache, userId) == once
  {
    var once := ResetStep(cache, userId);
    if once.result {
      assert once.cache - {CacheKey(Trim(userId))} == once.cache;
    }
  }

  class ConversationStore {
    var cache: Cache
    const historyLimit: int

    ghost predicate Valid()
      reads this
    {
      WellFormed(cache, historyLimit)
    }

    constructor (historyLimit: int)
      ensures Valid()
      ensures this.historyLimit == historyLimit && cache == map[]
    {
      this.historyLimit := historyLimit;
      cache := map[];
    }

    /** `getUserConversation` on the store's cache. */
    function GetUserConversation(userId: string): (r: Option<Conversation>)
      reads this
      ensures r.Some? <==> CacheKey(userId) in cache
      ensures r.Some? ==> r.value == cache[CacheKey(userId)]
    {
      Lookup(cache, userId)
    }

    /** `saveUserConversation`: replaces the user's entry and nothing else. */
    method SaveUserConversation(userId: string, conversation: Conversation)
      requires Valid()
      requires historyLimit >= 0 ==> conversation.messages != []
      requires historyLimit >= 1 ==> |conversation.messages| <= historyLimit
      modifies this
      ensures Valid()
      ensures cache == old(cache)[CacheKey(userId) := conversation]
    {
      SaveKeepsWellFormed(cache, historyLimit, CacheKey(userId), conversation);
      cache := cache[CacheKey(userId) := conversation];
    }

    /** `initializeConversation`: stores and returns a conversation holding only the system prompt. */
    method InitializeConversation(userId: string, systemPrompt: string, now: int) returns (c: Conversation)
      requires Valid()
      modifies this
      ensures Valid()
      ensures c == NewConversation(systemPrompt, now)
      ensures cache == old(cache)[CacheKey(userId) := c]
    {
      c := NewConversation(systemPrompt, now);
      SaveUserConversation(userId, c);
    }

    /** `updateConversation`: stores and returns the updated conversation of `userId`. */
    method UpdateConversation(userId: string, messages: seq<Message>, systemPrompt: string, now: int)
      returns (c: Conversation)
      requires Valid()
      requires messages != []
      modifies this
      ensures Valid()
      ensures c == UpdatedConversation(old(GetUserConversation(userId)), messages, systemPrompt, historyLimit, now)
      ensures cache == old(cache)[CacheKey(userId) := c]
    {
      var prior := GetUserConversation(userId);
      c := UpdatedConversation(prior, messages, systemPrompt, historyLimit, now);
      SaveUserConversation(userId, c);
    }

    /** The part of `talkWithGPT` before the completion call. */
    method Prepare(config: Request, now: int) returns (r: Result<string, Prepared>)
      requires Valid()
      modifies this
      ensures Valid()
      ensures Step(r, cache) == PrepareStep(old(cache), config, now)
    {
      if config.userId.None? || config.userId.value == "" {
        return Left(USER_ID_REQUIRED);
      }
      if config.userPrompt == "" {
        return Left(USER_PROMPT_REQUIRED);
      }
      var userId := Trim(config.userId.value);
      var systemPrompt := config.systemPrompt;
      var messagesToSend: seq<Message>;
      var conversationToUpdate: Option<Conversation> := None;
      if config.useMemory {
        var userConversation := GetUserConversation(userId);
        if NeedsReinit(userConversation, systemPrompt) {
          var c := InitializeConversation(userId, systemPrompt, now);
          userConversation := Some(c);
        }
        var currentMessages := userConversation.value.messages;
        currentMessages := currentMessages + [Message(ROLE_USER, config.userPrompt)];
        messagesToSend := currentMessages;
        conversationToUpdate := userConversation;
      } else {
        messagesToSend := [Message(ROLE_SYSTEM, systemPrompt), Message(ROLE_USER, config.userPrompt)];
      }
      r := Right(Prepared(userId, systemPrompt, config.useMemory, messagesToSend, conversationToUpdate));
    }

    /** The part of `talkWithGPT` after the completion call. */
    method Commit(p: Prepared, outcome: Completion, now: int) returns (r: Result<string, Answer>)
      requires Valid()
      modifies this
      ensures Valid()
      ensures Step(r, cache) == CommitStep(old(cache), historyLimit, p, outcome, now)
    {
      match outcome
      case Throws(message) =>
        r := Left(ErrorMessage(message));
      case NoMessage =>
        r := Left(NO_RESPONSE);
      case Reply(role, content) =>
        var response := AssistantResponse(role, content.GetOr(""));
        if p.useMemory && p.conversationToUpdate.Some? {
          var messagesToSend := p.messagesToSend + [Message(ROLE_ASSISTANT, response.content)];
          var updated := UpdateConversation(p.userId, messagesToSend, p.systemPrompt, now);
          r := Right(Answer(response, Some(updated.messages)));
        } else {
          r := Right(Answer(response, None));
        }
    }

    /**
     * `talkWithGPT`, with the completion call in between producing `outcome`, run without
     * any other request interleaving.
     */
    method TalkWithGPT(config: Request, outcome: Completion, preparedAt: int, completedAt: int)
      returns (r: Result<string, Answer>)
      requires Valid()
      modifies this
      ensures Valid()
      ensures Step(r, cache) == TalkStep(old(cache), historyLimit, config, outcome, preparedAt, completedAt)
    {
      var prepared := Prepare(config, preparedAt);
      if prepared.Left? {
        return Left(prepared.error);
      }
      r := Commit(prepared.value, outcome, completedAt);
    }

    /** `resetHistory` on the store's cache. */
    method ResetHistory(userId: string) returns (ok: bool)
      requires Valid()
      modifies this
      ensures Valid()
      ensures Step(ok, cache) == ResetStep(old(cache), userId)
    {
      var trimmed := Trim(userId);
      if trimmed == "" {
        return false;
      }
      cache := cache - {CacheKey(trimmed)};
      ok := true;
    }

    /** Time-to-live expiry of one entry, done by the cache's periodic sweep. */
    method Expire(key: string)
      requires Valid()
      modifies this
      ensures Valid()
      ensures cache == old(cache) - {key}
    {
      cache := cache - {key};
    }
  }
}

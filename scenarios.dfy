/**
 * Concrete request sequences and their outcome, stated on the operations' step functions
 * (which the `ConversationStore` methods are proved to follow).
 */
module AgentScenarios {
  import opened Wrappers
  import opened JsBuiltins
  import opened Agent

  function System(content: string): Message { Message(ROLE_SYSTEM, content) }
  function User(content: string): Message { Message(ROLE_USER, content) }
  function Assistant(content: string): Message { Message(ROLE_ASSISTANT, content) }

  /**
   * Two memory-mode requests by "u1" under the same system prompt: the first stores the
   * system prompt, the user turn and the reply; the second submits those three plus the new
   * user prompt and stores five, keeping the first request's creation time.
   */
  lemma TwoTurnsWithMemory()
    ensures var s1 := TalkStep(map[], DEFAULT_HISTORY_LIMIT, Request(Some("u1"), "be terse", "hi", true),
                               Reply("assistant", Some("hello")), 1, 2);
      var p2 := PrepareStep(s1.cache, Request(Some("u1"), "be terse", "again", true), 3);
      var s2 := TalkStep(s1.cache, DEFAULT_HISTORY_LIMIT, Request(Some("u1"), "be terse", "again", true),
                         Reply("assistant", Some("ok")), 3, 4);
      var h1 := [System("be terse"), User("hi"), Assistant("hello")];
      var h2 := h1 + [User("again"), Assistant("ok")];
      && s1.result == Right(Answer(AssistantResponse("assistant", "hello"), Some(h1)))
      && p2.result.Right? && p2.result.value.messagesToSend == h1 + [User("again")]
      && s2.result == Right(Answer(AssistantResponse("assistant", "ok"), Some(h2)))
      && Lookup(s2.cache, "u1") == Some(Conversation(h2, "be terse", 1, 4))
  {
    var h1 := [System("be terse"), User("hi"), Assistant("hello")];
    var h2 := h1 + [User("again"), Assistant("ok")];
    TrimUnpadded("u1");
    TrimHistoryShort(h1, DEFAULT_HISTORY_LIMIT);
    FirstTurn(map[], DEFAULT_HISTORY_LIMIT, "u1", "be terse", "hi", "assistant", "hello", 1, 2);
    var cache1 := map[CacheKey("u1") := Conversation(h1, "be terse", 1, 2)];
    assert Lookup(cache1, "u1") == Some(Conversation(h1, "be terse", 1, 2));
    PrepareInMemory(cache1, Request(Some("u1"), "be terse", "again", true), 3);
    TrimHistoryShort(h2, DEFAULT_HISTORY_LIMIT);
    NextTurn(cache1, DEFAULT_HISTORY_LIMIT, "u1", "be terse", "again", "assistant", "ok", 3, 4, h1, 1, 2);
    LookupAfterSave(cache1, "u1", Conversation(h2, "be terse", 1, 4), "u1");
  }

  /**
   * With a history limit of 3, the stored history after each turn is its three most recent
   * messages; the system message is evicted like any other.
   */
  lemma LimitOfThree()
    ensures var s1 := TalkStep(map[], 3, Request(Some("u"), "s", "q1", true), Reply("assistant", Some("a1")), 1, 2);
      var s2 := TalkStep(s1.cache, 3, Request(Some("u"), "s", "q2", true), Reply("assistant", Some("a2")), 3, 4);
      var s3 := TalkStep(s2.cache, 3, Request(Some("u"), "s", "q3", true), Reply("assistant", Some("a3")), 5, 6);
      && s1.result.Right? && s1.result.value.history == Some([System("s"), User("q1"), Assistant("a1")])
      && s2.result.Right? && s2.result.value.history == Some([Assistant("a1"), User("q2"), Assistant("a2")])
      && s3.result.Right? && s3.result.value.history == Some([Assistant("a2"), User("q3"), Assistant("a3")])
  {
    TrimUnpadded("u");
    var h1 := [System("s"), User("q1"), Assistant("a1")];
    TrimHistoryShort(h1, 3);
    FirstTurn(map[], 3, "u", "s", "q1", "assistant", "a1", 1, 2);
    var cache1 := map[CacheKey("u") := Conversation(h1, "s", 1, 2)];
    assert Lookup(cache1, "u") == Some(Conversation(h1, "s", 1, 2));

    var h2 := [Assistant("a1"), User("q2"), Assistant("a2")];
    TrimHistoryLong(h1 + [User("q2"), Assistant("a2")], 3);
    assert (h1 + [User("q2"), Assistant("a2")])[2..] == h2;
    NextTurn(cache1, 3, "u", "s", "q2", "assistant", "a2", 3, 4, h1, 1, 2);
    var cache2 := cache1[CacheKey("u") := Conversation(h2, "s", 1, 4)];
    LookupAfterSave(cache1, "u", Conversation(h2, "s", 1, 4), "u");

    TrimHistoryLong(h2 + [User("q3"), Assistant("a3")], 3);
    assert (h2 + [User("q3"), Assistant("a3")])[2..] == [Assistant("a2"), User("q3"), Assistant("a3")];
    NextTurn(cache2, 3, "u", "s", "q3", "assistant", "a3", 5, 6, h2, 1, 4);
  }

  /**
   * A changed system prompt discards the earlier turns before the call, and that reset
   * stays even though the call then fails; the failed user turn is not stored.
   */
  lemma PromptChangeThenFailure()
    ensures var s1 := TalkStep(map[], DEFAULT_HISTORY_LIMIT, Request(Some("u"), "p1", "first", true),
                               Reply("assistant", Some("fine")), 1, 2);
      var p := PrepareStep(s1.cache, Request(Some("u"), "p2", "next", true), 5);
      var s2 := TalkStep(s1.cache, DEFAULT_HISTORY_LIMIT, Request(Some("u"), "p2", "next", true),
                         Throws(Some("timeout")), 5, 6);
      && p.result.Right?
      && p.result.value.messagesToSend == [System("p2"), User("next")]
      && s2.result == Left("timeout")
      && Lookup(s2.cache, "u") == Some(Conversation([System("p2")], "p2", 5, 5))
  {
    TrimUnpadded("u");
    var h1 := [System("p1"), User("first"), Assistant("fine")];
    TrimHistoryShort(h1, DEFAULT_HISTORY_LIMIT);
    FirstTurn(map[], DEFAULT_HISTORY_LIMIT, "u", "p1", "first", "assistant", "fine", 1, 2);
    var cache1 := map[CacheKey("u") := Conversation(h1, "p1", 1, 2)];
    assert Lookup(cache1, "u") == Some(Conversation(h1, "p1", 1, 2));
    var config := Request(Some("u"), "p2", "next", true);
    assert ConversationInUse(Lookup(cache1, "u"), "p2", 5) == NewConversation("p2", 5);
    PrepareInMemory(cache1, config, 5);
    TalkWithGPTFailure(cache1, DEFAULT_HISTORY_LIMIT, config, Throws(Some("timeout")), 5, 6);
    TalkWithGPTOutcome(cache1, DEFAULT_HISTORY_LIMIT, config, Throws(Some("timeout")), 5, 6);
    LookupAfterSave(cache1, "u", NewConversation("p2", 5), "u");
  }

  /** `" u1 ".trim()` is `"u1"`. */
  lemma TrimOfPadded()
    ensures Trim(" u1 ") == "u1"
  {
    TrimStartIsSuffix(" u1 ");
    assert TrimStart(" u1 ") == "u1 ";
    TrimEndIsPrefix("u1 ");
  }

  /** Resetting removes the entry; a second reset of the same id, padded with blanks, also answers true. */
  lemma ResetTwice()
    ensures var s := TalkStep(map[], DEFAULT_HISTORY_LIMIT, Request(Some("u1"), "be terse", "hi", true),
                              Reply("assistant", Some("hello")), 1, 2);
      var first := ResetStep(s.cache, "u1");
      var second := ResetStep(first.cache, " u1 ");
      && Lookup(s.cache, "u1").Some?
      && first.result && second.result
      && Lookup(first.cache, "u1").None?
      && second.cache == first.cache
  {
    TrimUnpadded("u1");
    var h1 := [System("be terse"), User("hi"), Assistant("hello")];
    TrimHistoryShort(h1, DEFAULT_HISTORY_LIMIT);
    FirstTurn(map[], DEFAULT_HISTORY_LIMIT, "u1", "be terse", "hi", "assistant", "hello", 1, 2);
    var cache1 := map[CacheKey("u1") := Conversation(h1, "be terse", 1, 2)];
    assert Lookup(cache1, "u1").Some?;
    assert !IsJsWhitespace("u1"[0]);
    var first := ResetStep(cache1, "u1");
    assert first.cache == map[];
    TrimOfPadded();
    assert ResetStep(first.cache, " u1 ") == ResetStep(first.cache, "u1");
    ResetIdempotent(cache1, "u1");
  }

  /**
   * A user id of blanks passes the request check, is trimmed to "" and gets an entry under
   * "conversation:"; resetting with the same id is refused, so that entry stays.
   */
  lemma BlankUserId()
    ensures var s := TalkStep(map[], DEFAULT_HISTORY_LIMIT, Request(Some("  "), "s", "q", true), Reply("assistant", Some("a")), 1, 2);
      var reset := ResetStep(s.cache, "  ");
      && s.result.Right?
      && Lookup(s.cache, "") == Some(Conversation([System("s"), User("q"), Assistant("a")], "s", 1, 2))
      && !reset.result
      && reset.cache == s.cache
  {
    assert AllWhitespace("  ");
    TrimEmptyIffBlank("  ");
    var config := Request(Some("  "), "s", "q", true);
    var h := [System("s"), User("q"), Assistant("a")];
    assert NewConversation("s", 1).messages + [User("q"), Assistant("a")] == h;
    TrimHistoryShort(h, DEFAULT_HISTORY_LIMIT);
    TalkWithGPTSuccess(map[], DEFAULT_HISTORY_LIMIT, config, "assistant", Some("a"), 1, 2);
    LookupAfterSave(map[], "", Conversation(h, "s", 1, 2), "");
  }

  /**
   * Without memory a missing user id is still refused, and an accepted request submits only
   * the system and user prompts, touches nothing in the cache and answers without history.
   */
  lemma NoMemory(cache: Cache, limit: int)
    ensures PrepareStep(cache, Request(None, "s", "q", false), 1) == Step(Left(USER_ID_REQUIRED), cache)
    ensures var p := PrepareStep(cache, Request(Some("u"), "s", "q", false), 1);
      var s := CommitStep(p.cache, limit, p.result.value, Reply("assistant", None), 2);
      && p.result.Right?
      && p.result.value.messagesToSend == [System("s"), User("q")]
      && s == Step(Right(Answer(AssistantResponse("assistant", ""), None)), cache)
  {
  }
}

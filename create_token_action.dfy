/**
 * The confirm and cancel buttons of the token-creation flow.  Confirming does not
 * remove the session: removal, with the placeholder's deletion, is left to a
 * timer that fires five seconds later.
 */
module CreateTokenAction {
  import opened Wrappers
  import opened Sessions

  /** The confirm handler's work with a session: acknowledge, delete, placeholder, `createToken`, report. */
  function ConfirmCreateEffects(chatId: int, queryId: int, messageId: int, s: TokenCreation, created: bool)
    : (effects: seq<Effect>)
    ensures Commits(effects) == 1
    ensures |effects| == 5 && effects[3] == Call(CreateToken(chatId, s))
    ensures effects[..3] == [Answer(queryId, None), Delete(chatId, messageId), Send(chatId, Processing)]
    ensures effects[4] == Send(chatId, if created then TokenCreated else TokenCreationFailed)
  {
    var head := [Answer(queryId, None), Delete(chatId, messageId), Send(chatId, Processing)];
    var call := [Call(CreateToken(chatId, s))];
    var report := [Send(chatId, if created then TokenCreated else TokenCreationFailed)];
    NoCallNoCommit(head);
    NoCallNoCommit(report);
    CommitsAppend(head, call + report);
    CommitsAppend(call, report);
    head + (call + report)
  }

  /**
   * `confirmCreateTokenCallback`.  With no session, "Something went wrong. Please
   * try again later" is sent and nothing else happens.  With one, `createToken`
   * is called once with the stored session, the outcome (`created`: a non-null
   * response whose `success` holds) is reported, and the teardown is scheduled;
   * the session itself is still there when the handler returns.
   */
  method ConfirmCreateTokenCallback(w: BotState, queryId: int, chatId: int, messageId: int, placeholderId: int,
                                    created: bool)
    modifies w
    ensures w.tokenCreationStates == old(w.tokenCreationStates)
    ensures chatId !in old(w.tokenCreationStates) ==>
      w.outbox == old(w.outbox) + [Send(chatId, SomethingWentWrongTryLater)] && w.timers == old(w.timers)
    ensures chatId in old(w.tokenCreationStates) ==>
      w.outbox == old(w.outbox) +
        ConfirmCreateEffects(chatId, queryId, messageId, old(w.tokenCreationStates)[chatId], created) &&
      w.timers == old(w.timers) + [CreationTeardown(chatId, placeholderId)]
    ensures w.userStates == old(w.userStates) && w.tokenTransferStates == old(w.tokenTransferStates)
    ensures w.diceGameStates == old(w.diceGameStates)
  {
    var tokenCreationState := Lookup(w.tokenCreationStates, chatId);
    if tokenCreationState.None? {
      w.outbox := w.outbox + [Send(chatId, SomethingWentWrongTryLater)];
      return;
    }
    w.outbox := w.outbox + [Answer(queryId, None)];
    w.outbox := w.outbox + [Delete(chatId, messageId)];
    w.outbox := w.outbox + [Send(chatId, Processing)];
    w.outbox := w.outbox + [Call(CreateToken(chatId, tokenCreationState.value))];
    if created {
      w.outbox := w.outbox + [Send(chatId, TokenCreated)];
    } else {
      w.outbox := w.outbox + [Send(chatId, TokenCreationFailed)];
    }
    w.timers := w.timers + [CreationTeardown(chatId, placeholderId)];
  }

  /** The scheduled teardown: the session is removed and the placeholder deleted. */
  method CreationTeardownFires(w: BotState, chatId: int, placeholderId: int)
    modifies w
    ensures w.tokenCreationStates == old(w.tokenCreationStates) - {chatId}
    ensures w.outbox == old(w.outbox) + [Delete(chatId, placeholderId)]
    ensures w.userStates == old(w.userStates) && w.tokenTransferStates == old(w.tokenTransferStates)
    ensures w.diceGameStates == old(w.diceGameStates) && w.timers == old(w.timers)
  {
    w.tokenCreationStates := w.tokenCreationStates - {chatId};
    w.outbox := w.outbox + [Delete(chatId, placeholderId)];
  }

  /** What cancelling a session does: acknowledge, report, and delete the pending prompt iff its id is truthy. */
  function CancelCreateEffects(chatId: int, queryId: int, s: TokenCreation): (effects: seq<Effect>)
    ensures Commits(effects) == 0
    ensures |effects| == if Truthy(s.confirmationMessageId) then 3 else 2
    ensures effects[..2] == [Answer(queryId, None), Send(chatId, SolTransferCancelled)]
    ensures Truthy(s.confirmationMessageId) ==> effects[2] == Delete(chatId, s.confirmationMessageId.value)
  {
    var effects := [Answer(queryId, None), Send(chatId, SolTransferCancelled)] + PendingDelete(chatId, s.confirmationMessageId);
    NoCallNoCommit(effects);
    effects
  }

  /**
   * `cancelCreateTokenCallback`: with no session nothing happens; otherwise the
   * session is cancelled (reported with the SOL-transfer cancellation text) and
   * removed at once.
   */
  method CancelCreateTokenCallback(w: BotState, queryId: int, chatId: int)
    modifies w
    ensures chatId !in old(w.tokenCreationStates) ==>
      w.tokenCreationStates == old(w.tokenCreationStates) && w.outbox == old(w.outbox)
    ensures chatId in old(w.tokenCreationStates) ==>
      w.tokenCreationStates == old(w.tokenCreationStates) - {chatId} &&
      w.outbox == old(w.outbox) + CancelCreateEffects(chatId, queryId, old(w.tokenCreationStates)[chatId])
    ensures w.userStates == old(w.userStates) && w.tokenTransferStates == old(w.tokenTransferStates)
    ensures w.diceGameStates == old(w.diceGameStates) && w.timers == old(w.timers)
  {
    var tokenCreationState := Lookup(w.tokenCreationStates, chatId);
    if tokenCreationState.None? {
      return;
    }
    w.outbox := w.outbox + [Answer(queryId, None)];
    w.outbox := w.outbox + [Send(chatId, SolTransferCancelled)];
    if Truthy(tokenCreationState.value.confirmationMessageId) {
      w.outbox := w.outbox + [Delete(chatId, tokenCreationState.value.confirmationMessageId.value)];
    }
    w.tokenCreationStates := w.tokenCreationStates - {chatId};
  }

  /**
   * Two presses of confirm before the teardown fires both pass the session check,
   * so `createToken` runs twice for one session.
   */
  method ConfirmTwiceBeforeTeardown(w: BotState, queryId: int, chatId: int, messageId: int, placeholderId: int,
                                    created: bool)
    modifies w
    requires chatId in w.tokenCreationStates
    ensures Commits(w.outbox) == Commits(old(w.outbox)) + 2
    ensures w.tokenCreationStates == old(w.tokenCreationStates)
    ensures w.timers == old(w.timers) + [CreationTeardown(chatId, placeholderId), CreationTeardown(chatId, placeholderId)]
  {
    ghost var before := w.outbox;
    ConfirmCreateTokenCallback(w, queryId, chatId, messageId, placeholderId, created);
    ghost var middle := w.outbox;
    ConfirmCreateTokenCallback(w, queryId, chatId, messageId, placeholderId, created);
    CommitsAppend(before, middle[|before|..]);
    assert middle == before + middle[|before|..];
    CommitsAppend(middle, w.outbox[|middle|..]);
    assert w.outbox == middle + w.outbox[|middle|..];
  }
}

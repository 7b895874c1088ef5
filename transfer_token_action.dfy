/** The confirm and cancel buttons of the token-transfer flow. */
module TransferTokenAction {
  import opened Wrappers
  import opened Sessions

  /** The report sent after `sendToken`: the stored mint, amount and recipient on success. */
  function TokenReport(s: TokenTransfer, succeeds: bool): Notice
  {
    if succeeds then TokenTransferSucceeded(s.mintAddress, s.amount, s.recipientAddress) else TokenTransferFailed
  }

  /**
   * The confirm handler's work with a session: acknowledge, delete the message the
   * button sat on, send a placeholder, call `sendToken` once with the stored
   * session, report the outcome and delete the placeholder.
   */
  function ConfirmTransferTokenEffects(chatId: int, queryId: int, messageId: int, placeholderId: int,
                                      s: TokenTransfer, succeeds: bool): (effects: seq<Effect>)
    ensures Commits(effects) == 1
    ensures |effects| == 6 && effects[3] == Call(SendToken(chatId, s))
    ensures effects[..3] == [Answer(queryId, None), Delete(chatId, messageId), Send(chatId, Processing)]
    ensures effects[4] == Send(chatId, TokenReport(s, succeeds)) && effects[5] == Delete(chatId, placeholderId)
  {
    var head := [Answer(queryId, None), Delete(chatId, messageId), Send(chatId, Processing)];
    var call := [Call(SendToken(chatId, s))];
    var rest := [Send(chatId, TokenReport(s, succeeds)), Delete(chatId, placeholderId)];
    NoCallNoCommit(head);
    NoCallNoCommit(rest);
    CommitsAppend(head, call + rest);
    CommitsAppend(call, rest);
    head + (call + rest)
  }

  /**
   * `confirmTransferTokenCallback`: with no session nothing happens; otherwise the
   * effects above, and the session is removed whatever the outcome
   * (`succeeds` is `response?.success`).
   */
  method ConfirmTransferTokenCallback(w: BotState, queryId: int, chatId: int, messageId: int, placeholderId: int,
                                      succeeds: bool)
    modifies w
    ensures w.tokenTransferStates == old(w.tokenTransferStates) - {chatId}
    ensures chatId !in old(w.tokenTransferStates) ==> w.outbox == old(w.outbox)
    ensures chatId in old(w.tokenTransferStates) ==>
      w.outbox == old(w.outbox) +
        ConfirmTransferTokenEffects(chatId, queryId, messageId, placeholderId, old(w.tokenTransferStates)[chatId], succeeds)
    ensures w.userStates == old(w.userStates) && w.tokenCreationStates == old(w.tokenCreationStates)
    ensures w.diceGameStates == old(w.diceGameStates) && w.timers == old(w.timers)
  {
    var transferTokenState := Lookup(w.tokenTransferStates, chatId);
    if transferTokenState.None? {
      return;
    }
    w.outbox := w.outbox + [Answer(queryId, None)];
    w.outbox := w.outbox + [Delete(chatId, messageId)];
    w.outbox := w.outbox + [Send(chatId, Processing)];
    w.outbox := w.outbox + [Call(SendToken(chatId, transferTokenState.value))];
    w.outbox := w.outbox + [Send(chatId, TokenReport(transferTokenState.value, succeeds))];
    w.tokenTransferStates := w.tokenTransferStates - {chatId};
    w.outbox := w.outbox + [Delete(chatId, placeholderId)];
  }

  /** What cancelling a session does: acknowledge, report, and delete the pending prompt iff its id is truthy. */
  function CancelTransferTokenEffects(chatId: int, queryId: int, s: TokenTransfer): (effects: seq<Effect>)
    ensures Commits(effects) == 0
    ensures |effects| == if Truthy(s.confirmationMessageId) then 3 else 2
    ensures effects[..2] == [Answer(queryId, None), Send(chatId, TokenTransferCancelled)]
    ensures Truthy(s.confirmationMessageId) ==> effects[2] == Delete(chatId, s.confirmationMessageId.value)
  {
    var effects := [Answer(queryId, None), Send(chatId, TokenTransferCancelled)] + PendingDelete(chatId, s.confirmationMessageId);
    NoCallNoCommit(effects);
    effects
  }

  /** `cancelTransferTokenCallback`: with no session nothing happens; otherwise it is cancelled and removed. */
  method CancelTransferTokenCallback(w: BotState, queryId: int, chatId: int)
    modifies w
    ensures w.tokenTransferStates == old(w.tokenTransferStates) - {chatId}
    ensures chatId !in old(w.tokenTransferStates) ==> w.outbox == old(w.outbox)
    ensures chatId in old(w.tokenTransferStates) ==>
      w.outbox == old(w.outbox) + CancelTransferTokenEffects(chatId, queryId, old(w.tokenTransferStates)[chatId])
    ensures w.userStates == old(w.userStates) && w.tokenCreationStates == old(w.tokenCreationStates)
    ensures w.diceGameStates == old(w.diceGameStates) && w.timers == old(w.timers)
  {
    var transferTokenState := Lookup(w.tokenTransferStates, chatId);
    if transferTokenState.None? {
      return;
    }
    w.outbox := w.outbox + [Answer(queryId, None)];
    w.outbox := w.outbox + [Send(chatId, TokenTransferCancelled)];
    if Truthy(transferTokenState.value.confirmationMessageId) {
      w.outbox := w.outbox + [Delete(chatId, transferTokenState.value.confirmationMessageId.value)];
    }
    w.tokenTransferStates := w.tokenTransferStates - {chatId};
  }

  /** Confirming twice commits at most once: the session is gone before the second press. */
  method ConfirmTwice(w: BotState, queryId: int, chatId: int, messageId: int, placeholderId: int, succeeds: bool)
    modifies w
    ensures Commits(w.outbox) == Commits(old(w.outbox)) + (if chatId in old(w.tokenTransferStates) then 1 else 0)
    ensures chatId !in w.tokenTransferStates
  {
    ghost var before := w.outbox;
    ConfirmTransferTokenCallback(w, queryId, chatId, messageId, placeholderId, succeeds);
    ConfirmTransferTokenCallback(w, queryId, chatId, messageId, placeholderId, succeeds);
    if chatId in old(w.tokenTransferStates) {
      CommitsAppend(before, w.outbox[|before|..]);
      assert w.outbox == before + w.outbox[|before|..];
    }
  }
}

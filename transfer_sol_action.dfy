/**
 * The confirm and cancel buttons of the SOL-transfer flow (`confirm_transfer`,
 * `cancel_transfer`).
 */
module TransferSolAction {
  import opened Wrappers
  import opened Sessions

  /** The report sent after `sendSol`, showing the session's amount and recipient as stored. */
  function SolReport(s: SolSession, succeeds: bool): Notice
  {
    if succeeds then SolTransferSucceeded(s.amount, s.recipientAddress)
    else SolTransferFailed(s.amount, s.recipientAddress)
  }

  /**
   * What confirming does, given the chat's session (None when there is none).
   * The button is acknowledged, the message it sat on deleted and a placeholder
   * sent in every case.  With a session, `sendSol` is called once, with the stored
   * recipient and amount defaulted to "" and 0, the outcome is reported and the
   * placeholder deleted.  Without one, reading the session's fields throws before
   * `sendSol` is reached and "Something went wrong" is sent instead.
   */
  function ConfirmSolEffects(chatId: int, queryId: int, messageId: int, placeholderId: int,
                             session: Option<SolSession>, succeeds: bool): (effects: seq<Effect>)
    ensures Commits(effects) == if session.Some? then 1 else 0
    ensures |effects| >= 4
    ensures effects[..3] == [Answer(queryId, None), Delete(chatId, messageId), Send(chatId, Processing)]
    ensures session.None? ==> effects[3..] == [Send(chatId, SomethingWentWrong)]
    ensures session.Some? ==>
      var s := session.value;
      effects[3..] == [
        Call(SendSol(chatId, Some(s.recipientAddress.GetOr("")), Some(s.amount.GetOr(0.0)))),
        Send(chatId, SolReport(s, succeeds)),
        Delete(chatId, placeholderId)]
  {
    var prefix := [Answer(queryId, None), Delete(chatId, messageId), Send(chatId, Processing)];
    NoCallNoCommit(prefix);
    if session.None? then
      var tail := [Send(chatId, SomethingWentWrong)];
      CommitsAppend(prefix, tail);
      NoCallNoCommit(tail);
      prefix + tail
    else
      var s := session.value;
      var call := [Call(SendSol(chatId, Some(s.recipientAddress.GetOr("")), Some(s.amount.GetOr(0.0))))];
      var rest := [Send(chatId, SolReport(s, succeeds)), Delete(chatId, placeholderId)];
      CommitsAppend(prefix, call + rest);
      CommitsAppend(call, rest);
      NoCallNoCommit(rest);
      prefix + (call + rest)
  }

  /**
   * `confirmTransferCallback`: the effects above, and the chat's SOL session is
   * gone afterwards; `succeeds` is `response?.success`.
   */
  method ConfirmTransferCallback(w: BotState, queryId: int, chatId: int, messageId: int, placeholderId: int,
                                 succeeds: bool)
    modifies w
    ensures w.outbox == old(w.outbox) +
      ConfirmSolEffects(chatId, queryId, messageId, placeholderId, Lookup(old(w.userStates), chatId), succeeds)
    ensures w.userStates == old(w.userStates) - {chatId}
    ensures w.tokenCreationStates == old(w.tokenCreationStates) && w.tokenTransferStates == old(w.tokenTransferStates)
    ensures w.diceGameStates == old(w.diceGameStates) && w.timers == old(w.timers)
  {
    var userState := Lookup(w.userStates, chatId);
    w.outbox := w.outbox + [Answer(queryId, None)];
    w.outbox := w.outbox + [Delete(chatId, messageId)];
    w.outbox := w.outbox + [Send(chatId, Processing)];
    if userState.None? {
      // `userState!.recipientAddress` throws; the catch reports the failure
      w.outbox := w.outbox + [Send(chatId, SomethingWentWrong)];
      return;
    }
    var s := userState.value;
    w.outbox := w.outbox + [Call(SendSol(chatId, Some(s.recipientAddress.GetOr("")), Some(s.amount.GetOr(0.0))))];
    w.outbox := w.outbox + [Send(chatId, SolReport(s, succeeds))];
    w.userStates := w.userStates - {chatId};
    w.outbox := w.outbox + [Delete(chatId, placeholderId)];
  }

  /** What cancelling a session does: acknowledge, report, and delete the pending prompt iff its id is truthy. */
  function CancelSolEffects(chatId: int, queryId: int, s: SolSession): (effects: seq<Effect>)
    ensures Commits(effects) == 0
    ensures |effects| == if Truthy(s.confirmationMessageId) then 3 else 2
    ensures effects[..2] == [Answer(queryId, None), Send(chatId, SolTransferCancelled)]
    ensures Truthy(s.confirmationMessageId) ==> effects[2] == Delete(chatId, s.confirmationMessageId.value)
  {
    var effects := [Answer(queryId, None), Send(chatId, SolTransferCancelled)] + PendingDelete(chatId, s.confirmationMessageId);
    NoCallNoCommit(effects);
    effects
  }

  /**
   * `cancelTransferCallback`: only the data `cancel_transfer` is acted on, and only
   * when the chat has a SOL session; the session is then cancelled and removed.
   */
  method CancelTransferCallback(w: BotState, queryId: int, chatId: int, data: string)
    modifies w
    ensures data != "cancel_transfer" || chatId !in old(w.userStates) ==>
      w.userStates == old(w.userStates) && w.outbox == old(w.outbox)
    ensures data == "cancel_transfer" && chatId in old(w.userStates) ==>
      w.userStates == old(w.userStates) - {chatId} &&
      w.outbox == old(w.outbox) + CancelSolEffects(chatId, queryId, old(w.userStates)[chatId])
    ensures w.tokenCreationStates == old(w.tokenCreationStates) && w.tokenTransferStates == old(w.tokenTransferStates)
    ensures w.diceGameStates == old(w.diceGameStates) && w.timers == old(w.timers)
  {
    if data == "cancel_transfer" {
      var userState := Lookup(w.userStates, chatId);
      if userState.None? {
        return;
      }
      w.outbox := w.outbox + [Answer(queryId, None)];
      w.outbox := w.outbox + [Send(chatId, SolTransferCancelled)];
      if Truthy(userState.value.confirmationMessageId) {
        w.outbox := w.outbox + [Delete(chatId, userState.value.confirmationMessageId.value)];
      }
      w.userStates := w.userStates - {chatId};
    }
  }

  /** Confirming twice commits once: the second press finds no session and only reports a failure. */
  method ConfirmTwice(w: BotState, queryId: int, chatId: int, messageId: int, placeholderId: int, succeeds: bool)
    modifies w
    ensures Commits(w.outbox) == Commits(old(w.outbox)) + (if chatId in old(w.userStates) then 1 else 0)
    ensures chatId !in w.userStates
  {
    ghost var before := w.outbox;
    ConfirmTransferCallback(w, queryId, chatId, messageId, placeholderId, succeeds);
    ghost var middle := w.outbox;
    ConfirmTransferCallback(w, queryId, chatId, messageId, placeholderId, succeeds);
    CommitsAppend(before, middle[|before|..]);
    assert middle == before + middle[|before|..];
    CommitsAppend(middle, w.outbox[|middle|..]);
    assert w.outbox == middle + w.outbox[|middle|..];
  }

  /** Cancelling twice is cancelling once: the second press finds no session and sends nothing. */
  method CancelTwice(w: BotState, queryId: int, chatId: int)
    modifies w
    ensures chatId !in w.userStates
    ensures w.outbox == old(w.outbox) +
      if chatId in old(w.userStates) then CancelSolEffects(chatId, queryId, old(w.userStates)[chatId]) else []
  {
    CancelTransferCallback(w, queryId, chatId, "cancel_transfer");
    CancelTransferCallback(w, queryId, chatId, "cancel_transfer");
  }
}

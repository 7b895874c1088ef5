/**
 * The older confirm and cancel handlers of the SOL-transfer flow.  Neither checks
 * that the chat has a session: the shared prompt-deletion step reads the
 * session's pending message id directly, and throws when there is no session.
 */
module TransfersAction {
  import opened Wrappers
  import opened Sessions
  import TransferSolAction

  /**
   * `deleteConfirmationMessage`: deletes the pending prompt when its id is truthy;
   * with no session the read throws, which the calling handler turns into
   * "Something went wrong".  None stands for the throw.
   */
  function DeletePendingPrompt(chatId: int, session: Option<SolSession>): (r: Option<seq<Effect>>)
    ensures r.None? <==> session.None?
    ensures r.Some? ==> r.value == PendingDelete(chatId, session.value.confirmationMessageId)
  {
    if session.None? then None else Some(PendingDelete(chatId, session.value.confirmationMessageId))
  }

  /**
   * What the older confirm does.  The button is always acknowledged.  With a
   * session: the pending prompt is deleted when set, a placeholder is sent,
   * `sendSol` is called once with the session's recipient and amount as stored,
   * the outcome is reported and the placeholder deleted.  Without one: only
   * "Something went wrong" follows, and nothing is committed.
   */
  function LegacyConfirmEffects(chatId: int, queryId: int, placeholderId: int, session: Option<SolSession>,
                                succeeds: bool): (effects: seq<Effect>)
    ensures Commits(effects) == if session.Some? then 1 else 0
    ensures effects != [] && effects[0] == Answer(queryId, None)
    ensures session.None? ==> effects == [Answer(queryId, None), Send(chatId, SomethingWentWrong)]
    ensures session.Some? ==>
      var s := session.value;
      var deleted := PendingDelete(chatId, s.confirmationMessageId);
      effects == [Answer(queryId, None)] + deleted + [
        Send(chatId, Processing),
        Call(SendSol(chatId, s.recipientAddress, s.amount)),
        Send(chatId, TransferSolAction.SolReport(s, succeeds)),
        Delete(chatId, placeholderId)]
  {
    var head := [Answer(queryId, None)];
    NoCallNoCommit(head);
    if session.None? then
      var tail := [Send(chatId, SomethingWentWrong)];
      NoCallNoCommit(tail);
      CommitsAppend(head, tail);
      head + tail
    else
      var s := session.value;
      var deleted := PendingDelete(chatId, s.confirmationMessageId);
      var call := [Send(chatId, Processing), Call(SendSol(chatId, s.recipientAddress, s.amount))];
      var rest := [Send(chatId, TransferSolAction.SolReport(s, succeeds)), Delete(chatId, placeholderId)];
      NoCallNoCommit(deleted);
      NoCallNoCommit(rest);
      assert Commits(call) == 1 by {
        assert call[1..][1..] == [];
      }
      CommitsAppend(head + deleted, call + rest);
      CommitsAppend(head, deleted);
      CommitsAppend(call, rest);
      assert head + deleted + call + rest == (head + deleted) + (call + rest);
      head + deleted + call + rest
  }

  /**
   * `confirmTransferCallback` (older variant): the effects above; the session,
   * if there was one, is removed after `sendSol` whatever the outcome.
   */
  method LegacyConfirmTransferCallback(w: BotState, queryId: int, chatId: int, placeholderId: int, succeeds: bool)
    modifies w
    ensures w.outbox == old(w.outbox) +
      LegacyConfirmEffects(chatId, queryId, placeholderId, Lookup(old(w.userStates), chatId), succeeds)
    ensures w.userStates == old(w.userStates) - {chatId}
    ensures w.tokenCreationStates == old(w.tokenCreationStates) && w.tokenTransferStates == old(w.tokenTransferStates)
    ensures w.diceGameStates == old(w.diceGameStates) && w.timers == old(w.timers)
  {
    var userState := Lookup(w.userStates, chatId);
    w.outbox := w.outbox + [Answer(queryId, None)];
    var deleted := DeletePendingPrompt(chatId, userState);
    if deleted.None? {
      w.outbox := w.outbox + [Send(chatId, SomethingWentWrong)];
      return;
    }
    w.outbox := w.outbox + deleted.value;
    w.outbox := w.outbox + [Send(chatId, Processing)];
    var s := userState.value;
    w.outbox := w.outbox + [Call(SendSol(chatId, s.recipientAddress, s.amount))];
    w.outbox := w.outbox + [Send(chatId, TransferSolAction.SolReport(s, succeeds))];
    w.userStates := w.userStates - {chatId};
    w.outbox := w.outbox + [Delete(chatId, placeholderId)];
  }

  /**
   * What the older cancel does: acknowledge and send "Transfer Cancelled" first,
   * then delete the pending prompt when set; with no session, the deletion step
   * throws and "Something went wrong" follows.  Nothing is ever committed.
   */
  function LegacyCancelEffects(chatId: int, queryId: int, session: Option<SolSession>): (effects: seq<Effect>)
    ensures Commits(effects) == 0
    ensures |effects| >= 2 && effects[..2] == [Answer(queryId, None), Send(chatId, SolTransferCancelled)]
    ensures session.None? ==> effects[2..] == [Send(chatId, SomethingWentWrong)]
    ensures session.Some? ==> effects[2..] == PendingDelete(chatId, session.value.confirmationMessageId)
  {
    var head := [Answer(queryId, None), Send(chatId, SolTransferCancelled)];
    var tail := if session.None? then [Send(chatId, SomethingWentWrong)]
                else PendingDelete(chatId, session.value.confirmationMessageId);
    NoCallNoCommit(head + tail);
    head + tail
  }

  /** `cancelTransferCallback` (older variant): acts whatever the data, and removes the session. */
  method LegacyCancelTransferCallback(w: BotState, queryId: int, chatId: int)
    modifies w
    ensures w.outbox == old(w.outbox) + LegacyCancelEffects(chatId, queryId, Lookup(old(w.userStates), chatId))
    ensures w.userStates == old(w.userStates) - {chatId}
    ensures w.tokenCreationStates == old(w.tokenCreationStates) && w.tokenTransferStates == old(w.tokenTransferStates)
    ensures w.diceGameStates == old(w.diceGameStates) && w.timers == old(w.timers)
  {
    var userState := Lookup(w.userStates, chatId);
    w.outbox := w.outbox + [Answer(queryId, None)];
    w.outbox := w.outbox + [Send(chatId, SolTransferCancelled)];
    var deleted := DeletePendingPrompt(chatId, userState);
    if deleted.None? {
      w.outbox := w.outbox + [Send(chatId, SomethingWentWrong)];
      return;
    }
    w.outbox := w.outbox + deleted.value;
    w.userStates := w.userStates - {chatId};
  }

  /**
   * A repeated cancel is not silent here, unlike in the newer handler: with no
   * session left, the older cancel still reports the cancellation and then the
   * failure, where the newer one sends nothing.
   */
  lemma RepeatedLegacyCancelIsNotSilent(chatId: int, queryId: int)
    ensures LegacyCancelEffects(chatId, queryId, None) ==
      [Answer(queryId, None), Send(chatId, SolTransferCancelled), Send(chatId, SomethingWentWrong)]
  {
    var e := LegacyCancelEffects(chatId, queryId, None);
    assert e == e[..2] + e[2..];
  }
}

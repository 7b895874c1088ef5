/**
 * Work left pending with `setTimeout`: the token-creation teardown and the dice
 * settlement.  The event loop may run the pending timers in any order, so firing
 * takes the position of the one that runs.
 */
module Timers {
  import opened Sessions
  import opened AccountsController
  import CreateTokenAction
  import DiceGameAction

  /** Runs pending timer `k` and removes it from the queue. */
  method FireTimer(w: BotState, store: AccountStore, owner: string, k: nat)
    requires k < |w.timers|
    modifies w
    ensures w.timers == old(w.timers[..k] + w.timers[k + 1..])
    ensures old(w.timers[k]).CreationTeardown? ==>
      var t := old(w.timers[k]);
      w.tokenCreationStates == old(w.tokenCreationStates) - {t.teardownChat} &&
      w.outbox == old(w.outbox) + [Delete(t.teardownChat, t.placeholderId)] &&
      w.diceGameStates == old(w.diceGameStates)
    ensures old(w.timers[k]).DiceResolution? ==>
      var t := old(w.timers[k]);
      var key := store.GetUserPublicKey(t.rollChat);
      w.tokenCreationStates == old(w.tokenCreationStates) &&
      (key.None? ==> w.outbox == old(w.outbox) && w.diceGameStates == old(w.diceGameStates)) &&
      (key.Some? ==>
        w.outbox == old(w.outbox) + DiceGameAction.DiceSettlement(owner, t.rollChat, key.value, t.game, t.dieValue) &&
        w.diceGameStates == old(w.diceGameStates) - {t.rollChat})
    ensures w.userStates == old(w.userStates) && w.tokenTransferStates == old(w.tokenTransferStates)
  {
    var t := w.timers[k];
    w.timers := w.timers[..k] + w.timers[k + 1..];
    match t {
      case CreationTeardown(chatId, placeholderId) =>
        CreateTokenAction.CreationTeardownFires(w, chatId, placeholderId);
      case DiceResolution(chatId, game, dieValue) =>
        DiceGameAction.ResolveDice(w, store, owner, chatId, game, dieValue);
    }
  }

  /**
   * A game ended before its settlement fires is settled all the same: once the
   * roll is scheduled, firing it moves funds whenever the user has a key, whether
   * or not the chat still has a game.
   */
  method SettlementIgnoresEndedGame(w: BotState, store: AccountStore, owner: string, chatId: int,
                                    state: DiceSession, dieValue: int)
    requires store.GetUserPublicKey(chatId).Some?
    modifies w
    ensures Commits(w.outbox) == Commits(old(w.outbox)) + 1
    ensures chatId !in w.diceGameStates
  {
    DiceGameAction.PlayDiceGame(w, chatId, state, dieValue);
    ghost var rolled := w.outbox;
    w.diceGameStates := w.diceGameStates - {chatId};
    FireTimer(w, store, owner, |w.timers| - 1);
    var played := [Send(chatId, YouChose(state.guess)), RollDice(chatId)];
    NoCallNoCommit(played);
    CommitsAppend(old(w.outbox), played);
    CommitsAppend(rolled, w.outbox[|rolled|..]);
    assert w.outbox == rolled + w.outbox[|rolled|..];
  }
}

/**
 * The dice mini game after a guess: the chosen guess is echoed, a die is rolled,
 * and three seconds later the bet is settled with the game owner's address and
 * the chat's session removed.  The die's face comes from the messaging service
 * and is a parameter here; the delay is a queued timer.
 */
module DiceGameAction {
  import opened Wrappers
  import opened Strings
  import opened Sessions
  import opened AccountsController

  /** How a roll ends for a guess: won, with the factor the bet is multiplied by, or lost. */
  datatype DiceOutcome = Won(multiplier: real) | Lost

  /**
   * The exact face (the guess equals the face's decimal text) pays twice the bet;
   * "even" and "odd" pay one and a half times it when the parity matches.
   * JavaScript's `%` keeps the sign of the dividend, Dafny's does not, but both
   * agree on whether the remainder by 2 is zero.
   */
  function DiceOutcomeOf(guess: Option<string>, dieValue: int): (o: DiceOutcome)
    ensures guess.None? ==> o == Lost
    ensures o.Won? ==> o.multiplier == 2.0 || o.multiplier == 1.5
  {
    if guess == Some(IntToString(dieValue)) then Won(2.0)
    else if (guess == Some("even") && dieValue % 2 == 0) || (guess == Some("odd") && dieValue % 2 != 0) then Won(1.5)
    else Lost
  }

  /** A face's decimal text is never one of the parity words. */
  lemma FaceTextIsNotParity(dieValue: int)
    ensures IntToString(dieValue) != "even" && IntToString(dieValue) != "odd"
  {
    var t := IntToString(dieValue);
    assert "even"[0] == 'e' && "odd"[0] == 'o';
    assert IsDigit(t[0]) || t[0] == '-';
  }

  /**
   * A face guess (the buttons 1 to 6) wins, at twice the bet, exactly when the die
   * shows that face.
   */
  lemma FaceGuessWinsOnlyOnItsFace(face: int, dieValue: int)
    requires 1 <= face <= 6 && 1 <= dieValue <= 6
    ensures DiceOutcomeOf(Some(IntToString(face)), dieValue) == if face == dieValue then Won(2.0) else Lost
  {
    assert IntToString(face) == [DigitChar(face)];
    assert IntToString(dieValue) == [DigitChar(dieValue)];
    assert |IntToString(face)| == 1 && |"even"| == 4 && |"odd"| == 3;
    if face != dieValue {
      assert IntToString(face)[0] != IntToString(dieValue)[0];
    }
  }

  /**
   * The parity guesses: "even" wins on an even face and "odd" on an odd one, both at
   * one and a half times the bet, so exactly one of the two wins on every roll.
   */
  lemma ParityGuessesSplitTheFaces(dieValue: int)
    ensures DiceOutcomeOf(Some("even"), dieValue) == if dieValue % 2 == 0 then Won(1.5) else Lost
    ensures DiceOutcomeOf(Some("odd"), dieValue) == if dieValue % 2 != 0 then Won(1.5) else Lost
    ensures DiceOutcomeOf(Some("even"), dieValue).Won? != DiceOutcomeOf(Some("odd"), dieValue).Won?
  {
    FaceTextIsNotParity(dieValue);
  }

  /** `state.bet! * winMultiplier`: an absent bet gives NaN, kept as an absent amount. */
  function WinAmount(bet: Option<real>, multiplier: real): (amount: Option<real>)
    ensures amount.Some? <==> bet.Some?
    ensures bet.Some? && bet.value > 0.0 && multiplier > 1.0 ==> amount.value > bet.value
  {
    if bet.Some? then Some(bet.value * multiplier) else None
  }

  /** A won positive bet pays out more than it staked. */
  lemma WinPaysMoreThanTheBet(game: DiceSession, dieValue: int)
    requires game.bet.Some? && game.bet.value > 0.0
    requires DiceOutcomeOf(game.guess, dieValue).Won?
    ensures WinAmount(game.bet, DiceOutcomeOf(game.guess, dieValue).multiplier).value >= 1.5 * game.bet.value
  {
  }

  /**
   * The settlement once the user's key is known: on a win the owner's address sends
   * the user the bet times the factor; on a loss the user's address sends the owner
   * the bet.  Either way one transfer is made and its outcome announced.
   */
  function DiceSettlement(owner: string, chatId: int, userKey: string, game: DiceSession, dieValue: int)
    : (effects: seq<Effect>)
    ensures Commits(effects) == 1 && |effects| == 2
    ensures DiceOutcomeOf(game.guess, dieValue).Won? ==>
      var amount := WinAmount(game.bet, DiceOutcomeOf(game.guess, dieValue).multiplier);
      effects == [Call(TransferSol(owner, userKey, amount)), Send(chatId, YouWon(amount))]
    ensures DiceOutcomeOf(game.guess, dieValue).Lost? ==>
      effects == [Call(TransferSol(userKey, owner, game.bet)), Send(chatId, YouLost(game.bet))]
  {
    var outcome := DiceOutcomeOf(game.guess, dieValue);
    var effects := if outcome.Won? then
        var amount := WinAmount(game.bet, outcome.multiplier);
        [Call(TransferSol(owner, userKey, amount)), Send(chatId, YouWon(amount))]
      else
        [Call(TransferSol(userKey, owner, game.bet)), Send(chatId, YouLost(game.bet))];
    CommitsAppend(effects[..1], effects[1..]);
    assert effects == effects[..1] + effects[1..];
    NoCallNoCommit(effects[1..]);
    effects
  }

  /**
   * `playDiceGame`: echoes the guess, rolls the die and schedules the settlement
   * with the game as it stands now.  No session is changed yet.
   */
  method PlayDiceGame(w: BotState, chatId: int, state: DiceSession, dieValue: int)
    modifies w
    ensures w.outbox == old(w.outbox) + [Send(chatId, YouChose(state.guess)), RollDice(chatId)]
    ensures w.timers == old(w.timers) + [DiceResolution(chatId, state, dieValue)]
    ensures w.userStates == old(w.userStates) && w.tokenCreationStates == old(w.tokenCreationStates)
    ensures w.tokenTransferStates == old(w.tokenTransferStates) && w.diceGameStates == old(w.diceGameStates)
  {
    w.outbox := w.outbox + [Send(chatId, YouChose(state.guess))];
    w.outbox := w.outbox + [RollDice(chatId)];
    w.timers := w.timers + [DiceResolution(chatId, state, dieValue)];
  }

  /**
   * The scheduled settlement.  Without a user key it stops before transferring and
   * leaves the session in place; otherwise it settles and removes the session.  It
   * does not check that the session still exists, so a game ended in the meantime
   * is settled all the same.  (The key is never empty, so the source's falsy test
   * reduces to its absence.)
   */
  method ResolveDice(w: BotState, store: AccountStore, owner: string, chatId: int, game: DiceSession, dieValue: int)
    modifies w
    ensures store.GetUserPublicKey(chatId).None? ==>
      w.outbox == old(w.outbox) && w.diceGameStates == old(w.diceGameStates)
    ensures store.GetUserPublicKey(chatId).Some? ==>
      w.outbox == old(w.outbox) + DiceSettlement(owner, chatId, store.GetUserPublicKey(chatId).value, game, dieValue) &&
      w.diceGameStates == old(w.diceGameStates) - {chatId}
    ensures w.userStates == old(w.userStates) && w.tokenCreationStates == old(w.tokenCreationStates)
    ensures w.tokenTransferStates == old(w.tokenTransferStates) && w.timers == old(w.timers)
  {
    var outcome := DiceOutcomeOf(game.guess, dieValue);
    var userPublicKey := store.GetUserPublicKey(chatId);
    if userPublicKey.None? {
      return;
    }
    if outcome.Won? {
      var winAmount := WinAmount(game.bet, outcome.multiplier);
      w.outbox := w.outbox + [Call(TransferSol(owner, userPublicKey.value, winAmount))];
      w.outbox := w.outbox + [Send(chatId, YouWon(winAmount))];
    } else {
      w.outbox := w.outbox + [Call(TransferSol(userPublicKey.value, owner, game.bet))];
      w.outbox := w.outbox + [Send(chatId, YouLost(game.bet))];
    }
    w.diceGameStates := w.diceGameStates - {chatId};
  }
}

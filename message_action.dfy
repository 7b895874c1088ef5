/**
 * The text-message handlers of the four per-chat flows.  Each handler looks up
 * the chat's session, and in the session's stage either accepts the text (stores
 * it, moves one stage on and prompts for the next field) or rejects it (re-prompts
 * and keeps the stage).  The step functions below say what one message does to a
 * session; the handler methods apply them to the shared maps.
 */
module MessageAction {
  import opened Wrappers
  import opened Strings
  import opened Sessions
  import opened AccountsController

  /** The session after one message, and the prompt sent back (if any). */
  datatype Handled<S> = Handled(session: S, reply: Option<Notice>)

  /** A parse that is a number greater than zero (`!(isNaN(x) || x <= 0)`). */
  predicate IsPositive(x: Option<real>) { x.Some? && x.value > 0.0 }

  /** A parse that is an integer between 0 and 9 (`!(isNaN(d) || d < 0 || d > 9)`). */
  predicate IsDecimals(d: Option<int>) { d.Some? && 0 <= d.value <= 9 }

  /** A parse strictly between 0 and 10 (`!(isNaN(b) || b <= 0 || b >= 10)`). */
  predicate IsBet(b: Option<real>) { b.Some? && 0.0 < b.value < 10.0 }

  /** `msg.text || "0"`: an empty text is read as zero. */
  function AmountText(text: string): string
  {
    if text == "" then "0" else text
  }

  // ---------------------------------------------------------------------
  // SOL transfer (`handleTransferSol`)
  // ---------------------------------------------------------------------

  function SolStageIndex(st: SolStage): nat
  {
    match st
    case AwaitingRecipient => 0
    case AwaitingAmount => 1
    case Confirming => 2
  }

  /**
   * One text message in a SOL-transfer session.  The recipient is taken verbatim,
   * with no address check; an amount is accepted iff it parses to a positive number;
   * both prompts, including the re-prompt, become the session's pending message; a
   * message while confirming changes nothing and sends nothing.
   */
  function TransferSolStep(p: Parsers, s: SolSession, text: string, promptId: int): (r: Handled<SolSession>)
    ensures SolStageIndex(s.state) <= SolStageIndex(r.session.state) <= SolStageIndex(s.state) + 1
    ensures r.session.state == s.state ==> r.session.(confirmationMessageId := s.confirmationMessageId) == s
    ensures s.state == AwaitingRecipient ==>
      r.session.state == AwaitingAmount && r.session.recipientAddress == Some(text) &&
      r.session.amount == s.amount && r.session.confirmationMessageId == Some(promptId) &&
      r.reply == Some(AskSolAmount)
    ensures s.state == AwaitingAmount ==>
      var amount := p.parseFloat(AmountText(text));
      (r.session.state == Confirming <==> IsPositive(amount)) &&
      r.session.recipientAddress == s.recipientAddress &&
      r.session.confirmationMessageId == Some(promptId) &&
      (IsPositive(amount) ==>
        r.session.amount == amount && r.reply == Some(ConfirmSolTransfer(amount.value, s.recipientAddress))) &&
      (!IsPositive(amount) ==> r.session.amount == s.amount && r.reply == Some(InvalidSolAmount))
    ensures s.state == Confirming ==> r == Handled(s, None)
  {
    match s.state
    case AwaitingRecipient =>
      Handled(s.(recipientAddress := Some(text), state := AwaitingAmount, confirmationMessageId := Some(promptId)),
              Some(AskSolAmount))
    case AwaitingAmount =>
      var amount := p.parseFloat(AmountText(text));
      if !IsPositive(amount) then
        Handled(s.(confirmationMessageId := Some(promptId)), Some(InvalidSolAmount))
      else
        Handled(s.(amount := amount, state := Confirming, confirmationMessageId := Some(promptId)),
                Some(ConfirmSolTransfer(amount.value, s.recipientAddress)))
    case Confirming =>
      Handled(s, None)
  }

  /** What the later stages rely on: a recipient once past the first stage, a positive amount when confirming. */
  predicate SolSessionValid(s: SolSession)
  {
    (s.state != AwaitingRecipient ==> s.recipientAddress.Some?) &&
    (s.state == Confirming ==> IsPositive(s.amount))
  }

  lemma FreshSolSessionValid()
    ensures SolSessionValid(FreshSolSession)
  {
  }

  /** Every message keeps a SOL session valid. */
  lemma TransferSolStepKeepsValid(p: Parsers, s: SolSession, text: string, promptId: int)
    requires SolSessionValid(s)
    ensures SolSessionValid(TransferSolStep(p, s, text, promptId).session)
  {
  }

  /** `handleTransferSol`: the chat's SOL session, if there is one, takes one step. */
  method HandleTransferSol(w: BotState, chatId: int, text: string, promptId: int)
    modifies w
    ensures chatId !in old(w.userStates) ==> w.userStates == old(w.userStates) && w.outbox == old(w.outbox)
    ensures chatId in old(w.userStates) ==>
      var h := TransferSolStep(w.parsers, old(w.userStates)[chatId], text, promptId);
      w.userStates == old(w.userStates)[chatId := h.session] && w.outbox == old(w.outbox) + Replies(chatId, h.reply)
    ensures w.tokenCreationStates == old(w.tokenCreationStates) && w.tokenTransferStates == old(w.tokenTransferStates)
    ensures w.diceGameStates == old(w.diceGameStates) && w.timers == old(w.timers)
  {
    if chatId !in w.userStates {
      return;
    }
    var userState := w.userStates[chatId];
    match userState.state {
      case AwaitingRecipient =>
        userState := userState.(recipientAddress := Some(text), state := AwaitingAmount);
        w.outbox := w.outbox + [Send(chatId, AskSolAmount)];
        userState := userState.(confirmationMessageId := Some(promptId));
      case AwaitingAmount =>
        var amount := w.parsers.parseFloat(AmountText(text));
        if amount.None? || amount.value <= 0.0 {
          w.outbox := w.outbox + [Send(chatId, InvalidSolAmount)];
          userState := userState.(confirmationMessageId := Some(promptId));
          // the source mutates the stored record in place, so the new id is kept without `set`
          w.userStates := w.userStates[chatId := userState];
          return;
        }
        userState := userState.(amount := amount, state := Confirming);
        w.outbox := w.outbox + [Send(chatId, ConfirmSolTransfer(amount.value, userState.recipientAddress))];
        userState := userState.(confirmationMessageId := Some(promptId));
      case Confirming =>
    }
    w.userStates := w.userStates[chatId := userState];
  }

  // ---------------------------------------------------------------------
  // Token creation (`handleCreateToken`)
  // ---------------------------------------------------------------------

  function CreationStageIndex(st: CreationStage): nat
  {
    match st
    case Name => 0
    case Symbol => 1
    case Decimals => 2
    case Supply => 3
    case CreationConfirm => 4
  }

  /**
   * One text message in a token-creation session.  Name and symbol are always
   * accepted (the symbol upper-cased); decimals are accepted iff they parse to an
   * integer in [0, 9]; the supply iff it parses to a positive number.  A rejected
   * message leaves the session exactly as it was; each field changes only in its
   * own stage; only the final prompt becomes the pending message; a message while
   * confirming changes nothing and sends nothing.
   */
  function CreateTokenStep(p: Parsers, s: TokenCreation, text: string, promptId: int): (r: Handled<TokenCreation>)
    ensures CreationStageIndex(s.stage) <= CreationStageIndex(r.session.stage) <= CreationStageIndex(s.stage) + 1
    ensures r.session.stage == s.stage ==> r.session == s
    ensures r.session.name != s.name ==> s.stage == Name
    ensures r.session.symbol != s.symbol ==> s.stage == Symbol
    ensures r.session.decimals != s.decimals ==> s.stage == Decimals
    ensures r.session.supply != s.supply || r.session.confirmationMessageId != s.confirmationMessageId ==>
      s.stage == Supply
    ensures s.stage == Name ==>
      r.session.stage == Symbol && r.session.name == Some(text) && r.reply == Some(AskTokenSymbol(text))
    ensures s.stage == Symbol ==>
      r.session.stage == Decimals && r.session.symbol == Some(UpperAscii(text)) &&
      r.reply == Some(AskTokenDecimals(UpperAscii(text)))
    ensures s.stage == Decimals ==>
      var d := p.parseInt(text);
      (r.session.stage == Supply <==> IsDecimals(d)) &&
      (IsDecimals(d) ==> r.session.decimals == d && r.reply == Some(AskTokenSupply(d.value))) &&
      (!IsDecimals(d) ==> r.reply == Some(InvalidDecimals))
    ensures s.stage == Supply ==>
      var supply := p.parseFloat(text);
      (r.session.stage == CreationConfirm <==> IsPositive(supply)) &&
      (IsPositive(supply) ==>
        r.session.supply == supply && r.session.confirmationMessageId == Some(promptId) &&
        r.reply == Some(ConfirmTokenCreation(s.name, s.symbol, s.decimals, supply.value))) &&
      (!IsPositive(supply) ==> r.reply == Some(InvalidSupply))
    ensures s.stage == CreationConfirm ==> r == Handled(s, None)
  {
    match s.stage
    case Name =>
      Handled(s.(name := Some(text), stage := Symbol), Some(AskTokenSymbol(text)))
    case Symbol =>
      var symbol := UpperAscii(text);
      Handled(s.(symbol := Some(symbol), stage := Decimals), Some(AskTokenDecimals(symbol)))
    case Decimals =>
      var d := p.parseInt(text);
      if !IsDecimals(d) then Handled(s, Some(InvalidDecimals))
      else Handled(s.(decimals := d, stage := Supply), Some(AskTokenSupply(d.value)))
    case Supply =>
      var supply := p.parseFloat(text);
      if !IsPositive(supply) then Handled(s, Some(InvalidSupply))
      else
        Handled(s.(supply := supply, stage := CreationConfirm, confirmationMessageId := Some(promptId)),
                Some(ConfirmTokenCreation(s.name, s.symbol, s.decimals, supply.value)))
    case CreationConfirm =>
      Handled(s, None)
  }

  /** Every field before the current stage holds an accepted value. */
  predicate CreationValid(s: TokenCreation)
  {
    var k := CreationStageIndex(s.stage);
    (k >= 1 ==> s.name.Some?) &&
    (k >= 2 ==> s.symbol.Some?) &&
    (k >= 3 ==> IsDecimals(s.decimals)) &&
    (k >= 4 ==> IsPositive(s.supply) && s.confirmationMessageId.Some?)
  }

  /** Every message keeps a token-creation session valid. */
  lemma CreateTokenStepKeepsValid(p: Parsers, s: TokenCreation, text: string, promptId: int)
    requires CreationValid(s)
    ensures CreationValid(CreateTokenStep(p, s, text, promptId).session)
  {
  }

  /** The session after a sequence of text messages, each answered with prompt id `promptId`. */
  function CreationRun(p: Parsers, s: TokenCreation, texts: seq<string>, promptId: int): TokenCreation
    decreases |texts|
  {
    if texts == [] then s
    else CreationRun(p, CreateTokenStep(p, s, texts[0], promptId).session, texts[1..], promptId)
  }

  /** Messages only move a creation forward, by at most one stage each, and keep it valid. */
  lemma {:induction false} CreationRunAdvancesOneAtATime(p: Parsers, s: TokenCreation, texts: seq<string>, promptId: int)
    requires CreationValid(s)
    ensures var e := CreationRun(p, s, texts, promptId);
      CreationStageIndex(s.stage) <= CreationStageIndex(e.stage) <= CreationStageIndex(s.stage) + |texts| &&
      CreationValid(e)
    decreases |texts|
  {
    if texts != [] {
      var next := CreateTokenStep(p, s, texts[0], promptId).session;
      CreateTokenStepKeepsValid(p, s, texts[0], promptId);
      CreationRunAdvancesOneAtATime(p, next, texts[1..], promptId);
    }
  }

  /** Once confirming, further messages leave the session untouched. */
  lemma {:induction false} CreationConfirmIsInert(p: Parsers, s: TokenCreation, texts: seq<string>, promptId: int)
    requires s.stage == CreationConfirm
    ensures CreationRun(p, s, texts, promptId) == s
    decreases |texts|
  {
    if texts != [] {
      CreationConfirmIsInert(p, s, texts[1..], promptId);
    }
  }

  /**
   * A worked run: "Foo", "bar", "12" (rejected), "9", "1000" from a fresh
   * session reaches confirmation with Foo / BAR / 9 / 1000.
   */
  lemma CreateTokenWalkthrough(p: Parsers, promptId: int)
    requires p.parseInt("12") == Some(12) && p.parseInt("9") == Some(9)
    requires p.parseFloat("1000") == Some(1000.0)
    ensures CreationRun(p, FreshTokenCreation, ["Foo", "bar", "12", "9", "1000"], promptId) ==
      TokenCreation(CreationConfirm, Some("Foo"), Some("BAR"), Some(9), Some(1000.0), Some(promptId))
  {
    var texts := ["Foo", "bar", "12", "9", "1000"];
    var s1 := CreateTokenStep(p, FreshTokenCreation, "Foo", promptId).session;
    assert UpperAscii("bar") == "BAR";
    var s2 := CreateTokenStep(p, s1, "bar", promptId).session;
    assert s2 == TokenCreation(Decimals, Some("Foo"), Some("BAR"), None, None, None);
    var s3 := CreateTokenStep(p, s2, "12", promptId).session;
    assert s3 == s2;
    var s4 := CreateTokenStep(p, s3, "9", promptId).session;
    var s5 := CreateTokenStep(p, s4, "1000", promptId).session;
    assert texts[1..] == ["bar", "12", "9", "1000"];
    assert texts[1..][1..] == ["12", "9", "1000"];
    assert texts[1..][1..][1..] == ["9", "1000"];
    assert texts[1..][1..][1..][1..] == ["1000"];
    assert CreationRun(p, s5, [], promptId) == s5;
  }

  /** `handleCreateToken`: the chat's creation session, if there is one, takes one step. */
  method HandleCreateToken(w: BotState, chatId: int, text: string, promptId: int)
    modifies w
    ensures chatId !in old(w.tokenCreationStates) ==>
      w.tokenCreationStates == old(w.tokenCreationStates) && w.outbox == old(w.outbox)
    ensures chatId in old(w.tokenCreationStates) ==>
      var h := CreateTokenStep(w.parsers, old(w.tokenCreationStates)[chatId], text, promptId);
      w.tokenCreationStates == old(w.tokenCreationStates)[chatId := h.session] &&
      w.outbox == old(w.outbox) + Replies(chatId, h.reply)
    ensures w.userStates == old(w.userStates) && w.tokenTransferStates == old(w.tokenTransferStates)
    ensures w.diceGameStates == old(w.diceGameStates) && w.timers == old(w.timers)
  {
    if chatId !in w.tokenCreationStates {
      return;
    }
    var tokenState := w.tokenCreationStates[chatId];
    match tokenState.stage {
      case Name =>
        tokenState := tokenState.(name := Some(text), stage := Symbol);
        w.outbox := w.outbox + [Send(chatId, AskTokenSymbol(text))];
      case Symbol =>
        tokenState := tokenState.(symbol := Some(UpperAscii(text)), stage := Decimals);
        w.outbox := w.outbox + [Send(chatId, AskTokenDecimals(tokenState.symbol.value))];
      case Decimals =>
        var decimals := w.parsers.parseInt(text);
        if decimals.None? || decimals.value < 0 || decimals.value > 9 {
          w.outbox := w.outbox + [Send(chatId, InvalidDecimals)];
          return;
        }
        tokenState := tokenState.(decimals := decimals, stage := Supply);
        w.outbox := w.outbox + [Send(chatId, AskTokenSupply(decimals.value))];
      case Supply =>
        var supply := w.parsers.parseFloat(text);
        if supply.None? || supply.value <= 0.0 {
          w.outbox := w.outbox + [Send(chatId, InvalidSupply)];
          return;
        }
        tokenState := tokenState.(supply := supply, stage := CreationConfirm);
        w.outbox := w.outbox + [Send(chatId, ConfirmTokenCreation(tokenState.name, tokenState.symbol, tokenState.decimals, supply.value))];
        tokenState := tokenState.(confirmationMessageId := Some(promptId));
      case CreationConfirm =>
    }
    // the source mutates the stored record in place; storing it back is the same update
    w.tokenCreationStates := w.tokenCreationStates[chatId := tokenState];
  }

  // ---------------------------------------------------------------------
  // Token transfer (`handleTransferToken`)
  // ---------------------------------------------------------------------

  function TransferStageIndex(st: TransferStage): nat
  {
    match st
    case Mint => 0
    case Recipient => 1
    case Amount => 2
    case TransferConfirm => 3
  }

  /**
   * One text message in a token-transfer session.  Mint and recipient are accepted
   * iff the text decodes as a public key, and the normalised key is stored; the
   * amount iff it parses to a positive number.  A rejected message leaves the
   * session exactly as it was; only the final prompt becomes the pending message; a
   * message while confirming changes nothing and sends nothing.
   */
  function TransferTokenStep(p: Parsers, s: TokenTransfer, text: string, promptId: int): (r: Handled<TokenTransfer>)
    ensures TransferStageIndex(s.stage) <= TransferStageIndex(r.session.stage) <= TransferStageIndex(s.stage) + 1
    ensures r.session.stage == s.stage ==> r.session == s
    ensures r.session.mintAddress != s.mintAddress ==> s.stage == Mint
    ensures r.session.recipientAddress != s.recipientAddress ==> s.stage == Recipient
    ensures r.session.amount != s.amount || r.session.confirmationMessageId != s.confirmationMessageId ==>
      s.stage == Amount
    ensures s.stage == Mint ==>
      var key := p.publicKey(text);
      (r.session.stage == Recipient <==> key.Some?) &&
      (key.Some? ==> r.session.mintAddress == key && r.reply == Some(AskTransferRecipient)) &&
      (key.None? ==> r.reply == Some(InvalidMintAddress))
    ensures s.stage == Recipient ==>
      var key := p.publicKey(text);
      (r.session.stage == Amount <==> key.Some?) &&
      (key.Some? ==> r.session.recipientAddress == key && r.reply == Some(AskTransferAmount)) &&
      (key.None? ==> r.reply == Some(InvalidRecipientAddress))
    ensures s.stage == Amount ==>
      var amount := p.parseFloat(text);
      (r.session.stage == TransferConfirm <==> IsPositive(amount)) &&
      (IsPositive(amount) ==>
        r.session.amount == amount && r.session.confirmationMessageId == Some(promptId) &&
        r.reply == Some(ConfirmTokenTransfer(s.mintAddress, amount.value, s.recipientAddress))) &&
      (!IsPositive(amount) ==> r.reply == Some(InvalidTransferAmount))
    ensures s.stage == TransferConfirm ==> r == Handled(s, None)
  {
    match s.stage
    case Mint =>
      var key := p.publicKey(text);
      if key.None? then Handled(s, Some(InvalidMintAddress))
      else Handled(s.(mintAddress := key, stage := Recipient), Some(AskTransferRecipient))
    case Recipient =>
      var key := p.publicKey(text);
      if key.None? then Handled(s, Some(InvalidRecipientAddress))
      else Handled(s.(recipientAddress := key, stage := Amount), Some(AskTransferAmount))
    case Amount =>
      var amount := p.parseFloat(text);
      if !IsPositive(amount) then Handled(s, Some(InvalidTransferAmount))
      else
        Handled(s.(amount := amount, stage := TransferConfirm, confirmationMessageId := Some(promptId)),
                Some(ConfirmTokenTransfer(s.mintAddress, amount.value, s.recipientAddress)))
    case TransferConfirm =>
      Handled(s, None)
  }

  /** Every field before the current stage holds an accepted value. */
  predicate TransferValid(s: TokenTransfer)
  {
    var k := TransferStageIndex(s.stage);
    (k >= 1 ==> s.mintAddress.Some?) &&
    (k >= 2 ==> s.recipientAddress.Some?) &&
    (k >= 3 ==> IsPositive(s.amount) && s.confirmationMessageId.Some?)
  }

  /** Every message keeps a token-transfer session valid. */
  lemma TransferTokenStepKeepsValid(p: Parsers, s: TokenTransfer, text: string, promptId: int)
    requires TransferValid(s)
    ensures TransferValid(TransferTokenStep(p, s, text, promptId).session)
  {
  }

  /** `handleTransferToken`: the chat's transfer session, if there is one, takes one step. */
  method HandleTransferToken(w: BotState, chatId: int, text: string, promptId: int)
    modifies w
    ensures chatId !in old(w.tokenTransferStates) ==>
      w.tokenTransferStates == old(w.tokenTransferStates) && w.outbox == old(w.outbox)
    ensures chatId in old(w.tokenTransferStates) ==>
      var h := TransferTokenStep(w.parsers, old(w.tokenTransferStates)[chatId], text, promptId);
      w.tokenTransferStates == old(w.tokenTransferStates)[chatId := h.session] &&
      w.outbox == old(w.outbox) + Replies(chatId, h.reply)
    ensures w.userStates == old(w.userStates) && w.tokenCreationStates == old(w.tokenCreationStates)
    ensures w.diceGameStates == old(w.diceGameStates) && w.timers == old(w.timers)
  {
    if chatId !in w.tokenTransferStates {
      return;
    }
    var transferTokenState := w.tokenTransferStates[chatId];
    match transferTokenState.stage {
      case Mint =>
        var key := w.parsers.publicKey(text);
        if key.None? {
          w.outbox := w.outbox + [Send(chatId, InvalidMintAddress)];
          return;
        }
        transferTokenState := transferTokenState.(mintAddress := key, stage := Recipient);
        w.outbox := w.outbox + [Send(chatId, AskTransferRecipient)];
      case Recipient =>
        var key := w.parsers.publicKey(text);
        if key.None? {
          w.outbox := w.outbox + [Send(chatId, InvalidRecipientAddress)];
          return;
        }
        transferTokenState := transferTokenState.(recipientAddress := key, stage := Amount);
        w.outbox := w.outbox + [Send(chatId, AskTransferAmount)];
      case Amount =>
        var amount := w.parsers.parseFloat(text);
        if amount.None? || amount.value <= 0.0 {
          w.outbox := w.outbox + [Send(chatId, InvalidTransferAmount)];
          return;
        }
        transferTokenState := transferTokenState.(amount := amount, stage := TransferConfirm);
        w.outbox := w.outbox + [Send(chatId, ConfirmTokenTransfer(transferTokenState.mintAddress, amount.value, transferTokenState.recipientAddress))];
        transferTokenState := transferTokenState.(confirmationMessageId := Some(promptId));
      case TransferConfirm =>
    }
    w.tokenTransferStates := w.tokenTransferStates[chatId := transferTokenState];
  }

  // ---------------------------------------------------------------------
  // Dice game (`handlePlayDiceGame`)
  // ---------------------------------------------------------------------

  /**
   * One text message in a dice session.  Only the bet stage reads text: a bet is
   * accepted iff it parses strictly between 0 and 10, and acceptance moves to the
   * guess stage and records the chat id, not a message id, as the pending message.
   * A rejected bet and any message in the guess stage change nothing.
   */
  function DiceBetStep(p: Parsers, chatId: int, s: DiceSession, text: string): (r: Handled<DiceSession>)
    ensures r.session.guess == s.guess
    ensures s.stage == Bet ==>
      var bet := p.parseFloat(text);
      (r.session.stage == Guess <==> IsBet(bet)) &&
      (IsBet(bet) ==>
        r.session.bet == bet && r.session.confirmationMessageId == Some(chatId) && r.reply == Some(AskGuess)) &&
      (!IsBet(bet) ==> r == Handled(s, Some(InvalidBet)))
    ensures s.stage == Guess ==> r == Handled(s, None)
  {
    match s.stage
    case Bet =>
      var bet := p.parseFloat(text);
      if !IsBet(bet) then Handled(s, Some(InvalidBet))
      else Handled(s.(bet := bet, stage := Guess, confirmationMessageId := Some(chatId)), Some(AskGuess))
    case Guess =>
      Handled(s, None)
  }

  /** `handlePlayDiceGame`: the chat's dice session, if there is one, takes one step. */
  method HandlePlayDiceGame(w: BotState, chatId: int, text: string)
    modifies w
    ensures chatId !in old(w.diceGameStates) ==> w.diceGameStates == old(w.diceGameStates) && w.outbox == old(w.outbox)
    ensures chatId in old(w.diceGameStates) ==>
      var h := DiceBetStep(w.parsers, chatId, old(w.diceGameStates)[chatId], text);
      w.diceGameStates == old(w.diceGameStates)[chatId := h.session] &&
      w.outbox == old(w.outbox) + Replies(chatId, h.reply)
    ensures w.userStates == old(w.userStates) && w.tokenCreationStates == old(w.tokenCreationStates)
    ensures w.tokenTransferStates == old(w.tokenTransferStates) && w.timers == old(w.timers)
  {
    if chatId !in w.diceGameStates {
      return;
    }
    var state := w.diceGameStates[chatId];
    match state.stage {
      case Bet =>
        var bet := w.parsers.parseFloat(text);
        if bet.None? || bet.value <= 0.0 || bet.value >= 10.0 {
          w.outbox := w.outbox + [Send(chatId, InvalidBet)];
          return;
        }
        state := state.(bet := bet, stage := Guess, confirmationMessageId := Some(chatId));
        w.outbox := w.outbox + [Send(chatId, AskGuess)];
        w.diceGameStates := w.diceGameStates[chatId := state];
      case Guess =>
    }
  }

  // ---------------------------------------------------------------------
  // Main menu buttons (`handleMainMenu`)
  // ---------------------------------------------------------------------

  /** The fixed fields of the button data contain no `_`. */
  lemma TagsHaveNoUnderscore()
    ensures '_' !in "account" && '_' !in "subscription" && '_' !in "remove" && '_' !in "add"
  {
    assert "account" == "acc" + "ount";
    assert "subscription" == "subscr" + "iption";
    assert "remove" == "rem" + "ove";
  }

  /**
   * The callback data `account_<type>_<op>` of a button on the account card;
   * splitting it on `_` gives back the type and the operation when neither
   * contains `_`.
   */
  function AccountButton(reqType: string, operation: string): (data: string)
    ensures '_' !in reqType && '_' !in operation ==> Split(data, '_') == ["account", reqType, operation]
  {
    TagsHaveNoUnderscore();
    if '_' !in reqType && '_' !in operation then
      ThreeFields("account", reqType, operation);
      "account" + "_" + reqType + "_" + operation
    else "account" + "_" + reqType + "_" + operation
  }

  /** The account card's buttons, row by row. */
  const AccountButtons: seq<string> := [
    AccountButton("send", "sol"), AccountButton("get", "airdrop"), AccountButton("send", "token"),
    AccountButton("create", "token"), AccountButton("get", "tokenBalance"), AccountButton("play", "miniGames")]

  datatype Button = Button(caption: string, data: string)

  /**
   * The button under one subscription card: "❌ Remove" exactly when the user is
   * subscribed, "✅ Add" otherwise; its data `subscription_<op>_<id>` splits back
   * into the operation that flips the status and the subscription's id.
   */
  function SubscriptionButton(t: TaggedSubscription): (b: Button)
    ensures b.caption == "❌ Remove" <==> t.isSubscribed
    ensures Split(b.data, '_') ==
      ["subscription", if t.isSubscribed then "remove" else "add", IntToString(t.subscription.id)]
  {
    var op := if t.isSubscribed then "remove" else "add";
    TagsHaveNoUnderscore();
    ThreeFields("subscription", op, IntToString(t.subscription.id));
    assert |"❌ Remove"| != |"✅ Add"|;
    Button(if t.isSubscribed then "❌ Remove" else "✅ Add", "subscription" + "_" + op + "_" + IntToString(t.subscription.id))
  }
}

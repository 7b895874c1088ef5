/**
 * The process-wide state the handlers share: the four per-chat session maps that
 * `src/index.ts` is imported for, the timers a handler leaves pending, and a log of
 * everything the bot does to the outside world (chat messages, deletions, callback
 * answers and ledger calls).  The shapes of the session records are the ones the
 * handlers read and write.
 */
module Sessions {
  import opened Wrappers

  // ---------------------------------------------------------------------
  // Session records, one per flow kind
  // ---------------------------------------------------------------------

  /** `userStates`: the SOL-transfer flow ("AWAITING_RECIPIENT" → "AWAITING_AMOUNT" → "CONFIRMING"). */
  datatype SolStage = AwaitingRecipient | AwaitingAmount | Confirming

  datatype SolSession = SolSession(
    state: SolStage,
    recipientAddress: Option<string>,
    amount: Option<real>,
    confirmationMessageId: Option<int>)

  /** `tokenCreationStates`: "name" → "symbol" → "decimals" → "supply" → "confirm". */
  datatype CreationStage = Name | Symbol | Decimals | Supply | CreationConfirm

  datatype TokenCreation = TokenCreation(
    stage: CreationStage,
    name: Option<string>,
    symbol: Option<string>,
    decimals: Option<int>,
    supply: Option<real>,
    confirmationMessageId: Option<int>)

  /** `tokenTransferStates`: "mint" → "recipient" → "amount" → "confirm". */
  datatype TransferStage = Mint | Recipient | Amount | TransferConfirm

  datatype TokenTransfer = TokenTransfer(
    stage: TransferStage,
    mintAddress: Option<string>,
    recipientAddress: Option<string>,
    amount: Option<real>,
    confirmationMessageId: Option<int>)

  /** `diceGameStates`: "bet" → "guess", then a timed resolution. */
  datatype DiceStage = Bet | Guess

  datatype DiceSession = DiceSession(
    stage: DiceStage,
    bet: Option<real>,
    guess: Option<string>,
    confirmationMessageId: Option<int>)

  /** The records the flow starters store: only the stage is set. */
  const FreshSolSession := SolSession(AwaitingRecipient, None, None, None)
  const FreshTokenCreation := TokenCreation(Name, None, None, None, None, None)
  const FreshTokenTransfer := TokenTransfer(Mint, None, None, None, None)

  /** JavaScript truthiness of an optional message id (`if (state.confirmationMessageId)`). */
  predicate Truthy(id: Option<int>) { id.Some? && id.value != 0 }

  /** `map.get(chatId)`: the chat's session, or None (`undefined`). */
  function Lookup<V>(m: map<int, V>, chatId: int): (r: Option<V>)
    ensures r.Some? <==> chatId in m
    ensures r.Some? ==> r.value == m[chatId]
  {
    if chatId in m then Some(m[chatId]) else None
  }

  // ---------------------------------------------------------------------
  // What the bot does to the outside world
  // ---------------------------------------------------------------------

  /** The chat messages the handlers send, with the session data they show. */
  datatype Notice =
    // SOL transfer
    | AskRecipientAddress
    | AskSolAmount
    | InvalidSolAmount
    | ConfirmSolTransfer(solAmount: real, solRecipient: Option<string>)
    | SolTransferSucceeded(sentAmount: Option<real>, sentTo: Option<string>)
    | SolTransferFailed(failedAmount: Option<real>, failedTo: Option<string>)
    | SolTransferCancelled
    // token creation
    | AskTokenName
    | AskTokenSymbol(tokenName: string)
    | AskTokenDecimals(tokenSymbol: string)
    | InvalidDecimals
    | AskTokenSupply(tokenDecimals: int)
    | InvalidSupply
    | ConfirmTokenCreation(cName: Option<string>, cSymbol: Option<string>, cDecimals: Option<int>, cSupply: real)
    | TokenCreated
    | TokenCreationFailed
    // token transfer
    | AskMintAddress
    | AskTransferRecipient
    | InvalidMintAddress
    | AskTransferAmount
    | InvalidRecipientAddress
    | InvalidTransferAmount
    | ConfirmTokenTransfer(tMint: Option<string>, tAmount: real, tRecipient: Option<string>)
    | TokenTransferSucceeded(okMint: Option<string>, okAmount: Option<real>, okRecipient: Option<string>)
    | TokenTransferFailed
    | TokenTransferCancelled
    // dice game
    | InvalidBet
    | AskGuess
    | YouChose(chosen: Option<string>)
    | YouWon(winAmount: Option<real>)
    | YouLost(lostAmount: Option<real>)
    // account menu and subscriptions
    | UserNotFound
    | AirdropReply(airdropText: string)
    | ErrorFetchingTokens
    | NoTokensFound
    | TokenBalances(balanceText: string)
    | PlayMinigames
    | AlertAdded
    | AlertRemoved
    // failures
    | Processing
    | SomethingWentWrong
    | SomethingWentWrongTryLater

  /**
   * The ledger operations (transactions) a handler can start.  An absent amount
   * is an `undefined` (or NaN) passed through unchanged.
   */
  datatype LedgerCall =
    | SendSol(fromChat: int, recipient: Option<string>, amount: Option<real>)
    | CreateToken(ownerChat: int, creation: TokenCreation)
    | SendToken(senderChat: int, transfer: TokenTransfer)
    | TransferSol(from: string, to: string, solAmount: Option<real>)
    | RequestAirdrop(publicKey: string)

  /** The calls a handler makes into the account store. */
  datatype StoreCall =
    | AddSubscription(chat: int, subscriptionId: Option<string>)
    | RemoveSubscription(chat: int, subscriptionId: Option<string>)

  datatype Effect =
    | Send(to: int, notice: Notice)
    | Delete(inChat: int, messageId: int)
    | Answer(query: int, answer: Option<Notice>)
    | RollDice(diceChat: int)
    | Call(ledger: LedgerCall)
    | Store(store: StoreCall)

  /** A message sent only when the handler has one to send. */
  function Replies(chatId: int, reply: Option<Notice>): (r: seq<Effect>)
    ensures |r| <= 1
  {
    if reply.Some? then [Send(chatId, reply.value)] else []
  }

  /** Deleting the pending prompt, which happens only when its id is truthy. */
  function PendingDelete(chatId: int, confirmationMessageId: Option<int>): (r: seq<Effect>)
    ensures |r| == (if Truthy(confirmationMessageId) then 1 else 0)
    ensures Truthy(confirmationMessageId) ==> r[0] == Delete(chatId, confirmationMessageId.value)
  {
    if Truthy(confirmationMessageId) then [Delete(chatId, confirmationMessageId.value)] else []
  }

  /** The number of ledger transactions in an effect log. */
  function Commits(log: seq<Effect>): nat
  {
    if log == [] then 0
    else (if log[0].Call? then 1 else 0) + Commits(log[1..])
  }

  lemma {:induction false} CommitsAppend(a: seq<Effect>, b: seq<Effect>)
    ensures Commits(a + b) == Commits(a) + Commits(b)
    decreases |a|
  {
    if a != [] {
      var ab := a + b;
      assert ab[0] == a[0] && ab[1..] == a[1..] + b;
      CommitsAppend(a[1..], b);
      assert Commits(ab) == (if a[0].Call? then 1 else 0) + Commits(a[1..] + b);
    } else {
      assert a + b == b;
    }
  }

  /** A log segment with no ledger call commits nothing. */
  lemma {:induction false} NoCallNoCommit(a: seq<Effect>)
    requires forall i :: 0 <= i < |a| ==> !a[i].Call?
    ensures Commits(a) == 0
    decreases |a|
  {
    if a != [] {
      NoCallNoCommit(a[1..]);
    }
  }

  // ---------------------------------------------------------------------
  // Library parsers and deferred work
  // ---------------------------------------------------------------------

  /**
   * `parseFloat`, `parseInt` and `new PublicKey(text).toBase58()` as partial parsers:
   * `None` stands for NaN or for a thrown decoding error.
   */
  datatype Parsers = Parsers(
    parseFloat: string -> Option<real>,
    parseInt: string -> Option<int>,
    publicKey: string -> Option<string>)

  /** Work scheduled with `setTimeout`, run later by the event loop. */
  datatype Timer =
    | CreationTeardown(teardownChat: int, placeholderId: int)
    | DiceResolution(rollChat: int, game: DiceSession, dieValue: int)

  /** The globals of the running bot. */
  class BotState {
    const parsers: Parsers
    var userStates: map<int, SolSession>
    var tokenCreationStates: map<int, TokenCreation>
    var tokenTransferStates: map<int, TokenTransfer>
    var diceGameStates: map<int, DiceSession>
    var timers: seq<Timer>
    ghost var outbox: seq<Effect>

    constructor (parsers: Parsers)
      ensures this.parsers == parsers
      ensures userStates == map[] && tokenCreationStates == map[]
      ensures tokenTransferStates == map[] && diceGameStates == map[]
      ensures timers == [] && outbox == []
    {
      this.parsers := parsers;
      userStates, tokenCreationStates := map[], map[];
      tokenTransferStates, diceGameStates := map[], map[];
      timers, outbox := [], [];
    }
  }
}

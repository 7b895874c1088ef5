/**
 * The account card's buttons (`accountsCallback`): button data `account_<type>_<op>`
 * starts the SOL-transfer, token-transfer or token-creation flow, asks for an
 * airdrop, lists token balances or opens the mini games.
 */
module AccountAction {
  import opened Wrappers
  import opened Strings
  import opened Sessions
  import opened AccountsController
  import MessageAction

  /** What a button press asks for, read from fields 1 and 2 of its data. */
  datatype AccountRequest =
    | StartSolTransfer
    | StartTokenTransfer
    | GetAirdrop
    | GetTokenBalance
    | StartTokenCreation
    | PlayMiniGames
    | Unrecognised

  /**
   * The request named by a request type and an operation (either may be missing):
   * each of the six known pairs names its own request, anything else none.
   */
  function RequestFor(reqType: Option<string>, operation: Option<string>): (r: AccountRequest)
    ensures r == StartSolTransfer <==> reqType == Some("send") && operation == Some("sol")
    ensures r == StartTokenTransfer <==> reqType == Some("send") && operation == Some("token")
    ensures r == GetAirdrop <==> reqType == Some("get") && operation == Some("airdrop")
    ensures r == GetTokenBalance <==> reqType == Some("get") && operation == Some("tokenBalance")
    ensures r == StartTokenCreation <==> reqType == Some("create") && operation == Some("token")
    ensures r == PlayMiniGames <==> reqType == Some("play") && operation == Some("miniGames")
    ensures reqType.None? || operation.None? ==> r == Unrecognised
  {
    if reqType == Some("send") && operation == Some("sol") then StartSolTransfer
    else if reqType == Some("send") && operation == Some("token") then StartTokenTransfer
    else if reqType == Some("get") && operation == Some("airdrop") then GetAirdrop
    else if reqType == Some("get") && operation == Some("tokenBalance") then GetTokenBalance
    else if reqType == Some("create") && operation == Some("token") then StartTokenCreation
    else if reqType == Some("play") && operation == Some("miniGames") then PlayMiniGames
    else Unrecognised
  }

  /**
   * `const [, reqType, operation] = action.split("_")`: data with fewer than
   * three fields names no request; otherwise fields 1 and 2 decide it.
   */
  function AccountRequestOf(data: string): (r: AccountRequest)
    ensures |Split(data, '_')| < 3 ==> r == Unrecognised
    ensures |Split(data, '_')| >= 3 ==> r == RequestFor(Some(Split(data, '_')[1]), Some(Split(data, '_')[2]))
  {
    var parts := Split(data, '_');
    RequestFor(Field(parts, 1), Field(parts, 2))
  }

  /**
   * The first field is ignored: any `<prefix>_<type>_<op>` without further
   * underscores is read as the request named by type and operation.
   */
  lemma RequestFromButtonData(prefix: string, reqType: string, operation: string)
    requires '_' !in prefix && '_' !in reqType && '_' !in operation
    ensures AccountRequestOf(prefix + "_" + reqType + "_" + operation) == RequestFor(Some(reqType), Some(operation))
  {
    ThreeFields(prefix, reqType, operation);
  }

  /** The data of an account-card button names the request of its type and operation. */
  lemma AccountButtonRequest(reqType: string, operation: string)
    requires '_' !in reqType && '_' !in operation
    ensures AccountRequestOf(MessageAction.AccountButton(reqType, operation)) == RequestFor(Some(reqType), Some(operation))
  {
    assert MessageAction.AccountButton(reqType, operation) == "account" + "_" + reqType + "_" + operation;
    RequestFromButtonData("account", reqType, operation);
  }

  // ---------------------------------------------------------------------
  // The token-balance list
  // ---------------------------------------------------------------------

  /** One entry of `getTokenBalance`'s list; the balance as the chat displays it. */
  datatype TokenBalance = TokenBalance(mint: string, balance: string)

  const BalancesHeader := "\U{1F4B0} Your token balances:\n\n"

  /** The block for the `n`-th token of the list. */
  function BalanceEntry(n: nat, t: TokenBalance): string
  {
    "#" + NatToString(n) + "\n" +
    "<b><u>Mint</u></b>: <code>" + t.mint + "</code>\n" +
    "<b><u>Balance</u></b>: <i>" + t.balance + "</i>\n\n"
  }

  /** The blocks of `bs` in list order, numbered from `first`. */
  function BalanceEntries(bs: seq<TokenBalance>, first: nat): (entries: seq<string>)
    ensures |entries| == |bs|
    ensures forall i :: 0 <= i < |bs| ==> entries[i] == BalanceEntry(first + i, bs[i])
  {
    seq(|bs|, i requires 0 <= i < |bs| => BalanceEntry(first + i, bs[i]))
  }

  function NumberedBalances(bs: seq<TokenBalance>, first: nat): string
  {
    Concat(BalanceEntries(bs, first))
  }

  /** Listing two lists one after the other continues the numbering. */
  lemma NumberedBalancesAppend(a: seq<TokenBalance>, b: seq<TokenBalance>, first: nat)
    ensures NumberedBalances(a + b, first) == NumberedBalances(a, first) + NumberedBalances(b, first + |a|)
  {
    assert BalanceEntries(a + b, first) == BalanceEntries(a, first) + BalanceEntries(b, first + |a|);
    ConcatAppend(BalanceEntries(a, first), BalanceEntries(b, first + |a|));
  }

  /** One more token at the end adds its entry, numbered after the others. */
  lemma NumberedBalancesSnoc(bs: seq<TokenBalance>, t: TokenBalance, first: nat)
    ensures NumberedBalances(bs + [t], first) == NumberedBalances(bs, first) + BalanceEntry(first + |bs|, t)
  {
    NumberedBalancesAppend(bs, [t], first);
    assert BalanceEntries([t], first + |bs|) == [BalanceEntry(first + |bs|, t)];
    assert Concat([BalanceEntry(first + |bs|, t)]) == BalanceEntry(first + |bs|, t) by {
      assert [BalanceEntry(first + |bs|, t)][..0] == [];
      assert "" + BalanceEntry(first + |bs|, t) == BalanceEntry(first + |bs|, t);
    }
  }

  /** Token `i` of the list is shown as entry number `i + 1`, after entries 1 to `i`. */
  lemma BalanceEntriesInOrder(bs: seq<TokenBalance>, i: nat)
    requires i < |bs|
    ensures NumberedBalances(bs, 1) ==
      NumberedBalances(bs[..i], 1) + BalanceEntry(i + 1, bs[i]) + NumberedBalances(bs[i + 1..], i + 2)
  {
    var front, rest := bs[..i] + [bs[i]], bs[i + 1..];
    assert bs == front + rest;
    NumberedBalancesAppend(front, rest, 1);
    NumberedBalancesSnoc(bs[..i], bs[i], 1);
    AppendAssoc(NumberedBalances(bs[..i], 1), BalanceEntry(i + 1, bs[i]), NumberedBalances(rest, i + 2));
  }

  lemma AppendAssoc(a: string, b: string, c: string)
    ensures a + b + c == a + (b + c)
  {
  }

  /** Appending pieces one at a time appends their concatenation. */
  lemma AppendRegroup(m: string, a: string, b: string, c: string, d: string, e: string, f: string,
                      g: string, h: string, k: string)
    ensures m + a + b + c + d + e + f + g + h + k == m + (a + b + c + d + e + f + g + h + k)
  {
  }

  /** The text listing the balances: the header, then entries #1, #2, … in list order. */
  method TokenBalanceMessage(balances: seq<TokenBalance>) returns (message: string)
    ensures message == BalancesHeader + NumberedBalances(balances, 1)
  {
    message := BalancesHeader;
    var count := 1;
    for i := 0 to |balances|
      invariant count == i + 1
      invariant message == BalancesHeader + NumberedBalances(balances[..i], 1)
    {
      var token := balances[i];
      ghost var before := message;
      message := message + "#" + NatToString(count) + "\n";
      message := message + "<b><u>Mint</u></b>: <code>" + token.mint + "</code>\n";
      message := message + "<b><u>Balance</u></b>: <i>" + token.balance + "</i>\n\n";
      AppendRegroup(before, "#", NatToString(count), "\n", "<b><u>Mint</u></b>: <code>", token.mint, "</code>\n",
                    "<b><u>Balance</u></b>: <i>", token.balance, "</i>\n\n");
      assert message == before + BalanceEntry(count, token);
      assert balances[..i + 1] == balances[..i] + [token];
      NumberedBalancesSnoc(balances[..i], token, 1);
      AppendAssoc(BalancesHeader, NumberedBalances(balances[..i], 1), BalanceEntry(count, token));
      count := count + 1;
    }
    assert balances[..|balances|] == balances;
  }

  /**
   * The reply to the token-balance button, given what the ledger returned (None:
   * the lookup failed): the error text exactly when the lookup failed, "no tokens"
   * exactly for an empty list, and otherwise the header and the numbered list.
   */
  function TokenBalancesNotice(balances: Option<seq<TokenBalance>>): (r: Notice)
    ensures r == ErrorFetchingTokens <==> balances.None?
    ensures r == NoTokensFound <==> balances == Some([])
    ensures balances.Some? && balances.value != [] ==>
      r == TokenBalances(BalancesHeader + NumberedBalances(balances.value, 1))
  {
    if balances.None? then ErrorFetchingTokens
    else if balances.value == [] then NoTokensFound
    else TokenBalances(BalancesHeader + NumberedBalances(balances.value, 1))
  }

  const AirdropFallbackText := "Check Wallet for Airdrop"

  /**
   * The reply to the airdrop button, `airdropResponse || "Check Wallet for Airdrop"`:
   * a missing or empty reply (both falsy) falls back to the fixed text, so the chat
   * is never sent an empty text.
   */
  function AirdropNotice(reply: Option<string>): (r: Notice)
    ensures r.AirdropReply? && r.airdropText != ""
    ensures reply.Some? && reply.value != "" ==> r.airdropText == reply.value
    ensures reply.None? || reply.value == "" ==> r.airdropText == AirdropFallbackText
  {
    if reply.Some? && reply.value != "" then AirdropReply(reply.value) else AirdropReply(AirdropFallbackText)
  }

  /**
   * Pressing the airdrop button shows the fallback text exactly when the chat has no
   * user with an account; a user with one sees the store's own reply.
   */
  lemma AirdropFallbackOnlyWithoutAccount(store: AccountStore, chatId: int, now: int, airdropSucceeds: bool)
    ensures var r := store.GetAirDrop(chatId, now, airdropSucceeds);
      AirdropNotice(r.reply).airdropText == AirdropFallbackText <==>
        chatId !in store.users || store.users[chatId].account.None?
  {
    var r := store.GetAirDrop(chatId, now, airdropSucceeds);
    if chatId in store.users && store.users[chatId].account.Some? {
      var text := r.reply.value;
      assert text[0] == 'A' by {
        if r.requested.Some? && airdropSucceeds {
          assert text == "Airdrop of 1 SOL to " + r.requested.value + " successful!";
        }
      }
      assert AirdropFallbackText[0] == 'C';
    }
  }

  /** The ledger request an airdrop press makes, if any. */
  function AirdropCalls(r: AirdropResult): seq<Effect>
  {
    if r.requested.Some? then [Call(RequestAirdrop(r.requested.value))] else []
  }

  /**
   * `accountsCallback`.  Without a user the press is answered with "User not found"
   * and nothing else happens.  Otherwise each start button replaces its own flow's
   * session with a fresh one (the SOL session also records the prompt's id) and
   * leaves every other map as it was; the other buttons start no session.
   * `promptId` is the id of the message the bot sends, `tokenBalances` what the
   * ledger reports for the user's key.
   */
  method AccountsCallback(w: BotState, store: AccountStore, queryId: int, chatId: int, data: string,
                          promptId: int, now: int, airdropSucceeds: bool,
                          tokenBalances: Option<seq<TokenBalance>>)
    modifies w
    ensures w.timers == old(w.timers) && w.diceGameStates == old(w.diceGameStates)
    ensures store.GetUserPublicKey(chatId).None? ==>
      w.userStates == old(w.userStates) && w.tokenTransferStates == old(w.tokenTransferStates) &&
      w.tokenCreationStates == old(w.tokenCreationStates) &&
      w.outbox == old(w.outbox) + [Answer(queryId, Some(UserNotFound))]
    ensures store.GetUserPublicKey(chatId).Some? ==>
      var request := AccountRequestOf(data);
      (w.userStates == if request == StartSolTransfer
        then old(w.userStates)[chatId := FreshSolSession.(confirmationMessageId := Some(promptId))]
        else old(w.userStates)) &&
      (w.tokenTransferStates == if request == StartTokenTransfer
        then old(w.tokenTransferStates)[chatId := FreshTokenTransfer]
        else old(w.tokenTransferStates)) &&
      (w.tokenCreationStates == if request == StartTokenCreation
        then old(w.tokenCreationStates)[chatId := FreshTokenCreation]
        else old(w.tokenCreationStates)) &&
      w.outbox == old(w.outbox) + match request
        case StartSolTransfer => [Answer(queryId, None), Send(chatId, AskRecipientAddress)]
        case StartTokenTransfer => [Answer(queryId, None), Send(chatId, AskMintAddress)]
        case StartTokenCreation => [Answer(queryId, None), Send(chatId, AskTokenName)]
        case GetAirdrop =>
          var r := store.GetAirDrop(chatId, now, airdropSucceeds);
          AirdropCalls(r) + [Send(chatId, AirdropNotice(r.reply))]
        case GetTokenBalance => [Send(chatId, TokenBalancesNotice(tokenBalances))]
        case PlayMiniGames => [Send(chatId, PlayMinigames)]
        case Unrecognised => []
  {
    var parts := Split(data, '_');
    var reqType, operation := Field(parts, 1), Field(parts, 2);
    var userPublickey := store.GetUserPublicKey(chatId);
    if userPublickey.None? {
      w.outbox := w.outbox + [Answer(queryId, Some(UserNotFound))];
      return;
    }
    if reqType == Some("send") {
      if operation == Some("sol") {
        w.userStates := w.userStates[chatId := FreshSolSession];
        w.outbox := w.outbox + [Answer(queryId, None), Send(chatId, AskRecipientAddress)];
        w.userStates := w.userStates[chatId := w.userStates[chatId].(confirmationMessageId := Some(promptId))];
      } else if operation == Some("token") {
        w.tokenTransferStates := w.tokenTransferStates[chatId := FreshTokenTransfer];
        w.outbox := w.outbox + [Answer(queryId, None), Send(chatId, AskMintAddress)];
      }
    }
    if reqType == Some("get") {
      if operation == Some("airdrop") {
        var airdrop := store.GetAirDrop(chatId, now, airdropSucceeds);
        w.outbox := w.outbox + AirdropCalls(airdrop) + [Send(chatId, AirdropNotice(airdrop.reply))];
      }
      if operation == Some("tokenBalance") {
        // the second key lookup reads the same store, so it finds the user again
        if tokenBalances.None? {
          w.outbox := w.outbox + [Send(chatId, ErrorFetchingTokens)];
          return;
        }
        if |tokenBalances.value| == 0 {
          w.outbox := w.outbox + [Send(chatId, NoTokensFound)];
          return;
        }
        var message := TokenBalanceMessage(tokenBalances.value);
        w.outbox := w.outbox + [Send(chatId, TokenBalances(message))];
        return;
      }
    }
    if reqType == Some("create") {
      if operation == Some("token") {
        w.tokenCreationStates := w.tokenCreationStates[chatId := FreshTokenCreation];
        w.outbox := w.outbox + [Answer(queryId, None), Send(chatId, AskTokenName)];
      }
    }
    if reqType == Some("play") {
      if operation == Some("miniGames") {
        w.outbox := w.outbox + [Send(chatId, PlayMinigames)];
      }
    }
  }
}

# Solana Buddy Bot: the per-chat conversation engine, in Dafny

This project models the conversation engine of a Telegram bot that drives Solana
wallet operations. For each chat, the bot keeps the state of at most one open flow
of each kind, in four in-memory maps keyed by chat id:

- a SOL transfer (`userStates`): recipient → amount → confirming;
- a token creation (`tokenCreationStates`): name → symbol → decimals → supply → confirm;
- a token transfer (`tokenTransferStates`): mint → recipient → amount → confirm;
- a dice game (`diceGameStates`): bet → guess, then a timed settlement.

The model covers these parts of the bot:

- The text-message handlers. Each validates one message and either advances its flow by one stage or re-prompts.
- The account-card buttons that start flows.
- The confirm and cancel buttons of each flow, including the older SOL variant without existence checks. Confirming commits one ledger call.
- The dice payout rule and settlement.
- The subscription add/remove buttons.
- The account store's guards and text formatting.
- The one-hour airdrop cooldown.

## How the model is built

- **Globals and store.** `Sessions.BotState` is a class holding the globals of the running bot:
  - the four session maps;
  - the timers left pending with `setTimeout`, as queued values;
  - a ghost `outbox`, an ordered log of everything the bot does to the outside world: messages sent, messages deleted, callback answers, ledger calls and store calls.

  `AccountsController.AccountStore` is a class for the user and airdrop tables. It keeps a ghost log of the update statements issued against them.
- **Stage handlers.** Each one is a pure step function on a session record (`MessageAction.TransferSolStep` and the like). It states what one message does: which stage follows, which field changes and which prompt is sent. An imperative method applies the step to the map: the chat's entry is replaced by the step's result, and every other map and the timers are unchanged.
- **Confirm and cancel handlers.** Each one is an imperative method whose postcondition ties the new outbox to a pure effects function of the old session. That function's own contract counts the ledger calls (`Sessions.Commits`) and fixes their arguments.
- **Double presses.** At-most-once, or more-than-once, is stated by methods that press the same button twice in a row.
- **Abstract inputs.** `parseFloat`, `parseInt` and base58 public-key decoding are abstract parsers held by `BotState`; None means NaN or a thrown decode. The ids of messages the bot sends, the die face, the clock, and the outcomes of ledger calls are all parameters.

## Where the described design and the code differ

The model follows the code in each of these cases.

- **Repeated SOL confirm.** The design says a second confirm for a chat whose transfer has finished is a silent no-op. In the code, the newer SOL confirm still answers the button, deletes the message and sends a placeholder. Reading the missing session's fields then throws, and "Something went wrong" is sent. No second `sendSol` is made (`TransferSolAction.ConfirmTwice`).
- **Older SOL handlers.** They have no existence check. A repeated cancel still reports "Transfer Cancelled" and then fails (`TransfersAction.RepeatedLegacyCancelIsNotSilent`).
- **Token-creation confirm.**
  - With no session, it sends a failure message instead of returning silently.
  - The session is removed only when the five-second timer fires. Two confirms inside that window call `createToken` twice (`CreateTokenAction.ConfirmTwiceBeforeTeardown`).
- **Dice settlement.** It does not check that the game still exists. A game ended before the timer fires is settled anyway (`Timers.SettlementIgnoresEndedGame`).

## Model

| member | source | states |
|---|---|---|
| AirdropController.LastAirdrop | src/controllers/airdrop.controller.ts:7-10 | None iff the user has no request on record; otherwise the latest `createdAt` among the user's requests, which is one of them |
| AirdropController.CanRequestAirdrop | src/controllers/airdrop.controller.ts:6-21 | allowed iff every request of the user is at least 3 600 000 ms old at `now` |
| AirdropController.FirstAirdropAllowed | src/controllers/airdrop.controller.ts:12-14 | a user with no request on record is always allowed |
| AirdropController.CooldownBoundary | src/controllers/airdrop.controller.ts:16-20 | exactly one hour after the last request is allowed; one millisecond less is denied |
| AirdropController.CooldownMonotone | src/controllers/airdrop.controller.ts:16-20 | with the log unchanged, allowed at time t implies allowed at every later time |
| AirdropController.RecordAirdropRequest | src/controllers/airdrop.controller.ts:23-27 | appends exactly one row, the user's id stamped with `now`, after the rows already on record; the user's latest request is then no earlier than `now` |
| AirdropController.RecordStartsCooldown | src/controllers/airdrop.controller.ts:23-27 | recording appends exactly one row and denies the same user for the following hour |
| AirdropController.RecordIsPerUser | src/controllers/airdrop.controller.ts:23-27 | recording a request for one user does not change the answer for any other user |
| AccountsController.AccountStore.GetAccountInfo | src/controllers/accounts.controller.ts:8-18 | a user iff the chat has a row, and then that row |
| AccountsController.AccountStore.GetUserPublicKey | src/controllers/accounts.controller.ts:57-69 | null iff the chat has no user; never empty; a user whose account has a non-empty key gets exactly that key; a user with no account or an empty key gets "No User Info Found"; any other answer is the account's key |
| AccountsController.AccountStore.CreateAccountIfNotFound | src/controllers/accounts.controller.ts:20-55 | an existing user or a failed key generation creates nothing and returns null; otherwise exactly one user is added, holding the new keypair and subscription 2, and is returned |
| AccountsController.AccountStore.AddSubscriptionForUser | src/controllers/accounts.controller.ts:141-156 | the update is always issued, even with no user to target; the id joins the user's set only when the user exists and the id parses |
| AccountsController.AccountStore.RemoveSubscriptionForUser | src/controllers/accounts.controller.ts:158-174 | without a user, no update is issued and nothing changes; otherwise one update is issued and a parsed id leaves the user's set |
| AccountsController.AccountStore.GetAirDrop | src/controllers/accounts.controller.ts:176-193 | null without a user or account; a ledger request is made iff the cooldown allows it, for the account's key; otherwise "Already claimed" |
| AccountsController.NumberedItems | src/controllers/accounts.controller.ts:80-94 | one entry per subscription, in list order, entry i numbered i + 1 |
| AccountsController.UserSubscriptionsText | src/controllers/accounts.controller.ts:71-98 | the fixed "No Subscription Found" text iff there is no user or the user has no subscription |
| AccountsController.OneSubscriptionText | src/controllers/accounts.controller.ts:83-92 | a single subscription is listed as entry "1." with its title-cased name and description |
| AccountsController.SubscriptionsTextAppend | src/controllers/accounts.controller.ts:80-94 | one more subscription at the end adds a newline and one entry carrying the next number |
| AccountsController.ListTextStartsWithNumber | src/controllers/accounts.controller.ts:79-94 | a non-empty list's text starts with the digit of entry 1, so it is never the "No Subscription Found" text |
| AccountsController.SubscriptionsWithUserStatus | src/controllers/accounts.controller.ts:115-122 | same length and order as all subscriptions; `isSubscribed` iff a user exists and holds the id |
| AccountsController.NoUserNothingSubscribed | src/controllers/accounts.controller.ts:115-117 | without a user, no subscription is tagged as held |
| AccountsController.MergedAccount | src/controllers/accounts.controller.ts:227-232 | the merged row has the columns of both rows; account columns win on shared names; user columns are kept elsewhere |
| AccountsController.AccountsWithPublicKey | src/controllers/accounts.controller.ts:223-233 | one merged row per account row, in order |
| AccountsController.SharedColumnsFromAccount | src/controllers/accounts.controller.ts:228-231 | the merged `id`, `createdAt` and `updatedAt` are the account's, not the user's |
| Strings.Split | src/actions/callbacks/account.action.ts:24 | at least one piece, and no piece contains the separator |
| Strings.JoinSplit | src/actions/callbacks/account.action.ts:24 | joining the pieces of a split with the separator gives the string back |
| Strings.Field | src/actions/callbacks/account.action.ts:24 | a destructured field is present iff the split has that many pieces |
| Strings.ThreeFields | src/actions/callbacks/subscriptions.action.ts:15 | `tag_x_y`, with no underscore inside the parts, splits into exactly those three parts |
| Strings.UpperAscii | src/actions/message.action.ts:132 | same length; every ASCII letter upper-cased and every other character kept |
| Strings.IntToString | src/actions/message.action.ts:454 | a non-empty decimal text (digits and an optional sign) with no underscore |
| Strings.NatToStringValue | src/actions/callbacks/account.action.ts:95 | the digits written for a count denote that count |
| Strings.IntToStringValue | src/actions/message.action.ts:454 | reading back the decimal text of an integer, sign included, gives the integer |
| Strings.IntToStringInjective | src/actions/message.action.ts:454 | two integers have the same decimal text iff they are equal, so button data names one id |
| Strings.CapitalizeWordsIsUpperWordStarts | src/controllers/accounts.controller.ts:86-91 | split on spaces, capitalise each word, join with spaces upper-cases (ASCII letters) exactly the characters that start a word |
| Strings.TitleCase | src/controllers/accounts.controller.ts:84-92 | title-casing keeps the length; `_` becomes a space; a character at the start or after a space or `_` is upper-cased (ASCII letters); every other character is kept |
| Sessions.Lookup | src/actions/callbacks/transferSol.action.ts:19 | `map.get`: present iff the chat has an entry, and then that entry |
| Sessions.PendingDelete | src/actions/callbacks/transferSol.action.ts:82-84 | the pending prompt is deleted iff its id is truthy (set and non-zero) |
| MessageAction.TransferSolStep | src/actions/message.action.ts:45-94 | stage moves forward by at most one; the recipient text is stored verbatim with no check; the amount is accepted iff the parse is positive, and a rejection keeps stage and amount; both prompts become the pending message; confirming is inert |
| MessageAction.FreshSolSessionValid | src/actions/callbacks/account.action.ts:35 | a freshly started SOL session is valid |
| MessageAction.TransferSolStepKeepsValid | src/actions/message.action.ts:45-94 | every message keeps a SOL session valid: a recipient once past the first stage, a positive amount when confirming |
| MessageAction.HandleTransferSol | src/actions/message.action.ts:33-105 | no session: nothing changes and nothing is sent; otherwise the entry becomes the step's session and its prompt is sent; other maps and timers are unchanged |
| MessageAction.CreateTokenStep | src/actions/message.action.ts:118-202 | stage moves forward by at most one; a rejection changes nothing; each field changes only in its own stage; the symbol is upper-cased; decimals are accepted iff in [0, 9] and the supply iff positive; confirm is inert |
| MessageAction.CreateTokenStepKeepsValid | src/actions/message.action.ts:118-202 | every message keeps the fields before the current stage holding accepted values |
| MessageAction.CreationRunAdvancesOneAtATime | src/actions/message.action.ts:118-202 | n messages advance a creation by at most n stages, never backwards, and keep it valid |
| MessageAction.CreationConfirmIsInert | src/actions/message.action.ts:118-202 | once confirming, any sequence of messages leaves the session untouched |
| MessageAction.CreateTokenWalkthrough | src/actions/message.action.ts:118-202 | "Foo", "bar", "12", "9", "1000" from a fresh session reach confirm with Foo, BAR, 9 and 1000; the rejected "12" changes nothing |
| MessageAction.HandleCreateToken | src/actions/message.action.ts:107-208 | no session: nothing changes; otherwise the entry becomes the step's session and its prompt is sent; other maps are unchanged |
| MessageAction.TransferTokenStep | src/actions/message.action.ts:227-304 | mint and recipient advance iff the text decodes as a public key, and the normalised key is stored; the amount advances iff positive; a rejection changes nothing; confirm is inert |
| MessageAction.TransferTokenStepKeepsValid | src/actions/message.action.ts:227-304 | every message keeps the fields before the current stage holding accepted values |
| MessageAction.HandleTransferToken | src/actions/message.action.ts:210-311 | no session: nothing changes; otherwise the entry becomes the step's session and its prompt is sent; other maps are unchanged |
| MessageAction.AccountButton | src/actions/message.action.ts:391-418 | `account_<type>_<op>` splits back into "account", the type and the operation when neither contains `_` |
| MessageAction.SubscriptionButton | src/actions/message.action.ts:453-454 | the caption is "❌ Remove" iff subscribed; the data splits into "subscription", the flipping operation and the id's decimal text |
| MessageAction.DiceBetStep | src/actions/message.action.ts:322-364 | a bet is accepted iff strictly between 0 and 10; acceptance moves to guess and records the chat id as pending message; a rejection and the guess stage change nothing |
| MessageAction.HandlePlayDiceGame | src/actions/message.action.ts:313-371 | no session: nothing changes; otherwise the entry becomes the step's session and its prompt is sent; other maps are unchanged |
| AccountAction.RequestFor | src/actions/callbacks/account.action.ts:33-131 | each of the six known (type, operation) pairs names its own request, iff both fields match; a missing field names none |
| AccountAction.AccountRequestOf | src/actions/callbacks/account.action.ts:24 | data with fewer than three fields names no request; otherwise fields 1 and 2 decide it |
| AccountAction.RequestFromButtonData | src/actions/callbacks/account.action.ts:24 | the first field is ignored; fields 1 and 2 name the request |
| AccountAction.AccountButtonRequest | src/actions/message.action.ts:391-418 | the data of every account-card button is read back as the request of its own type and operation |
| AccountAction.BalanceEntries | src/actions/callbacks/account.action.ts:94-99 | one block per token, in list order, numbered from the given start |
| AccountAction.NumberedBalancesAppend | src/actions/callbacks/account.action.ts:94-99 | listing two lists one after the other continues the numbering |
| AccountAction.NumberedBalancesSnoc | src/actions/callbacks/account.action.ts:94-99 | one more token adds its block at the end, numbered after the others |
| AccountAction.BalanceEntriesInOrder | src/actions/callbacks/account.action.ts:94-99 | token i is shown as entry #(i + 1), after entries 1 to i |
| AccountAction.TokenBalanceMessage | src/actions/callbacks/account.action.ts:92-99 | the loop builds the header followed by the numbered blocks of all tokens in order |
| AccountAction.TokenBalancesNotice | src/actions/callbacks/account.action.ts:87-100 | "Error Fetching Tokens" iff the lookup failed; "No Tokens Found" iff the list is empty; otherwise the header and the numbered list |
| AccountAction.AirdropNotice | src/actions/callbacks/account.action.ts:79-82 | a non-empty reply is shown as it is; a missing or empty one (falsy) becomes "Check Wallet for Airdrop"; never an empty text |
| AccountAction.AirdropFallbackOnlyWithoutAccount | src/actions/callbacks/account.action.ts:79-82 | pressing the airdrop button shows "Check Wallet for Airdrop" iff the chat has no user with an account |
| AccountAction.AccountsCallback | src/actions/callbacks/account.action.ts:17-138 | no user: only "User not found", and no map changes; otherwise each start button replaces only its own flow's session with a fresh one; the other buttons start no session; the outbox gets each button's replies |
| TransferSolAction.ConfirmSolEffects | src/actions/callbacks/transferSol.action.ts:21-65 | acknowledge, delete and placeholder always come first; exactly one `sendSol` iff a session exists, with recipient and amount defaulted to "" and 0, then the report and the placeholder deletion; with no session, "Something went wrong" |
| TransferSolAction.ConfirmTransferCallback | src/actions/callbacks/transferSol.action.ts:15-66 | the outbox grows by the confirm effects of the chat's session; the SOL session is gone afterwards; nothing else changes |
| TransferSolAction.CancelSolEffects | src/actions/callbacks/transferSol.action.ts:76-84 | acknowledge and "Transfer Cancelled", then the prompt deletion iff its id is truthy; no ledger call |
| TransferSolAction.CancelTransferCallback | src/actions/callbacks/transferSol.action.ts:68-92 | acts only on `cancel_transfer` with a session, then cancels and removes the session; otherwise nothing changes and nothing is sent |
| TransferSolAction.ConfirmTwice | src/actions/callbacks/transferSol.action.ts:19-59 | two confirms make one `sendSol` if a session existed and none otherwise |
| TransferSolAction.CancelTwice | src/actions/callbacks/transferSol.action.ts:74-85 | two cancels have the effect of one; the second sends nothing |
| TransfersAction.DeletePendingPrompt | src/actions/callbacks/transfers.action.ts:9-21 | throws iff there is no session; otherwise deletes the pending prompt iff its id is truthy |
| TransfersAction.LegacyConfirmEffects | src/actions/callbacks/transfers.action.ts:29-59 | always acknowledges first; exactly one `sendSol` iff a session exists, with the stored recipient and amount; otherwise "Something went wrong" |
| TransfersAction.LegacyConfirmTransferCallback | src/actions/callbacks/transfers.action.ts:22-60 | the outbox grows by those effects; the session is removed whatever the outcome; nothing else changes |
| TransfersAction.LegacyCancelEffects | src/actions/callbacks/transfers.action.ts:69-80 | acknowledge and "Transfer Cancelled" come first in every case; then the prompt deletion, or "Something went wrong" with no session; no ledger call |
| TransfersAction.LegacyCancelTransferCallback | src/actions/callbacks/transfers.action.ts:62-82 | the outbox grows by those effects; the session is removed |
| TransfersAction.RepeatedLegacyCancelIsNotSilent | src/actions/callbacks/transfers.action.ts:69-80 | a cancel with no session sends the cancellation and then the failure message |
| CreateTokenAction.ConfirmCreateEffects | src/actions/callbacks/createToken.action.ts:25-53 | acknowledge, delete the button's message and send the placeholder, in that order; then exactly one `createToken`, with the stored session; then the success or failure report |
| CreateTokenAction.ConfirmCreateTokenCallback | src/actions/callbacks/createToken.action.ts:16-63 | no session: only "Something went wrong. Please try again later"; otherwise the effects above and a queued teardown; the session is still present on return |
| CreateTokenAction.CreationTeardownFires | src/actions/callbacks/createToken.action.ts:54-57 | the timer removes the creation session and deletes the placeholder |
| CreateTokenAction.CancelCreateEffects | src/actions/callbacks/createToken.action.ts:71-82 | acknowledge and the SOL-transfer cancellation text, then the prompt deletion iff truthy; no ledger call |
| CreateTokenAction.CancelCreateTokenCallback | src/actions/callbacks/createToken.action.ts:65-88 | no session: nothing; otherwise the effects above and the session removed at once |
| CreateTokenAction.ConfirmTwiceBeforeTeardown | src/actions/callbacks/createToken.action.ts:20-57 | two confirms before the teardown fires make two `createToken` calls and queue two teardowns |
| TransferTokenAction.ConfirmTransferTokenEffects | src/actions/callbacks/transferToken.action.ts:23-58 | acknowledge, delete the button's message and send the placeholder, in that order; then exactly one `sendToken`, with the stored session; the report shows mint, amount and recipient on success; the placeholder is deleted last |
| TransferTokenAction.ConfirmTransferTokenCallback | src/actions/callbacks/transferToken.action.ts:15-64 | no session: nothing sent; otherwise the effects above; the session is gone afterwards in both cases |
| TransferTokenAction.CancelTransferTokenEffects | src/actions/callbacks/transferToken.action.ts:74-85 | acknowledge and "Transfer Cancelled" for a token send, then the prompt deletion iff truthy; no ledger call |
| TransferTokenAction.CancelTransferTokenCallback | src/actions/callbacks/transferToken.action.ts:66-92 | no session: nothing; otherwise the effects above and the session removed |
| TransferTokenAction.ConfirmTwice | src/actions/callbacks/transferToken.action.ts:21-57 | two confirms make at most one `sendToken` |
| DiceGameAction.DiceOutcomeOf | src/actions/callbacks/diceGame.action.ts:17-29 | no guess loses; a win pays 2 or 1.5 times the bet |
| DiceGameAction.FaceTextIsNotParity | src/actions/callbacks/diceGame.action.ts:20-29 | the decimal text of a face is never "even" or "odd", so the two rules never overlap |
| DiceGameAction.FaceGuessWinsOnlyOnItsFace | src/actions/callbacks/diceGame.action.ts:20-29 | a face guess 1 to 6 wins ×2 iff the die shows it, and loses otherwise, whatever its parity |
| DiceGameAction.ParityGuessesSplitTheFaces | src/actions/callbacks/diceGame.action.ts:23-29 | "even" wins ×1.5 on even faces and "odd" on odd faces; exactly one of the two wins on every roll |
| DiceGameAction.WinAmount | src/actions/callbacks/diceGame.action.ts:32 | present iff the bet is; a positive bet times a factor above one pays more than the bet |
| DiceGameAction.WinPaysMoreThanTheBet | src/actions/callbacks/diceGame.action.ts:31-32 | a won positive bet pays at least 1.5 times the bet |
| DiceGameAction.DiceSettlement | src/actions/callbacks/diceGame.action.ts:31-90 | exactly one transfer: owner to user of bet × factor on a win, user to owner of the bet on a loss; then the matching announcement |
| DiceGameAction.PlayDiceGame | src/actions/callbacks/diceGame.action.ts:7-16 | echoes the guess, rolls the die and queues the settlement with the game as it stands; no map changes |
| DiceGameAction.ResolveDice | src/actions/callbacks/diceGame.action.ts:16-93 | without a user key: nothing sent and the session kept; otherwise the settlement and the session removed |
| SubscriptionsAction.SubscriptionRequestOf | src/actions/callbacks/subscriptions.action.ts:15 | operation and id are present iff the split has two or three fields |
| SubscriptionsAction.SubscriptionButtonRoundTrip | src/actions/message.action.ts:453-454 | a card's button data reads back as "remove" when subscribed and "add" otherwise, with the card's id |
| SubscriptionsAction.SubscriptionsCallback | src/actions/callbacks/subscriptions.action.ts:9-39 | no user: "User not found" and no store call; "add" and "remove" make one store call each and are answered as done; any other operation does nothing |
| SubscriptionsAction.PressSubscriptionButton | src/actions/callbacks/subscriptions.action.ts:23-33 | pressing a card's button flips that subscription for the user and leaves every other one as it was |
| Timers.FireTimer | src/actions/callbacks/createToken.action.ts:54-57 | firing a pending timer removes it from the queue and runs it: a creation teardown, or a dice settlement as `ResolveDice` states |
| Timers.SettlementIgnoresEndedGame | src/actions/callbacks/diceGame.action.ts:16-93 | a game removed before its settlement fires still makes one transfer when the user has a key |

## Left out

- Telegram transport: message texts, HTML, keyboards, web-app links and transaction-signature links are reduced to notice tags in the outbox. Transport failures are not modelled.
- Messages without text (`msg.text` undefined) and the dispatcher that routes a message or a button to its handler are not part of this model.
- Ledger and store I/O (`sendSol`, `createToken`, `sendToken`, `transferSOL`, `requestAirdrop`, `getTokenBalance`, Prisma): their outcomes are parameters, and thrown database errors are not modelled. The created token's name shown in the success report is omitted.
- Floating point: amounts are reals, and lamport conversion and `toFixed` formatting live in the ledger wrappers, which are outside the model.
- JavaScript `parseFloat`/`parseInt` and base58 key decoding are abstract partial parsers, not reimplementations.
- Strings.UpperAscii: `toUpperCase` is modelled for ASCII letters only; other characters are kept unchanged.
- Strings.TitleCase: the upper-casing of a word's first character covers ASCII letters only. JavaScript's `toUpperCase` also maps other cased letters (`é` to `É`); here those stay as they are.
- Strings.CapitalizeWordsIsUpperWordStarts: upper-cases the ASCII letters that start a word. Other cased letters at a word start are kept, unlike with `toUpperCase`.
- MessageAction.CreateTokenStep: the symbol is upper-cased for ASCII letters only, as in `Strings.UpperAscii`.
- Timers are queued values, fired in any order by `Timers.FireTimer`. Wall-clock delays and the interleaving of concurrent asynchronous handlers are not modelled.
- DiceGameAction.ResolveDice: the win branch and the loss branch each make one key lookup (diceGame.action.ts:33 and 62). Only one branch runs, and both read the same store. The model makes that one lookup before the branch. The guess and dice-start buttons that fill in the guess are outside the core.
- AccountAction.AccountsCallback: the second public-key lookup of the token-balance branch reads the same store, so it always finds the user again; its "No user found" branch is not modelled.
- `recordAirdropRequest` is modelled (`AirdropController.RecordAirdropRequest`), but nothing in the core calls it, so the store's airdrop log never grows.
- `handleMainMenu`'s menu texts, wallet balance and Solscan link are not modelled. The text of a subscription card is not modelled either, apart from its title-cased name (`Strings.TitleCase`). Its button data is: `MessageAction.AccountButton` and `MessageAction.SubscriptionButton`.
- The ledger wrappers (`solana.controller.ts`), key generation (`wallet.controller.ts`), the HTTP alert endpoints, app and route wiring, middleware, commands and type declarations are not part of this model.

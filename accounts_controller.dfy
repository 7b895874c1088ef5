/**
 * The account controller: the user store (one user per chat, with a Solana
 * account and a set of alert subscriptions) and the post-processing the bot
 * applies to what it reads from the store.
 */
module AccountsController {
  import opened Wrappers
  import opened Strings
  import opened AirdropController

  datatype Keypair = Keypair(publicKey: string, privateKey: string)

  /** A user row with its Solana account (if any) and the ids it is subscribed to. */
  datatype User = User(id: int, username: string, account: Option<Keypair>, subscribedTo: set<int>)

  datatype Subscription = Subscription(id: int, name: string, description: string)

  /** A subscription together with whether the asking user holds it. */
  datatype TaggedSubscription = TaggedSubscription(subscription: Subscription, isSubscribed: bool)

  /** An `update` issued against the user table: the target user id (if known) and the parsed subscription id. */
  datatype UserUpdate =
    | Connect(target: Option<int>, connectId: Option<int>)
    | Disconnect(user: int, disconnectId: Option<int>)

  /** Every new user is connected to this subscription. */
  const DefaultSubscriptionId := 2

  const NoUserInfoFound := "No User Info Found"
  const AlreadyClaimed := "Already claimed"
  const AirdropFailedText := "Airdrop Failed"

  /** `requestAirdrop`'s success reply; the amount is always the default 1 SOL. */
  function AirdropSuccessText(publicKey: string): string
  {
    "Airdrop of 1 SOL to " + publicKey + " successful!"
  }

  /** What `getAirDrop` answers, and the key it asked the ledger to fund (if it did). */
  datatype AirdropResult = AirdropResult(reply: Option<string>, requested: Option<string>)

  /** The user and airdrop tables. */
  class AccountStore {
    var users: map<int, User>
    var airdropRequests: seq<AirdropRequest>
    ghost var updates: seq<UserUpdate>

    constructor ()
      ensures users == map[] && airdropRequests == [] && updates == []
    {
      users, airdropRequests, updates := map[], [], [];
    }

    /** `getAccountInfo`. */
    function GetAccountInfo(chatId: int): (user: Option<User>)
      reads this
      ensures user.Some? <==> chatId in users
      ensures user.Some? ==> user.value == users[chatId]
    {
      if chatId in users then Some(users[chatId]) else None
    }

    /**
     * `getUserPublicKey`: null without a user; with a user, its public key, or the
     * placeholder text when the user has no account or an empty key.
     */
    function GetUserPublicKey(chatId: int): (key: Option<string>)
      reads this
      ensures key.None? <==> chatId !in users
      ensures key.Some? ==> key.value != ""
      ensures key.Some? && key.value != NoUserInfoFound ==>
        users[chatId].account.Some? && users[chatId].account.value.publicKey == key.value
      ensures chatId in users && users[chatId].account.Some? && users[chatId].account.value.publicKey != "" ==>
        key == Some(users[chatId].account.value.publicKey)
      ensures chatId in users && (users[chatId].account.None? || users[chatId].account.value.publicKey == "") ==>
        key == Some(NoUserInfoFound)
    {
      if chatId !in users then None
      else
        var account := users[chatId].account;
        if account.Some? && account.value.publicKey != "" then Some(account.value.publicKey)
        else Some(NoUserInfoFound)
    }

    /**
     * `createAccountIfNotFound`: a chat that already has a user, or a failed key
     * generation, creates nothing and yields null; otherwise a user with the new
     * keypair and the default subscription is created and returned.
     */
    method CreateAccountIfNotFound(chatId: int, username: string, keypair: Option<Keypair>, newId: int)
      returns (created: Option<User>)
      modifies this
      ensures airdropRequests == old(airdropRequests) && updates == old(updates)
      ensures chatId in old(users) || keypair.None? ==> created.None? && users == old(users)
      ensures chatId !in old(users) && keypair.Some? ==>
        created == Some(User(newId, username, keypair, {DefaultSubscriptionId})) &&
        users == old(users)[chatId := created.value]
    {
      var user := GetAccountInfo(chatId);
      if user.Some? {
        return None;
      }
      if keypair.None? {
        return None;
      }
      var u := User(newId, username, keypair, {DefaultSubscriptionId});
      users := users[chatId := u];
      created := Some(u);
    }

    /**
     * `addSubscriptionForUser`: issues the update without checking that the user
     * exists.  The update fails (null, nothing stored) when there is no user to
     * target or the id does not parse; otherwise the id joins the user's set.
     */
    method AddSubscriptionForUser(chatId: int, subscriptionId: Option<string>, parseInt: string -> Option<int>)
      returns (updated: Option<User>)
      modifies this
      ensures airdropRequests == old(airdropRequests)
      ensures var id := if subscriptionId.Some? then parseInt(subscriptionId.value) else None;
        var target := if chatId in old(users) then Some(old(users)[chatId].id) else None;
        updates == old(updates) + [Connect(target, id)] &&
        if chatId in old(users) && id.Some? then
          var u := old(users)[chatId].(subscribedTo := old(users)[chatId].subscribedTo + {id.value});
          updated == Some(u) && users == old(users)[chatId := u]
        else
          updated.None? && users == old(users)
    {
      var user := GetAccountInfo(chatId);
      var id := if subscriptionId.Some? then parseInt(subscriptionId.value) else None;
      updates := updates + [Connect(if user.Some? then Some(user.value.id) else None, id)];
      if user.None? || id.None? {
        return None;
      }
      var u := user.value.(subscribedTo := user.value.subscribedTo + {id.value});
      users := users[chatId := u];
      updated := Some(u);
    }

    /**
     * `removeSubscriptionForUser`: with no user it returns null before issuing any
     * update; otherwise the update is issued and, when the id parses, the id leaves
     * the user's set.
     */
    method RemoveSubscriptionForUser(chatId: int, subscriptionId: Option<string>, parseInt: string -> Option<int>)
      returns (updated: Option<User>)
      modifies this
      ensures airdropRequests == old(airdropRequests)
      ensures chatId !in old(users) ==> updated.None? && users == old(users) && updates == old(updates)
      ensures chatId in old(users) ==>
        var id := if subscriptionId.Some? then parseInt(subscriptionId.value) else None;
        var user := old(users)[chatId];
        updates == old(updates) + [Disconnect(user.id, id)] &&
        if id.Some? then
          var u := user.(subscribedTo := user.subscribedTo - {id.value});
          updated == Some(u) && users == old(users)[chatId := u]
        else
          updated.None? && users == old(users)
    {
      var user := GetAccountInfo(chatId);
      if user.None? {
        return None;
      }
      var id := if subscriptionId.Some? then parseInt(subscriptionId.value) else None;
      updates := updates + [Disconnect(user.value.id, id)];
      if id.None? {
        return None;
      }
      var u := user.value.(subscribedTo := user.value.subscribedTo - {id.value});
      users := users[chatId := u];
      updated := Some(u);
    }

    /**
     * `getAirDrop`: null without a user or without an account; "Already claimed"
     * when the cooldown denies the request; otherwise the ledger is asked to fund
     * the account's key and its reply is returned.
     */
    function GetAirDrop(chatId: int, now: int, airdropSucceeds: bool): (r: AirdropResult)
      reads this
      ensures chatId !in users || users[chatId].account.None? ==> r == AirdropResult(None, None)
      ensures r.requested.Some? <==>
        chatId in users && users[chatId].account.Some? &&
        CanRequestAirdrop(airdropRequests, users[chatId].id, now)
      ensures r.requested.Some? ==>
        r.requested.value == users[chatId].account.value.publicKey &&
        r.reply == Some(if airdropSucceeds then AirdropSuccessText(r.requested.value) else AirdropFailedText)
      ensures chatId in users && users[chatId].account.Some? && r.requested.None? ==>
        r.reply == Some(AlreadyClaimed)
    {
      if chatId !in users || users[chatId].account.None? then AirdropResult(None, None)
      else
        var user := users[chatId];
        if !CanRequestAirdrop(airdropRequests, user.id, now) then AirdropResult(Some(AlreadyClaimed), None)
        else
          var key := user.account.value.publicKey;
          AirdropResult(Some(if airdropSucceeds then AirdropSuccessText(key) else AirdropFailedText), Some(key))
    }
  }

  // ---------------------------------------------------------------------
  // Formatting of the subscription list (`getUserSubscriptions`)
  // ---------------------------------------------------------------------

  const NoSubscriptionText := "<b>" + "No Subscription Found. Click Manage Subscriptions below to subscribe.</b>"

  /** One entry of the list: its number, the title-cased name and the description. */
  function SubscriptionItem(n: nat, s: Subscription): string
  {
    NatToString(n) + ". <b>" + TitleCase(s.name) + "</b>\n<b>Description:</b> <i>" + s.description + "\n</i>"
  }

  function NumberedItems(subs: seq<Subscription>): (items: seq<string>)
    ensures |items| == |subs|
    ensures forall i :: 0 <= i < |subs| ==> items[i] == SubscriptionItem(i + 1, subs[i])
  {
    seq(|subs|, i requires 0 <= i < |subs| => SubscriptionItem(i + 1, subs[i]))
  }

  /**
   * The text listing a user's subscriptions; `subscribedTo` is None when the chat
   * has no user.  The fixed "no subscription" text is shown exactly when there is
   * no user or the user has no subscription.
   */
  function UserSubscriptionsText(subscribedTo: Option<seq<Subscription>>): (r: string)
    ensures r == NoSubscriptionText <==> subscribedTo.None? || subscribedTo.value == []
  {
    if subscribedTo.Some? && |subscribedTo.value| > 0 then
      ListTextStartsWithNumber(subscribedTo.value);
      Join(NumberedItems(subscribedTo.value), "\n")
    else NoSubscriptionText
  }

  /** A single subscription is listed as entry number 1. */
  lemma OneSubscriptionText(s: Subscription)
    ensures UserSubscriptionsText(Some([s])) == "1. <b>" + TitleCase(s.name) + "</b>\n<b>Description:</b> <i>" + s.description + "\n</i>"
  {
    var items := NumberedItems([s]);
    assert |items| == 1 && items[0] == SubscriptionItem(1, s);
    assert UserSubscriptionsText(Some([s])) == SubscriptionItem(1, s);
    assert NatToString(1) == "1";
  }

  /**
   * Entries keep list order and are numbered from 1: one more subscription at the
   * end of the list adds one newline and one entry carrying the next number.
   */
  lemma SubscriptionsTextAppend(subs: seq<Subscription>, s: Subscription)
    requires subs != []
    ensures UserSubscriptionsText(Some(subs + [s])) ==
      UserSubscriptionsText(Some(subs)) + "\n" + SubscriptionItem(|subs| + 1, s)
  {
    assert NumberedItems(subs + [s]) == NumberedItems(subs) + [SubscriptionItem(|subs| + 1, s)];
    JoinSnoc(NumberedItems(subs), SubscriptionItem(|subs| + 1, s), "\n");
  }

  /** A non-empty list starts with the digit of its first entry, so it is not the fixed text. */
  lemma ListTextStartsWithNumber(subs: seq<Subscription>)
    requires subs != []
    ensures var text := Join(NumberedItems(subs), "\n"); |text| > 0 && IsDigit(text[0]) && text != NoSubscriptionText
  {
    var items := NumberedItems(subs);
    var text := Join(items, "\n");
    assert text[0] == items[0][0] by {
      if |items| > 1 {
        assert text == items[0] + "\n" + Join(items[1..], "\n");
      }
    }
    assert items[0][0] == NatToString(1)[0];
    assert NoSubscriptionText[0] == '<';
  }

  // ---------------------------------------------------------------------
  // Tagging with the user's status (`getSubscriptionsWithUserStatus`)
  // ---------------------------------------------------------------------

  /**
   * Every subscription in list order, tagged with whether its id is among the
   * user's subscription ids; `userSubscriptionIds` is None when there is no user.
   */
  function SubscriptionsWithUserStatus(all: seq<Subscription>, userSubscriptionIds: Option<seq<int>>)
    : (tagged: seq<TaggedSubscription>)
    ensures |tagged| == |all|
    ensures forall i :: 0 <= i < |all| ==> tagged[i].subscription == all[i]
    ensures forall i :: 0 <= i < |all| ==>
      (tagged[i].isSubscribed <==> userSubscriptionIds.Some? && all[i].id in userSubscriptionIds.value)
  {
    var ids := if userSubscriptionIds.Some? then set x | x in userSubscriptionIds.value else {};
    seq(|all|, i requires 0 <= i < |all| => TaggedSubscription(all[i], all[i].id in ids))
  }

  /** Without a user, no subscription is tagged as held. */
  lemma NoUserNothingSubscribed(all: seq<Subscription>, i: nat)
    requires i < |all|
    ensures !SubscriptionsWithUserStatus(all, None)[i].isSubscribed
  {
  }

  // ---------------------------------------------------------------------
  // Merging a Solana account with its user (`getAccountsWithPublicKey`)
  // ---------------------------------------------------------------------

  datatype FieldValue = Text(text: string) | Number(number: int) | Time(ms: int)

  type Row = map<string, FieldValue>

  /** A `solanaAcc` row with its own columns and the joined `user` row. */
  datatype SolanaAccRow = SolanaAccRow(fields: Row, user: Row)

  /** `{ ...user, ...solanaAccFields }`: account columns win on names both rows have. */
  function MergedAccount(acc: SolanaAccRow): (merged: Row)
    ensures merged.Keys == acc.user.Keys + acc.fields.Keys
    ensures forall k :: k in acc.fields ==> merged[k] == acc.fields[k]
    ensures forall k :: k in acc.user && k !in acc.fields ==> merged[k] == acc.user[k]
  {
    acc.user + acc.fields
  }

  function AccountsWithPublicKey(rows: seq<SolanaAccRow>): (merged: seq<Row>)
    ensures |merged| == |rows|
    ensures forall i :: 0 <= i < |rows| ==> merged[i] == MergedAccount(rows[i])
  {
    seq(|rows|, i requires 0 <= i < |rows| => MergedAccount(rows[i]))
  }

  /** The merged `id`, `createdAt` and `updatedAt` are the account's, not the user's. */
  lemma SharedColumnsFromAccount(acc: SolanaAccRow)
    requires "id" in acc.fields && "createdAt" in acc.fields && "updatedAt" in acc.fields
    ensures MergedAccount(acc)["id"] == acc.fields["id"]
    ensures MergedAccount(acc)["createdAt"] == acc.fields["createdAt"]
    ensures MergedAccount(acc)["updatedAt"] == acc.fields["updatedAt"]
  {
  }
}

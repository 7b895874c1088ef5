/**
 * The add/remove buttons under the subscription cards (`subscriptionsCallback`):
 * button data `subscription_<op>_<id>`.
 */
module SubscriptionsAction {
  import opened Wrappers
  import opened Strings
  import opened Sessions
  import opened AccountsController
  import MessageAction

  /** `const [, operation, subscriptionId] = action.split("_")`. */
  function SubscriptionRequestOf(data: string): (r: (Option<string>, Option<string>))
    ensures r.0.Some? <==> |Split(data, '_')| > 1
    ensures r.1.Some? <==> |Split(data, '_')| > 2
  {
    var parts := Split(data, '_');
    (Field(parts, 1), Field(parts, 2))
  }

  /** A card's button is read back as its operation and the card's subscription id. */
  lemma SubscriptionButtonRoundTrip(t: TaggedSubscription)
    ensures SubscriptionRequestOf(MessageAction.SubscriptionButton(t).data) ==
      (Some(if t.isSubscribed then "remove" else "add"), Some(IntToString(t.subscription.id)))
  {
  }

  /**
   * `subscriptionsCallback`.  Without a user the button is answered with "User not
   * found"; with one, "add" and "remove" update the store with the id as written in
   * the data and are answered as done (whatever the update achieved); any other
   * operation does nothing.
   */
  method SubscriptionsCallback(w: BotState, store: AccountStore, queryId: int, chatId: int, data: string)
    modifies w, store
    ensures var (operation, subscriptionId) := SubscriptionRequestOf(data);
      var parsed := if subscriptionId.Some? then w.parsers.parseInt(subscriptionId.value) else None;
      store.airdropRequests == old(store.airdropRequests) &&
      (chatId !in old(store.users) ==>
        store.users == old(store.users) && store.updates == old(store.updates) &&
        w.outbox == old(w.outbox) + [Answer(queryId, Some(UserNotFound))]) &&
      (chatId in old(store.users) && operation == Some("add") ==>
        var user := old(store.users)[chatId];
        store.users == (if parsed.Some? then old(store.users)[chatId := user.(subscribedTo := user.subscribedTo + {parsed.value})]
                        else old(store.users)) &&
        store.updates == old(store.updates) + [Connect(Some(user.id), parsed)] &&
        w.outbox == old(w.outbox) + [Store(AddSubscription(chatId, subscriptionId)), Answer(queryId, Some(AlertAdded))]) &&
      (chatId in old(store.users) && operation == Some("remove") ==>
        var user := old(store.users)[chatId];
        store.users == (if parsed.Some? then old(store.users)[chatId := user.(subscribedTo := user.subscribedTo - {parsed.value})]
                        else old(store.users)) &&
        store.updates == old(store.updates) + [Disconnect(user.id, parsed)] &&
        w.outbox == old(w.outbox) + [Store(RemoveSubscription(chatId, subscriptionId)), Answer(queryId, Some(AlertRemoved))]) &&
      (chatId in old(store.users) && operation != Some("add") && operation != Some("remove") ==>
        store.users == old(store.users) && store.updates == old(store.updates) && w.outbox == old(w.outbox))
    ensures w.userStates == old(w.userStates) && w.tokenCreationStates == old(w.tokenCreationStates)
    ensures w.tokenTransferStates == old(w.tokenTransferStates) && w.diceGameStates == old(w.diceGameStates)
    ensures w.timers == old(w.timers)
  {
    var (operation, subscriptionId) := SubscriptionRequestOf(data);
    var user := store.GetAccountInfo(chatId);
    if user.None? {
      w.outbox := w.outbox + [Answer(queryId, Some(UserNotFound))];
      return;
    }
    if operation == Some("add") {
      var _ := store.AddSubscriptionForUser(chatId, subscriptionId, w.parsers.parseInt);
      w.outbox := w.outbox + [Store(AddSubscription(chatId, subscriptionId))];
      w.outbox := w.outbox + [Answer(queryId, Some(AlertAdded))];
    } else if operation == Some("remove") {
      var _ := store.RemoveSubscriptionForUser(chatId, subscriptionId, w.parsers.parseInt);
      w.outbox := w.outbox + [Store(RemoveSubscription(chatId, subscriptionId))];
      w.outbox := w.outbox + [Answer(queryId, Some(AlertRemoved))];
    }
  }

  /**
   * Pressing the button under a card whose status is current flips that status:
   * given a user and an id parser that reads back decimal ids, the subscription is
   * held afterwards exactly when the card showed it as not held.
   */
  method PressSubscriptionButton(w: BotState, store: AccountStore, queryId: int, chatId: int, t: TaggedSubscription)
    modifies w, store
    requires chatId in store.users
    requires t.isSubscribed <==> t.subscription.id in store.users[chatId].subscribedTo
    requires w.parsers.parseInt(IntToString(t.subscription.id)) == Some(t.subscription.id)
    ensures chatId in store.users
    ensures t.subscription.id in store.users[chatId].subscribedTo <==> !t.isSubscribed
    ensures forall id :: id != t.subscription.id ==>
      (id in store.users[chatId].subscribedTo <==> id in old(store.users[chatId].subscribedTo))
  {
    SubscriptionButtonRoundTrip(t);
    SubscriptionsCallback(w, store, queryId, chatId, MessageAction.SubscriptionButton(t).data);
  }
}

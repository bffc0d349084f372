/** src/task.py: the scheduled job that fetches the feed and sends the price list to
    every subscriber. */
module Task {
  import opened Wrappers
  import opened Models
  import opened Dicts
  import opened Store
  import opened Utils
  import opened Telegram
  import opened FanOut

  const UnreachableAlert: string := "Borsa sunucularına ulaşılamıyor."
  const NoPricesAlert: string := "Şu anda fiyat bilgisi bulunmamaktadır."

  /** {"dnd": False, "platform": "Telegram"} */
  const RecipientQuery: Query := map["dnd" := VBool(false), "platform" := VStr("Telegram")]

  /** The chat id the loop reads: `target_user.user_id`. */
  function UserIdChat(u: User): Option<Value> {
    Some(VStr(u.user_id))
  }

  /** Recipients are the users whose `dnd` is False and whose platform is "Telegram";
      `is_active` plays no part. */
  lemma RecipientsAre(u: User)
    ensures Matches(u, RecipientQuery) <==>
      "dnd" in u.extras && u.extras["dnd"] == VBool(false) && u.platform == "Telegram"
    ensures forall b: bool :: Matches(u.(is_active := b), RecipientQuery) == Matches(u, RecipientQuery)
  {
    var attrs := UserAttrs(u);
    assert RecipientQuery.Keys == {"dnd", "platform"};
    assert attrs["platform"] == VStr(u.platform);
    assert "dnd" in attrs <==> "dnd" in u.extras;
    assert "dnd" in u.extras ==> attrs["dnd"] == u.extras["dnd"];
  }

  /** An address that always exists never raises the AttributeError. */
  lemma UserIdChatNeverMissing(rs: seq<User>, text: string, oracle: Message -> SendOutcome)
    ensures Deliveries(rs, text, UserIdChat, oracle).raised <==>
      exists j :: 0 <= j < |rs| && oracle(Message(VStr(rs[j].user_id), Text(text))) == OtherError
  {
    RaisedIffStop(rs, text, UserIdChat, oracle);
  }

  /** When no send raises an unexpected error, every recipient gets the text exactly once,
      in the order of the query's result, at the chat of its `user_id`. */
  lemma EveryRecipientNotified(rs: seq<User>, text: string, oracle: Message -> SendOutcome)
    requires forall j :: 0 <= j < |rs| ==> oracle(Message(VStr(rs[j].user_id), Text(text))) != OtherError
    ensures var r := Deliveries(rs, text, UserIdChat, oracle);
      && !r.raised
      && |r.attempted| == |rs|
      && forall j :: 0 <= j < |rs| ==> r.attempted[j] == Message(VStr(rs[j].user_id), Text(text))
  {
    assert forall j :: 0 <= j < |rs| ==> MessageTo(rs[j], text, UserIdChat) == Message(VStr(rs[j].user_id), Text(text));
    DeliveriesNoStop(rs, text, UserIdChat, oracle);
  }

  datatype Outcome = Unreachable | NoPrices | Notified(report: Report)

  /** `check_and_notify_prices`. `response` is what the feed request yields and
      `loggerChat` is LOGGER_CHAT_ID. */
  method CheckAndNotifyPrices(bot: Bot, users: UserCollection, response: FetchResult, loggerChat: Value, fmt: Price -> string)
    returns (outcome: Outcome)
    modifies bot, users
    ensures response.Timeout? <==> outcome == Unreachable
    ensures response.Response? && response.products == [] <==> outcome == NoPrices
    ensures outcome.Unreachable? ==>
      bot.sent == old(bot.sent) + [Message(loggerChat, Text(UnreachableAlert))]
    ensures outcome.NoPrices? ==>
      bot.sent == old(bot.sent) + [Message(loggerChat, Text(NoPricesAlert))]
    ensures !outcome.Notified? ==> users.docs == old(users.docs) && users.bulkUpdates == old(users.bulkUpdates)
    ensures outcome.Notified? ==>
      && outcome.report == Deliveries(Select(old(users.docs), RecipientQuery),
                                      PriceListText(Grouping(response.products), fmt), UserIdChat, bot.outcome)
      && bot.sent == old(bot.sent) + outcome.report.attempted
      && (!outcome.report.raised && outcome.report.failed != [] ==>
            users.docs == Deactivate(old(users.docs), outcome.report.failed)
            && users.bulkUpdates == old(users.bulkUpdates) + [outcome.report.failed])
      && (outcome.report.raised || outcome.report.failed == [] ==>
            users.docs == old(users.docs) && users.bulkUpdates == old(users.bulkUpdates))
  {
    var prices := FetchPrices(response);
    if prices.None? {
      var _ := bot.Send(Message(loggerChat, Text(UnreachableAlert)));
      return Unreachable;
    }
    var groups := prices.value;
    GroupingEmpty(response.products);
    GroupingValid(response.products);
    if groups.keys == [] {
      var _ := bot.Send(Message(loggerChat, Text(NoPricesAlert)));
      return NoPrices;
    }
    var userList := Select(users.docs, RecipientQuery);
    var message := GeneratePriceListText(groups, fmt);
    var report := Broadcast(bot, users, userList, message, UserIdChat);
    return Notified(report);
  }
}

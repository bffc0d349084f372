/** src/handler.py: the command handlers of the bot. Each handler receives the sender
    (or chat) id and whatever the update carries; MongoDB is the in-memory user
    collection, the stored price records are a sequence in natural order. */
module Handler {
  import opened Wrappers
  import opened Text
  import opened Models
  import opened Dicts
  import opened Store
  import opened Utils
  import opened Telegram
  import opened FanOut
  import Task

  /** The sender of an update, as `update.effective_user` describes it. */
  datatype TelegramUser = TelegramUser(
    id: int, first_name: string, last_name: Option<string>, username: Option<string>, language_code: Option<string>)

  /** {"user_id": str(id), "platform": "Telegram"}: the sender's own document. */
  function OwnQuery(id: int): Query {
    map["user_id" := VStr(IntToString(id)), "platform" := VStr("Telegram")]
  }

  lemma OwnQueryMatches(u: User, id: int)
    ensures Matches(u, OwnQuery(id)) <==> u.user_id == IntToString(id) && u.platform == "Telegram"
  {
    assert OwnQuery(id).Keys == {"user_id", "platform"};
    assert UserAttrs(u)["user_id"] == VStr(u.user_id);
    assert UserAttrs(u)["platform"] == VStr(u.platform);
  }

  /** FirstMatch is determined by the first matching position. */
  lemma FirstMatchAt(docs: seq<User>, q: Query, i: nat)
    requires i < |docs| && Matches(docs[i], q)
    requires forall j :: 0 <= j < i ==> !Matches(docs[j], q)
    ensures FirstMatch(docs, q) == Some(i)
  {
  }

  // ---------------------------------------------------------------------------
  // start

  const Welcome: string :=
    "Hoş geldin! Konya Ticaret Borsasından anlık fiyatları öğrenmek için doğru yerdesin. " +
    "/fiyatlar komutu ile fiyatları öğrenebilirsin.\n\nDaha fazla komut için /yardim 'a göz unutma!"

  /** The user `start` creates. MongoModel stamps it with the current time `now`. */
  function StartUser(tg: TelegramUser, now: int): (u: User)
    ensures Matches(u, OwnQuery(tg.id))
    ensures Matches(u, Task.RecipientQuery) && u.is_active
    ensures UserAttrs(u)["created_at"] == VInt(now) && UserAttrs(u)["dnd"] == VBool(false)
  {
    var u := NewUser(IntToString(tg.id), "Telegram", tg.first_name, now, tg.last_name, tg.username,
                     tg.language_code, true, map["dnd" := VBool(false)]);
    OwnQueryMatches(u, tg.id);
    Task.RecipientsAre(u);
    u
  }

  /** The collection after `start`: the user is inserted when no document matches. */
  function StartDocs(docs: seq<User>, tg: TelegramUser, now: int): seq<User> {
    if FirstMatch(docs, OwnQuery(tg.id)).None? then docs + [StartUser(tg, now)] else docs
  }

  /** After `start` the sender has a document; a second `start` inserts nothing. */
  lemma StartIdempotent(docs: seq<User>, tg: TelegramUser, now1: int, now2: int)
    ensures FirstMatch(StartDocs(docs, tg, now1), OwnQuery(tg.id)).Some?
    ensures StartDocs(StartDocs(docs, tg, now1), tg, now2) == StartDocs(docs, tg, now1)
    ensures |StartDocs(docs, tg, now1)| <= |docs| + 1
  {
    var d := StartDocs(docs, tg, now1);
    if FirstMatch(docs, OwnQuery(tg.id)).None? {
      assert Matches(d[|docs|], OwnQuery(tg.id));
    }
  }

  /** `start`. */
  method Start(bot: Bot, users: UserCollection, tg: TelegramUser, now: int) returns (r: SendOutcome)
    modifies bot, users
    ensures users.docs == StartDocs(old(users.docs), tg, now)
    ensures users.bulkUpdates == old(users.bulkUpdates)
    ensures bot.sent == old(bot.sent) + [Message(VStr(IntToString(tg.id)), Text(Welcome))]
  {
    var found := FirstMatch(users.docs, OwnQuery(tg.id));
    if found.None? {
      users.InsertOne(StartUser(tg, now));
    }
    r := bot.Send(Message(VStr(IntToString(tg.id)), Text(Welcome)));
  }

  // ---------------------------------------------------------------------------
  // send_prices

  const UnreachableReply: string :=
    "Bizden kaynaklı olmayan sebeplerden " + "ötürü borsa sunucularına ulaşılamıyor, " +
    "lütfen daha sonra tekrar deneyin."
  const NoPricesReply: string := "Şu anda fiyat bilgisi bulunmamaktadır."

  /** The reply of `send_prices`: timeout, then empty mapping, then the price list. */
  function PricesReply(response: FetchResult, fmt: Price -> string): string {
    match response
    case Timeout => UnreachableReply
    case Response(ps) => if Grouping(ps).keys == [] then NoPricesReply else PriceListText(Grouping(ps), fmt)
  }

  /** The three replies are told apart by their first character: only the price list
      starts with the pin, and it is sent exactly when the feed has products. */
  lemma PricesReplyCases(response: FetchResult, fmt: Price -> string)
    ensures PricesReply(response, fmt) == UnreachableReply <==> response.Timeout?
    ensures PricesReply(response, fmt) == NoPricesReply <==> response.Response? && response.products == []
    ensures response.Response? && response.products != [] ==>
      |PricesReply(response, fmt)| > 0 && PricesReply(response, fmt)[0] == Pin[0]
  {
    assert UnreachableReply[0] == 'B';
    assert NoPricesReply[0] == '\U{15E}';
    assert Pin[0] == '\U{1F4CC}';
    match response
    case Timeout =>
    case Response(ps) =>
      GroupingEmpty(ps);
      if ps != [] {
        GroupingValid(ps);
        PriceListStartsWithPin(Grouping(ps).keys, Grouping(ps).vals, fmt);
      }
  }

  /** `send_prices`: exactly one reply to the requester. */
  method SendPrices(bot: Bot, requester: Value, response: FetchResult, fmt: Price -> string) returns (r: SendOutcome)
    modifies bot
    ensures bot.sent == old(bot.sent) + [Message(requester, Text(PricesReply(response, fmt)))]
  {
    var prices := FetchPrices(response);
    if prices.None? {
      r := bot.Send(Message(requester, Text(UnreachableReply)));
      return;
    }
    if prices.value.keys == [] {
      r := bot.Send(Message(requester, Text(NoPricesReply)));
      return;
    }
    GroupingValid(response.products);
    var message := GeneratePriceListText(prices.value, fmt);
    r := bot.Send(Message(requester, Text(message)));
  }

  // ---------------------------------------------------------------------------
  // send_price_graph

  function MaxOf(ds: seq<int>): (m: int)
    requires ds != []
    ensures m in ds && forall d :: d in ds ==> d <= m
    decreases |ds|
  {
    if |ds| == 1 then ds[0]
    else
      assert forall d :: d in ds ==> d == ds[0] || d in ds[1..];
      var rest := MaxOf(ds[1..]);
      if ds[0] > rest then ds[0] else rest
  }

  function Without(ds: seq<int>, x: int): (r: seq<int>)
    ensures forall d :: d in r <==> d in ds && d != x
    ensures x in ds ==> |r| < |ds|
    ensures |r| <= |ds|
    decreases |ds|
  {
    if ds == [] then []
    else (if ds[0] == x then [] else [ds[0]]) + Without(ds[1..], x)
  }

  /** The `n` largest distinct values of `ds`, largest first. */
  function TopDistinct(ds: seq<int>, n: nat): (r: seq<int>)
    ensures |r| <= n
    ensures forall i :: 0 <= i < |r| ==> r[i] in ds
    ensures forall i, j :: 0 <= i < j < |r| ==> r[i] > r[j]
    ensures forall d :: d in ds && d !in r ==> forall i :: 0 <= i < |r| ==> r[i] > d
    ensures |r| < n ==> forall d :: d in ds ==> d in r
    decreases |ds|
  {
    if n == 0 || ds == [] then []
    else
      var m := MaxOf(ds);
      [m] + TopDistinct(Without(ds, m), n - 1)
  }

  function DaysOf(records: seq<PriceRecord>): (ds: seq<int>)
    ensures |ds| == |records|
    ensures forall i :: 0 <= i < |records| ==> ds[i] == DayOf(records[i].created_at)
  {
    seq(|records|, i requires 0 <= i < |records| => DayOf(records[i].created_at))
  }

  /** The aggregation: group the records by UTC calendar day, sort the days by their
      latest timestamp, newest first, keep `days` of them. A later day has later
      timestamps, so the order by latest timestamp is the order by day. */
  function RecentDays(records: seq<PriceRecord>, days: nat): seq<int> {
    TopDistinct(DaysOf(records), days)
  }

  /** The records dated on one of `sel`, in natural order. */
  function OnDays(records: seq<PriceRecord>, sel: seq<int>): (r: seq<PriceRecord>)
    ensures forall x :: x in r <==> x in records && DayOf(x.created_at) in sel
    ensures |r| <= |records|
    decreases |records|
  {
    if records == [] then []
    else (if DayOf(records[0].created_at) in sel then [records[0]] else []) + OnDays(records[1..], sel)
  }

  function NoDataReply(days: int): string {
    IntToString(days) + " günlük veri mevcut değil!"
  }

  /** What `send_price_graph` sends: the "no data" text, or the chart of the records of
      the selected days. */
  function GraphReply(records: seq<PriceRecord>, days: nat): Body {
    var sel := RecentDays(records, days);
    if sel == [] then Text(NoDataReply(days))
    else
      var data := OnDays(records, sel);
      if data == [] then Text(NoDataReply(days)) else Photo(Chart(SeriesOf(data), days, AxisFormat(days)))
  }

  /** At most `days` dates are selected, all distinct and newest first; every date left
      out is older than every date selected; fewer than `days` are selected only when
      there are no more. */
  lemma RecentDaysSelection(records: seq<PriceRecord>, days: nat)
    ensures var sel := RecentDays(records, days);
      && |sel| <= days
      && (forall i, j :: 0 <= i < j < |sel| ==> sel[i] > sel[j])
      && (forall i :: 0 <= i < |sel| ==> exists r :: r in records && DayOf(r.created_at) == sel[i])
      && (forall r :: r in records && DayOf(r.created_at) !in sel ==>
            forall i :: 0 <= i < |sel| ==> sel[i] > DayOf(r.created_at))
      && (|sel| < days ==> forall r :: r in records ==> DayOf(r.created_at) in sel)
  {
    var ds := DaysOf(records);
    var sel := RecentDays(records, days);
    forall i | 0 <= i < |sel| ensures exists r :: r in records && DayOf(r.created_at) == sel[i] {
      var k :| 0 <= k < |ds| && ds[k] == sel[i];
      assert records[k] in records;
    }
    forall r | r in records ensures DayOf(r.created_at) in ds {
      var k :| 0 <= k < |records| && records[k] == r;
      assert ds[k] == DayOf(r.created_at);
    }
  }

  /** Every record of a selected day is newer than every record of a later-listed day. */
  lemma RecentDaysNewerFirst(records: seq<PriceRecord>, days: nat, a: PriceRecord, b: PriceRecord)
    requires var sel := RecentDays(records, days);
      exists i, j :: 0 <= i < j < |sel| && DayOf(a.created_at) == sel[i] && DayOf(b.created_at) == sel[j]
    ensures a.created_at > b.created_at
  {
    DayOfMonotone(b.created_at, a.created_at);
  }

  /** The "no data" text is sent exactly when there are no records at all; the second
      emptiness check of the handler never fires. */
  lemma GraphReplyCases(records: seq<PriceRecord>, days: nat)
    requires days > 0
    ensures GraphReply(records, days).Text? <==> records == []
    ensures RecentDays(records, days) != [] ==> OnDays(records, RecentDays(records, days)) != []
  {
    RecentDaysSelection(records, days);
    var sel := RecentDays(records, days);
    if records != [] {
      assert records[0] in records;
    }
    if sel != [] {
      var r :| r in records && DayOf(r.created_at) == sel[0];
      assert r in OnDays(records, sel);
    }
  }

  /** `send_price_graph(days)`; `chat` is `update.effective_chat.id`. MongoDB's `$limit`
      takes a positive count. */
  method SendPriceGraph(bot: Bot, records: seq<PriceRecord>, chat: Value, days: nat) returns (r: SendOutcome)
    requires days > 0
    modifies bot
    ensures bot.sent == old(bot.sent) + [Message(chat, GraphReply(records, days))]
  {
    var uniqueDates := RecentDays(records, days);
    if uniqueDates == [] {
      r := bot.Send(Message(chat, Text(NoDataReply(days))));
      return;
    }
    var priceData := OnDays(records, uniqueDates);
    if priceData == [] {
      r := bot.Send(Message(chat, Text(NoDataReply(days))));
      return;
    }
    var graph := GeneratePriceGraph(priceData, days);
    r := bot.Send(Message(chat, Photo(graph)));
  }

  method Last7Days(bot: Bot, records: seq<PriceRecord>, chat: Value) returns (r: SendOutcome)
    modifies bot
    ensures bot.sent == old(bot.sent) + [Message(chat, GraphReply(records, 7))]
  {
    r := SendPriceGraph(bot, records, chat, 7);
  }

  method Last15Days(bot: Bot, records: seq<PriceRecord>, chat: Value) returns (r: SendOutcome)
    modifies bot
    ensures bot.sent == old(bot.sent) + [Message(chat, GraphReply(records, 15))]
  {
    r := SendPriceGraph(bot, records, chat, 15);
  }

  method Last30Days(bot: Bot, records: seq<PriceRecord>, chat: Value) returns (r: SendOutcome)
    modifies bot
    ensures bot.sent == old(bot.sent) + [Message(chat, GraphReply(records, 30))]
  {
    r := SendPriceGraph(bot, records, chat, 30);
  }

  // ---------------------------------------------------------------------------
  // disable_notifier / enable_notifier

  /** `NoUser`: `find_one` found nothing and reading `user.dnd` raises; `NoDndField`:
      the document has no `dnd` and reading it raises. */
  datatype Toggle = NoUser | NoDndField | Changed | AlreadySet

  /** Which case a request to make `dnd` equal to `want` falls into. Disabling tests
      `not user.dnd`, enabling tests `user.dnd`: both change exactly when the
      truthiness of `dnd` differs from `want`. */
  function ToggleCase(docs: seq<User>, id: int, want: bool): Toggle {
    match FirstMatch(docs, OwnQuery(id))
    case None => NoUser
    case Some(i) =>
      if "dnd" !in docs[i].extras then NoDndField
      else if Truthy(docs[i].extras["dnd"]) == want then AlreadySet
      else Changed
  }

  /** The collection after the request: only in the `Changed` case is the sender's
      document saved, with `dnd` set to `want`. */
  function Toggled(docs: seq<User>, id: int, want: bool): seq<User> {
    match FirstMatch(docs, OwnQuery(id))
    case None => docs
    case Some(i) =>
      if ToggleCase(docs, id, want) == Changed then docs[i := docs[i].(extras := docs[i].extras["dnd" := VBool(want)])]
      else docs
  }

  /** After a request that did not raise, the sender's document is still the one found,
      its `dnd` has the truthiness asked for, every other document is unchanged, and a
      repeated request changes nothing and reports `AlreadySet`. */
  lemma ToggleSettles(docs: seq<User>, id: int, want: bool)
    requires ToggleCase(docs, id, want) in {Changed, AlreadySet}
    ensures var i := FirstMatch(docs, OwnQuery(id)).value;
      var after := Toggled(docs, id, want);
      && |after| == |docs|
      && FirstMatch(after, OwnQuery(id)) == Some(i)
      && "dnd" in after[i].extras && Truthy(after[i].extras["dnd"]) == want
      && (ToggleCase(docs, id, want) == Changed ==> after[i].extras["dnd"] == VBool(want))
      && (forall j :: 0 <= j < |docs| && j != i ==> after[j] == docs[j])
      && ToggleCase(after, id, want) == AlreadySet
      && Toggled(after, id, want) == after
  {
    var q := OwnQuery(id);
    var i := FirstMatch(docs, q).value;
    var after := Toggled(docs, id, want);
    ToggledShape(docs, id, want);
    OwnQueryMatches(docs[i], id);
    OwnQueryMatches(after[i], id);
    FirstMatchAt(after, q, i);
    assert ToggleCase(after, id, want) == AlreadySet;
  }

  /** What a request that did not raise leaves at each position. */
  lemma ToggledShape(docs: seq<User>, id: int, want: bool)
    requires ToggleCase(docs, id, want) in {Changed, AlreadySet}
    ensures var i := FirstMatch(docs, OwnQuery(id)).value;
      var after := Toggled(docs, id, want);
      && |after| == |docs|
      && (forall j :: 0 <= j < |docs| && j != i ==> after[j] == docs[j])
      && after[i].user_id == docs[i].user_id && after[i].platform == docs[i].platform
      && "dnd" in after[i].extras && Truthy(after[i].extras["dnd"]) == want
      && (ToggleCase(docs, id, want) == Changed ==> after[i].extras["dnd"] == VBool(want))
  {
    var i := FirstMatch(docs, OwnQuery(id)).value;
    if ToggleCase(docs, id, want) == Changed {
      assert Toggled(docs, id, want) == docs[i := docs[i].(extras := docs[i].extras["dnd" := VBool(want)])];
    }
  }

  /** Disabling takes the sender out of the scheduled price list's recipients; enabling
      a sender who had notifications off puts them back. */
  lemma ToggleRecipients(docs: seq<User>, id: int)
    ensures ToggleCase(docs, id, true) in {Changed, AlreadySet} ==>
      var i := FirstMatch(docs, OwnQuery(id)).value;
      !Matches(Toggled(docs, id, true)[i], Task.RecipientQuery)
    ensures ToggleCase(docs, id, false) == Changed ==>
      var i := FirstMatch(docs, OwnQuery(id)).value;
      Matches(Toggled(docs, id, false)[i], Task.RecipientQuery)
  {
    if ToggleCase(docs, id, true) in {Changed, AlreadySet} {
      var i := FirstMatch(docs, OwnQuery(id)).value;
      ToggleSettles(docs, id, true);
      Task.RecipientsAre(Toggled(docs, id, true)[i]);
    }
    if ToggleCase(docs, id, false) == Changed {
      var i := FirstMatch(docs, OwnQuery(id)).value;
      ToggleSettles(docs, id, false);
      OwnQueryMatches(docs[i], id);
      Task.RecipientsAre(Toggled(docs, id, false)[i]);
    }
  }

  const DisabledReply: string :=
    "Bundan sonra otomatik fiyat bildirimi göndermeyeceğim. Tekrardan açmak için /bildirim_ac komutunu kullan!"
  const AlreadyDisabledReply: string :=
    "Sana zaten otomatik bir şekilde fiyat tablosunu göndermiyorum. Açmak istiyorsan /bildirim_ac komutunu kullanabilirsin."
  const EnabledReply: string :=
    "Tamamdır, seni de abone listesine ekledim! Bundan sonra günlük mesaj göndereceğim fiyatlar hakkında!"
  const AlreadyEnabledReply: string :=
    "Sana zaten günlük fiyat tablosunu gönderiyorum. Kapatmak istiyorsan /bildirim_kapat komutunu kullanabilirsin."

  /** The replies of a request: none when it raises, else one naming the case. */
  function ToggleReplies(c: Toggle, id: int, changedReply: string, alreadyReply: string): seq<Message> {
    match c
    case Changed => [Message(VInt(id), Text(changedReply))]
    case AlreadySet => [Message(VInt(id), Text(alreadyReply))]
    case _ => []
  }

  /** The body shared by `disable_notifier` (want = True) and `enable_notifier`
      (want = False). */
  method SetDnd(bot: Bot, users: UserCollection, id: int, want: bool, changedReply: string, alreadyReply: string)
    returns (c: Toggle)
    modifies bot, users
    ensures c == ToggleCase(old(users.docs), id, want)
    ensures users.docs == Toggled(old(users.docs), id, want)
    ensures users.bulkUpdates == old(users.bulkUpdates)
    ensures bot.sent == old(bot.sent) + ToggleReplies(c, id, changedReply, alreadyReply)
  {
    var found := FirstMatch(users.docs, OwnQuery(id));
    if found.None? {
      return NoUser;
    }
    var i := found.value;
    var user := users.docs[i];
    if "dnd" !in user.extras {
      return NoDndField;
    }
    if Truthy(user.extras["dnd"]) != want {
      user := user.(extras := user.extras["dnd" := VBool(want)]);
      users.SaveAt(i, user);
      var _ := bot.Send(Message(VInt(id), Text(changedReply)));
      c := Changed;
    } else {
      var _ := bot.Send(Message(VInt(id), Text(alreadyReply)));
      c := AlreadySet;
    }
  }

  method DisableNotifier(bot: Bot, users: UserCollection, id: int) returns (c: Toggle)
    modifies bot, users
    ensures c == ToggleCase(old(users.docs), id, true)
    ensures users.docs == Toggled(old(users.docs), id, true)
    ensures users.bulkUpdates == old(users.bulkUpdates)
    ensures bot.sent == old(bot.sent) + ToggleReplies(c, id, DisabledReply, AlreadyDisabledReply)
  {
    c := SetDnd(bot, users, id, true, DisabledReply, AlreadyDisabledReply);
  }

  method EnableNotifier(bot: Bot, users: UserCollection, id: int) returns (c: Toggle)
    modifies bot, users
    ensures c == ToggleCase(old(users.docs), id, false)
    ensures users.docs == Toggled(old(users.docs), id, false)
    ensures users.bulkUpdates == old(users.bulkUpdates)
    ensures bot.sent == old(bot.sent) + ToggleReplies(c, id, EnabledReply, AlreadyEnabledReply)
  {
    c := SetDnd(bot, users, id, false, EnabledReply, AlreadyEnabledReply);
  }

  // ---------------------------------------------------------------------------
  // admin_announcement

  const DeniedReply: string := "Bu komutu kullanmak için yetkin yok!"

  /** {"platform": "Telegram"} */
  const TelegramQuery: Query := map["platform" := VStr("Telegram")]

  lemma TelegramRecipients(u: User)
    ensures Matches(u, TelegramQuery) <==> u.platform == "Telegram"
  {
    assert TelegramQuery.Keys == {"platform"};
    assert UserAttrs(u)["platform"] == VStr(u.platform);
  }

  /** `" ".join(text.split()[1:])`. */
  function AnnouncementText(s: string): string {
    var ws := Words(s);
    Join(if ws == [] then [] else ws[1..], " ")
  }

  /** The announcement is the command's words after the first, separated by single
      spaces: splitting it again gives exactly those words. */
  lemma AnnouncementWords(s: string)
    ensures Words(s) != [] ==> Words(AnnouncementText(s)) == Words(s)[1..]
    ensures |Words(s)| <= 1 <==> AnnouncementText(s) == ""
  {
    var ws := Words(s);
    var rest := if ws == [] then [] else ws[1..];
    assert forall i :: 0 <= i < |rest| ==> IsWord(rest[i]) by {
      forall i | 0 <= i < |rest| ensures IsWord(rest[i]) {
        assert rest[i] == ws[i + 1];
      }
    }
    WordsOfJoin(rest);
    if AnnouncementText(s) == "" {
      assert Words("") == [];
    }
  }

  /** `admin_announcement`. `adminId` is the administrator's chat id from the
      configuration. */
  method AdminAnnouncement(bot: Bot, users: UserCollection, callerId: int, adminId: int, commandText: string)
    returns (report: Option<Report>)
    modifies bot, users
    ensures callerId != adminId ==>
      && report.None?
      && bot.sent == old(bot.sent) + [Message(VInt(callerId), Text(DeniedReply))]
      && users.docs == old(users.docs) && users.bulkUpdates == old(users.bulkUpdates)
    ensures callerId == adminId ==>
      && report == Some(Deliveries(Select(old(users.docs), TelegramQuery), AnnouncementText(commandText),
                                   Task.UserIdChat, bot.outcome))
      && bot.sent == old(bot.sent) + report.value.attempted
      && (!report.value.raised && report.value.failed != [] ==>
            users.docs == Deactivate(old(users.docs), report.value.failed)
            && users.bulkUpdates == old(users.bulkUpdates) + [report.value.failed])
      && (report.value.raised || report.value.failed == [] ==>
            users.docs == old(users.docs) && users.bulkUpdates == old(users.bulkUpdates))
  {
    if callerId != adminId {
      var _ := bot.Send(Message(VInt(callerId), Text(DeniedReply)));
      return None;
    }
    var adminMessage := AnnouncementText(commandText);
    var userList := Select(users.docs, TelegramQuery);
    var r := Broadcast(bot, users, userList, adminMessage, Task.UserIdChat);
    return Some(r);
  }

  // ---------------------------------------------------------------------------
  // err_handler

  const TracebackLimit: nat := 4096
  const CauseMarker: string := "The above exception was the direct cause of the following exception:"
  const TooLongReply: string := "Traceback is too long!"

  function Pre(s: string): string {
    "<pre>" + s + "</pre>"
  }

  /** The text sent for one piece of a long traceback. */
  function PieceReply(piece: string): string {
    if |piece| > TracebackLimit then TooLongReply else Pre(piece)
  }

  function PieceReplies(pieces: seq<string>): seq<string> {
    seq(|pieces|, i requires 0 <= i < |pieces| => PieceReply(pieces[i]))
  }

  /** The texts sent after the context message. */
  function TracebackReplies(tb: string): seq<string> {
    if |tb| > TracebackLimit then PieceReplies(SplitOn(tb, CauseMarker)) else [Pre(tb)]
  }

  function ToLogger(texts: seq<string>, loggerChat: Value): seq<Message> {
    seq(|texts|, i requires 0 <= i < |texts| => Message(loggerChat, Text(texts[i])))
  }

  /** `s` without the `<pre>` and `</pre>` around it. */
  function Unpre(s: string): string {
    if |s| >= 11 then s[5..|s| - 6] else s
  }

  /** A long traceback is sent as one text per piece between the markers; no traceback
      text sent is longer than the limit plus the `<pre>` markup, and unless a piece had
      to be replaced by the "too long" notice, taking the markup off the texts and joining
      them with the marker gives the traceback back. */
  lemma TracebackRepliesRecover(tb: string)
    ensures |tb| <= TracebackLimit ==> TracebackReplies(tb) == [Pre(tb)]
    ensures |tb| > TracebackLimit ==> |TracebackReplies(tb)| == |SplitOn(tb, CauseMarker)|
    ensures var ms := TracebackReplies(tb);
      forall i :: 0 <= i < |ms| ==> |ms[i]| <= TracebackLimit + 11
    ensures var ms := TracebackReplies(tb);
      (forall i :: 0 <= i < |ms| ==> ms[i] != TooLongReply) ==>
        Join(seq(|ms|, i requires 0 <= i < |ms| => Unpre(ms[i])), CauseMarker) == tb
  {
    var ms := TracebackReplies(tb);
    var un := seq(|ms|, i requires 0 <= i < |ms| => Unpre(ms[i]));
    if |tb| > TracebackLimit {
      var pieces := SplitOn(tb, CauseMarker);
      assert |ms| == |pieces|;
      forall i | 0 <= i < |ms|
        ensures |ms[i]| <= TracebackLimit + 11
        ensures ms[i] != TooLongReply ==> un[i] == pieces[i]
      {
        assert ms[i] == PieceReply(pieces[i]);
        PieceReplyBound(pieces[i]);
      }
      if forall i :: 0 <= i < |ms| ==> ms[i] != TooLongReply {
        assert un == pieces;
      }
    } else {
      PreUnpre(tb);
      assert un == [tb];
    }
  }

  /** A piece's text is at most the limit plus the markup, and unless it is the notice,
      taking the markup off gives the piece back. */
  lemma PieceReplyBound(piece: string)
    ensures |PieceReply(piece)| <= TracebackLimit + 11
    ensures PieceReply(piece) != TooLongReply ==> Unpre(PieceReply(piece)) == piece
  {
    if |piece| <= TracebackLimit {
      PreUnpre(piece);
    } else {
      assert |TooLongReply| == 22;
    }
  }

  lemma PreUnpre(s: string)
    ensures |Pre(s)| == |s| + 11 && Unpre(Pre(s)) == s
  {
    var p := Pre(s);
    assert p == "<pre>" + s + "</pre>";
    assert p[5..|p| - 6] == s;
  }

  /** After messages that all go through, the attempted sends are those messages
      followed by what is attempted of the rest. */
  lemma AttemptedAfterDelivered(a: seq<Message>, b: seq<Message>, outcome: Message -> SendOutcome)
    requires forall j :: 0 <= j < |a| ==> outcome(a[j]) == Delivered
    ensures Attempted(a + b, outcome) == a + Attempted(b, outcome)
  {
    match FirstFailure(b, outcome)
    case None =>
      assert forall j :: 0 <= j < |a + b| ==> outcome((a + b)[j]) == Delivered by {
        forall j | 0 <= j < |a + b| ensures outcome((a + b)[j]) == Delivered {
          if j >= |a| {
            assert (a + b)[j] == b[j - |a|];
          }
        }
      }
    case Some(k) =>
      FirstFailureAt(a + b, outcome, |a| + k);
      assert (a + b)[..|a| + k + 1] == a + b[..k + 1];
  }

  lemma AttemptedStopsAt(ms: seq<Message>, outcome: Message -> SendOutcome, k: nat)
    requires k < |ms| && outcome(ms[k]) != Delivered
    requires forall j :: 0 <= j < k ==> outcome(ms[j]) == Delivered
    ensures Attempted(ms, outcome) == ms[..k + 1]
  {
    FirstFailureAt(ms, outcome, k);
  }

  lemma SentPrefixGrows(start: seq<Message>, ms: seq<Message>, i: nat)
    requires i < |ms|
    ensures start + ms[..i] + [ms[i]] == start + ms[..i + 1]
  {
    assert ms[..i + 1] == ms[..i] + [ms[i]];
  }

  lemma AttemptedAll(ms: seq<Message>, outcome: Message -> SendOutcome)
    requires forall j :: 0 <= j < |ms| ==> outcome(ms[j]) == Delivered
    ensures Attempted(ms, outcome) == ms[..|ms|]
  {
    assert ms[..|ms|] == ms;
  }

  /** One iteration of that loop: the notice for a piece over the limit, else the piece
      in `<pre>`. */
  method SendPiece(bot: Bot, loggerChat: Value, piece: string) returns (r: SendOutcome)
    modifies bot
    ensures bot.sent == old(bot.sent) + [Message(loggerChat, Text(PieceReply(piece)))]
    ensures r == bot.outcome(Message(loggerChat, Text(PieceReply(piece))))
  {
    var text := if |piece| > TracebackLimit then TooLongReply else Pre(piece);
    r := bot.Send(Message(loggerChat, Text(text)));
  }

  /** The loop over the pieces of a long traceback. */
  method SendPieces(bot: Bot, loggerChat: Value, pieces: seq<string>)
    modifies bot
    ensures bot.sent == old(bot.sent) + Attempted(ToLogger(PieceReplies(pieces), loggerChat), bot.outcome)
  {
    ghost var ms := ToLogger(PieceReplies(pieces), loggerChat);
    ghost var start := bot.sent;
    var i := 0;
    while i < |pieces|
      invariant 0 <= i <= |pieces| == |ms|
      invariant bot.sent == start + ms[..i]
      invariant forall j :: 0 <= j < i ==> bot.outcome(ms[j]) == Delivered
    {
      assert ms[i] == Message(loggerChat, Text(PieceReply(pieces[i])));
      var r := SendPiece(bot, loggerChat, pieces[i]);
      SentPrefixGrows(start, ms, i);
      if r != Delivered {
        AttemptedStopsAt(ms, bot.outcome, i);
        return;
      }
      i := i + 1;
    }
    AttemptedAll(ms, bot.outcome);
  }

  /** What `err_handler` sends after the context message. */
  method SendTraceback(bot: Bot, loggerChat: Value, tb: string)
    modifies bot
    ensures bot.sent == old(bot.sent) + Attempted(ToLogger(TracebackReplies(tb), loggerChat), bot.outcome)
  {
    if |tb| > TracebackLimit {
      var tbMsgList := SplitOn(tb, CauseMarker);
      SendPieces(bot, loggerChat, tbMsgList);
    } else {
      var last := Message(loggerChat, Text(Pre(tb)));
      var r := bot.Send(last);
      assert ToLogger(TracebackReplies(tb), loggerChat) == [last];
      if r != Delivered {
        FirstFailureAt([last], bot.outcome, 0);
      }
    }
  }

  /** Sending a first message and then, if it goes through, the rest, attempts what
      sending them all in one sequence attempts. */
  lemma AttemptedCons(m: Message, rest: seq<Message>, outcome: Message -> SendOutcome)
    ensures Attempted([m] + rest, outcome) ==
      if outcome(m) != Delivered then [m] else [m] + Attempted(rest, outcome)
  {
    if outcome(m) != Delivered {
      FirstFailureAt([m] + rest, outcome, 0);
    } else {
      AttemptedAfterDelivered([m], rest, outcome);
    }
  }

  /** `err_handler`: the context message, then, if it went through, the traceback text
      or its pieces, all to LOGGER_CHAT_ID; a send that raises ends the handler.
      `contextText` and `tb` are the already formatted and escaped texts. */
  method ErrHandler(bot: Bot, loggerChat: Value, contextText: string, tb: string)
    modifies bot
    ensures var first := Message(loggerChat, Text(contextText));
      bot.outcome(first) != Delivered ==> bot.sent == old(bot.sent) + [first]
    ensures var first := Message(loggerChat, Text(contextText));
      bot.outcome(first) == Delivered ==>
        bot.sent == old(bot.sent) + [first] + Attempted(ToLogger(TracebackReplies(tb), loggerChat), bot.outcome)
  {
    var first := Message(loggerChat, Text(contextText));
    var r := bot.Send(first);
    if r == Delivered {
      SendTraceback(bot, loggerChat, tb);
    }
  }
}

/** src/bot.py: the earlier, self-contained version of the bot. It forwards the feed's
    product dicts as they are (after renaming one key), sends to every user whose `dnd`
    is False, and registers the daily price checks. */
module LegacyBot {
  import opened Wrappers
  import opened Text
  import opened Models
  import opened Store
  import opened Utils
  import opened Telegram
  import opened FanOut
  import Task
  import Handler

  /** A product dict of the older feed endpoint. */
  type Product = map<string, Value>

  datatype LegacyFetch = LegacyTimeout | LegacyResponse(products: seq<Product>)

  /** `get_prices`: `None` on a timeout; a product without `urun` raises KeyError. */
  datatype Fetched = TimedOut | MissingUrun(index: nat) | Products(list: seq<Product>)

  /** `product['_id'] = product.pop('urun')`. */
  function Renamed(p: Product): (r: Product)
    requires "urun" in p
    ensures "_id" in r && r["_id"] == p["urun"] && "urun" !in r
    ensures forall k :: k != "_id" && k != "urun" ==> (k in r <==> k in p)
    ensures forall k :: k in p && k != "_id" && k != "urun" ==> r[k] == p[k]
  {
    (p - {"urun"})["_id" := p["urun"]]
  }

  function FirstWithoutUrun(ps: seq<Product>): (r: Option<nat>)
    ensures r.Some? ==> r.value < |ps| && "urun" !in ps[r.value]
    ensures r.Some? ==> forall j :: 0 <= j < r.value ==> "urun" in ps[j]
    ensures r.None? <==> forall j :: 0 <= j < |ps| ==> "urun" in ps[j]
    decreases |ps|
  {
    if ps == [] then None
    else if "urun" !in ps[0] then Some(0)
    else match FirstWithoutUrun(ps[1..])
      case None => None
      case Some(j) => Some(j + 1)
  }

  function RenamedAll(ps: seq<Product>): (r: seq<Product>)
    requires forall j :: 0 <= j < |ps| ==> "urun" in ps[j]
    ensures |r| == |ps|
    ensures forall j :: 0 <= j < |ps| ==> r[j] == Renamed(ps[j])
  {
    seq(|ps|, j requires 0 <= j < |ps| => Renamed(ps[j]))
  }

  /** What `get_prices` returns for a response. */
  function FetchedOf(response: LegacyFetch): Fetched {
    match response
    case LegacyTimeout => TimedOut
    case LegacyResponse(ps) =>
      match FirstWithoutUrun(ps)
      case Some(k) => MissingUrun(k)
      case None => Products(RenamedAll(ps))
  }

  /** The list keeps its length and order; each product trades `urun` for `_id` with the
      same value and keeps its other keys. */
  lemma FetchedShape(response: LegacyFetch)
    ensures FetchedOf(response).TimedOut? <==> response.LegacyTimeout?
    ensures FetchedOf(response).Products? ==>
      var out := FetchedOf(response).list;
      && |out| == |response.products|
      && forall j :: 0 <= j < |out| ==>
           "urun" in response.products[j] && out[j]["_id"] == response.products[j]["urun"] && "urun" !in out[j]
  {
  }

  /** `get_prices`, with the request abstracted to its response. The loop renames the
      key in each dict of the list in place. */
  method GetPrices(response: LegacyFetch) returns (r: Fetched)
    ensures r == FetchedOf(response)
  {
    if response.LegacyTimeout? {
      return TimedOut;
    }
    var productList := response.products;
    var i := 0;
    while i < |productList|
      invariant 0 <= i <= |productList| == |response.products|
      invariant forall j :: 0 <= j < i ==> "urun" in response.products[j] && productList[j] == Renamed(response.products[j])
      invariant forall j :: i <= j < |productList| ==> productList[j] == response.products[j]
    {
      var product := productList[i];
      if "urun" !in product {
        return MissingUrun(i);
      }
      productList := productList[i := Renamed(product)];
      i := i + 1;
    }
    assert productList == RenamedAll(response.products);
    return Products(productList);
  }

  // ---------------------------------------------------------------------------
  // create_formatted_text

  /** `show` stands for the f-string conversion of a value and `round3` for
      `round(x, 3)`; neither is modelled. A product lacking one of the keys read raises
      KeyError (`None`). */
  function LegacyBlock(p: Product, show: Value -> string, round3: Value -> Value): Option<string> {
    if "_id" in p && "min" in p && "max" in p && "ort" in p && "adet" in p then
      Some(Header(show(p["_id"])) + "\n" +
           Labelled("En az", show(round3(p["min"])), "TL") + "\n" +
           Labelled("En fazla", show(round3(p["max"])), "TL") + "\n" +
           Labelled("Ortalama", show(round3(p["ort"])), "TL") + "\n" +
           Labelled("Adet", show(p["adet"]), "adet") + "\n" +
           "\n\n")
    else None
  }

  /** The text the loop has built after the given products. */
  function FormattedText(ps: seq<Product>, show: Value -> string, round3: Value -> Value): Option<string>
    decreases |ps|
  {
    if ps == [] then Some("")
    else match FormattedText(ps[..|ps| - 1], show, round3)
      case None => None
      case Some(front) =>
        match LegacyBlock(ps[|ps| - 1], show, round3)
        case None => None
        case Some(block) => Some(front + block)
  }

  lemma FormattedTextSnoc(ps: seq<Product>, i: nat, show: Value -> string, round3: Value -> Value)
    requires i < |ps|
    ensures FormattedText(ps[..i + 1], show, round3) ==
      match FormattedText(ps[..i], show, round3)
      case None => None
      case Some(front) =>
        match LegacyBlock(ps[i], show, round3)
        case None => None
        case Some(block) => Some(front + block)
  {
    assert ps[..i + 1][..i] == ps[..i];
  }

  predicate HasKeys(p: Product) {
    "_id" in p && "min" in p && "max" in p && "ort" in p && "adet" in p
  }

  /** The text exists exactly when every product has all five keys; the empty list gives
      "". */
  lemma {:induction false} FormattedTextDefined(ps: seq<Product>, show: Value -> string, round3: Value -> Value)
    ensures FormattedText(ps, show, round3).Some? <==> forall j :: 0 <= j < |ps| ==> HasKeys(ps[j])
    ensures ps == [] ==> FormattedText(ps, show, round3) == Some("")
    decreases |ps|
  {
    if ps != [] {
      var front := ps[..|ps| - 1];
      FormattedTextDefined(front, show, round3);
      assert forall j :: 0 <= j < |front| ==> front[j] == ps[j];
    }
  }

  lemma LegacyBlockBreaks(p: Product, show: Value -> string, round3: Value -> Value)
    requires HasKeys(p)
    requires forall v :: '\n' !in show(v)
    ensures CountChar(LegacyBlock(p, show, round3).value, '\n') == 7
  {
    var s1 := Header(show(p["_id"])) + "\n";
    var minL := Labelled("En az", show(round3(p["min"])), "TL");
    var maxL := Labelled("En fazla", show(round3(p["max"])), "TL");
    var avgL := Labelled("Ortalama", show(round3(p["ort"])), "TL");
    var qtyL := Labelled("Adet", show(p["adet"]), "adet");
    assert '\n' !in show(p["_id"]) && '\n' !in show(round3(p["min"])) && '\n' !in show(round3(p["max"]));
    assert '\n' !in show(round3(p["ort"])) && '\n' !in show(p["adet"]);
    LabelledNoBreak("En az", show(round3(p["min"])), "TL");
    LabelledNoBreak("En fazla", show(round3(p["max"])), "TL");
    LabelledNoBreak("Ortalama", show(round3(p["ort"])), "TL");
    LabelledNoBreak("Adet", show(p["adet"]), "adet");
    CountCharAbsent(Header(show(p["_id"])), '\n');
    CountCharAppend(Header(show(p["_id"])), "\n", '\n');
    LineThenBreak(s1, minL);
    LineThenBreak(s1 + minL + "\n", maxL);
    LineThenBreak(s1 + minL + "\n" + maxL + "\n", avgL);
    LineThenBreak(s1 + minL + "\n" + maxL + "\n" + avgL + "\n", qtyL);
    CountCharAppend(s1 + minL + "\n" + maxL + "\n" + avgL + "\n" + qtyL + "\n", "\n\n", '\n');
  }

  /** One fixed-shape block of seven lines per product, in list order. */
  lemma {:induction false} FormattedTextLineCount(ps: seq<Product>, show: Value -> string, round3: Value -> Value)
    requires forall j :: 0 <= j < |ps| ==> HasKeys(ps[j])
    requires forall v :: '\n' !in show(v)
    ensures FormattedText(ps, show, round3).Some?
    ensures CountChar(FormattedText(ps, show, round3).value, '\n') == 7 * |ps|
    decreases |ps|
  {
    if ps != [] {
      var front := ps[..|ps| - 1];
      FormattedTextLineCount(front, show, round3);
      LegacyBlockBreaks(ps[|ps| - 1], show, round3);
      CountCharAppend(FormattedText(front, show, round3).value, LegacyBlock(ps[|ps| - 1], show, round3).value, '\n');
    }
  }

  lemma LegacyBlockAppend(before: string, p: Product, show: Value -> string, round3: Value -> Value)
    requires HasKeys(p)
    ensures before + Header(show(p["_id"])) + "\n"
      + Labelled("En az", show(round3(p["min"])), "TL") + "\n"
      + Labelled("En fazla", show(round3(p["max"])), "TL") + "\n"
      + Labelled("Ortalama", show(round3(p["ort"])), "TL") + "\n"
      + Labelled("Adet", show(p["adet"]), "adet") + "\n"
      + "\n\n"
      == before + LegacyBlock(p, show, round3).value
  {
  }

  /** The body of the loop of `create_formatted_text` for a product with all five keys:
      read them, round the prices, and append the six pieces. */
  method AppendLegacyBlock(message: string, product: Product, show: Value -> string, round3: Value -> Value)
    returns (r: string)
    requires HasKeys(product)
    ensures r == message + LegacyBlock(product, show, round3).value
  {
    var name := product["_id"];
    var minPrice := round3(product["min"]);
    var maxPrice := round3(product["max"]);
    var meanPrice := round3(product["ort"]);
    var quantity := product["adet"];
    r := message + Header(show(name)) + "\n";
    r := r + Labelled("En az", show(minPrice), "TL") + "\n";
    r := r + Labelled("En fazla", show(maxPrice), "TL") + "\n";
    r := r + Labelled("Ortalama", show(meanPrice), "TL") + "\n";
    r := r + Labelled("Adet", show(quantity), "adet") + "\n";
    r := r + "\n\n";
    LegacyBlockAppend(message, product, show, round3);
  }

  /** A product without one of the keys makes the whole text undefined (the KeyError). */
  lemma FormattedTextMissing(ps: seq<Product>, i: nat, show: Value -> string, round3: Value -> Value)
    requires i < |ps| && !HasKeys(ps[i])
    ensures FormattedText(ps, show, round3) == None
  {
    FormattedTextDefined(ps, show, round3);
  }

  lemma FormattedTextWhole(ps: seq<Product>, show: Value -> string, round3: Value -> Value)
    ensures FormattedText(ps[..|ps|], show, round3) == FormattedText(ps, show, round3)
  {
    assert ps[..|ps|] == ps;
  }

  /** `create_formatted_text`. */
  method CreateFormattedText(productList: seq<Product>, show: Value -> string, round3: Value -> Value)
    returns (r: Option<string>)
    ensures r == FormattedText(productList, show, round3)
  {
    var message := "";
    var i := 0;
    while i < |productList|
      invariant 0 <= i <= |productList|
      invariant FormattedText(productList[..i], show, round3) == Some(message)
    {
      var product := productList[i];
      if !("_id" in product && "min" in product && "max" in product && "ort" in product && "adet" in product) {
        FormattedTextMissing(productList, i, show, round3);
        return None;
      }
      FormattedTextSnoc(productList, i, show, round3);
      message := AppendLegacyBlock(message, product, show, round3);
      i := i + 1;
    }
    FormattedTextWhole(productList, show, round3);
    return Some(message);
  }

  // ---------------------------------------------------------------------------
  // send_prices

  const LegacyUnreachableReply: string :=
    "Borsa sunucularına ulaşılamıyor, " + "lütfen daha sonra tekrar deneyin."

  /** The reply of `send_prices`, or `None` when a KeyError ends the handler first. */
  function LegacyPricesReply(response: LegacyFetch, show: Value -> string, round3: Value -> Value): Option<string> {
    match FetchedOf(response)
    case TimedOut => Some(LegacyUnreachableReply)
    case MissingUrun(_) => None
    case Products(list) =>
      if list == [] then Some(Handler.NoPricesReply) else FormattedText(list, show, round3)
  }

  /** One reply: "unreachable" on a timeout, "no info" on an empty list, the formatted
      text otherwise; the formatted text begins with the pin, so the three differ. */
  lemma LegacyPricesReplyCases(response: LegacyFetch, show: Value -> string, round3: Value -> Value)
    ensures response.LegacyTimeout? ==> LegacyPricesReply(response, show, round3) == Some(LegacyUnreachableReply)
    ensures response.LegacyResponse? && response.products == [] ==>
      LegacyPricesReply(response, show, round3) == Some(Handler.NoPricesReply)
    ensures response.LegacyResponse? && response.products != [] && LegacyPricesReply(response, show, round3).Some? ==>
      var t := LegacyPricesReply(response, show, round3).value;
      |t| > 0 && t[0] == Pin[0] && t != LegacyUnreachableReply && t != Handler.NoPricesReply
  {
    assert LegacyUnreachableReply[0] == 'B';
    assert Handler.NoPricesReply[0] == '\U{15E}';
    assert Pin[0] == '\U{1F4CC}';
    if response.LegacyResponse? && response.products != [] && LegacyPricesReply(response, show, round3).Some? {
      var list := FetchedOf(response).list;
      FormattedTextStartsWithPin(list, show, round3);
    }
  }

  lemma {:induction false} FormattedTextStartsWithPin(ps: seq<Product>, show: Value -> string, round3: Value -> Value)
    requires ps != [] && FormattedText(ps, show, round3).Some?
    ensures var t := FormattedText(ps, show, round3).value; |t| > 0 && t[0] == Pin[0]
    decreases |ps|
  {
    var front := ps[..|ps| - 1];
    if front != [] {
      FormattedTextStartsWithPin(front, show, round3);
    } else {
      var block := LegacyBlock(ps[0], show, round3).value;
      assert FormattedText(ps, show, round3).value == "" + block;
    }
  }

  method SendPrices(bot: Bot, requester: Value, response: LegacyFetch, show: Value -> string, round3: Value -> Value)
    modifies bot
    ensures LegacyPricesReply(response, show, round3).None? ==> bot.sent == old(bot.sent)
    ensures LegacyPricesReply(response, show, round3).Some? ==>
      bot.sent == old(bot.sent) + [Message(requester, Text(LegacyPricesReply(response, show, round3).value))]
  {
    var prices := GetPrices(response);
    if prices.TimedOut? {
      var _ := bot.Send(Message(requester, Text(LegacyUnreachableReply)));
      return;
    }
    if prices.MissingUrun? {
      return;
    }
    if prices.list == [] {
      var _ := bot.Send(Message(requester, Text(Handler.NoPricesReply)));
      return;
    }
    var message := CreateFormattedText(prices.list, show, round3);
    if message.None? {
      return;
    }
    var _ := bot.Send(Message(requester, Text(message.value)));
  }

  // ---------------------------------------------------------------------------
  // check_prices

  /** {"dnd": False}: the platform is not consulted. */
  const DndOffQuery: Query := map["dnd" := VBool(false)]

  lemma DndOffRecipients(u: User)
    ensures Matches(u, DndOffQuery) <==> "dnd" in u.extras && u.extras["dnd"] == VBool(false)
  {
    assert DndOffQuery.Keys == {"dnd"};
    assert "dnd" in UserAttrs(u) <==> "dnd" in u.extras;
    assert "dnd" in u.extras ==> UserAttrs(u)["dnd"] == u.extras["dnd"];
  }

  /** The chat id the loop reads: `target_user.id`, an attribute only an extra field can
      supply; a user without it raises AttributeError. */
  function IdAttribute(u: User): Option<Value> {
    if "id" in u.extras then Some(u.extras["id"]) else None
  }

  /** A first recipient with no `id` field ends the loop at once: nothing is sent and
      nobody is deactivated. */
  lemma MissingIdAborts(rs: seq<User>, text: string, oracle: Message -> SendOutcome)
    requires rs != [] && "id" !in rs[0].extras
    ensures var r := Deliveries(rs, text, IdAttribute, oracle);
      r.raised && r.attempted == [] && r.failed == []
  {
    FirstStopRaises(rs, 0, text, IdAttribute, oracle);
  }

  /** The bulk update matches `user_id` strings: collected ids that are not strings
      deactivate nobody. */
  lemma NonStringIdsDeactivateNobody(docs: seq<User>, ids: seq<Value>)
    requires forall j :: 0 <= j < |ids| ==> !ids[j].VStr?
    ensures Deactivate(docs, ids) == docs
  {
    forall i | 0 <= i < |docs| ensures VStr(docs[i].user_id) !in ids {
      assert forall j :: 0 <= j < |ids| ==> ids[j] != VStr(docs[i].user_id);
    }
  }

  datatype CheckOutcome = Silent | Raised | Notified(report: Report)

  /** `check_prices`. A timeout ends it silently; there is no check for an empty list,
      so an empty feed sends "" to every recipient. */
  method CheckPrices(bot: Bot, users: UserCollection, response: LegacyFetch, show: Value -> string, round3: Value -> Value)
    returns (outcome: CheckOutcome)
    modifies bot, users
    ensures outcome.Silent? <==> response.LegacyTimeout?
    ensures outcome.Raised? <==>
      (response.LegacyResponse? &&
       (FetchedOf(response).MissingUrun? || FormattedText(FetchedOf(response).list, show, round3).None?))
    ensures !outcome.Notified? ==>
      bot.sent == old(bot.sent) && users.docs == old(users.docs) && users.bulkUpdates == old(users.bulkUpdates)
    ensures outcome.Notified? ==>
      && outcome.report == Deliveries(Select(old(users.docs), DndOffQuery),
                                      FormattedText(FetchedOf(response).list, show, round3).value, IdAttribute, bot.outcome)
      && bot.sent == old(bot.sent) + outcome.report.attempted
      && (!outcome.report.raised && outcome.report.failed != [] ==>
            users.docs == Deactivate(old(users.docs), outcome.report.failed)
            && users.bulkUpdates == old(users.bulkUpdates) + [outcome.report.failed])
      && (outcome.report.raised || outcome.report.failed == [] ==>
            users.docs == old(users.docs) && users.bulkUpdates == old(users.bulkUpdates))
  {
    var prices := GetPrices(response);
    if prices.TimedOut? {
      return Silent;
    }
    if prices.MissingUrun? {
      return Raised;
    }
    var userList := Select(users.docs, DndOffQuery);
    var message := CreateFormattedText(prices.list, show, round3);
    if message.None? {
      return Raised;
    }
    var report := Broadcast(bot, users, userList, message.value, IdAttribute);
    return Notified(report);
  }

  // ---------------------------------------------------------------------------
  // admin_announcement

  /** `admin_announcement`: ADMIN_ID is checked, `find_all()` selects every user. */
  method AdminAnnouncement(bot: Bot, users: UserCollection, callerId: int, adminId: int, commandText: string)
    returns (report: Option<Report>)
    modifies bot, users
    ensures callerId != adminId ==>
      && report.None?
      && bot.sent == old(bot.sent) + [Message(VInt(callerId), Text(Handler.DeniedReply))]
      && users.docs == old(users.docs) && users.bulkUpdates == old(users.bulkUpdates)
    ensures callerId == adminId ==>
      && report == Some(Deliveries(old(users.docs), Handler.AnnouncementText(commandText), Task.UserIdChat, bot.outcome))
      && bot.sent == old(bot.sent) + report.value.attempted
      && (!report.value.raised && report.value.failed != [] ==>
            users.docs == Deactivate(old(users.docs), report.value.failed)
            && users.bulkUpdates == old(users.bulkUpdates) + [report.value.failed])
      && (report.value.raised || report.value.failed == [] ==>
            users.docs == old(users.docs) && users.bulkUpdates == old(users.bulkUpdates))
  {
    if callerId != adminId {
      var _ := bot.Send(Message(VInt(callerId), Text(Handler.DeniedReply)));
      return None;
    }
    var adminMessage := Handler.AnnouncementText(commandText);
    var userList := Select(users.docs, map[]);
    SelectAll(users.docs);
    var r := Broadcast(bot, users, userList, adminMessage, Task.UserIdChat);
    return Some(r);
  }

  /** `find_all()` with no query returns the whole collection. */
  lemma {:induction false} SelectAll(docs: seq<User>)
    ensures Select(docs, map[]) == docs
    decreases |docs|
  {
    if docs != [] {
      SelectAll(docs[1..]);
      assert Matches(docs[0], map[]);
    }
  }

  // ---------------------------------------------------------------------------
  // The daily jobs of `main`

  datatype DailyTime = DailyTime(hour: int, minute: int)

  /** `datetime.time(hour=h, minute=m)` raises ValueError outside these ranges. */
  predicate ValidTime(h: int, m: int) {
    0 <= h < 24 && 0 <= m < 60
  }

  datatype ScheduleError = IndexError | ValueError

  class JobQueue {
    var jobs: seq<DailyTime>

    constructor ()
      ensures jobs == []
    {
      jobs := [];
    }

    /** `job_queue.run_daily(check_prices, time=...)`. */
    method RunDaily(t: DailyTime)
      modifies this
      ensures jobs == old(jobs) + [t]
    {
      jobs := jobs + [t];
    }
  }

  /** Building the time of job j succeeds. */
  predicate JobOk(hours: seq<int>, minutes: seq<int>, j: int) {
    0 <= j < |hours| && j < |minutes| && ValidTime(hours[j], minutes[j])
  }

  /** The first index from `i` on of `range(len(hours))` at which building the time
      raises. */
  function FirstBadJobFrom(hours: seq<int>, minutes: seq<int>, i: nat): (r: Option<nat>)
    requires i <= |hours|
    ensures r.Some? ==> i <= r.value < |hours| && (i <= |minutes| ==> r.value <= |minutes|)
    ensures r.Some? ==> (r.value >= |minutes| || !ValidTime(hours[r.value], minutes[r.value]))
    ensures r.Some? ==> forall j :: i <= j < r.value ==> JobOk(hours, minutes, j)
    ensures r.None? <==> forall j :: i <= j < |hours| ==> JobOk(hours, minutes, j)
    decreases |hours| - i
  {
    if i == |hours| then None
    else if !JobOk(hours, minutes, i) then Some(i)
    else
      FirstBadJobFrom(hours, minutes, i + 1)
  }

  function FirstBadJob(hours: seq<int>, minutes: seq<int>): (r: Option<nat>) {
    FirstBadJobFrom(hours, minutes, 0)
  }

  /** Job i runs at (PRICE_CHECK_HOURS[i], PRICE_CHECK_MINUTES[i]). */
  function Pairing(hours: seq<int>, minutes: seq<int>, n: nat): (r: seq<DailyTime>)
    requires n <= |hours| && n <= |minutes|
    ensures |r| == n
    ensures forall i :: 0 <= i < n ==> r[i] == DailyTime(hours[i], minutes[i])
  {
    seq(n, i requires 0 <= i < n => DailyTime(hours[i], minutes[i]))
  }

  /** The loop of `main` registering one daily job per configured hour. An exception
      ends `main` with the jobs registered so far. */
  method RegisterJobs(queue: JobQueue, hours: seq<int>, minutes: seq<int>) returns (err: Option<ScheduleError>)
    modifies queue
    ensures err.None? <==> FirstBadJob(hours, minutes).None?
    ensures err.None? ==> |hours| <= |minutes| && queue.jobs == old(queue.jobs) + Pairing(hours, minutes, |hours|)
    ensures err.Some? ==>
      FirstBadJob(hours, minutes).Some? &&
      var k := FirstBadJob(hours, minutes).value;
      && queue.jobs == old(queue.jobs) + Pairing(hours, minutes, k)
      && (err.value == IndexError <==> k >= |minutes|)
  {
    var i := 0;
    while i < |hours|
      invariant 0 <= i <= |hours| && i <= |minutes|
      invariant forall j :: 0 <= j < i ==> JobOk(hours, minutes, j)
      invariant FirstBadJob(hours, minutes) == FirstBadJobFrom(hours, minutes, i)
      invariant queue.jobs == old(queue.jobs) + Pairing(hours, minutes, i)
    {
      if i >= |minutes| {
        return Some(IndexError);
      }
      var hour, minute := hours[i], minutes[i];
      if !ValidTime(hour, minute) {
        return Some(ValueError);
      }
      queue.RunDaily(DailyTime(hour, minute));
      assert Pairing(hours, minutes, i + 1) == Pairing(hours, minutes, i) + [DailyTime(hour, minute)];
      i := i + 1;
    }
    return None;
  }

  /** With lists of equal length and valid times, exactly `len(PRICE_CHECK_HOURS)` jobs
      are registered. */
  lemma SchedulePairs(hours: seq<int>, minutes: seq<int>)
    requires |hours| == |minutes|
    requires forall i :: 0 <= i < |hours| ==> ValidTime(hours[i], minutes[i])
    ensures FirstBadJob(hours, minutes).None?
  {
    assert forall j :: 0 <= j < |hours| ==> JobOk(hours, minutes, j);
  }

  /** With fewer minutes than hours and valid times up to there, the loop registers a job
      per minute and then raises IndexError. */
  lemma ScheduleShortMinutes(hours: seq<int>, minutes: seq<int>)
    requires |minutes| < |hours|
    requires forall i :: 0 <= i < |minutes| ==> ValidTime(hours[i], minutes[i])
    ensures FirstBadJob(hours, minutes) == Some(|minutes|)
  {
    assert forall j :: 0 <= j < |minutes| ==> JobOk(hours, minutes, j);
    assert !JobOk(hours, minutes, |minutes|);
  }
}

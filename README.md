# Konya Ticaret Borsası bot — a Dafny model

This project models the decision logic of a Telegram bot. The bot reads the Konya
commodity exchange's live price feed, sends the price list to subscribers, and keeps a
MongoDB collection of users. The model covers:

- The feed fold of `Helper.fetch_prices`, in which:
  - products are grouped by `GrupAdi`;
  - each group keeps the first-seen group prices;
  - product lists keep input order;
  - `group_quantity` is summed.
- The price-list text of `generate_price_list_text`, including the PEP 378 thousands
  grouping of the quantity with `,` replaced by `.`.
- The chart grouping and axis-format choice of `generate_price_graph`.
- The shared fan-out loop of `check_and_notify_prices`, `admin_announcement` and
  `check_prices`:
  - one send per recipient, in order;
  - Forbidden and BadRequest failures are collected;
  - any other error ends the handler;
  - then one bulk `is_active = False` update runs, only when something was collected.
- The command handlers of `src/handler.py`:
  - `start`, an insert-if-absent;
  - `send_prices`;
  - the recent-days selection of `send_price_graph` and the `last_N_days` commands;
  - the `dnd` toggles;
  - the admin gate and announcement-text extraction;
  - the traceback chunking of `err_handler`.
- The older `src/bot.py`:
  - the key rename of `get_prices` and `create_formatted_text`;
  - `send_prices`, `check_prices` and `admin_announcement`;
  - the registration of the daily jobs.
- The ordered configuration guards of `validate` in `src/__main__.py`.
- The record shapes and defaults of `src/models.py`.

How the outside world is represented:
- **Feed.** The network is replaced by a fetch result, either a timeout or the decoded
  product list.
- **Telegram.** Telegram is a `Bot` object. It logs every attempted send and answers each
  one from an outcome oracle fixed at construction.
- **MongoDB.** MongoDB is a `UserCollection` object. Its `docs` sequence is updated in
  place, and it also keeps a log of bulk updates.
- **Queries.** Mongo equality queries are matched against a user's named fields plus its
  extra keyword fields.
- **Prices.** Prices are fixed-point integers. Float formatting is a function parameter.
- **Time.** Timestamps are integer seconds, and a calendar day is `t / 86400`.

The modules are:
- `Wrappers` (Option)
- `Text` (Python string helpers)
- `Models`
- `Dicts` (insertion-ordered dict)
- `Store`
- `Telegram`
- `Utils`
- `FanOut`
- `Task`
- `Handler`
- `LegacyBot` (`src/bot.py`)
- `Startup` (`src/__main__.py`)

## Model

| member | source | states |
|---|---|---|
| Models.NewUser | src/models.py:4-17 | the stored attributes are exactly the named fields, `created_at` and the extra keyword fields; each named field holds its argument, `created_at` its timestamp and each extra its value |
| Models.NewUserDefaults | src/models.py:10-13 | with only the three required fields, last_name and username are None, language is "en", the user is active, and the attributes are the named fields plus `created_at` |
| Models.NewPriceRecord | src/models.py:20-31 | a price record stores its five named fields and passes the extras through |
| Models.DayOfMonotone | src/handler.py:70 | a record on an earlier calendar day was created earlier |
| Store.Select | src/lib/model.py:43-56 | `find_all(query)` returns exactly the documents matching the query, never more than the collection holds |
| Store.SelectAppend | src/lib/model.py:43-56 | the cursor runs through the collection in order: selecting from two runs of documents selects from the first, then from the second |
| Store.SelectSingle | src/lib/model.py:43-56 | a single document is returned exactly when it matches the query |
| Store.FirstMatch | src/lib/model.py:33-40 | `find_one` finds the first matching document, and finds none exactly when nothing matches |
| Store.DeactivateFields | src/lib/model.py:83-88 | the bulk update leaves every document whose `user_id` is not among the ids unchanged; on the others every field but `is_active` keeps its value and `is_active` is False |
| Store.DeactivateIdempotent | src/lib/model.py:83-88 | repeating the bulk deactivation changes nothing more |
| Store.UserCollection.InsertOne | src/lib/model.py:26 | inserting appends one document |
| Store.UserCollection.SaveAt | src/lib/model.py:22-24 | saving an existing document replaces it in place |
| Store.UserCollection.DeactivateMany | src/lib/model.py:83-88 | `update_many` sets the new documents to the deactivated ones and logs one bulk update |
| Text.ReplaceCharBack | src/utils.py:31-33 | replacing a character by one the text lacks and back restores the text, so only the matching positions change |
| Text.ReplaceCharRemoves | src/utils.py:31-33 | after the replacement no `,` remains |
| Text.Words | src/handler.py:154 | `str.split()` yields only non-empty, space-free words |
| Text.WordsOfJoin | src/handler.py:154 | splitting a space-joined list of words gives the list back |
| Text.SplitOn | src/handler.py:214 | `str.split(sep)` gives at least one piece; joining the pieces with `sep` rebuilds the text; no piece contains `sep` |
| Text.IntToStringRoundTrip | src/handler.py:17 | `str(id)` is a lossless decimal rendering of the integer id |
| Text.NatToStringRoundTrip | src/handler.py:17 | the digits of `str(n)` evaluate back to n |
| Text.GroupThousandsLength | src/utils.py:78 | grouping n digits in threes inserts (n-1)/3 separators |
| Text.GroupThousandsSeparators | src/utils.py:78 | the separator stands exactly at every fourth place from the right end, and every other place holds a digit |
| Text.SeparatorsSnoc | src/utils.py:78 | one more group of three digits keeps every separator at a multiple of four from the right |
| Text.GroupThousandsUngroup | src/utils.py:78 | removing the separators gives the digits back |
| Text.RemoveSeparatorSnoc | src/utils.py:78 | removing the separators from a grouped prefix, a separator and three digits gives the prefix without separators followed by the digits |
| Text.GroupThousandsReplace | src/utils.py:78 | grouping with `,` and then replacing `,` by `.` equals grouping with `.` |
| Dicts.PutLaws | src/utils.py:40-47 | after `d[k] = v`, `k` maps to `v`, other keys keep their values, the old keys stay first in their order, the key list grows only for a new key, and a second assignment to `k` only replaces the value |
| Utils.PointDecimal | src/utils.py:31-33 | the price string keeps its length and has no `,` |
| Utils.AddProduct | src/utils.py:29-56 | one loop step adds the group at the end exactly when it is new; it appends the product entry, adds its quantity, and keeps the group prices and all other groups |
| Utils.AddToGroup | src/utils.py:40-56 | the loop body, which creates the group when its name is new and then appends the product and adds its quantity, performs exactly one step of the fold |
| Utils.GroupingValid | src/utils.py:28-58 | the fold's key list and mapping stay consistent and free of duplicates |
| Utils.FetchPrices | src/utils.py:24-58 | the loop computes the fold of the product list; a timeout gives no mapping |
| Utils.GroupingKeys | src/utils.py:40-47 | groups appear in order of first occurrence, and a name is a group exactly when some product carries it |
| Utils.GroupingOrder | src/utils.py:28-55 | a name is a group exactly when some product in the list has that group name |
| Utils.GroupingProducts | src/utils.py:49-55 | a group's product list is exactly the entries of its products, in input order |
| Utils.GroupingQuantity | src/utils.py:46-56 | `group_quantity` starts at 0 and ends as the sum of `TopMiktar` over the group's products |
| Utils.GroupingFirstPrices | src/utils.py:36-47 | a group's min, max and average prices are those of its first product |
| Utils.AddProductKeepsPrices | src/utils.py:40-56 | a later product of an existing group leaves that group's min, max and average prices unchanged |
| Utils.GroupingTotal | src/utils.py:28-56 | every product lands in exactly one group: the group sizes add up to the list length |
| Utils.AddNewThenExisting | src/utils.py:40-56 | for a new name, the step is creating the empty group and then adding the product to it |
| Utils.AddExistingCount | src/utils.py:49-55 | adding a product to an existing group raises the total number of stored products by one |
| Utils.GroupingEmpty | src/utils.py:22-58 | the mapping is empty exactly when the product list is |
| Utils.GeneratePriceListText | src/utils.py:72-88 | the loop builds one block per group, in mapping order |
| Utils.AppendBlock | src/utils.py:75-86 | the six appends of one iteration add exactly that group's block: header, four labelled lines, blank pair |
| Utils.AppendKeyBlock | src/utils.py:74-86 | one iteration extends the text built so far by the block of the next key |
| Utils.PriceListEmpty | src/utils.py:72-88 | an empty mapping renders as "" |
| Utils.FormatQuantityShape | src/utils.py:78 | the quantity text is the sign and the digits grouped by `.`, and it parses back to the quantity once the points are removed |
| Utils.FormatQuantityPoints | src/utils.py:78 | for a non-negative quantity the points stand exactly at every fourth place from the right, as in 1.234.567 |
| Utils.BlockBreaks | src/utils.py:81-86 | one block has seven line breaks: five lines, then the blank pair |
| Utils.LabelledNoBreak | src/utils.py:82-85 | a labelled line adds no line break of its own |
| Utils.PriceNoBreak | src/utils.py:75-77 | turning the decimal point into a comma adds no line break |
| Utils.PriceListLineCount | src/utils.py:74-86 | the whole text has seven line breaks per group |
| Utils.PriceListStartsWithPin | src/utils.py:79-81 | a non-empty list text begins with the pin emoji |
| Utils.AddPoint | src/utils.py:94-99 | one chart step adds the product at the end exactly when it is new, appends its day and average price, and keeps the others |
| Utils.SeriesValid | src/utils.py:92-99 | the chart grouping stays consistent and free of duplicates |
| Utils.AddToSeries | src/utils.py:95-99 | the loop body, which creates the product's lists when its name is new and then appends the record's day and average price, performs exactly one step of the chart grouping |
| Utils.GroupForChart | src/utils.py:92-99 | the loop computes the chart grouping of the records |
| Utils.SeriesKeys | src/utils.py:94-96 | the products charted are exactly the products of the records |
| Utils.SeriesContents | src/utils.py:94-99 | each product's dates and prices are those of its records, in input order, and have equal length |
| Utils.SeriesTotal | src/utils.py:92-99 | the charted points add up to the number of records |
| Utils.AxisFormat | src/utils.py:121-126 | the axis shows day/month up to 30 days and month/year beyond |
| Utils.GeneratePriceGraph | src/utils.py:91-126 | the chart is the grouping of the records with the day count and its axis format |
| Telegram.Bot.Send | src/task.py:32-34 | a send is logged and answered by the oracle |
| Telegram.FirstFailure | src/handler.py:216-224 | finds the first message whose send does not succeed, or none exactly when all succeed |
| Telegram.AttemptedPrefix | src/handler.py:216-224 | the sends a handler attempts form a prefix; all but the last succeed; all are attempted when none fails |
| FanOut.FailedChatsSound | src/task.py:36-39 | every collected id belongs to a send that failed with Forbidden or BadRequest |
| FanOut.FailedChatsComplete | src/task.py:36-39 | every send that failed with Forbidden or BadRequest has its id collected |
| FanOut.DeliveriesNoStop | src/task.py:30-39 | without an uncaught error, each recipient gets exactly one attempt, in order, with the same text, and the collected ids are exactly the failing ones |
| FanOut.RaisedFinal | src/task.py:30-43 | after the loop raised, later recipients change nothing |
| FanOut.FirstStopRaises | src/task.py:30-43 | at the first uncaught error the loop ends: the sends before it are attempted and only failures before it are collected |
| FanOut.RaisedIffStop | src/task.py:30-43 | the loop raises exactly when some recipient's send fails with an uncaught error or its address is missing |
| FanOut.FirstStopExists | src/task.py:30-43 | when some recipient stops the loop, a first one exists |
| FanOut.Broadcast | src/task.py:27-43 | the loop performs the modelled deliveries, and the bulk update runs once after it, only if nothing raised and something was collected; otherwise the store is unchanged |
| Task.RecipientsAre | src/task.py:26 | recipients are exactly the users with `dnd` False and platform "Telegram"; `is_active` is not consulted |
| Task.UserIdChatNeverMissing | src/task.py:32 | reading `user_id` never fails, so the loop raises only on an uncaught send error |
| Task.EveryRecipientNotified | src/task.py:28-35 | without an uncaught send error, every recipient gets the one message, in order |
| Task.CheckAndNotifyPrices | src/task.py:11-43 | a timeout gives one alert to the logger chat; an empty feed gives the other alert; otherwise the price list is broadcast to the recipients, with the conditional bulk deactivation |
| Handler.OwnQueryMatches | src/handler.py:17 | the lookup matches exactly the user with `user_id` `str(id)` on Telegram |
| Handler.FirstMatchAt | src/handler.py:17 | the lookup finds the first matching user |
| Handler.StartUser | src/handler.py:20-26 | the newly created user is found by the lookup, is an active recipient of the daily list, and has `dnd` False |
| Handler.StartIdempotent | src/handler.py:17-27 | after `start` the user exists, a second `start` changes nothing, and at most one record is added |
| Handler.Start | src/handler.py:15-32 | inserts the user only when absent, then sends the welcome text to `str(id)` |
| Handler.PricesReplyCases | src/handler.py:46-63 | the reply is "unreachable" exactly on a timeout, "no info" exactly on an empty feed, and the pinned list otherwise |
| Handler.SendPrices | src/handler.py:46-63 | exactly one reply goes to the requester |
| Handler.MaxOf | src/handler.py:71 | the maximum is a member of the list and no element exceeds it |
| Handler.Without | src/handler.py:69-71 | removing one value keeps every other value |
| Handler.TopDistinct | src/handler.py:67-80 | at most n days, strictly newest first, each present in the data, every omitted day older than every kept one, and all days kept when fewer than n exist |
| Handler.OnDays | src/handler.py:88-91 | the records used are exactly those dated on a selected day |
| Handler.RecentDaysSelection | src/handler.py:67-91 | at most `days` distinct days, each with a record, all newer than any record left out |
| Handler.RecentDaysNewerFirst | src/handler.py:67-80 | a selected record is newer than any record of an unselected day |
| Handler.GraphReplyCases | src/handler.py:82-98 | the "no data" text is sent exactly when there are no records; otherwise a chart of the selected records is sent |
| Handler.SendPriceGraph | src/handler.py:66-98 | one reply goes to the chat: the "no data" text or the chart |
| Handler.Last7Days | src/handler.py:101-102 | the graph for 7 days |
| Handler.Last15Days | src/handler.py:105-106 | the graph for 15 days |
| Handler.Last30Days | src/handler.py:109-110 | the graph for 30 days |
| Handler.ToggleSettles | src/handler.py:113-142 | after the toggle, the user's `dnd` has the wanted value; the save happens only when it differed; toggling again changes nothing |
| Handler.ToggledShape | src/handler.py:113-142 | after a toggle that did not raise, only the user's own document may change, its identity stays, and its `dnd` has the wanted truthiness |
| Handler.ToggleRecipients | src/handler.py:117-135 | disabling removes the user from the daily recipients; enabling a Telegram user adds them back |
| Handler.SetDnd | src/handler.py:113-142 | reports which case applied, saves only when the value changes, and sends the matching reply |
| Handler.DisableNotifier | src/handler.py:113-126 | the setter with `dnd` True and the "disabled" replies |
| Handler.EnableNotifier | src/handler.py:129-142 | the setter with `dnd` False and the "enabled" replies |
| Handler.TelegramRecipients | src/handler.py:155 | announcement recipients are all Telegram users, whatever their `dnd` |
| Handler.AnnouncementWords | src/handler.py:154 | the announcement is the command's words after the first, joined by single spaces; a command with at most one word gives "" |
| Handler.AdminAnnouncement | src/handler.py:145-171 | a non-admin gets exactly one denial and nothing else happens; the admin's text is broadcast to Telegram users |
| Handler.TracebackRepliesRecover | src/handler.py:213-228 | a short traceback is sent whole in `<pre>`; a long one as one message per piece; no text exceeds 4096 characters plus the markup; when no piece was too long, the pieces read back to the traceback |
| Handler.PieceReplyBound | src/handler.py:217-224 | a piece's text is at most 4096 characters plus the markup, and taking the markup off an ordinary piece gives it back |
| Handler.PreUnpre | src/handler.py:222-227 | the `<pre>` markup adds 11 characters and can be taken off again |
| Handler.AttemptedAfterDelivered | src/handler.py:209-228 | sends that all succeed let the following sends proceed |
| Handler.SendPiece | src/handler.py:217-224 | a piece over 4096 characters is replaced by "Traceback is too long!", any other piece is sent in `<pre>`, to the logger chat |
| Handler.SendPieces | src/handler.py:216-224 | the loop sends the piece messages in order until one raises |
| Handler.SendTraceback | src/handler.py:213-228 | sends the traceback messages in order until one raises |
| Handler.AttemptedCons | src/handler.py:209-228 | sending the first message and then, only if it succeeds, the rest attempts the same sends as sending them all in one sequence |
| Handler.ErrHandler | src/handler.py:186-228 | the context message goes first; the traceback messages follow only when it succeeds |
| LegacyBot.Renamed | src/bot.py:218 | `_id` takes the value of `urun`, `urun` is gone, and no other key changes |
| LegacyBot.FirstWithoutUrun | src/bot.py:217-218 | finds the first product without `urun`, or none exactly when all have it |
| LegacyBot.FetchedShape | src/bot.py:212-222 | a timeout gives None; the list keeps its length; each product's `_id` is its former `urun` |
| LegacyBot.GetPrices | src/bot.py:212-222 | the loop renames each product of the list in place; a missing `urun` raises |
| LegacyBot.FormattedTextDefined | src/bot.py:228-233 | the text exists exactly when every product has the five keys read; an empty list gives "" |
| LegacyBot.FormattedTextMissing | src/bot.py:228-233 | one product without a key read makes the whole text undefined (the KeyError) |
| LegacyBot.LegacyBlockBreaks | src/bot.py:235-240 | one product's block has seven line breaks |
| LegacyBot.FormattedTextLineCount | src/bot.py:225-241 | one seven-line block per product |
| LegacyBot.FormattedTextStartsWithPin | src/bot.py:235 | a non-empty text begins with the pin emoji |
| LegacyBot.CreateFormattedText | src/bot.py:225-241 | the loop builds one block per product, in list order |
| LegacyBot.AppendLegacyBlock | src/bot.py:228-240 | one iteration for a product with all five keys appends exactly that product's block |
| LegacyBot.LegacyPricesReplyCases | src/bot.py:70-86 | "unreachable" on a timeout, "no info" on an empty list, and the pinned text otherwise; the three differ |
| LegacyBot.SendPrices | src/bot.py:70-86 | one reply to the requester unless a KeyError ended the handler |
| LegacyBot.DndOffRecipients | src/bot.py:169 | recipients are exactly the users with `dnd` False, on any platform |
| LegacyBot.MissingIdAborts | src/bot.py:173-181 | a first recipient without an `id` field ends the loop before any send and collects nothing |
| LegacyBot.NonStringIdsDeactivateNobody | src/bot.py:181-186 | collected ids that are not strings deactivate nobody, because the bulk update matches `user_id` |
| LegacyBot.CheckPrices | src/bot.py:163-186 | returns silently on a timeout; raises on a product missing a key; otherwise sends the text to the `dnd` False users through `target_user.id`, with the conditional bulk update |
| LegacyBot.SelectAll | src/lib/model.py:47-56 | `find_all()` without a query returns every document |
| LegacyBot.AdminAnnouncement | src/bot.py:121-147 | a non-admin gets one denial; the admin's text goes to every user |
| LegacyBot.JobQueue.RunDaily | src/bot.py:260 | registering a job appends it |
| LegacyBot.FirstBadJobFrom | src/bot.py:258-260 | finds the first job whose minute is missing or whose time is out of range |
| LegacyBot.RegisterJobs | src/bot.py:258-260 | registers the paired jobs in order up to the first that raises (IndexError when the minute is missing, ValueError otherwise), and all when none raises |
| LegacyBot.SchedulePairs | src/bot.py:258-260 | with equal-length lists of valid times nothing raises, so exactly `len(PRICE_CHECK_HOURS)` jobs are registered |
| LegacyBot.ScheduleShortMinutes | src/bot.py:258-259 | with fewer minutes than hours, the loop raises IndexError at the first missing minute |
| Startup.Validate | src/__main__.py:5-33 | `bot.main()` runs exactly when the key and the DB string are set, webhook mode is off and the two time lists have equal length |
| Startup.ValidateFirstError | src/__main__.py:6-12 | a missing key prints only its error; otherwise a missing DB string prints only its error |
| Startup.AdminIdOnlyWarns | src/__main__.py:14-15 | ADMIN_ID 0 adds the warning and never decides the exit |
| Startup.StartedPrintsAtMostWarning | src/__main__.py:14-28 | when the bot starts, the only line printed can be the ADMIN_ID warning, and the hour and minute lists have equal length |
| Startup.WebhookMessages | src/__main__.py:17-24 | webhook mode always exits, printing the URL error when WEBHOOK_URL equals the key and the port error when PORT is empty |

## Left out

- Network I/O (aiohttp sessions, URLs, `read_timeout`, `ssl=False`): the fetch result is an input, either a timeout or the decoded list.
- Float conversion (`float(...)`, `/ 10**4`, `round(..., 3)`, `:.2f`): prices are fixed-point integers. Formatting and rounding are abstract function parameters, so no rounding behaviour is claimed.
- matplotlib plotting, colours and the PNG buffer: the chart is the grouped data, the day count and the axis format.
- `html.escape`, `json.dumps` and traceback formatting: the context message and the traceback text are inputs to `Handler.ErrHandler`.
- Logging, async scheduling and concurrency: every handler runs sequentially to completion.
- Handler registration, `run_webhook` / `run_polling` and the Europe/Istanbul timezone of the daily jobs are not modelled.
- `src/config.py` is not part of this model. Its constants are parameters. Its default `WEBHOOK_URL` equals the API key.
- `src/lib/model.py`, `src/mongo.py` and `src/app.py` delegate to MongoDB. The store is an in-memory sequence of documents. The `created_at` that MongoModel sets from its keyword argument or from `datetime.now()` is a timestamp parameter.
- The `$group` / `$sort` / `$limit` aggregation of `send_price_graph` is defined directly on calendar days. Sorting the days by their latest record orders them like sorting by day.
- `help_` and `donate` send fixed texts. The `start`, `help_`, `donate` and `err_handler` of `src/bot.py` are left out.
- `disable_notifier` and `enable_notifier` of `src/bot.py` (lines 89-118) subscript a model object and never await `save()`. The toggles follow `src/handler.py`.
- `src/handler.py` reads `config.ADMIN_CHAT_ID`, which `src/config.py` does not define. The admin id is a parameter.
- `src/handler.py` imports `PriceRecord` from `src/app.py`, which does not define it. The history records are a parameter.
- `Telegram.Bot.Send`: the outcome of a send depends only on the message sent, not on time or on earlier sends.
- The cases where `find_one` returns None in `disable_notifier` and `enable_notifier` (an AttributeError in the code) are modelled as the `NoUser` outcome, which sends nothing.

## Behaviour notes

These points of the code's behaviour are easy to misread. The model follows the code each time.
- In the fan-out loop, a per-recipient error other than Forbidden and BadRequest is not caught. It ends the loop before the bulk update.
- Recipient lists are not limited to active users. No query in the code consults `is_active`.
- The admin broadcast is the single command `admin_announcement`. There is no conversation state and no timeout.
- Nothing in the code writes price records. They are only read.
- `start` does not reactivate a deactivated user. It only inserts an absent one.
- Extra keyword fields pass through into user documents. The `dnd` flag relies on this.
- In `check_prices` of `src/bot.py`, the loop sends to and collects `target_user.id`, but the bulk update matches `user_id`. The model keeps this as written.

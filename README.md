# gundeals-reddit-bot: the collector and notifier lambdas

The model covers the two AWS Lambda handlers of the bot.

- **Collector** (`lambdas/new_post_collector.py`). It walks the `new` listing of r/gundeals. It skips every post whose id is already a key of the `gundeal-posts` DynamoDB table. It sorts the unseen posts into `ammo`, `rifle` and `handgun` lists by case-insensitive tag tests on the title. It writes each listed post to the table with `notified = false`. It returns the ids it wrote, per category.
- **Notifier** (`lambdas/new_post_notifier.py`). It receives that result. For every id in it, in order, it:
  - reads the stored item;
  - publishes `NEW - "<CATEGORY>" deal!!` followed by the title and url, to the SNS topic of the stored category;
  - sets the item's `notified` flag.

The Reddit feed is a `seq<Post>`. The table is a `Table` object whose `items` field is a map from `post_id` to the rest of the item. SNS is a `Topics` object whose `log` field lists every publication in order. Every handler and helper that loops or touches a service is a `method`. Each such method is proved equal to a specification function on values:

- `Gather` for the collector's scan;
- `InsertAll` for its writes;
- `Collect` for its whole run;
- `NotifyIds` for the notifier's per-id loop;
- `Handle` for its whole run.

The lemmas are stated about those functions.

Modules:
- `Text`: ASCII `lower()`/`upper()` and Python's `in` on strings.
- `Store`: the records, the table and its three calls (`get_item`, `put_item`, `update_item`).
- `Collector`, `Notifier`: the two handlers.
- `Pipeline`: the collector's result fed to the notifier.

Python dict iteration order matters, and the model makes it explicit:
- `gather_new_posts` builds its result with the keys `rifle`, `handgun`, `ammo` (`NewPostsOrder`). `insert_db_new_post` writes in that order.
- `processed` is built with the keys `ammo`, `handgun`, `rifle` (`ProcessedOrder`). The notifier walks the lists in that order.

Three points of the code are easy to misread; the model follows the code:
- A post whose title carries two tags (say `[rifle]` and `[ammo]`) is listed twice by `gather_new_posts` (lines 58-66) and written twice by `insert_db_new_post` (lines 108-130). The second `put_item` replaces the first, so the item keeps the category written last: `ammo` wins over `handgun`, which wins over `rifle`. Its id also appears in two lists of the returned `processed`, so the notifier alerts twice, both times on the topic of the stored category and never on the other. `Collector.InsertAllEffect` and `Pipeline.RifleAmmoPostAlertedTwiceOnAmmo` state this.
- The writes go rifle, then handgun, then ammo: the key order of the dict returned at lines 69-73, which `insert_db_new_post` iterates at line 108.
- The docstring of `determine_if_new_post` says it returns true when the id is in the table. The code returns true when the id is absent. `Collector.DetermineIfNewPost` models the code.

## Model

| member | source | states |
|---|---|---|
| Text.Lower | lambdas/new_post_collector.py:58-64 | `title.lower()`: every ASCII capital mapped to its small letter, every other character kept, length kept |
| Text.Upper | lambdas/new_post_notifier.py:39 | `post_categor.upper()`: every ASCII small letter mapped to its capital, every other character kept, length kept |
| Text.Contains | lambdas/new_post_collector.py:58-64 | Python's `pat in text`: tries the start positions from the left and holds when the window there equals `pat`; its meaning is stated by `Text.ContainsIff` |
| Text.ContainsIff | lambdas/new_post_collector.py:58 | `pat in text` holds exactly when some window of `text` equals `pat` |
| Text.ContainsLowerIgnoresCase | lambdas/new_post_collector.py:58-64 | for a lower-case tag, `tag in title.lower()` holds exactly when the tag occurs in the title ignoring letter case, both directions |
| Text.LowerSlice | lambdas/new_post_collector.py:58 | lower-casing a title and then cutting a window gives the window lower-cased |
| Text.LowerOfLowerCase | lambdas/new_post_collector.py:58-64 | text with no upper-case letters, like the tags, is its own lower case |
| Store.Lookup | lambdas/new_post_notifier.py:19-23 | `get_item` gives an item exactly when the key is in the table, and then it is the stored item |
| Store.SetNotified | lambdas/new_post_notifier.py:55-59 | after the update the table has the same keys; only the `notified` flag of `id` changes, to true; every other item is unchanged |
| Store.SetNotifiedIdempotent | lambdas/new_post_notifier.py:55-59 | setting the flag twice gives the same table as setting it once |
| Store.SetNotifiedKeepsAttributes | lambdas/new_post_notifier.py:55-59 | the update keeps url, title and category of every item; an item's flag becomes true for `id` and stays as it was for the others |
| Store.Table.constructor | lambdas/new_post_collector.py:36-38 | the table starts with the given items |
| Store.Table.GetItem | lambdas/new_post_collector.py:87-91 | the call returns the lookup of the key and changes nothing |
| Store.Table.PutItem | lambdas/new_post_collector.py:110-129 | `put_item` replaces the whole item under the key, and nothing else changes |
| Store.Table.UpdateNotified | lambdas/new_post_notifier.py:55-59 | `update_item` leaves the table as `SetNotified` describes |
| Collector.Name | lambdas/new_post_collector.py:69-73 | the dictionary key of a category, which is also the `post_category` string written at line 126: `ammo`, `handgun` or `rifle` |
| Collector.ByCategory.With | lambdas/new_post_collector.py:130 | replacing one category's list changes that list only |
| Collector.WithTwice | lambdas/new_post_collector.py:130 | replacing a list twice keeps only the second replacement |
| Collector.Tagged | lambdas/new_post_collector.py:58-64 | the three title tests on `title.lower()`: `[ammo]` for ammo, `[rifle]` for rifle, `[handgun]` or `[pistol]` for handgun; stated as case-insensitive searches by `Collector.TaggedIgnoresCase` |
| Collector.TaggedIgnoresCase | lambdas/new_post_collector.py:58-64 | a title is `ammo` iff `[ammo]` occurs in it in any letter case, `rifle` iff `[rifle]` does, and `handgun` iff `[handgun]` or `[pistol]` does |
| Collector.Selected | lambdas/new_post_collector.py:53-66 | one category's list built by the feed loop: the feed's posts, in feed order, whose id is not in the table and whose title carries that category's tag; stated by `Collector.SelectedIff` and `Collector.SelectedKeepsFeedOrder` |
| Collector.Classified | lambdas/new_post_collector.py:53-66 | the three lists `ammo_posts`, `handgun_posts` and `rifle_posts` the feed loop builds together |
| Collector.SelectedIff | lambdas/new_post_collector.py:53-66 | a post is in a category's list iff it is in the feed, its id is not in the table and its title carries that category's tag |
| Collector.SelectedKeepsFeedOrder | lambdas/new_post_collector.py:53-66 | each list is the feed's qualifying posts at strictly increasing feed positions, and it misses none of them |
| Collector.Gather | lambdas/new_post_collector.py:41-75 | the value `gather_new_posts` returns: `None` when all three lists are empty, otherwise the three lists of unseen tagged posts in feed order; stated by `Collector.GatherClassifies`, `Collector.SelectedIff` and `Collector.SelectedKeepsFeedOrder` |
| Collector.GatherClassifies | lambdas/new_post_collector.py:67-75 | the scan returns the sentinel iff no unseen post of the feed carries any tag; otherwise each list holds exactly the unseen posts with its tag |
| Collector.StoredPostListedNowhere | lambdas/new_post_collector.py:53-57 | a post whose id is already stored is in no list |
| Collector.RifleAndAmmoInBoth | lambdas/new_post_collector.py:58-63 | the tests are not exclusive: an unseen post tagged both `[rifle]` and `[ammo]` is in both lists |
| Collector.DetermineIfNewPost | lambdas/new_post_collector.py:87-95 | true exactly when the table has no item for the id, and the table is not changed |
| Collector.GatherNewPosts | lambdas/new_post_collector.py:41-75 | the loop's three lists and its sentinel are those of `Gather`, and the method writes nothing to the table |
| Collector.Ids | lambdas/new_post_collector.py:130 | the ids of a list of posts, one per post, in list order |
| Collector.NewItem | lambdas/new_post_collector.py:112-128 | the item a `put_item` writes for a post listed under a category: its url and title, `notified` false, and the category's name |
| Collector.PutWrites | lambdas/new_post_collector.py:109-129 | one write per post of a list, in list order, each writing the post with `notified = false` and the list's category |
| Collector.Writes | lambdas/new_post_collector.py:108-109 | the `put_item` writes of the two nested loops: category by category in the given order, each list front to back |
| Collector.Apply | lambdas/new_post_collector.py:110-129 | the table after a run of `put_item` calls, one after the other, each replacing the whole item under its key; stated by `Collector.ApplyLastWrite` |
| Collector.ApplyLastWrite | lambdas/new_post_collector.py:110-129 | after a run of writes a key holds the item of its last write, and a key never written keeps what it had |
| Collector.LastWriteConcat | lambdas/new_post_collector.py:108-129 | the last write to a key in two runs of writes is the second run's, if it has one |
| Collector.LastWithId | lambdas/new_post_collector.py:109 | the post found by id is in the list and has that id |
| Collector.LastWriteOfList | lambdas/new_post_collector.py:109-129 | the last write of one list to an id writes the last post with that id; there is one exactly when the id is listed |
| Collector.InsertAll | lambdas/new_post_collector.py:107-131 | the table after `insert_db_new_post`: every post's `put_item` applied in the order rifle, handgun, ammo, each list front to back; stated by `Collector.InsertAllEffect` |
| Collector.InsertAllEffect | lambdas/new_post_collector.py:107-131 | a listed id is stored, not notified, as its last listed post, under the category written last among the lists that hold it; an unlisted id keeps its entry, or stays absent |
| Collector.InsertStoresPost | lambdas/new_post_collector.py:110-129 | when no other listed post shares its id, a listed post is stored with its own url and title, `notified = false` and the category written last |
| Collector.WritesStep | lambdas/new_post_collector.py:108-109 | proof step for the loop (unfolds one iteration): the writes of one more category of the outer loop follow those of the categories before it |
| Collector.ApplyOneMore | lambdas/new_post_collector.py:109-129 | proof step for the loop (unfolds one iteration): one more `put_item` extends the table state by that write |
| Collector.AppendOneMoreId | lambdas/new_post_collector.py:130 | proof step for the loop (unfolds one iteration): appending one more id extends that category's `processed` list by it |
| Collector.ApplyConcat | lambdas/new_post_collector.py:108-129 | two runs of writes in a row act as their concatenation |
| Collector.InsertCategory | lambdas/new_post_collector.py:109-130 | one category's inner loop writes that list's posts in order and appends their ids to that category's `processed` list |
| Collector.InsertDbNewPost | lambdas/new_post_collector.py:98-131 | the table afterwards is `InsertAll` of the table before, and `processed` is each list's ids, in order, under all three keys |
| Collector.IdsOf | lambdas/new_post_collector.py:107-131 | the `processed` dictionary returned: under each key the ids of that category's list, in list order |
| Collector.ProcessedItems | lambdas/new_post_collector.py:107 | `processed.items()` in its key order, `ammo`, `handgun`, `rifle`, each key paired with its ids |
| Collector.Collect | lambdas/new_post_collector.py:140-154 | a collector run: status 200 with `newPostsInserted` false, `newPostsProcessed` `None` and the table as it was when `Gather` finds nothing; otherwise `newPostsInserted` true, the ids of each list, and `InsertAll` of the table; stated by `Collector.CollectOutcome` |
| Collector.CollectOutcome | lambdas/new_post_collector.py:140-154 | a run reports 200; it reports nothing inserted, with `newPostsProcessed` `None` and the table untouched, iff no unseen post of the feed carries a tag; otherwise each category's reported ids are the ids of that category's list |
| Collector.InsertOneAmmoPost | lambdas/new_post_collector.py:107-131 | inserting one ammo post `a1` adds exactly its item, not notified, under `ammo`, and returns `a1` under `ammo` with the other lists empty |
| Collector.AmmoTitleTags | lambdas/new_post_collector.py:58-64 | the title `[AMMO] deal` is classified `ammo` and neither `rifle` nor `handgun` |
| Collector.NotInAmmoDeal | lambdas/new_post_collector.py:61-64 | `[rifle]`, `[handgun]` and `[pistol]` do not occur in `[ammo] deal` |
| Collector.LambdaHandler | lambdas/new_post_collector.py:134-154 | the result and the new table are those of `Collect` on the table before |
| Notifier.Topic | lambdas/new_post_notifier.py:41 | the topic ARN `arn:aws:sns:us-east-1:404426190892:` + category + `-gundeals-topic`; stated by `Notifier.TopicRoundTrip` and `Notifier.TopicInjective` |
| Notifier.TopicRoundTrip | lambdas/new_post_notifier.py:41 | the category can be read back from the topic ARN |
| Notifier.TopicCategoryInverse | lambdas/new_post_notifier.py:41 | any ARN the reader accepts is the topic of the category it reads |
| Notifier.TopicInjective | lambdas/new_post_notifier.py:41 | two categories share a topic iff they are equal |
| Notifier.Heading | lambdas/new_post_notifier.py:39 | the first line of an alert: `NEW - "`, the upper-cased category, `" deal!!` |
| Notifier.Message | lambdas/new_post_notifier.py:39 | the alert text: heading, two newlines, title, two newlines, url; stated by `Notifier.MessageLayout` and `Notifier.MessageContains` |
| Notifier.MessageLayout | lambdas/new_post_notifier.py:36-39 | the message is the heading `NEW - "` + upper-cased category + `" deal!!`, then two newlines, the title, two newlines and the url, at the stated offsets and length |
| Notifier.MessageContains | lambdas/new_post_notifier.py:39 | the message contains the stored title and the stored url |
| Notifier.MessageIgnoresFlag | lambdas/new_post_notifier.py:35-41 | the published topic and message do not depend on the `notified` flag |
| Notifier.HandgunHeading | lambdas/new_post_notifier.py:39 | a `handgun` item's heading reads `NEW - "HANDGUN" deal!!` |
| Notifier.Topics.constructor | lambdas/new_post_notifier.py:7 | no publications yet |
| Notifier.Topics.Publish | lambdas/new_post_notifier.py:40-43 | `publish` appends one publication, of that message to that topic, to the log |
| Notifier.PublicationOf | lambdas/new_post_notifier.py:35-43 | the one `publish` call for a stored item: its category's topic and its message |
| Notifier.NotifyIds | lambdas/new_post_notifier.py:74-77 | the notifier's per-id loop on a table: each id in turn is read, published and marked, stopping at the first id with no stored item; stated by `Notifier.NotifyIdsEffect` and `Notifier.NotifyIdsCompletes` |
| Notifier.Handle | lambdas/new_post_notifier.py:72-77 | a notifier invocation: nothing when `newPostsInserted` is false, otherwise `NotifyIds` over the manifest's ids list after list; stated by `Notifier.HandleGate` and `Pipeline.CollectThenNotify` |
| Notifier.HandleGate | lambdas/new_post_notifier.py:72-73 | without `newPostsInserted` the table and the log are untouched and the run completes |
| Notifier.NotifyOneHandgunPost | lambdas/new_post_notifier.py:62-77 | a manifest of `h1` under `handgun` gives one alert on the handgun topic, with the `HANDGUN` heading, the title and the url, and marks `h1` notified |
| Notifier.MarkAllSnoc | lambdas/new_post_notifier.py:74-77 | marking one more id extends the all-ids marking, and the earlier marks do not change that item's alert |
| Notifier.NotifyIdsSnoc | lambdas/new_post_notifier.py:74-77 | proof step for the loop (unfolds one iteration): one more id: a failed run stays failed; a missing id fails; otherwise that id is published, then marked |
| Notifier.NotifyIdsEffect | lambdas/new_post_notifier.py:74-77 | with `k` the first id missing from the table: the run fails on it, as the `Item` lookup at line 35 does, or completes when there is none; exactly the first `k` ids are published, in order, each with its stored item; exactly those are marked notified; later ids are neither published nor marked |
| Notifier.StepStored | lambdas/new_post_notifier.py:74-77 | proof step for the loop (unfolds one iteration): when every id has an item, one more id extends the published alerts by its own and the marking by its id |
| Notifier.StepAfterMissing | lambdas/new_post_notifier.py:74-77 | proof step for the loop (unfolds one iteration): once an id is missing, one more id publishes and marks nothing more |
| Notifier.MarkAllTwice | lambdas/new_post_notifier.py:55-59 | marking the same ids twice gives the table of marking them once, with the same keys |
| Notifier.NotifyIdsCompletes | lambdas/new_post_notifier.py:74-77 | the run completes iff every id is stored; then it publishes once per id, in order, and marks every id |
| Notifier.Redelivery | lambdas/new_post_notifier.py:74-77 | running a completed list of ids again on the table it left completes too, leaves that table as it is, and repeats the same alerts in the same order |
| Notifier.FirstMissing | lambdas/new_post_notifier.py:74-77 | the position of the first id with no stored item, or the length when every id is stored |
| Notifier.GetPostFromDb | lambdas/new_post_notifier.py:10-23 | the lookup of the id, with the table unchanged |
| Notifier.SendSnsNotification | lambdas/new_post_notifier.py:26-43 | with an item, it publishes that item's message to its category's topic and succeeds; with no item it fails without publishing |
| Notifier.UpdateNotifiedAttr | lambdas/new_post_notifier.py:46-59 | the table becomes `SetNotified` of the table before |
| Notifier.NotifyIdsStopped | lambdas/new_post_notifier.py:74-77 | after a failure, later ids change nothing |
| Notifier.Flatten | lambdas/new_post_notifier.py:74-75 | the ids the two nested loops visit: those of each list of the manifest, list after list in manifest order; stated by `Notifier.FlattenConcat` and `Pipeline.FlattenProcessed` |
| Notifier.FlattenConcat | lambdas/new_post_notifier.py:74-75 | the ids of a manifest are those of its first lists followed by those of the rest |
| Notifier.NotifyIdsConcat | lambdas/new_post_notifier.py:74-77 | two runs of ids in a row act as their concatenation: when the first completes, the second continues from its table and appends to its log |
| Notifier.NotifyList | lambdas/new_post_notifier.py:75-77 | the inner loop over one list leaves the table, the log and the outcome as `NotifyIds` on that list states |
| Notifier.NotifyManifest | lambdas/new_post_notifier.py:74-77 | the outer loop over the lists leaves the table, the log and the outcome as `NotifyIds` on all ids, list after list |
| Notifier.LambdaHandler | lambdas/new_post_notifier.py:62-77 | the outcome, the new table and the appended publications are those of `Handle` on the table before |
| Pipeline.Transport | lambdas/new_post_collector.py:145-153 | the collector's return value as the notifier's `responsePayload`: `newPostsInserted` as it is, `newPostsProcessed` as its items in the key order `ammo`, `handgun`, `rifle` |
| Pipeline.FlattenProcessed | lambdas/new_post_collector.py:107 | the notifier receives the ammo ids, then the handgun ids, then the rifle ids |
| Pipeline.ManifestedListed | lambdas/new_post_collector.py:130 | every id handed to the notifier was listed by the collector |
| Pipeline.CollectThenNotify | lambdas/new_post_notifier.py:73-77 | after a collector run, the notifier always completes: with nothing inserted it does nothing; otherwise it publishes one alert per id, in order, each from the stored item, and marks exactly those ids |
| Pipeline.AlertTopic | lambdas/new_post_notifier.py:36-41 | each alert's topic is that of the category the id was stored under, not that of the list the id came in |
| Pipeline.RifleAmmoPostAlertedTwiceOnAmmo | lambdas/new_post_collector.py:58-63 | a new post tagged `[rifle]` and `[ammo]` is handed to the notifier twice, and both alerts go to the ammo topic with the ammo heading; neither goes to the rifle topic |
| Pipeline.AlertsOfAmmoPost | lambdas/new_post_notifier.py:36-41 | every alert sent for a new post tagged `[ammo]` goes to the ammo topic and carries the ammo heading and that post's title and url |
| Pipeline.StoredAsAmmo | lambdas/new_post_collector.py:108-129 | a new post tagged `[ammo]` ends up stored as itself under `ammo` |

## Left out

- Loading the Reddit credentials from the environment or `config.json` (collector lines 8-27): configuration I/O.
- Building the praw and boto3 clients (collector lines 31-38, notifier lines 4-7). The live listing becomes the `feed` parameter, the table becomes `Table`, and SNS becomes `Topics`.
- Every `print`, and the collector's print-and-reraise of an exception (lines 155-157). Nothing in the model raises on the collector side, so there is nothing to re-raise.
- DynamoDB's wire encoding (`{'S': ...}`, `{'BOOL': ...}`). The `AttributesToGet` projections are dropped too: the model reads whole items, and the notifier uses no attribute outside its projection. The `post_id` attribute is the map's key and is not repeated inside the item.
- The `responsePayload` wrapping and the JSON transport between the two lambdas (notifier line 72). The model passes the notifier a `Payload` directly. An event without `responsePayload` is not modelled.
- Unicode case mapping: `lower()` and `upper()` are modelled on ASCII letters only.
- Network and service failures, throttling, and the race between two overlapping collector runs: external services and concurrency. `put_item`, `update_item` and `publish` always succeed in the model.
- The `statusCode` is the constant 200 whenever the collector returns; the model has no other code.
- The Lambda `context` parameters (both handlers): they are never used.
- Store.Table.UpdateNotified: requires the key to be in the table. On an absent key DynamoDB would create an item holding only `notified`, which is not modelled. The notifier only reaches this call after its `get_item` found the item (notifier lines 35, 76-77).
- Notifier.UpdateNotifiedAttr: the same precondition as `Store.Table.UpdateNotified`, for the same reason.
- Notifier.SendSnsNotification: a missing item is reported as `false` where the source raises `KeyError`. The handler turns that into the `MissingItem` outcome, which ends the run.
- A manifest of `None` with `newPostsInserted` set cannot come from the collector. The source would raise on `.items()`; the model reports it as the `NoManifest` outcome.

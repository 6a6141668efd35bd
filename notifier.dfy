/** The notifier handler (`lambdas/new_post_notifier.py`): for every id of
    the collector's manifest it reads the stored item, publishes an alert to
    the SNS topic of the item's stored category and sets the item's
    `notified` flag. SNS is modelled as the log of the messages published. */
module Notifier {
  import opened Text
  import opened Store

  const TopicPrefix: string := "arn:aws:sns:us-east-1:404426190892:"
  const TopicSuffix: string := "-gundeals-topic"

  /** The topic ARN an item of category `postCategory` is published to. */
  function Topic(postCategory: string): string {
    TopicPrefix + postCategory + TopicSuffix
  }

  /** The category a topic ARN is for, when it has the shape `Topic` builds. */
  function TopicCategory(topicArn: string): Option<string> {
    if |topicArn| >= |TopicPrefix| + |TopicSuffix|
       && topicArn[..|TopicPrefix|] == TopicPrefix
       && topicArn[|topicArn| - |TopicSuffix|..] == TopicSuffix
    then Some(topicArn[|TopicPrefix|..|topicArn| - |TopicSuffix|])
    else None
  }

  /** The category can be read back from its topic... */
  lemma TopicRoundTrip(postCategory: string)
    ensures TopicCategory(Topic(postCategory)) == Some(postCategory)
  {
    var t := Topic(postCategory);
    assert t[..|TopicPrefix|] == TopicPrefix;
    assert t[|t| - |TopicSuffix|..] == TopicSuffix;
    assert t[|TopicPrefix|..|t| - |TopicSuffix|] == postCategory;
  }

  /** ...and every topic it reads a category from is that category's topic. */
  lemma TopicCategoryInverse(topicArn: string)
    ensures TopicCategory(topicArn).Some? ==> Topic(TopicCategory(topicArn).value) == topicArn
  {
    if TopicCategory(topicArn).Some? {
      var p, s := |TopicPrefix|, |TopicSuffix|;
      assert topicArn == topicArn[..p] + topicArn[p..|topicArn| - s] + topicArn[|topicArn| - s..];
    }
  }

  /** Distinct categories have distinct topics. */
  lemma TopicInjective(a: string, b: string)
    ensures Topic(a) == Topic(b) <==> a == b
  {
    TopicRoundTrip(a);
    TopicRoundTrip(b);
  }

  /** The first line of an alert for category `postCategory`. */
  function Heading(postCategory: string): string {
    "NEW - \"" + Upper(postCategory) + "\" deal!!"
  }

  /** The alert text for a stored item. */
  function Message(item: StoredItem): string {
    Heading(item.postCategory) + "\n\n" + item.title + "\n\n" + item.url
  }

  /** An alert opens with the upper-cased category heading and holds the
      title and the url at the places after the two blank-line separators. */
  lemma MessageLayout(item: StoredItem)
    ensures var m, h := Message(item), Heading(item.postCategory);
      && |h| == 15 + |item.postCategory|
      && |m| == |h| + 4 + |item.title| + |item.url|
      && m[..|h|] == h
      && m[|h|..|h| + 2] == "\n\n"
      && OccursAt(m, item.title, |h| + 2)
      && m[|h| + 2 + |item.title|..|h| + 4 + |item.title|] == "\n\n"
      && OccursAt(m, item.url, |h| + 4 + |item.title|)
  {
    var m, h := Message(item), Heading(item.postCategory);
    assert m == h + "\n\n" + item.title + "\n\n" + item.url;
    assert m[|h| + 2..|h| + 2 + |item.title|] == item.title;
    assert m[|h| + 4 + |item.title|..|h| + 4 + |item.title| + |item.url|] == item.url;
  }

  /** The stored title and url both occur in the alert. */
  lemma MessageContains(item: StoredItem)
    ensures Contains(Message(item), item.title) && Contains(Message(item), item.url)
  {
    MessageLayout(item);
    ContainsIff(Message(item), item.title);
    ContainsIff(Message(item), item.url);
  }

  /** The alert does not depend on the `notified` flag. */
  lemma MessageIgnoresFlag(item: StoredItem, b: bool)
    ensures PublicationOf(item.(notified := b)) == PublicationOf(item)
  {
  }

  /** The heading of a handgun alert. */
  lemma HandgunHeading()
    ensures Heading("handgun") == "NEW - \"HANDGUN\" deal!!"
  {
    assert Upper("handgun") == "HANDGUN";
  }

  /** One `sns.publish` call. */
  datatype Publication = Publication(topicArn: string, message: string)

  /** What `send_sns_notification` publishes for a stored item. */
  function PublicationOf(item: StoredItem): Publication {
    Publication(Topic(item.postCategory), Message(item))
  }

  /** SNS, as the log of every publish call made. */
  class Topics {
    var log: seq<Publication>

    constructor ()
      ensures log == []
    {
      log := [];
    }

    /** `sns.publish(TopicArn=..., Message=...)`. */
    method Publish(topicArn: string, message: string)
      modifies this
      ensures log == old(log) + [Publication(topicArn, message)]
    {
      log := log + [Publication(topicArn, message)];
    }
  }

  /** How an invocation ends: normally or by a raised exception. */
  datatype Outcome =
    | Completed
      /** `post_attrs['Item']` raised: the table had no item for this id. */
    | MissingItem(postId: string)
      /** `newPostsProcessed` was `None` although `newPostsInserted` was set. */
    | NoManifest

  /** The table, the publications made and the outcome of a notifier run. */
  datatype NotifyState = NotifyState(items: Items, log: seq<Publication>, outcome: Outcome)

  /** The run over the ids `ids`, one after the other: read the item,
      publish, set `notified`; the first missing id stops the run. */
  function NotifyIds(items: Items, ids: seq<string>): NotifyState {
    if ids == [] then NotifyState(items, [], Completed)
    else
      var s := NotifyIds(items, ids[..|ids| - 1]);
      var postId := ids[|ids| - 1];
      if !s.outcome.Completed? then s
      else if postId !in s.items then NotifyState(s.items, s.log, MissingItem(postId))
      else NotifyState(SetNotified(s.items, postId), s.log + [PublicationOf(s.items[postId])], Completed)
  }

  /** The ids of a manifest, list after list in the manifest's order. */
  function Flatten(manifest: seq<(string, seq<string>)>): seq<string> {
    if manifest == [] then []
    else Flatten(manifest[..|manifest| - 1]) + manifest[|manifest| - 1].1
  }

  /** The event the notifier receives: the collector's result. */
  datatype Payload = Payload(newPostsInserted: bool, newPostsProcessed: Option<seq<(string, seq<string>)>>)

  /** A whole notifier invocation on the table `items`. */
  function Handle(items: Items, event: Payload): NotifyState {
    if !event.newPostsInserted then NotifyState(items, [], Completed)
    else match event.newPostsProcessed
      case None => NotifyState(items, [], NoManifest)
      case Some(manifest) => NotifyIds(items, Flatten(manifest))
  }

  /** The gate: without `newPostsInserted` nothing is read, published or
      updated. */
  lemma HandleGate(items: Items, event: Payload)
    requires !event.newPostsInserted
    ensures Handle(items, event) == NotifyState(items, [], Completed)
  {
  }

  /** A manifest holding only `h1` under `handgun`, with `h1` stored as a
      handgun deal: one alert, on the handgun topic, whose heading is
      `NEW - "HANDGUN" deal!!` and which carries the stored title and url;
      then `h1` is marked notified. */
  lemma NotifyOneHandgunPost(items: Items)
    requires "h1" in items && items["h1"].postCategory == "handgun"
    ensures var s := Handle(items, Payload(true, Some([("handgun", ["h1"])])));
      && s.outcome == Completed
      && s.log == [Publication(Topic("handgun"), Message(items["h1"]))]
      && Message(items["h1"])[..22] == "NEW - \"HANDGUN\" deal!!"
      && Contains(Message(items["h1"]), items["h1"].title) && Contains(Message(items["h1"]), items["h1"].url)
      && s.items == SetNotified(items, "h1")
  {
    var m := [("handgun", ["h1"])];
    assert m[..0] == [];
    assert Flatten(m) == ["h1"];
    assert ["h1"][..0] == [];
    assert NotifyIds(items, ["h1"]) == NotifyState(SetNotified(items, "h1"), [PublicationOf(items["h1"])], Completed) by {
      assert NotifyIds(items, []) == NotifyState(items, [], Completed);
    }
    assert Handle(items, Payload(true, Some(m))) == NotifyIds(items, ["h1"]);
    HandgunHeading();
    MessageLayout(items["h1"]);
    MessageContains(items["h1"]);
  }

  /** The table after `notified` is set for every id of `ids`. */
  function MarkAll(items: Items, ids: seq<string>): Items {
    map x | x in items :: if x in ids then items[x].(notified := true) else items[x]
  }

  /** Marking one more id. */
  lemma MarkAllSnoc(items: Items, ids: seq<string>, postId: string)
    requires postId in items
    ensures postId in MarkAll(items, ids)
    ensures SetNotified(MarkAll(items, ids), postId) == MarkAll(items, ids + [postId])
    ensures PublicationOf(MarkAll(items, ids)[postId]) == PublicationOf(items[postId])
  {
    var m := MarkAll(items, ids);
    var m' := MarkAll(items, ids + [postId]);
    forall x | x in items ensures SetNotified(m, postId)[x] == m'[x] {
      assert x in ids + [postId] <==> x in ids || x == postId;
    }
    if postId in ids {
      MessageIgnoresFlag(items[postId], true);
    }
  }

  /** One more id at the end of a run. */
  lemma NotifyIdsSnoc(items: Items, ids: seq<string>, postId: string)
    ensures NotifyIds(items, ids + [postId]) ==
      var s := NotifyIds(items, ids);
      if !s.outcome.Completed? then s
      else if postId !in s.items then NotifyState(s.items, s.log, MissingItem(postId))
      else NotifyState(SetNotified(s.items, postId), s.log + [PublicationOf(s.items[postId])], Completed)
  {
    assert (ids + [postId])[..|ids|] == ids;
  }

  /** What a run over `ids` does when `k` is the position of the first id
      with no item (or `|ids|` when there is none): it publishes, in order,
      one alert per id before `k`, built from that id's stored item; it sets
      `notified` for exactly those ids; it fails with the id at `k`, if any.
      Nothing else in the table changes. */
  predicate StopsAt(items: Items, ids: seq<string>, k: int)
    requires 0 <= k <= |ids|
    requires forall j :: 0 <= j < k ==> ids[j] in items
  {
    var s := NotifyIds(items, ids);
    && s.outcome == (if k == |ids| then Completed else MissingItem(ids[k]))
    && |s.log| == k
    && (forall j :: 0 <= j < k ==> s.log[j] == PublicationOf(items[ids[j]]))
    && s.items == MarkAll(items, ids[..k])
  }

  /** A run over `ids` stops at the first id with no item, having published
      and marked exactly the ids before it. */
  lemma {:induction false} NotifyIdsEffect(items: Items, ids: seq<string>, k: int)
    requires 0 <= k <= |ids|
    requires forall j :: 0 <= j < k ==> ids[j] in items
    requires k < |ids| ==> ids[k] !in items
    ensures StopsAt(items, ids, k)
    decreases |ids|
  {
    if ids == [] {
      assert MarkAll(items, []) == items;
    } else if k == |ids| {
      NotifyIdsEffect(items, ids[..|ids| - 1], k - 1);
      StepStored(items, ids);
    } else {
      NotifyIdsEffect(items, ids[..|ids| - 1], k);
      StepAfterMissing(items, ids, k);
    }
  }

  /** The step of `NotifyIdsEffect` when every id has an item. */
  lemma StepStored(items: Items, ids: seq<string>)
    requires |ids| > 0
    requires forall j :: 0 <= j < |ids| ==> ids[j] in items
    requires StopsAt(items, ids[..|ids| - 1], |ids| - 1)
    ensures StopsAt(items, ids, |ids|)
  {
    var init, last := ids[..|ids| - 1], ids[|ids| - 1];
    assert ids == init + [last];
    assert init[..|init|] == init;
    var s0 := NotifyIds(items, init);
    MarkAllSnoc(items, init, last);
    NotifyIdsSnoc(items, init, last);
    assert NotifyIds(items, ids) ==
      NotifyState(SetNotified(s0.items, last), s0.log + [PublicationOf(s0.items[last])], Completed);
    assert ids[..|ids|] == ids;
  }

  /** The step of `NotifyIdsEffect` once the id at `k` is missing: the last
      id changes nothing when `k` comes before it, and fails the run when it
      is the id at `k`. */
  lemma StepAfterMissing(items: Items, ids: seq<string>, k: int)
    requires 0 <= k < |ids|
    requires forall j :: 0 <= j < k ==> ids[j] in items
    requires ids[k] !in items
    requires StopsAt(items, ids[..|ids| - 1], k)
    ensures StopsAt(items, ids, k)
  {
    var init, last := ids[..|ids| - 1], ids[|ids| - 1];
    assert ids == init + [last];
    assert init[..k] == ids[..k];
    NotifyIdsSnoc(items, init, last);
    if k == |init| {
      assert init[..k] == init;
      assert MarkAll(items, init).Keys == items.Keys;
    }
  }

  /** A run over `ids` completes exactly when every id has an item. */
  lemma NotifyIdsCompletes(items: Items, ids: seq<string>)
    ensures NotifyIds(items, ids).outcome == Completed <==> forall j :: 0 <= j < |ids| ==> ids[j] in items
    ensures (forall j :: 0 <= j < |ids| ==> ids[j] in items) ==>
      var s := NotifyIds(items, ids);
      && s.items == MarkAll(items, ids)
      && |s.log| == |ids|
      && forall j :: 0 <= j < |ids| ==> s.log[j] == PublicationOf(items[ids[j]])
  {
    var k := FirstMissing(items, ids);
    NotifyIdsEffect(items, ids, k);
    assert ids[..|ids|] == ids;
  }

  /** A manifest delivered twice is published twice: the second run makes
      the same publications again and leaves the table as the first did. */
  lemma Redelivery(items: Items, ids: seq<string>)
    requires NotifyIds(items, ids).outcome == Completed
    ensures var s := NotifyIds(items, ids);
      NotifyIds(s.items, ids) == s
  {
    NotifyIdsCompletes(items, ids);
    var s := NotifyIds(items, ids);
    MarkAllTwice(items, ids);
    NotifyIdsCompletes(s.items, ids);
    var s2 := NotifyIds(s.items, ids);
    forall j | 0 <= j < |ids| ensures s2.log[j] == s.log[j] {
      MessageIgnoresFlag(items[ids[j]], true);
    }
    assert s2.log == s.log;
  }

  /** Marking the same ids again changes nothing. */
  lemma MarkAllTwice(items: Items, ids: seq<string>)
    ensures MarkAll(items, ids).Keys == items.Keys
    ensures MarkAll(MarkAll(items, ids), ids) == MarkAll(items, ids)
  {
  }

  /** The position of the first id with no item, or `|ids|`. */
  function FirstMissing(items: Items, ids: seq<string>): (k: int)
    ensures 0 <= k <= |ids|
    ensures forall j :: 0 <= j < k ==> ids[j] in items
    ensures k < |ids| ==> ids[k] !in items
  {
    if ids == [] || ids[0] !in items then 0
    else 1 + FirstMissing(items, ids[1..])
  }

  /** `get_post_from_db`: the item's attributes, when there is an item. */
  method GetPostFromDb(db: Table, postId: string) returns (postAttrs: Option<StoredItem>)
    ensures postAttrs == Lookup(db.items, postId)
  {
    postAttrs := db.GetItem(postId);
  }

  /** `send_sns_notification`: fails before publishing when the response has
      no item; publishes one alert otherwise. */
  method SendSnsNotification(sns: Topics, postAttrs: Option<StoredItem>) returns (ok: bool)
    modifies sns
    ensures ok <==> postAttrs.Some?
    ensures sns.log == old(sns.log) + (if ok then [PublicationOf(postAttrs.value)] else [])
  {
    if postAttrs.None? {
      return false;
    }
    var post := postAttrs.value;
    var msg := Message(post);
    sns.Publish(Topic(post.postCategory), msg);
    return true;
  }

  /** `update_notified_attr`. */
  method UpdateNotifiedAttr(db: Table, postId: string)
    requires postId in db.items
    modifies db
    ensures db.items == SetNotified(old(db.items), postId)
  {
    db.UpdateNotified(postId);
  }

  /** A failed run stays failed whatever ids follow. */
  lemma {:induction false} NotifyIdsStopped(items: Items, a: seq<string>, b: seq<string>)
    requires !NotifyIds(items, a).outcome.Completed?
    ensures NotifyIds(items, a + b) == NotifyIds(items, a)
    decreases |b|
  {
    if b == [] {
      assert a + b == a;
    } else {
      NotifyIdsStopped(items, a, b[..|b| - 1]);
      assert (a + b)[..|a + b| - 1] == a + b[..|b| - 1];
    }
  }

  lemma {:induction false} FlattenConcat(m: seq<(string, seq<string>)>, i: int)
    requires 0 <= i <= |m|
    ensures Flatten(m) == Flatten(m[..i]) + Flatten(m[i..])
    decreases |m|
  {
    if i == |m| {
      assert m[..i] == m;
      assert m[i..] == [];
    } else {
      var init := m[..|m| - 1];
      FlattenConcat(init, i);
      assert init[..i] == m[..i];
      assert init[i..] == m[i..][..|m[i..]| - 1];
    }
  }

  /** A run over `a + b` is the run over `a` followed, if it completed, by
      the run over `b` on the table `a` left. */
  lemma {:induction false} NotifyIdsConcat(items: Items, a: seq<string>, b: seq<string>)
    ensures var s := NotifyIds(items, a);
      NotifyIds(items, a + b) ==
        if !s.outcome.Completed? then s
        else var t := NotifyIds(s.items, b); NotifyState(t.items, s.log + t.log, t.outcome)
    decreases |b|
  {
    var s := NotifyIds(items, a);
    if b == [] {
      assert a + b == a;
      assert s.log + [] == s.log;
    } else if !s.outcome.Completed? {
      NotifyIdsStopped(items, a, b);
    } else {
      NotifyIdsConcat(items, a, b[..|b| - 1]);
      ConcatStep(items, a, b[..|b| - 1], b[|b| - 1]);
      assert b == b[..|b| - 1] + [b[|b| - 1]];
    }
  }

  /** The step of `NotifyIdsConcat`: one more id after `a + b`, when the run
      over `a` completed. */
  lemma ConcatStep(items: Items, a: seq<string>, b: seq<string>, postId: string)
    requires NotifyIds(items, a).outcome.Completed?
    requires var s, t := NotifyIds(items, a), NotifyIds(NotifyIds(items, a).items, b);
      NotifyIds(items, a + b) == NotifyState(t.items, s.log + t.log, t.outcome)
    ensures var s, t := NotifyIds(items, a), NotifyIds(NotifyIds(items, a).items, b + [postId]);
      NotifyIds(items, a + (b + [postId])) == NotifyState(t.items, s.log + t.log, t.outcome)
  {
    var s := NotifyIds(items, a);
    var t0 := NotifyIds(s.items, b);
    assert a + (b + [postId]) == (a + b) + [postId];
    NotifyIdsSnoc(items, a + b, postId);
    NotifyIdsSnoc(s.items, b, postId);
    if t0.outcome.Completed? && postId in t0.items {
      AppendAfter(s.log, t0.log, PublicationOf(t0.items[postId]));
    }
  }

  /** Appending to a log that continues another. */
  lemma AppendAfter(earlier: seq<Publication>, later: seq<Publication>, p: Publication)
    ensures earlier + later + [p] == earlier + (later + [p])
  {
  }

  /** The inner loop of `lambda_handler`: the ids of one list of the
      manifest, in order. */
  method NotifyList(db: Table, sns: Topics, postIdList: seq<string>) returns (outcome: Outcome)
    modifies db, sns
    ensures var s := NotifyIds(old(db.items), postIdList);
      outcome == s.outcome && db.items == s.items && sns.log == old(sns.log) + s.log
  {
    ghost var published: seq<Publication> := [];
    for j := 0 to |postIdList|
      invariant NotifyIds(old(db.items), postIdList[..j]) == NotifyState(db.items, published, Completed)
      invariant sns.log == old(sns.log) + published
    {
      var postId := postIdList[j];
      var postAttrs := GetPostFromDb(db, postId);
      var ok := SendSnsNotification(sns, postAttrs);
      if !ok {
        assert NotifyIds(old(db.items), postIdList) == NotifyState(db.items, published, MissingItem(postId)) by {
          assert postIdList[..j + 1] == postIdList[..j] + [postId];
          NotifyIdsSnoc(old(db.items), postIdList[..j], postId);
          assert postIdList == postIdList[..j + 1] + postIdList[j + 1..];
          NotifyIdsStopped(old(db.items), postIdList[..j + 1], postIdList[j + 1..]);
        }
        return MissingItem(postId);
      }
      UpdateNotifiedAttr(db, postId);
      published := published + [PublicationOf(postAttrs.value)];
      assert NotifyIds(old(db.items), postIdList[..j + 1]) == NotifyState(db.items, published, Completed) by {
        assert postIdList[..j + 1] == postIdList[..j] + [postId];
        NotifyIdsSnoc(old(db.items), postIdList[..j], postId);
      }
    }
    assert postIdList[..|postIdList|] == postIdList;
    return Completed;
  }

  /** The outer loop of `lambda_handler`: the lists of the manifest, in the
      manifest's order. */
  method NotifyManifest(db: Table, sns: Topics, manifest: seq<(string, seq<string>)>) returns (outcome: Outcome)
    modifies db, sns
    ensures var s := NotifyIds(old(db.items), Flatten(manifest));
      outcome == s.outcome && db.items == s.items && sns.log == old(sns.log) + s.log
  {
    ghost var published: seq<Publication> := [];
    for i := 0 to |manifest|
      invariant NotifyIds(old(db.items), Flatten(manifest[..i])) == NotifyState(db.items, published, Completed)
      invariant sns.log == old(sns.log) + published
    {
      ghost var itemsBefore, logBefore := db.items, sns.log;
      outcome := NotifyList(db, sns, manifest[i].1);
      ghost var t := NotifyIds(itemsBefore, manifest[i].1);
      assert sns.log == old(sns.log) + (published + t.log) by {
        assert sns.log == logBefore + t.log;
        assert logBefore == old(sns.log) + published;
      }
      assert NotifyIds(old(db.items), Flatten(manifest[..i + 1])) == NotifyState(t.items, published + t.log, t.outcome) by {
        assert manifest[..i + 1][..i] == manifest[..i];
        NotifyIdsConcat(old(db.items), Flatten(manifest[..i]), manifest[i].1);
      }
      published := published + t.log;
      if !outcome.Completed? {
        assert NotifyIds(old(db.items), Flatten(manifest)) == NotifyState(db.items, published, outcome) by {
          FlattenConcat(manifest, i + 1);
          NotifyIdsStopped(old(db.items), Flatten(manifest[..i + 1]), Flatten(manifest[i + 1..]));
        }
        return;
      }
    }
    assert manifest[..|manifest|] == manifest;
    return Completed;
  }

  /** `lambda_handler` of the notifier. */
  method LambdaHandler(db: Table, sns: Topics, event: Payload) returns (outcome: Outcome)
    modifies db, sns
    ensures var s := Handle(old(db.items), event);
      outcome == s.outcome && db.items == s.items && sns.log == old(sns.log) + s.log
  {
    if !event.newPostsInserted {
      return Completed;
    }
    if event.newPostsProcessed.None? {
      return NoManifest;
    }
    outcome := NotifyManifest(db, sns, event.newPostsProcessed.value);
  }
}

/** The two handlers chained: the collector's result, passed on as the
    notifier's event, and what the pair does to the table and to SNS. */
module Pipeline {
  import opened Store
  import opened Collector
  import opened Notifier

  /** The collector's result as the notifier receives it: `processed` as its
      items in key order. */
  function Transport(r: CollectorResult): Payload {
    Payload(r.newPostsInserted,
            match r.newPostsProcessed
            case None => None
            case Some(p) => Some(ProcessedItems(p)))
  }

  /** The notifier walks the ids of `processed` list by list in its key
      order: `ammo`, then `handgun`, then `rifle`. */
  lemma FlattenProcessed(p: ByCategory<string>)
    ensures Flatten(ProcessedItems(p)) == p.ammo + p.handgun + p.rifle
  {
    var m := ProcessedItems(p);
    assert m[..2][..1] == m[..1];
    assert m[..1][..0] == [];
    assert m[..2] == m[..|m| - 1] && m[..1] == m[..2][..|m[..2]| - 1];
    assert Flatten(m[..1]) == [] + p.ammo;
    assert Flatten(m[..2]) == p.ammo + p.handgun;
  }

  /** The ids the notifier is handed for the lists `n`, in its order. */
  function Manifested(n: ByCategory<Post>): seq<string> {
    Ids(n.ammo) + Ids(n.handgun) + Ids(n.rifle)
  }

  lemma ManifestedListed(n: ByCategory<Post>, j: int)
    requires 0 <= j < |Manifested(n)|
    ensures Listed(n, Manifested(n)[j])
  {
    var a, h := |Ids(n.ammo)|, |Ids(n.handgun)|;
    if j < a {
      assert Manifested(n)[j] == Ids(n.ammo)[j];
    } else if j < a + h {
      assert Manifested(n)[j] == Ids(n.handgun)[j - a];
    } else {
      assert Manifested(n)[j] == Ids(n.rifle)[j - a - h];
    }
  }

  /** Where an ammo post and a rifle post sit among the manifested ids: the
      ammo ids come first and the rifle ids last. */
  lemma ManifestedAmmoAndRifle(n: ByCategory<Post>, k1: int, k2: int)
    requires 0 <= k1 < |n.ammo| && 0 <= k2 < |n.rifle|
    ensures var ids, j2 := Manifested(n), |n.ammo| + |n.handgun| + k2;
      k1 < j2 < |ids| && ids[k1] == n.ammo[k1].id && ids[j2] == n.rifle[k2].id
  {
    var ids, j2 := Manifested(n), |n.ammo| + |n.handgun| + k2;
    assert ids[k1] == Ids(n.ammo)[k1];
    assert ids[j2] == Ids(n.rifle)[k2];
  }

  /** The collector followed by the notifier on its result: the notifier
      always completes, since every id it is handed was just written; with
      nothing inserted it does nothing; otherwise it publishes one alert per
      manifest entry, in manifest order, each built from the item as stored
      by the collector, and marks exactly those ids notified. */
  lemma CollectThenNotify(feed: seq<Post>, items: Items)
    ensures var run := Collect(feed, items);
      var s := Handle(run.items, Transport(run.result));
      && s.outcome == Completed
      && (!run.result.newPostsInserted ==> s.log == [] && s.items == items)
      && (run.result.newPostsInserted ==>
           var ids := Manifested(Classified(feed, items));
           && |s.log| == |ids|
           && (forall j :: 0 <= j < |ids| ==> ids[j] in run.items && s.log[j] == PublicationOf(run.items[ids[j]]))
           && s.items == MarkAll(run.items, ids))
  {
    var run := Collect(feed, items);
    if run.result.newPostsInserted {
      var n := Classified(feed, items);
      var ids := Manifested(n);
      FlattenProcessed(IdsOf(n));
      forall j | 0 <= j < |ids| ensures ids[j] in run.items {
        ManifestedListed(n, j);
        InsertAllEffect(items, n, ids[j]);
      }
      NotifyIdsCompletes(run.items, ids);
    }
  }

  /** The topic of every alert is that of the category the id was stored
      under last, not that of the list the id was handed in. */
  lemma AlertTopic(feed: seq<Post>, items: Items, j: int)
    requires Collect(feed, items).result.newPostsInserted
    requires 0 <= j < |Manifested(Classified(feed, items))|
    ensures var n, run := Classified(feed, items), Collect(feed, items);
      var s := Handle(run.items, Transport(run.result));
      var id := Manifested(n)[j];
      j < |s.log| && s.log[j].topicArn == Topic(Name(StoredCategory(n, id)))
  {
    var n := Classified(feed, items);
    CollectThenNotify(feed, items);
    ManifestedListed(n, j);
    InsertAllEffect(items, n, Manifested(n)[j]);
  }

  /** No two posts of the feed share an id. */
  predicate DistinctIds(feed: seq<Post>) {
    forall i, j :: 0 <= i < |feed| && 0 <= j < |feed| && feed[i].id == feed[j].id ==> i == j
  }

  /** A new post tagged both `[rifle]` and `[ammo]` is
      written twice, ends up stored as `ammo`, is handed to the notifier in
      the `ammo` and the `rifle` lists, and so is alerted twice, both times
      on the `ammo` topic and never on the `rifle` topic. */
  lemma RifleAmmoPostAlertedTwiceOnAmmo(feed: seq<Post>, items: Items, p: Post)
    requires DistinctIds(feed)
    requires p in feed && p.id !in items
    requires Tagged(Rifle, p.title) && Tagged(Ammo, p.title)
    ensures Collect(feed, items).result.newPostsInserted
    ensures var run := Collect(feed, items);
      var s := Handle(run.items, Transport(run.result));
      var ids := Manifested(Classified(feed, items));
      && |s.log| == |ids|
      && (exists j1, j2 :: 0 <= j1 < j2 < |ids| && ids[j1] == p.id && ids[j2] == p.id)
      && (forall j :: 0 <= j < |ids| && ids[j] == p.id ==>
           s.log[j] == Publication(Topic("ammo"), Message(StoredItem(p.url, p.title, false, "ammo")))
           && s.log[j].topicArn != Topic("rifle"))
  {
    var n := Classified(feed, items);
    var ids := Manifested(n);
    var run := Collect(feed, items);
    var s := Handle(run.items, Transport(run.result));
    var alert := Publication(Topic("ammo"), Message(StoredItem(p.url, p.title, false, "ammo")));
    assert run.result.newPostsInserted && |s.log| == |ids|
      && forall j :: 0 <= j < |ids| && ids[j] == p.id ==> s.log[j] == alert
    by {
      AlertsOfAmmoPost(feed, items, p);
    }
    assert exists j1, j2 :: 0 <= j1 < j2 < |ids| && ids[j1] == p.id && ids[j2] == p.id by {
      assert p in n.ammo && p in n.rifle by {
        SelectedIff(feed, items, Ammo, p);
        SelectedIff(feed, items, Rifle, p);
      }
      var k1 :| 0 <= k1 < |n.ammo| && n.ammo[k1] == p;
      var k2 :| 0 <= k2 < |n.rifle| && n.rifle[k2] == p;
      ManifestedAmmoAndRifle(n, k1, k2);
    }
    assert alert.topicArn != Topic("rifle") by {
      TopicInjective("ammo", "rifle");
    }
  }

  /** Every alert for a new post tagged `[ammo]` is its ammo alert. */
  lemma AlertsOfAmmoPost(feed: seq<Post>, items: Items, p: Post)
    requires DistinctIds(feed)
    requires p in feed && p.id !in items && Tagged(Ammo, p.title)
    ensures Collect(feed, items).result.newPostsInserted
    ensures var run := Collect(feed, items);
      var s := Handle(run.items, Transport(run.result));
      var ids := Manifested(Classified(feed, items));
      && |s.log| == |ids|
      && forall j :: 0 <= j < |ids| && ids[j] == p.id ==>
           s.log[j] == Publication(Topic("ammo"), Message(StoredItem(p.url, p.title, false, "ammo")))
  {
    var n := Classified(feed, items);
    SelectedIff(feed, items, Ammo, p);
    assert Gather(feed, items) == Some(n);
    CollectThenNotify(feed, items);
    StoredAsAmmo(feed, items, p);
  }

  /** Such a post is stored as itself under `ammo`, the last category written. */
  lemma StoredAsAmmo(feed: seq<Post>, items: Items, p: Post)
    requires DistinctIds(feed)
    requires p in feed && p.id !in items && Tagged(Ammo, p.title)
    ensures var n := Classified(feed, items);
      p.id in InsertAll(items, n) && InsertAll(items, n)[p.id] == StoredItem(p.url, p.title, false, "ammo")
  {
    var n := Classified(feed, items);
    SelectedIff(feed, items, Ammo, p);
    forall d, q | q in n.Get(d) && q.id == p.id ensures q == p {
      SelectedIff(feed, items, d, q);
    }
    InsertStoresPost(items, n, Ammo, p);
    var k :| 0 <= k < |n.ammo| && n.ammo[k] == p;
    assert Ids(n.ammo)[k] == p.id;
  }
}

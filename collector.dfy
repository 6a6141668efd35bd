/** The collector handler (`lambdas/new_post_collector.py`): walks a snapshot
    of the feed, skips posts already in the table, sorts the rest into the
    `ammo`, `rifle` and `handgun` lists by tags in their titles, writes every
    listed post to the table and returns the ids it wrote, per category. */
module Collector {
  import opened Text
  import opened Store

  datatype Category = Ammo | Handgun | Rifle

  /** The dictionary key, and the `post_category` written, for a category. */
  function Name(c: Category): string {
    match c
    case Ammo => "ammo"
    case Handgun => "handgun"
    case Rifle => "rifle"
  }

  /** A dictionary with exactly the keys `ammo`, `handgun` and `rifle`. The
      order in which Python iterates it is given separately, by
      `NewPostsOrder` or `ProcessedOrder`. */
  datatype ByCategory<T> = ByCategory(ammo: seq<T>, handgun: seq<T>, rifle: seq<T>) {
    function Get(c: Category): seq<T> {
      match c
      case Ammo => ammo
      case Handgun => handgun
      case Rifle => rifle
    }

    function With(c: Category, s: seq<T>): (r: ByCategory<T>)
      ensures r.Get(c) == s
      ensures forall d :: d != c ==> r.Get(d) == Get(d)
    {
      match c
      case Ammo => this.(ammo := s)
      case Handgun => this.(handgun := s)
      case Rifle => this.(rifle := s)
    }
  }

  lemma WithTwice<T>(b: ByCategory<T>, c: Category, s: seq<T>, t: seq<T>)
    ensures b.With(c, s).With(c, t) == b.With(c, t)
  {
  }

  /** Key order of the dictionary `gather_new_posts` returns. */
  const NewPostsOrder: seq<Category> := [Rifle, Handgun, Ammo]

  /** Key order of the `processed` dictionary `insert_db_new_post` returns. */
  const ProcessedOrder: seq<Category> := [Ammo, Handgun, Rifle]

  /** The title test that puts a post in the list of category `c`. */
  predicate Tagged(c: Category, title: string) {
    var t := Lower(title);
    match c
    case Ammo => Contains(t, "[ammo]")
    case Rifle => Contains(t, "[rifle]")
    case Handgun => Contains(t, "[handgun]") || Contains(t, "[pistol]")
  }

  /** The three title tests, as case-insensitive searches. */
  lemma TaggedIgnoresCase(title: string)
    ensures Tagged(Ammo, title) <==> exists i :: OccursAtIgnoringCase(title, "[ammo]", i)
    ensures Tagged(Rifle, title) <==> exists i :: OccursAtIgnoringCase(title, "[rifle]", i)
    ensures Tagged(Handgun, title) <==>
      (exists i :: OccursAtIgnoringCase(title, "[handgun]", i))
      || (exists i :: OccursAtIgnoringCase(title, "[pistol]", i))
  {
    LowerOfLowerCase("[ammo]");
    ContainsLowerIgnoresCase(title, "[ammo]");
    LowerOfLowerCase("[rifle]");
    ContainsLowerIgnoresCase(title, "[rifle]");
    LowerOfLowerCase("[handgun]");
    ContainsLowerIgnoresCase(title, "[handgun]");
    LowerOfLowerCase("[pistol]");
    ContainsLowerIgnoresCase(title, "[pistol]");
  }

  /** The list of category `c` that `gather_new_posts` builds from `feed`
      when the table holds `items`: the unseen posts tagged `c`. */
  function Selected(feed: seq<Post>, items: Items, c: Category): seq<Post> {
    if feed == [] then []
    else
      var p := feed[|feed| - 1];
      Selected(feed[..|feed| - 1], items, c)
      + (if p.id !in items && Tagged(c, p.title) then [p] else [])
  }

  /** All three lists. */
  function Classified(feed: seq<Post>, items: Items): ByCategory<Post> {
    ByCategory(Selected(feed, items, Ammo), Selected(feed, items, Handgun), Selected(feed, items, Rifle))
  }

  /** The value `gather_new_posts` returns: `None` when every list is empty. */
  function Gather(feed: seq<Post>, items: Items): Option<ByCategory<Post>> {
    var n := Classified(feed, items);
    if n.ammo == [] && n.handgun == [] && n.rifle == [] then None else Some(n)
  }

  /** A post is in the list of `c` exactly when it is in the feed, its id is
      not a key of the table and its title carries a tag of `c`. */
  lemma {:induction false} SelectedIff(feed: seq<Post>, items: Items, c: Category, p: Post)
    ensures p in Selected(feed, items, c) <==> p in feed && p.id !in items && Tagged(c, p.title)
    decreases |feed|
  {
    if feed != [] {
      var init := feed[..|feed| - 1];
      SelectedIff(init, items, c, p);
      assert feed == init + [feed[|feed| - 1]];
    }
  }

  /** Where in the feed each post of a list comes from. */
  ghost function Positions(feed: seq<Post>, items: Items, c: Category): seq<int> {
    if feed == [] then []
    else
      var p := feed[|feed| - 1];
      Positions(feed[..|feed| - 1], items, c)
      + (if p.id !in items && Tagged(c, p.title) then [|feed| - 1] else [])
  }

  /** Each list is the feed filtered: its posts keep the feed's order, and
      every unseen tagged position of the feed contributes its post. */
  lemma {:induction false} SelectedKeepsFeedOrder(feed: seq<Post>, items: Items, c: Category)
    ensures var sel, pos := Selected(feed, items, c), Positions(feed, items, c);
      && |pos| == |sel|
      && (forall k :: 0 <= k < |pos| ==> 0 <= pos[k] < |feed| && feed[pos[k]] == sel[k])
      && (forall k, l :: 0 <= k < l < |pos| ==> pos[k] < pos[l])
      && (forall j :: 0 <= j < |feed| && feed[j].id !in items && Tagged(c, feed[j].title) ==> j in pos)
    decreases |feed|
  {
    if feed != [] {
      var init := feed[..|feed| - 1];
      SelectedKeepsFeedOrder(init, items, c);
      var pos0 := Positions(init, items, c);
      assert forall k :: 0 <= k < |pos0| ==> pos0[k] < |init|;
    }
  }

  /** Dedup, classification and the sentinel together: a post lands in a
      list only when unseen and tagged for that list, in every list it is
      tagged for, and `None` is returned exactly when no unseen post of the
      feed carries any tag. */
  lemma GatherClassifies(feed: seq<Post>, items: Items)
    ensures Gather(feed, items).None? <==>
      forall p :: p in feed && p.id !in items ==> !Tagged(Ammo, p.title) && !Tagged(Rifle, p.title) && !Tagged(Handgun, p.title)
    ensures Gather(feed, items).Some? ==> forall c, p :: p in Gather(feed, items).value.Get(c) <==>
      p in feed && p.id !in items && Tagged(c, p.title)
  {
    forall c, p ensures p in Selected(feed, items, c) <==> p in feed && p.id !in items && Tagged(c, p.title) {
      SelectedIff(feed, items, c, p);
    }
    if Gather(feed, items).Some? {
      var n := Classified(feed, items);
      var c :| c in ProcessedOrder && n.Get(c) != [];
      var p := n.Get(c)[0];
      assert p in feed && p.id !in items && Tagged(c, p.title);
    }
  }

  /** A post already in the table appears in no list. */
  lemma StoredPostListedNowhere(feed: seq<Post>, items: Items, p: Post, c: Category)
    requires p.id in items
    ensures p !in Classified(feed, items).Get(c)
  {
    SelectedIff(feed, items, c, p);
  }

  /** Classification is not exclusive: an unseen post of the feed whose title
      carries both `[rifle]` and `[ammo]`, in any case, is in both lists. */
  lemma RifleAndAmmoInBoth(feed: seq<Post>, items: Items, p: Post, i: int, j: int)
    requires p in feed && p.id !in items
    requires OccursAtIgnoringCase(p.title, "[rifle]", i) && OccursAtIgnoringCase(p.title, "[ammo]", j)
    ensures Gather(feed, items).Some?
    ensures p in Gather(feed, items).value.rifle && p in Gather(feed, items).value.ammo
  {
    TaggedIgnoresCase(p.title);
    SelectedIff(feed, items, Rifle, p);
    SelectedIff(feed, items, Ammo, p);
  }

  /** `determine_if_new_post`: true exactly when the table has no item for
      `postId` (despite its docstring, which says the opposite). */
  method DetermineIfNewPost(db: Table, postId: string) returns (isNew: bool)
    ensures isNew <==> postId !in db.items
  {
    var resp := db.GetItem(postId);
    if resp.Some? {
      return false;
    }
    return true;
  }

  /** `gather_new_posts`: only reads the table. */
  method GatherNewPosts(db: Table, feed: seq<Post>) returns (r: Option<ByCategory<Post>>)
    ensures r == Gather(feed, db.items)
  {
    var ammoPosts, riflePosts, handgunPosts := [], [], [];
    var i := 0;
    while i < |feed|
      invariant 0 <= i <= |feed|
      invariant ammoPosts == Selected(feed[..i], db.items, Ammo)
      invariant riflePosts == Selected(feed[..i], db.items, Rifle)
      invariant handgunPosts == Selected(feed[..i], db.items, Handgun)
    {
      var post := feed[i];
      var newPost := DetermineIfNewPost(db, post.id);
      if newPost {
        if Contains(Lower(post.title), "[ammo]") {
          ammoPosts := ammoPosts + [post];
        }
        if Contains(Lower(post.title), "[rifle]") {
          riflePosts := riflePosts + [post];
        }
        if Contains(Lower(post.title), "[handgun]") || Contains(Lower(post.title), "[pistol]") {
          handgunPosts := handgunPosts + [post];
        }
      }
      assert feed[..i + 1][..i] == feed[..i];
      i := i + 1;
    }
    assert feed[..i] == feed;
    if |ammoPosts| > 0 || |riflePosts| > 0 || |handgunPosts| > 0 {
      r := Some(ByCategory(ammoPosts, handgunPosts, riflePosts));
    } else {
      r := None;
    }
  }

  /** The item `insert_db_new_post` writes for `p` listed under `c`. */
  function NewItem(p: Post, c: Category): StoredItem {
    StoredItem(p.url, p.title, false, Name(c))
  }

  /** The ids of a list of posts, in order. */
  function Ids(posts: seq<Post>): (ids: seq<string>)
    ensures |ids| == |posts|
    ensures forall k :: 0 <= k < |posts| ==> ids[k] == posts[k].id
  {
    if posts == [] then [] else Ids(posts[..|posts| - 1]) + [posts[|posts| - 1].id]
  }

  /** A `put_item` call: the key and the whole item written under it. */
  type Write = (string, StoredItem)

  /** The writes for the list `posts` of category `c`, in list order. */
  function PutWrites(c: Category, posts: seq<Post>): (ws: seq<Write>)
    ensures |ws| == |posts|
    ensures forall k :: 0 <= k < |posts| ==> ws[k] == (posts[k].id, NewItem(posts[k], c))
  {
    if posts == [] then []
    else PutWrites(c, posts[..|posts| - 1]) + [(posts[|posts| - 1].id, NewItem(posts[|posts| - 1], c))]
  }

  /** The writes for the lists of `n`, category by category in `order`. */
  function Writes(n: ByCategory<Post>, order: seq<Category>): seq<Write> {
    if order == [] then []
    else Writes(n, order[..|order| - 1]) + PutWrites(order[|order| - 1], n.Get(order[|order| - 1]))
  }

  /** The table after the writes `ws`, one after the other. */
  function Apply(items: Items, ws: seq<Write>): Items {
    if ws == [] then items
    else Apply(items, ws[..|ws| - 1])[ws[|ws| - 1].0 := ws[|ws| - 1].1]
  }

  /** The item of the last write to `id` among `ws`, if any. */
  function LastWrite(ws: seq<Write>, id: string): Option<StoredItem> {
    if ws == [] then None
    else if ws[|ws| - 1].0 == id then Some(ws[|ws| - 1].1)
    else LastWrite(ws[..|ws| - 1], id)
  }

  /** `put_item` replaces whole items: after a run of writes, a key holds the
      item of its last write, and a key never written keeps what it had. */
  lemma {:induction false} ApplyLastWrite(items: Items, ws: seq<Write>, id: string)
    ensures Lookup(Apply(items, ws), id) ==
      match LastWrite(ws, id)
      case None => Lookup(items, id)
      case Some(item) => Some(item)
    decreases |ws|
  {
    if ws != [] {
      ApplyLastWrite(items, ws[..|ws| - 1], id);
    }
  }

  lemma {:induction false} LastWriteConcat(a: seq<Write>, b: seq<Write>, id: string)
    ensures LastWrite(a + b, id) == if LastWrite(b, id).Some? then LastWrite(b, id) else LastWrite(a, id)
    decreases |b|
  {
    if b != [] {
      assert (a + b)[..|a + b| - 1] == a + b[..|b| - 1];
      LastWriteConcat(a, b[..|b| - 1], id);
    } else {
      assert a + b == a;
    }
  }

  /** The last post of `posts` with id `id`, if any. */
  function LastWithId(posts: seq<Post>, id: string): (r: Option<Post>)
    ensures r.Some? ==> r.value in posts && r.value.id == id
  {
    if posts == [] then None
    else if posts[|posts| - 1].id == id then Some(posts[|posts| - 1])
    else LastWithId(posts[..|posts| - 1], id)
  }

  lemma {:induction false} LastWriteOfList(c: Category, posts: seq<Post>, id: string)
    ensures LastWrite(PutWrites(c, posts), id) ==
      match LastWithId(posts, id)
      case None => None
      case Some(p) => Some(NewItem(p, c))
    ensures LastWithId(posts, id).Some? <==> id in Ids(posts)
    decreases |posts|
  {
    if posts != [] {
      var init := posts[..|posts| - 1];
      LastWriteOfList(c, init, id);
      assert PutWrites(c, posts)[..|posts| - 1] == PutWrites(c, init);
      assert Ids(posts) == Ids(init) + [posts[|posts| - 1].id];
    }
  }

  /** The table after `insert_db_new_post(n)`. */
  function InsertAll(items: Items, n: ByCategory<Post>): Items {
    Apply(items, Writes(n, NewPostsOrder))
  }

  /** The category an id ends up stored under: of the lists that hold it,
      the one written last (`rifle`, then `handgun`, then `ammo`). */
  function StoredCategory(n: ByCategory<Post>, id: string): Category {
    if id in Ids(n.ammo) then Ammo
    else if id in Ids(n.handgun) then Handgun
    else Rifle
  }

  /** `id` is in one of the lists of `n`. */
  predicate Listed(n: ByCategory<Post>, id: string) {
    id in Ids(n.ammo) || id in Ids(n.handgun) || id in Ids(n.rifle)
  }

  /** What every key of the table holds after the inserts: a listed id holds
      a fresh `notified = false` item of its last-written category, built
      from the last post with that id in that list; any other key is as it
      was. */
  lemma InsertAllEffect(items: Items, n: ByCategory<Post>, id: string)
    ensures Listed(n, id) ==>
      var c := StoredCategory(n, id);
      && id in Ids(n.Get(c))
      && LastWithId(n.Get(c), id).Some?
      && Lookup(InsertAll(items, n), id) == Some(NewItem(LastWithId(n.Get(c), id).value, c))
    ensures !Listed(n, id) ==> Lookup(InsertAll(items, n), id) == Lookup(items, id)
  {
    var wr, wh, wa := PutWrites(Rifle, n.rifle), PutWrites(Handgun, n.handgun), PutWrites(Ammo, n.ammo);
    assert NewPostsOrder[..0] == [];
    assert NewPostsOrder[..1] == [Rifle];
    assert NewPostsOrder[..2] == [Rifle, Handgun];
    assert Writes(n, [Rifle]) == wr;
    assert Writes(n, [Rifle, Handgun]) == wr + wh;
    assert Writes(n, NewPostsOrder) == wr + wh + wa;
    LastWriteConcat(wr + wh, wa, id);
    LastWriteConcat(wr, wh, id);
    LastWriteOfList(Rifle, n.rifle, id);
    LastWriteOfList(Handgun, n.handgun, id);
    LastWriteOfList(Ammo, n.ammo, id);
    ApplyLastWrite(items, wr + wh + wa, id);
  }

  /** When no id stands for two different listed posts, a listed post is
      stored as itself: its url and title, `notified = false`, and the
      category of the last list holding it. */
  lemma InsertStoresPost(items: Items, n: ByCategory<Post>, c: Category, p: Post)
    requires p in n.Get(c)
    requires forall d, q :: q in n.Get(d) && q.id == p.id ==> q == p
    ensures p.id in InsertAll(items, n)
    ensures InsertAll(items, n)[p.id] == StoredItem(p.url, p.title, false, Name(StoredCategory(n, p.id)))
  {
    var k :| 0 <= k < |n.Get(c)| && n.Get(c)[k] == p;
    assert Ids(n.Get(c))[k] == p.id;
    InsertAllEffect(items, n, p.id);
  }

  /** The `processed` dictionary: the ids of each list, in list order. */
  function IdsOf(n: ByCategory<Post>): ByCategory<string> {
    ByCategory(Ids(n.ammo), Ids(n.handgun), Ids(n.rifle))
  }

  /** The items of `processed` in its key order, `ammo`, `handgun`, `rifle`,
      as the notifier receives them. */
  function ProcessedItems(p: ByCategory<string>): seq<(string, seq<string>)> {
    seq(|ProcessedOrder|, k requires 0 <= k < |ProcessedOrder| => (Name(ProcessedOrder[k]), p.Get(ProcessedOrder[k])))
  }

  /** One more `put_item` of the inner loop: the table after the writes of
      the first `j` posts, updated by the write of post `j`, is the table
      after the writes of the first `j + 1`. */
  lemma ApplyOneMore(items: Items, c: Category, posts: seq<Post>, j: int)
    requires 0 <= j < |posts|
    ensures Apply(items, PutWrites(c, posts[..j + 1]))
      == Apply(items, PutWrites(c, posts[..j]))[posts[j].id := NewItem(posts[j], c)]
  {
    var ws := PutWrites(c, posts[..j + 1]);
    assert posts[..j + 1][..j] == posts[..j];
    assert ws[..|ws| - 1] == PutWrites(c, posts[..j]);
  }

  /** `processed` once the outer loop has done its first `i` categories,
      `rifle`, `handgun`, `ammo` in that order: each category done holds its
      list's ids, the others are still empty. */
  function ProcessedAfter(n: ByCategory<Post>, i: int): ByCategory<string> {
    ByCategory(if i >= 3 then Ids(n.ammo) else [],
               if i >= 2 then Ids(n.handgun) else [],
               if i >= 1 then Ids(n.rifle) else [])
  }

  /** One more category of the outer loop: its writes follow the earlier
      ones. */
  lemma WritesStep(n: ByCategory<Post>, order: seq<Category>, i: int)
    requires 0 <= i < |order|
    ensures Writes(n, order[..i + 1]) == Writes(n, order[..i]) + PutWrites(order[i], n.Get(order[i]))
  {
    var o := order[..i + 1];
    assert o[..|o| - 1] == order[..i] && o[|o| - 1] == order[i];
  }

  /** One more category of the outer loop: its entry of `processed`, empty
      until then, receives the ids of its list, and the entries of the
      other categories stay as they were. */
  lemma ProcessedStep(n: ByCategory<Post>, i: int)
    requires 0 <= i < |NewPostsOrder|
    ensures var c, before := NewPostsOrder[i], ProcessedAfter(n, i);
      && before.Get(c) == []
      && ProcessedAfter(n, i + 1) == before.With(c, Ids(n.Get(c)))
  {
  }

  /** One more id appended to the entry of `c` in `processed`. */
  lemma AppendOneMoreId(processed: ByCategory<string>, c: Category, posts: seq<Post>, j: int)
    requires 0 <= j < |posts|
    ensures var before := processed.With(c, processed.Get(c) + Ids(posts[..j]));
      before.With(c, before.Get(c) + [posts[j].id]) == processed.With(c, processed.Get(c) + Ids(posts[..j + 1]))
  {
    assert Ids(posts[..j + 1]) == Ids(posts[..j]) + [posts[j].id] by {
      assert posts[..j + 1][..j] == posts[..j];
    }
    var prior := processed.Get(c);
    assert prior + Ids(posts[..j]) + [posts[j].id] == prior + Ids(posts[..j + 1]);
    WithTwice(processed, c, prior + Ids(posts[..j]), prior + Ids(posts[..j + 1]));
  }

  /** The inner loop of `insert_db_new_post`: writes the posts of one list
      and appends their ids to that category's entry of `processed`. */
  method InsertCategory(db: Table, postCategory: Category, posts: seq<Post>, processed: ByCategory<string>)
    returns (processed': ByCategory<string>)
    modifies db
    ensures db.items == Apply(old(db.items), PutWrites(postCategory, posts))
    ensures processed' == processed.With(postCategory, processed.Get(postCategory) + Ids(posts))
  {
    processed' := processed;
    assert posts[..0] == [];
    for j := 0 to |posts|
      invariant db.items == Apply(old(db.items), PutWrites(postCategory, posts[..j]))
      invariant processed' == processed.With(postCategory, processed.Get(postCategory) + Ids(posts[..j]))
    {
      ApplyOneMore(old(db.items), postCategory, posts, j);
      AppendOneMoreId(processed, postCategory, posts, j);
      var post := posts[j];
      db.PutItem(post.id, NewItem(post, postCategory));
      processed' := processed'.With(postCategory, processed'.Get(postCategory) + [post.id]);
    }
    assert posts[..|posts|] == posts;
  }

  /** A run of writes split in two is applied in two steps. */
  lemma {:induction false} ApplyConcat(items: Items, a: seq<Write>, b: seq<Write>)
    ensures Apply(items, a + b) == Apply(Apply(items, a), b)
    decreases |b|
  {
    if b == [] {
      assert a + b == a;
    } else {
      assert (a + b)[..|a + b| - 1] == a + b[..|b| - 1];
      ApplyConcat(items, a, b[..|b| - 1]);
    }
  }

  /** `insert_db_new_post`: writes every listed post, its lists in the order
      `rifle`, `handgun`, `ammo`, and returns the ids it wrote. */
  method InsertDbNewPost(db: Table, newPosts: ByCategory<Post>) returns (processed: ByCategory<string>)
    modifies db
    ensures db.items == InsertAll(old(db.items), newPosts)
    ensures processed == IdsOf(newPosts)
  {
    processed := ByCategory([], [], []);
    for i := 0 to |NewPostsOrder|
      invariant db.items == Apply(old(db.items), Writes(newPosts, NewPostsOrder[..i]))
      invariant processed == ProcessedAfter(newPosts, i)
    {
      var postCategory := NewPostsOrder[i];
      ghost var done := Writes(newPosts, NewPostsOrder[..i]);
      processed := InsertCategory(db, postCategory, newPosts.Get(postCategory), processed);
      WritesStep(newPosts, NewPostsOrder, i);
      ProcessedStep(newPosts, i);
      ApplyConcat(old(db.items), done, PutWrites(postCategory, newPosts.Get(postCategory)));
    }
    assert NewPostsOrder[..3] == NewPostsOrder;
  }

  /** What `lambda_handler` returns. */
  datatype CollectorResult = CollectorResult(statusCode: int, newPostsInserted: bool, newPostsProcessed: Option<ByCategory<string>>)

  /** A collector run: the result returned and the table afterwards. */
  datatype Run = Run(result: CollectorResult, items: Items)

  function Collect(feed: seq<Post>, items: Items): Run {
    match Gather(feed, items)
    case None => Run(CollectorResult(200, false, None), items)
    case Some(n) => Run(CollectorResult(200, true, Some(IdsOf(n))), InsertAll(items, n))
  }

  /** The sentinel case: nothing inserted, `newPostsProcessed` is `None` and
      the table is untouched exactly when no unseen post carries a tag;
      otherwise the result is the ids of the three lists. */
  lemma CollectOutcome(feed: seq<Post>, items: Items)
    ensures var run := Collect(feed, items);
      && run.result.statusCode == 200
      && (!run.result.newPostsInserted <==>
           forall p :: p in feed && p.id !in items ==> !Tagged(Ammo, p.title) && !Tagged(Rifle, p.title) && !Tagged(Handgun, p.title))
      && (!run.result.newPostsInserted ==> run.result.newPostsProcessed == None && run.items == items)
      && (run.result.newPostsInserted ==>
           && run.result.newPostsProcessed.Some?
           && forall c :: run.result.newPostsProcessed.value.Get(c) == Ids(Selected(feed, items, c)))
  {
    var n := Classified(feed, items);
    assert Gather(feed, items).None? <==>
      forall p :: p in feed && p.id !in items ==> !Tagged(Ammo, p.title) && !Tagged(Rifle, p.title) && !Tagged(Handgun, p.title)
    by {
      GatherClassifies(feed, items);
    }
    if Gather(feed, items).Some? {
      var r := Collect(feed, items).result;
      assert r == CollectorResult(200, true, Some(IdsOf(n)));
      forall c ensures r.newPostsProcessed.value.Get(c) == Ids(Selected(feed, items, c)) {
        assert r.newPostsProcessed.value == IdsOf(n);
        match c
        case Ammo => assert n.ammo == Selected(feed, items, Ammo);
        case Handgun => assert n.handgun == Selected(feed, items, Handgun);
        case Rifle => assert n.rifle == Selected(feed, items, Rifle);
      }
    } else {
      assert Collect(feed, items) == Run(CollectorResult(200, false, None), items);
    }
  }

  /** Inserting the single ammo post `a1` titled `[AMMO] deal` writes one
      item, not yet notified, under `ammo`, and reports `a1` under `ammo`
      with the other two lists empty. */
  lemma InsertOneAmmoPost(items: Items)
    ensures var n := ByCategory([Post("a1", "[AMMO] deal", "u")], [], []);
      && InsertAll(items, n) == items["a1" := StoredItem("u", "[AMMO] deal", false, "ammo")]
      && IdsOf(n) == ByCategory(["a1"], [], [])
  {
    var n := ByCategory([Post("a1", "[AMMO] deal", "u")], [], []);
    var wa := PutWrites(Ammo, n.ammo);
    assert NewPostsOrder[..2] == [Rifle, Handgun];
    assert [Rifle, Handgun][..1] == [Rifle];
    assert [Rifle][..0] == [];
    assert Writes(n, [Rifle]) == [] by { assert Writes(n, []) == []; }
    assert Writes(n, [Rifle, Handgun]) == [];
    assert Writes(n, NewPostsOrder) == wa;
    assert wa == [("a1", StoredItem("u", "[AMMO] deal", false, "ammo"))];
    assert wa[..0] == [];
    assert Apply(items, wa) == Apply(items, [])[wa[0].0 := wa[0].1];
    assert Ids(n.ammo) == ["a1"];
  }

  /** The title `[AMMO] deal` is classified as ammo only. */
  lemma AmmoTitleTags()
    ensures Tagged(Ammo, "[AMMO] deal") && !Tagged(Rifle, "[AMMO] deal") && !Tagged(Handgun, "[AMMO] deal")
  {
    assert Lower("[AMMO] deal") == "[ammo] deal";
    assert OccursAt("[ammo] deal", "[ammo]", 0);
    ContainsIff("[ammo] deal", "[ammo]");
    NotInAmmoDeal("[rifle]");
    NotInAmmoDeal("[handgun]");
    NotInAmmoDeal("[pistol]");
  }

  /** The other tags do not occur in `[ammo] deal`: each opens with `[` and
      a letter other than `a`, and `[` occurs there only at the start. */
  lemma NotInAmmoDeal(pat: string)
    requires pat == "[rifle]" || pat == "[handgun]" || pat == "[pistol]"
    ensures !Contains("[ammo] deal", pat)
  {
    var t := "[ammo] deal";
    assert pat[0] == '[' && pat[1] != 'a';
    forall i | 0 <= i && i + |pat| <= |t| ensures !OccursAt(t, pat, i) {
      assert t[i..i + |pat|][0] == t[i] && t[i..i + |pat|][1] == t[i + 1];
    }
    ContainsIff(t, pat);
  }

  /** `lambda_handler` of the collector. */
  method LambdaHandler(db: Table, feed: seq<Post>) returns (r: CollectorResult)
    modifies db
    ensures r == Collect(feed, old(db.items)).result
    ensures db.items == Collect(feed, old(db.items)).items
  {
    var foundNewPosts := GatherNewPosts(db, feed);
    if foundNewPosts.Some? {
      var insertedItems := InsertDbNewPost(db, foundNewPosts.value);
      return CollectorResult(200, true, Some(insertedItems));
    }
    return CollectorResult(200, false, None);
  }
}

/** The records both handlers share and the `gundeal-posts` DynamoDB table
    they read and write. The table is a map from `post_id` to the rest of
    the item; only the three calls the handlers make are modelled. */
module Store {

  datatype Option<T> = None | Some(value: T)

  /** A post of the feed listing, as praw exposes it. */
  datatype Post = Post(id: string, title: string, url: string)

  /** An item of the table, less its `post_id` key. */
  datatype StoredItem = StoredItem(url: string, title: string, notified: bool, postCategory: string)

  type Items = map<string, StoredItem>

  /** `get_item` by key: the item, or `None` when the response has no
      `Item` entry. */
  function Lookup(items: Items, id: string): (r: Option<StoredItem>)
    ensures r.Some? <==> id in items
    ensures r.Some? ==> r.value == items[id]
  {
    if id in items then Some(items[id]) else None
  }

  /** The table after `update_item` sets `notified` to true for `id`. */
  function SetNotified(items: Items, id: string): (r: Items)
    requires id in items
    ensures r.Keys == items.Keys
    ensures r[id] == items[id].(notified := true)
    ensures forall k :: k in items && k != id ==> r[k] == items[k]
  {
    items[id := items[id].(notified := true)]
  }

  /** Setting the flag twice leaves the table as setting it once. */
  lemma SetNotifiedIdempotent(items: Items, id: string)
    requires id in items
    ensures SetNotified(SetNotified(items, id), id) == SetNotified(items, id)
  {
  }

  /** Setting the flag changes no attribute but `notified`. */
  lemma SetNotifiedKeepsAttributes(items: Items, id: string, k: string)
    requires id in items && k in items
    ensures var r := SetNotified(items, id);
      k in r && r[k].url == items[k].url && r[k].title == items[k].title
      && r[k].postCategory == items[k].postCategory
      && r[k].notified == (k == id || items[k].notified)
  {
  }

  /** The DynamoDB table. Each method is one API call. */
  class Table {
    var items: Items

    constructor (initial: Items)
      ensures items == initial
    {
      items := initial;
    }

    /** `get_item` with `Key={'post_id': ...}`. */
    method GetItem(id: string) returns (r: Option<StoredItem>)
      ensures r == Lookup(items, id)
    {
      r := if id in items then Some(items[id]) else None;
    }

    /** `put_item`: replaces the whole item stored under `id`. */
    method PutItem(id: string, item: StoredItem)
      modifies this
      ensures items == old(items)[id := item]
    {
      items := items[id := item];
    }

    /** `update_item` with `AttributeUpdates={'notified': True}`. */
    method UpdateNotified(id: string)
      requires id in items
      modifies this
      ensures items == SetNotified(old(items), id)
    {
      items := items[id := items[id].(notified := true)];
    }
  }
}

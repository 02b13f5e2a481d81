/**
 * The status table: one item per upload, keyed by the upload identifier, written with
 * whole-item puts and attribute-merging updates. A write is atomic: it either takes full
 * effect or throws and leaves the table as it was.
 */
module StatusStore {
  import opened Wrappers

  datatype Status = Pending | Completed | Failed

  /** One item of the table; `uploadId` is the table's key attribute. */
  datatype Item = Item(uploadId: string, status: Status, tags: Option<seq<string>>)

  /** The attributes an update sets: always `status`, and `tags` when given. */
  datatype Change = Change(status: Status, tags: Option<seq<string>>)

  /** Point lookup by key. */
  function Lookup(items: map<string, Item>, key: string): Option<Item>
  {
    if key in items then Some(items[key]) else None
  }

  /**
   * The item an update leaves under `key`: the attributes `change` names are overwritten,
   * the other attributes of the current item are kept, and an absent item is created
   * from the key and the given attributes.
   */
  function Merge(current: Option<Item>, key: string, change: Change): (merged: Item)
    ensures merged.status == change.status
    ensures change.tags.Some? ==> merged.tags == change.tags
    ensures current.Some? ==> merged.uploadId == current.value.uploadId
    ensures current.Some? && change.tags.None? ==> merged.tags == current.value.tags
    ensures current.None? ==> merged == Item(key, change.status, change.tags)
  {
    match current
    case None => Item(key, change.status, change.tags)
    case Some(item) =>
      item.(status := change.status, tags := if change.tags.Some? then change.tags else item.tags)
  }

  /**
   * The shape the workflow gives an item: a pending or failed item carries no tags,
   * a completed one carries a non-empty tag list.
   */
  predicate Consistent(item: Item)
  {
    match item.status
    case Completed => item.tags.Some? && item.tags.value != []
    case Pending => item.tags.None?
    case Failed => item.tags.None?
  }

  /** The table client as the handlers see it: its contents change only through `Put` and `Update`. */
  class Store {
    var items: map<string, Item>

    /** Every item sits under its own key attribute. */
    ghost predicate Valid()
      reads this
    {
      forall key :: key in items ==> items[key].uploadId == key
    }

    constructor ()
      ensures Valid() && items == map[]
    {
      items := map[];
    }

    /**
     * PutItem: replaces the whole item stored under `item.uploadId`. `succeeds` is the
     * outcome the service gives this call; a failed call changes nothing.
     */
    method Put(item: Item, succeeds: bool)
      requires Valid()
      modifies this
      ensures Valid()
      ensures items == if succeeds then old(items)[item.uploadId := item] else old(items)
    {
      if succeeds {
        items := items[item.uploadId := item];
      }
    }

    /**
     * UpdateItem: merges `change` into the item under `key`, creating it when absent.
     * `succeeds` is the outcome the service gives this call; a failed call changes nothing.
     */
    method Update(key: string, change: Change, succeeds: bool)
      requires Valid()
      modifies this
      ensures Valid()
      ensures items == if succeeds then old(items)[key := Merge(Lookup(old(items), key), key, change)] else old(items)
    {
      if succeeds {
        items := items[key := Merge(Lookup(items, key), key, change)];
      }
    }
  }
}

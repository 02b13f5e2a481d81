/**
 * The read-back handler: given the `uploadId` query parameter it looks the upload's item up
 * in the status table and answers 200 with the item, or with null when there is none; a
 * missing parameter or a failing lookup is answered 400. It takes the table as a value and
 * writes nothing.
 */
module GetStatusTags {
  import opened Wrappers
  import opened StatusStore

  const MissingUploadId := "Missing uploadId"
  const LookupFailed := "Error getting status and tags"

  /** The response body: an error message, the stored item, or JSON null. */
  datatype Body = Message(text: string) | Record(item: Item) | Null

  datatype Response = Response(statusCode: int, body: Body)

  /** The parameter is usable: present and not the empty string. */
  predicate Present(uploadId: Option<string>)
  {
    uploadId.Some? && uploadId.value != ""
  }

  /**
   * `uploadId` is the query parameter (`None` when it, or the whole parameter object, is
   * missing); `lookupFails` says whether the table lookup throws.
   */
  function GetStatusAndTags(uploadId: Option<string>, items: map<string, Item>, lookupFails: bool): (r: Response)
    ensures r.statusCode == 200 <==> Present(uploadId) && !lookupFails
    ensures r.statusCode != 200 ==> r.statusCode == 400 && r.body.Message?
    ensures !Present(uploadId) ==> r.body == Message(MissingUploadId)
    ensures Present(uploadId) && lookupFails ==> r.body == Message(LookupFailed)
    ensures r.body.Record? ==> uploadId.Some? && uploadId.value in items && r.body.item == items[uploadId.value]
    ensures r.body.Null? ==> uploadId.Some? && uploadId.value !in items
  {
    if !Present(uploadId) then Response(400, Message(MissingUploadId))
    else if lookupFails then Response(400, Message(LookupFailed))
    else
      match Lookup(items, uploadId.value)
      case Some(item) => Response(200, Record(item))
      case None => Response(200, Null)
  }

  /** Without a usable parameter the answer depends neither on the table nor on the lookup: none is made. */
  lemma MissingIdSkipsLookup(uploadId: Option<string>, items: map<string, Item>, lookupFails: bool,
                             others: map<string, Item>, otherFails: bool)
    requires !Present(uploadId)
    ensures GetStatusAndTags(uploadId, items, lookupFails) == GetStatusAndTags(None, others, otherFails)
  {
  }

  /** A successful query answers 200 with the stored item, or with null when the key holds none. */
  lemma QueryReturnsStoredItem(id: string, items: map<string, Item>)
    requires id != ""
    ensures GetStatusAndTags(Some(id), items, false)
      == Response(200, if id in items then Record(items[id]) else Null)
  {
  }
}

# tag-image: the tag-extraction workflow in Dafny

This project models the two handlers of the tag-image service that touch the status
table.

- **extractTags** runs once for each object-created notification. It puts a `PENDING`
  item under the object key and asks the label detector about the object. It builds a tag
  list from the label names and updates the item to `COMPLETED` with those tags. If
  anything goes wrong it writes `FAILED` instead. A local flag, `canUpdateDb`, picks the
  failure write: a whole-item put when the `PENDING` put failed, or a status-only update
  when it succeeded.
- **getStatusAndTags** answers a poll for one upload identifier with the stored item.

The two handlers share one model of the table.

- `StatusStore` holds the table. It is a `Store` class with a `map` from upload id to
  `Item` (status plus an optional tag list). `Put` replaces the item. `Update` merges the
  given attributes and inserts the item when it is absent (`Merge`).
- `ExtractTags` holds the handler. The outside world is an input, `Environment`: whether
  each table write succeeds, and what the detector answers (an error, a response without
  `Labels`, or a list of labels whose names may be missing).
  - `ExtractTags` is the handler as an imperative method over a `Store`. It keeps the
    `canUpdateDb` flag and calls `CollectTags`, the filter loop.
  - It is proved to have exactly the effect of the function `Extract`: the list of calls
    made, the final table, and whether the invocation resolves or rejects.
  - `Extract` is built from `TryBlock` and `CatchBlock`, which mirror the source's try
    and catch blocks.
- `TagFilterProperties`, `ExtractTagsProperties` and `WorkflowProperties` hold the
  properties as lemmas. `WorkflowProperties` covers extraction followed by a query.
- `GetStatusTags` holds the read-back handler, a pure function of the query parameter,
  the table and whether the lookup throws.

Where the code and the service's design description disagree, the model follows the code:

- A batch with no records is not a quiet no-op. The length check lets an empty `Records`
  array through, and reading its first record then throws before the try block. The
  invocation rejects without any call (`EmptyBatchThrows`).
- A failed `PENDING` put is followed by a `FAILED` put of the whole item. It is not
  followed by "no further write" (`PendingPutFailureWritesFailed`).
- Tags are not deduplicated. The list keeps every named label in order, repeats
  included (`NamedTagsKeepsDuplicates`).
- When the `COMPLETED` update fails, a second terminal write (the `FAILED` update)
  follows. So an invocation can make two terminal writes, not exactly one
  (`FailedCompletionWritesTwice`).
- A write in the catch block that fails is not caught. The invocation rejects
  (`Rejected(StoreError)`). After a stored `PENDING` item, the record stays `PENDING`
  (`QueryAfterLostFailureUpdate`).

## Model

| member | source | states |
|---|---|---|
| StatusStore.Store.Put | src/extract-tags/index.ts:36-44 | a successful put replaces the whole item under its key; a failed one leaves the table unchanged; items stay under their own key |
| StatusStore.Store.Update | src/extract-tags/index.ts:73-89 | a successful update stores the merge of the change into the current item (or a new item); a failed one leaves the table unchanged |
| StatusStore.Merge | src/extract-tags/index.ts:107-121 | an update sets the status it names and the tags when given, and keeps the key and every attribute it does not name; an absent item is created from the key and the given attributes |
| ExtractTags.NamedTags | src/extract-tags/index.ts:55-63 | the tag list is no longer than the label list and holds no empty string |
| ExtractTags.CollectTags | src/extract-tags/index.ts:55-63 | the filter loop, which skips labels without a non-empty name and pushes the others, yields exactly `NamedTags` of the labels |
| ExtractTags.TryBlock | src/extract-tags/index.ts:22-89 | `canUpdateDb` is set exactly when the PENDING put succeeded; the first call is that put, and the detector call follows it only then; no error is caught exactly when every step succeeds with at least one tag; only the object key changes |
| ExtractTags.CatchBlock | src/extract-tags/index.ts:90-122 | with no error nothing more happens; otherwise exactly one more write follows: a FAILED put when the flag is unset, a status-only FAILED update when it is set; the invocation resolves unless that write fails |
| ExtractTags.Extract | src/extract-tags/index.ts:15-123 | an event without exactly one record makes no call and changes nothing; otherwise every write targets the object key and every other key is left as it was |
| ExtractTags.ExtractTags | src/extract-tags/index.ts:15-123 | the handler over the table client makes exactly the calls, leaves exactly the table and ends with exactly the outcome that `Extract` gives for the table before the call |
| TagFilterProperties.NamedTagsAppend | src/extract-tags/index.ts:57-63 | the tag list of two label lists joined is the two tag lists joined, so tags keep the labels' order |
| TagFilterProperties.NamedTagsSingleton | src/extract-tags/index.ts:58-62 | one label contributes its name when the name is present and not empty, and nothing otherwise |
| TagFilterProperties.NamedTagsAreNamesInOrder | src/extract-tags/index.ts:55-63 | the tag list equals the names of the named labels read front to back |
| TagFilterProperties.NamedTagsMembership | src/extract-tags/index.ts:57-63 | a string is a tag if and only if some label carries it as a non-empty name |
| TagFilterProperties.NamedTagsEmpty | src/extract-tags/index.ts:58-67 | the tag list is empty if and only if no label has a non-empty name |
| TagFilterProperties.NamedTagsKeepsDuplicates | src/extract-tags/index.ts:57-63 | two labels with the same name put that tag in the list twice: there is no deduplication |
| ExtractTagsProperties.WrongBatchIsNoOp | src/extract-tags/index.ts:16-20 | an absent or multi-record batch makes no write and no detector call, leaves the table unchanged and resolves |
| ExtractTagsProperties.EmptyBatchThrows | src/extract-tags/index.ts:16-23 | an empty batch passes the check and then rejects on reading its first record, with no call made |
| ExtractTagsProperties.PendingPutThenDetect | src/extract-tags/index.ts:36-49 | on a single record the first call is the put of `{uploadId = key, status = PENDING}`; a detector call is made if and only if that put succeeded, and it is the second call |
| ExtractTagsProperties.NoTagsTakesFailureBranch | src/extract-tags/index.ts:51-67 | a response without labels, or one whose labels all lack a name, leads to no COMPLETED write: the calls are the PENDING put, the detector call and the FAILED update |
| ExtractTagsProperties.SuccessfulRunCompletes | src/extract-tags/index.ts:73-89 | when every step succeeds the record at the key ends `{status = COMPLETED, tags = the tag list}`, no other key changes, and the invocation resolves |
| ExtractTagsProperties.LateFailureUpdatesStatus | src/extract-tags/index.ts:107-121 | a failure after the PENDING put is followed by a status-only FAILED update that keeps the record's other attributes; the record ends FAILED without tags if that update succeeds, and stays PENDING with a rejection if it fails |
| ExtractTagsProperties.FailedCompletionWritesTwice | src/extract-tags/index.ts:73-121 | a failed COMPLETED update is followed by the FAILED update, so two terminal writes are attempted |
| ExtractTagsProperties.PendingPutFailureWritesFailed | src/extract-tags/index.ts:93-104 | a failed PENDING put is followed by a whole-item FAILED put and no detector call; the table gains the FAILED item if that put succeeds and is unchanged (with a rejection) if it fails |
| ExtractTagsProperties.TryBlockWrites | src/extract-tags/index.ts:36-89 | the try block's writes are the PENDING put, and then the COMPLETED update when tags were found; a clean try block made both |
| ExtractTagsProperties.WriteCountAndTerminalStatus | src/extract-tags/index.ts:36-121 | on a single record one to three writes are attempted, and the last stores COMPLETED or FAILED |
| ExtractTagsProperties.ExtractKeepsItemsConsistent | src/extract-tags/index.ts:36-121 | if every item was consistent before (COMPLETED with a non-empty tag list, PENDING or FAILED without tags), every item is consistent after the handler |
| GetStatusTags.GetStatusAndTags | src/get-status-tags/index.ts:7-38 | the status is 200 if and only if the parameter is present and the lookup does not throw; a 400 carries `Missing uploadId` or `Error getting status and tags`; a 200 carries the stored item or null when the key holds none |
| GetStatusTags.MissingIdSkipsLookup | src/get-status-tags/index.ts:9-16 | without a usable parameter the answer does not depend on the table or on the lookup failing: no lookup is made |
| GetStatusTags.QueryReturnsStoredItem | src/get-status-tags/index.ts:18-29 | a present identifier is answered 200 with the item stored under it, or with null when there is none |
| WorkflowProperties.QueryAfterCompletedExtraction | src/get-status-tags/index.ts:18-29 | after a fully successful extraction, a query for the object key returns 200 with the COMPLETED item and the tag list |
| WorkflowProperties.QueryAfterFailedExtraction | src/extract-tags/index.ts:90-121 | after an extraction that failed and recorded FAILED, a query returns 200 with the FAILED item, without tags |
| WorkflowProperties.QueryAfterLostFailureUpdate | src/extract-tags/index.ts:107-121 | when the FAILED update after a stored PENDING item fails, a query keeps returning the PENDING item |
| WorkflowProperties.QueryAfterNoWriteLanded | src/extract-tags/index.ts:93-104 | when both the PENDING and the FAILED put fail, a key that held nothing is still answered with null |

## Left out

- src/get-upload-link/index.ts is not part of this model. It generates a random identifier and calls a URL-signing library; it has no branching and no state.
- Client construction and configuration (region, table name) are not modelled; they are plumbing.
- The table's attribute-value encoding (`{S: ...}`, `{SS: ...}`) and the update-expression strings are not modelled. An item is a datatype, and an update is the set of attributes it assigns.
- Tags are kept as a list in the order pushed. The table's string-set type may reject a list with repeats or store it as an unordered set; that library-side validation is not visible in the source, so the model treats it as the update's success or failure input.
- Logging and the JSON serialisation of response bodies are not modelled. A response is a status code and a `Body` datatype; a 200 body holds the stored item itself.
- The caught error values (`No labels found`, `No tags found`, service errors) are only logged by the source. The model names them in the try block's result, but no behaviour depends on which one it is.
- A `null` entry in the detector's label array is not represented. The optional-chained name check treats it like a label without a name, and it would contribute no tag.
- The rest of the detector request (the bucket name's use beyond the `Detect` call, confidence values) and any notification record without an `s3` object are not modelled.
- The outcome of every external call (table writes, the detector, the lookup) is an input, not a nondeterministic choice. Network faults, throttling and timeouts are only the `false` values of those inputs.
- Concurrent or repeated invocations on the same key, platform retries after a rejection, and invocation timeouts are not modelled; one invocation runs at a time.

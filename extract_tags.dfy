/**
 * The tag-extraction handler, run once per object-created notification: it marks the
 * upload PENDING, asks the label detector about the object, and finishes with a COMPLETED
 * update carrying the tag list or with a FAILED write. The outcomes of the table writes and
 * the detector's answer are inputs (`Environment`); the handler's effect is the list of
 * calls it makes, the table it leaves and whether it returns or throws.
 */
module ExtractTags {
  import opened Wrappers
  import opened StatusStore

  /** The bucket and object key of one notification record. */
  datatype S3Record = S3Record(bucket: string, key: string)

  /** The trigger event; `records` is `None` when the batch field is absent. */
  datatype Event = Event(records: Option<seq<S3Record>>)

  /** A detected label; only its name matters to the handler. */
  datatype Label = Label(name: Option<string>)

  /** The detector's answer: a thrown error, a response without `Labels`, or the labels. */
  datatype Detection = DetectorError | NoLabels | Detected(labels: seq<Label>)

  /** What the outside world does during one invocation. */
  datatype Environment = Environment(
    pendingPutOk: bool,       // the PENDING put succeeds
    detection: Detection,     // the detector's answer
    completedUpdateOk: bool,  // the COMPLETED update succeeds
    failureWriteOk: bool)     // the FAILED put or update in the catch block succeeds

  /** A call the handler makes to the table or to the detector. */
  datatype Call = Put(item: Item) | Update(key: string, change: Change) | Detect(bucket: string, key: string)

  datatype Error = RecordMissing | StoreError | DetectionError | NoLabelsFound | NoTagsFound

  /** How the invocation ends: the handler's promise resolves, or it rejects with an error. */
  datatype Outcome = Resolved | Rejected(error: Error)

  /** The state at the end of the try block: calls made, table, phase flag, caught error. */
  datatype Attempt = Attempt(calls: seq<Call>, items: map<string, Item>, canUpdateDb: bool, error: Option<Error>)

  /** The whole effect of one invocation. */
  datatype Run = Run(calls: seq<Call>, items: map<string, Item>, outcome: Outcome)

  predicate IsWrite(c: Call)
  {
    !c.Detect?
  }

  /** The key a table write targets. */
  function WriteKey(c: Call): string
    requires IsWrite(c)
  {
    if c.Put? then c.item.uploadId else c.key
  }

  /** The status a table write stores. */
  function WrittenStatus(c: Call): Status
    requires IsWrite(c)
  {
    if c.Put? then c.item.status else c.change.status
  }

  /** The table writes of a call list, in order. */
  function Writes(calls: seq<Call>): (ws: seq<Call>)
    ensures |ws| <= |calls|
    ensures forall c :: c in ws ==> IsWrite(c) && c in calls
  {
    if calls == [] then [] else (if IsWrite(calls[0]) then [calls[0]] else []) + Writes(calls[1..])
  }

  /** A label contributes a tag when its name is present and not empty. */
  predicate Named(l: Label)
  {
    l.name.Some? && l.name.value != ""
  }

  /** The tag list the filter loop builds from a prefix of the labels. */
  function NamedTags(labels: seq<Label>): (tags: seq<string>)
    ensures |tags| <= |labels|
    ensures forall t :: t in tags ==> t != ""
  {
    if labels == [] then []
    else
      var last := labels[|labels| - 1];
      NamedTags(labels[..|labels| - 1]) + (if Named(last) then [last.name.value] else [])
  }

  /** The filter loop: pushes the name of every named label, skipping the others. */
  method CollectTags(labels: seq<Label>) returns (tags: seq<string>)
    ensures tags == NamedTags(labels)
  {
    tags := [];
    for i := 0 to |labels|
      invariant tags == NamedTags(labels[..i])
    {
      assert labels[..i + 1][..i] == labels[..i];
      if !Named(labels[i]) {
        continue;
      }
      tags := tags + [labels[i].name.value];
    }
    assert labels[..|labels|] == labels;
  }

  /** The batch passes the handler's check and has the one record it reads. */
  predicate SingleRecord(event: Event)
  {
    event.records.Some? && |event.records.value| == 1
  }

  /** Every part of the invocation succeeds and the detector yields at least one tag. */
  predicate AllSucceed(env: Environment)
  {
    env.pendingPutOk && env.detection.Detected? && NamedTags(env.detection.labels) != [] && env.completedUpdateOk
  }

  function PendingItem(key: string): Item
  {
    Item(key, Pending, None)
  }

  /** The try block: the PENDING put, the detector call, the tag filter and the COMPLETED update. */
  function TryBlock(rec: S3Record, env: Environment, items: map<string, Item>): (a: Attempt)
    ensures a.canUpdateDb == env.pendingPutOk
    ensures a.calls != [] && a.calls[0] == Put(PendingItem(rec.key))
    ensures a.canUpdateDb ==> |a.calls| >= 2 && a.calls[1] == Detect(rec.bucket, rec.key)
    ensures !a.canUpdateDb ==> a.calls == [Put(PendingItem(rec.key))] && a.items == items
    ensures a.error.None? <==> AllSucceed(env)
    ensures a.items - {rec.key} == items - {rec.key}
  {
    var pending := PendingItem(rec.key);
    if !env.pendingPutOk then Attempt([Put(pending)], items, false, Some(StoreError))
    else
      var calls := [Put(pending), Detect(rec.bucket, rec.key)];
      var stored := items[rec.key := pending];
      match env.detection
      case DetectorError => Attempt(calls, stored, true, Some(DetectionError))
      case NoLabels => Attempt(calls, stored, true, Some(NoLabelsFound))
      case Detected(labels) =>
        var tags := NamedTags(labels);
        if tags == [] then Attempt(calls, stored, true, Some(NoTagsFound))
        else
          var completed := Change(Completed, Some(tags));
          Attempt(calls + [Update(rec.key, completed)],
                  if env.completedUpdateOk then stored[rec.key := Merge(Some(pending), rec.key, completed)] else stored,
                  true,
                  if env.completedUpdateOk then None else Some(StoreError))
  }

  /**
   * The catch block: with the phase flag unset the FAILED item is put over the key, with
   * it set only the status is updated to FAILED; a failure of that write is not caught.
   */
  function CatchBlock(key: string, env: Environment, a: Attempt): (r: Run)
    ensures a.error.None? ==> r == Run(a.calls, a.items, Resolved)
    ensures a.error.Some? ==> |r.calls| == |a.calls| + 1 && r.calls[..|a.calls|] == a.calls
    ensures a.error.Some? && !a.canUpdateDb ==> r.calls[|a.calls|] == Put(Item(key, Failed, None))
    ensures a.error.Some? && a.canUpdateDb ==> r.calls[|a.calls|] == Update(key, Change(Failed, None))
    ensures r.outcome == Resolved <==> a.error.None? || env.failureWriteOk
    ensures r.items - {key} == a.items - {key}
  {
    if a.error.None? then Run(a.calls, a.items, Resolved)
    else
      var outcome := if env.failureWriteOk then Resolved else Rejected(StoreError);
      if !a.canUpdateDb then
        var failed := Item(key, Failed, None);
        Run(a.calls + [Put(failed)], if env.failureWriteOk then a.items[key := failed] else a.items, outcome)
      else
        var failed := Change(Failed, None);
        Run(a.calls + [Update(key, failed)],
            if env.failureWriteOk then a.items[key := Merge(Lookup(a.items, key), key, failed)] else a.items,
            outcome)
  }

  /**
   * The handler as a function of the event, the environment and the table before the call.
   * An absent or multi-record batch is a no-op; an empty one throws when its first record
   * is read; a single record goes through the try and catch blocks.
   */
  function Extract(event: Event, env: Environment, items: map<string, Item>): (r: Run)
    ensures !SingleRecord(event) ==> r.calls == [] && r.items == items
    ensures SingleRecord(event) ==>
      var key := event.records.value[0].key;
      && r.items - {key} == items - {key}
      && (forall c :: c in r.calls && IsWrite(c) ==> WriteKey(c) == key)
  {
    match event.records
    case None => Run([], items, Resolved)
    case Some(records) =>
      if |records| > 1 then Run([], items, Resolved)
      else if |records| == 0 then Run([], items, Rejected(RecordMissing))
      else
        var rec := records[0];
        CatchBlock(rec.key, env, TryBlock(rec, env, items))
  }

  /** The handler over the table client, proved to have the effect `Extract` describes. */
  method ExtractTags(store: Store, event: Event, env: Environment) returns (calls: seq<Call>, outcome: Outcome)
    requires store.Valid()
    modifies store
    ensures store.Valid()
    ensures Run(calls, store.items, outcome) == Extract(event, env, old(store.items))
  {
    calls := [];
    if event.records.None? || |event.records.value| > 1 {
      // wrong records amount: logged, and the handler returns
      outcome := Resolved;
      return;
    }
    if |event.records.value| == 0 {
      // there is no first record to read, so the handler throws before its try block
      outcome := Rejected(RecordMissing);
      return;
    }
    var canUpdateDb := false;
    var rec := event.records.value[0];
    var key := rec.key;
    var error: Option<Error> := None;

    // try
    var pending := PendingItem(key);
    calls := calls + [Put(pending)];
    store.Put(pending, env.pendingPutOk);
    if !env.pendingPutOk {
      error := Some(StoreError);
    } else {
      canUpdateDb := true;
      calls := calls + [Detect(rec.bucket, key)];
      match env.detection {
        case DetectorError =>
          error := Some(DetectionError);
        case NoLabels =>
          error := Some(NoLabelsFound);
        case Detected(labels) =>
          var tags := CollectTags(labels);
          if |tags| == 0 {
            error := Some(NoTagsFound);
          } else {
            var completed := Change(Completed, Some(tags));
            calls := calls + [Update(key, completed)];
            store.Update(key, completed, env.completedUpdateOk);
            if !env.completedUpdateOk {
              error := Some(StoreError);
            }
          }
      }
    }
    assert Attempt(calls, store.items, canUpdateDb, error) == TryBlock(rec, env, old(store.items));

    // catch
    outcome := Resolved;
    if error.Some? {
      if !canUpdateDb {
        var failed := Item(key, Failed, None);
        calls := calls + [Put(failed)];
        store.Put(failed, env.failureWriteOk);
        if !env.failureWriteOk {
          outcome := Rejected(StoreError);
        }
        return;
      }
      var failed := Change(Failed, None);
      calls := calls + [Update(key, failed)];
      store.Update(key, failed, env.failureWriteOk);
      if !env.failureWriteOk {
        outcome := Rejected(StoreError);
      }
    }
  }
}

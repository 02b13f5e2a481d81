/** Properties of one invocation of the tag-extraction handler. */
module ExtractTagsProperties {
  import opened Wrappers
  import opened StatusStore
  import opened ExtractTags
  import opened TagFilterProperties

  /** An absent or multi-record batch: no call is made and the handler returns. */
  lemma WrongBatchIsNoOp(event: Event, env: Environment, items: map<string, Item>)
    requires event.records.None? || |event.records.value| > 1
    ensures Extract(event, env, items) == Run([], items, Resolved)
  {
  }

  /** An empty batch passes the check but throws when its first record is read: no call is made. */
  lemma EmptyBatchThrows(event: Event, env: Environment, items: map<string, Item>)
    requires event.records == Some([])
    ensures Extract(event, env, items) == Run([], items, Rejected(RecordMissing))
  {
  }

  /**
   * On a single record the first call is the PENDING put under the object key; the detector
   * is called, right after it, exactly when that put succeeded.
   */
  lemma PendingPutThenDetect(event: Event, env: Environment, items: map<string, Item>)
    requires SingleRecord(event)
    ensures var rec := event.records.value[0];
      var r := Extract(event, env, items);
      && r.calls != []
      && r.calls[0] == Put(Item(rec.key, Pending, None))
      && ((exists i :: 0 <= i < |r.calls| && r.calls[i].Detect?) <==> env.pendingPutOk)
      && (env.pendingPutOk ==> r.calls[1] == Detect(rec.bucket, rec.key))
  {
  }

  /**
   * A detector answer without labels, or with no named label, never reaches the COMPLETED
   * update: the PENDING put and the detector call are followed by the FAILED update.
   */
  lemma NoTagsTakesFailureBranch(event: Event, env: Environment, items: map<string, Item>)
    requires SingleRecord(event) && env.pendingPutOk
    requires env.detection.NoLabels? ||
      (env.detection.Detected? && forall i :: 0 <= i < |env.detection.labels| ==> !Named(env.detection.labels[i]))
    ensures var rec := event.records.value[0];
      Extract(event, env, items).calls
        == [Put(PendingItem(rec.key)), Detect(rec.bucket, rec.key), Update(rec.key, Change(Failed, None))]
  {
    if env.detection.Detected? {
      NamedTagsEmpty(env.detection.labels);
    }
  }

  /** When every step succeeds the record ends COMPLETED with the tag list, and nothing else changes. */
  lemma SuccessfulRunCompletes(event: Event, env: Environment, items: map<string, Item>)
    requires SingleRecord(event) && AllSucceed(env)
    ensures var rec := event.records.value[0];
      var tags := NamedTags(env.detection.labels);
      var r := Extract(event, env, items);
      && r.outcome == Resolved
      && r.items == items[rec.key := Item(rec.key, Completed, Some(tags))]
      && r.calls == [Put(PendingItem(rec.key)), Detect(rec.bucket, rec.key), Update(rec.key, Change(Completed, Some(tags)))]
  {
  }

  /**
   * A failure after the PENDING put (detector error, no tags, failed COMPLETED update) ends
   * with an update that sets only the status to FAILED. If that update succeeds the record
   * is FAILED with the tags it had (none); if it fails the record stays PENDING and the
   * handler throws.
   */
  lemma LateFailureUpdatesStatus(event: Event, env: Environment, items: map<string, Item>)
    requires SingleRecord(event) && env.pendingPutOk && !AllSucceed(env)
    ensures var rec := event.records.value[0];
      var a := TryBlock(rec, env, items);
      var r := Extract(event, env, items);
      && r.calls == a.calls + [Update(rec.key, Change(Failed, None))]
      && r.items[rec.key] == (if env.failureWriteOk then Merge(Some(a.items[rec.key]), rec.key, Change(Failed, None)) else a.items[rec.key])
      && a.items[rec.key] == PendingItem(rec.key)
      && r.items[rec.key] == Item(rec.key, if env.failureWriteOk then Failed else Pending, None)
      && r.outcome == (if env.failureWriteOk then Resolved else Rejected(StoreError))
  {
  }

  /** A COMPLETED update that fails is followed by a second terminal write, the FAILED update. */
  lemma FailedCompletionWritesTwice(event: Event, env: Environment, items: map<string, Item>)
    requires SingleRecord(event) && env.pendingPutOk && env.detection.Detected?
    requires NamedTags(env.detection.labels) != [] && !env.completedUpdateOk
    ensures var rec := event.records.value[0];
      var calls := Extract(event, env, items).calls;
      && |calls| == 4
      && calls[2] == Update(rec.key, Change(Completed, Some(NamedTags(env.detection.labels))))
      && calls[3] == Update(rec.key, Change(Failed, None))
  {
  }

  /**
   * A failed PENDING put is followed by a FAILED put over the whole item, and the detector
   * is never called; if that put fails too, the table is unchanged and the handler throws.
   */
  lemma PendingPutFailureWritesFailed(event: Event, env: Environment, items: map<string, Item>)
    requires SingleRecord(event) && !env.pendingPutOk
    ensures var key := event.records.value[0].key;
      var r := Extract(event, env, items);
      && r.calls == [Put(PendingItem(key)), Put(Item(key, Failed, None))]
      && r.items == (if env.failureWriteOk then items[key := Item(key, Failed, None)] else items)
      && r.outcome == (if env.failureWriteOk then Resolved else Rejected(StoreError))
  {
  }

  lemma {:induction false} WritesAppend(a: seq<Call>, b: seq<Call>)
    ensures Writes(a + b) == Writes(a) + Writes(b)
    decreases |a|
  {
    if a == [] {
      assert a + b == b;
    } else {
      assert (a + b)[0] == a[0];
      assert (a + b)[1..] == a[1..] + b;
      WritesAppend(a[1..], b);
    }
  }

  lemma WritesSingleton(c: Call)
    ensures Writes([c]) == if IsWrite(c) then [c] else []
  {
    assert [c][1..] == [];
  }

  /** The try block writes the PENDING item and, when tags were found, the COMPLETED update. */
  lemma TryBlockWrites(rec: S3Record, env: Environment, items: map<string, Item>)
    ensures var a := TryBlock(rec, env, items);
      && (|a.calls| == 3 ==> Writes(a.calls) == [a.calls[0], a.calls[2]] && WrittenStatus(a.calls[2]) == Completed)
      && (|a.calls| != 3 ==> Writes(a.calls) == [a.calls[0]])
      && (a.error.None? ==> |a.calls| == 3)
  {
    var a := TryBlock(rec, env, items);
    var put := Put(PendingItem(rec.key));
    var detect := Detect(rec.bucket, rec.key);
    WritesSingleton(put);
    if env.pendingPutOk {
      WritesSingleton(detect);
      assert a.calls[..2] == [put] + [detect];
      WritesAppend([put], [detect]);
      if |a.calls| == 3 {
        var completed := a.calls[2];
        assert a.calls == ([put] + [detect]) + [completed];
        WritesAppend([put] + [detect], [completed]);
        WritesSingleton(completed);
      } else {
        assert a.calls == [put] + [detect];
      }
    }
  }

  /**
   * On a single record at least one and at most three table writes are made, and the last
   * of them stores COMPLETED or FAILED.
   */
  lemma WriteCountAndTerminalStatus(event: Event, env: Environment, items: map<string, Item>)
    requires SingleRecord(event)
    ensures var ws := Writes(Extract(event, env, items).calls);
      && 1 <= |ws| <= 3
      && WrittenStatus(ws[|ws| - 1]) in {Completed, Failed}
  {
    var rec := event.records.value[0];
    var a := TryBlock(rec, env, items);
    var r := Extract(event, env, items);
    TryBlockWrites(rec, env, items);
    if a.error.Some? {
      var failed := r.calls[|a.calls|];
      assert r.calls == a.calls + [failed];
      WritesAppend(a.calls, [failed]);
      WritesSingleton(failed);
    }
  }

  /** Starting from a table of consistent items, the handler leaves a table of consistent items. */
  lemma ExtractKeepsItemsConsistent(event: Event, env: Environment, items: map<string, Item>)
    requires forall k :: k in items ==> Consistent(items[k])
    ensures var r := Extract(event, env, items);
      forall k :: k in r.items ==> Consistent(r.items[k])
  {
  }
}

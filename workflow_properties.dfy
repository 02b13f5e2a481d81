/** What a client polling the read-back handler observes after one extraction. */
module WorkflowProperties {
  import opened Wrappers
  import opened StatusStore
  import opened ExtractTags
  import opened GetStatusTags

  /** After a fully successful extraction the query returns the COMPLETED item with the tag list. */
  lemma QueryAfterCompletedExtraction(event: Event, env: Environment, items: map<string, Item>)
    requires SingleRecord(event) && event.records.value[0].key != ""
    requires AllSucceed(env)
    ensures var key := event.records.value[0].key;
      GetStatusAndTags(Some(key), Extract(event, env, items).items, false)
        == Response(200, Record(Item(key, Completed, Some(NamedTags(env.detection.labels)))))
  {
  }

  /** After an extraction that failed but recorded it, the query returns the FAILED item, without tags. */
  lemma QueryAfterFailedExtraction(event: Event, env: Environment, items: map<string, Item>)
    requires SingleRecord(event) && event.records.value[0].key != ""
    requires !AllSucceed(env) && env.failureWriteOk
    ensures var key := event.records.value[0].key;
      GetStatusAndTags(Some(key), Extract(event, env, items).items, false)
        == Response(200, Record(Item(key, Failed, None)))
  {
  }

  /**
   * When the FAILED update after a stored PENDING item fails as well, the query keeps
   * returning the PENDING item: nothing moves it on.
   */
  lemma QueryAfterLostFailureUpdate(event: Event, env: Environment, items: map<string, Item>)
    requires SingleRecord(event) && event.records.value[0].key != ""
    requires env.pendingPutOk && !AllSucceed(env) && !env.failureWriteOk
    ensures var key := event.records.value[0].key;
      GetStatusAndTags(Some(key), Extract(event, env, items).items, false)
        == Response(200, Record(Item(key, Pending, None)))
  {
  }

  /** When both the PENDING and the FAILED put fail, a key that held nothing still holds nothing. */
  lemma QueryAfterNoWriteLanded(event: Event, env: Environment, items: map<string, Item>)
    requires SingleRecord(event) && event.records.value[0].key != ""
    requires event.records.value[0].key !in items
    requires !env.pendingPutOk && !env.failureWriteOk
    ensures GetStatusAndTags(Some(event.records.value[0].key), Extract(event, env, items).items, false)
      == Response(200, Null)
  {
  }
}

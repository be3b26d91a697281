/**
 * Per-link staging of content: a map from action id to the text and/or
 * image bytes encoded for that action so far. At most one entry per
 * action id, because the table is a map keyed by the action id.
 */
module Staging {
  import opened Sdk

  /** Text and image bytes are separate fields, so one action can carry both. */
  datatype ActionContent = ActionContent(textContent: Bytes, imageContent: Bytes, hasText: bool, hasImage: bool)

  /** The entry that indexing a missing action id default-constructs: nothing flagged. */
  const NewActionContent: ActionContent := ActionContent([], [], false, false)

  type ContentQueue = map<ActionId, ActionContent>

  /** Every staged entry carries text or an image. */
  ghost predicate NoEmptyEntries(q: ContentQueue)
  {
    forall id :: id in q ==> q[id].hasText || q[id].hasImage
  }

  /** The entry `q[id]` denotes, default-constructing a missing one. */
  function EntryOf(q: ContentQueue, id: ActionId): ActionContent
  {
    if id in q then q[id] else NewActionContent
  }

  datatype Staged = Staged(status: ComponentStatus, queue: ContentQueue)

  /**
   * Staging `content` of MIME type `contentType` for action `id`: text and
   * images overwrite only their own part of the entry; any other type is
   * an error that changes nothing.
   */
  function Enqueue(q: ContentQueue, id: ActionId, content: Bytes, contentType: string): (r: Staged)
    ensures r.status == ComponentOk <==> contentType == TextPlain || contentType == ImageJpeg
    ensures r.status != ComponentOk ==> r.status == ComponentError && r.queue == q
    ensures r.status == ComponentOk ==> r.queue.Keys == q.Keys + {id}
    ensures forall other :: other in q && other != id ==> other in r.queue && r.queue[other] == q[other]
    ensures contentType == TextPlain ==>
              && id in r.queue
              && r.queue[id].textContent == content && r.queue[id].hasText
              && r.queue[id].imageContent == EntryOf(q, id).imageContent
              && r.queue[id].hasImage == EntryOf(q, id).hasImage
    ensures contentType == ImageJpeg ==>
              && id in r.queue
              && r.queue[id].imageContent == content && r.queue[id].hasImage
              && r.queue[id].textContent == EntryOf(q, id).textContent
              && r.queue[id].hasText == EntryOf(q, id).hasText
  {
    if contentType == TextPlain then
      Staged(ComponentOk, q[id := EntryOf(q, id).(textContent := content, hasText := true)])
    else if contentType == ImageJpeg then
      Staged(ComponentOk, q[id := EntryOf(q, id).(imageContent := content, hasImage := true)])
    else
      Staged(ComponentError, q)
  }

  /** Dropping whatever is staged for `id`; every other entry stays. */
  function Dequeue(q: ContentQueue, id: ActionId): (r: ContentQueue)
    ensures id !in r
    ensures forall other :: other != id ==> (other in r <==> other in q)
    ensures forall other :: other in r ==> r[other] == q[other]
  {
    q - {id}
  }

  /** Staging only ever creates entries that carry something. */
  lemma EnqueueKeepsEntriesNonEmpty(q: ContentQueue, id: ActionId, content: Bytes, contentType: string)
    requires NoEmptyEntries(q)
    ensures NoEmptyEntries(Enqueue(q, id, content, contentType).queue)
  {
  }

  /** Last write wins for each kind, and the other kind survives a rewrite. */
  lemma EnqueueTwiceKeepsSecond(q: ContentQueue, id: ActionId, first: Bytes, second: Bytes, contentType: string)
    requires contentType == TextPlain || contentType == ImageJpeg
    ensures var q1 := Enqueue(q, id, first, contentType).queue;
            var q2 := Enqueue(q1, id, second, contentType).queue;
            q2 == Enqueue(q, id, second, contentType).queue
  {
  }

  /** Text then an image for the same action yields one entry holding both. */
  lemma TextThenImageHoldsBoth(q: ContentQueue, id: ActionId, text: Bytes, image: Bytes)
    ensures var q2 := Enqueue(Enqueue(q, id, text, TextPlain).queue, id, image, ImageJpeg).queue;
            id in q2 && q2[id].hasText && q2[id].hasImage
            && q2[id].textContent == text && q2[id].imageContent == image
  {
  }

  /** Dropping twice is dropping once. */
  lemma DequeueIdempotent(q: ContentQueue, id: ActionId)
    ensures Dequeue(Dequeue(q, id), id) == Dequeue(q, id)
  {
  }
}

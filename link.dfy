/**
 * One logical channel: a fixed id and address (its hashtag), and the
 * staging table of content waiting to be posted. `Post` commits an
 * action's staged content with one posting call; `Fetch` searches the
 * hashtag and delivers every text item before every image item.
 */
module Links {
  import opened Sdk
  import opened Mastodon
  import opened Staging

  /** A channel address; `maxTries` and `timestamp` are carried but never used. */
  datatype LinkAddress = LinkAddress(hashtag: string, maxTries: int, timestamp: real)

  /** One package-status callback per handle, in handle order. */
  function StatusEvents(handles: seq<Handle>, status: PackageStatus): (r: seq<Event>)
    ensures |r| == |handles|
    ensures forall i :: 0 <= i < |handles| ==> r[i] == PackageStatusChanged(handles[i], status)
  {
    if handles == [] then []
    else StatusEvents(handles[..|handles| - 1], status) + [PackageStatusChanged(handles[|handles| - 1], status)]
  }

  /** The posting call chosen for a staged entry: both parts, image only, or text only. */
  function CallFor(c: ActionContent, hashtag: string): Option<RemoteCall>
  {
    if c.hasImage && c.hasText then Some(PostImageWithText(c.imageContent, c.textContent, hashtag))
    else if c.hasImage then Some(PostImage(c.imageContent, hashtag))
    else if c.hasText then Some(PostStatus(c.textContent, hashtag))
    else None
  }

  datatype PostResult = PostResult(status: ComponentStatus, call: Option<RemoteCall>, events: seq<Event>, queue: ContentQueue)

  /** What committing action `id` does to the staging table, given the service's verdicts. */
  function PostOutcome(q: ContentQueue, id: ActionId, handles: seq<Handle>, hashtag: string,
                       accepts: RemoteCall -> bool): PostResult
  {
    if id !in q then
      PostResult(ComponentOk, None, StatusEvents(handles, PackageFailedGeneric), q)
    else
      match CallFor(q[id], hashtag)
      case None => PostResult(ComponentError, None, StatusEvents(handles, PackageFailedGeneric), q)
      case Some(call) =>
        if accepts(call) then PostResult(ComponentOk, Some(call), StatusEvents(handles, PackageSent), q - {id})
        else PostResult(ComponentError, Some(call), StatusEvents(handles, PackageFailedGeneric), q)
  }

  /** The items of `s` whose MIME type is `t`, in their order in `s`. */
  function OfType(s: seq<MastodonContent>, t: string): seq<MastodonContent>
  {
    if s == [] then []
    else OfType(s[..|s| - 1], t) + (if s[|s| - 1].contentType == t then [s[|s| - 1]] else [])
  }

  /** One receive callback per item, tagged with the link id and the item's MIME type. */
  function Deliveries(id: LinkId, cs: seq<MastodonContent>): seq<Event>
  {
    if cs == [] then []
    else
      var c := cs[|cs| - 1];
      Deliveries(id, cs[..|cs| - 1]) + [Receive(id, EncodingParameters(id, c.contentType, false), c.data)]
  }

  /** What a fetch delivers for a search result: all text items, then all image items. */
  function FetchEvents(id: LinkId, results: seq<MastodonContent>): seq<Event>
  {
    Deliveries(id, OfType(results, TextPlain) + OfType(results, ImageJpeg))
  }

  /** An item is kept by the filter exactly when it occurs in the input with that type. */
  lemma {:induction false} OfTypeMembers(s: seq<MastodonContent>, t: string)
    ensures forall c :: c in OfType(s, t) <==> c in s && c.contentType == t
  {
    if s != [] {
      OfTypeMembers(s[..|s| - 1], t);
      assert s == s[..|s| - 1] + [s[|s| - 1]];
    }
  }

  /** Filtering distributes over concatenation, so relative order within a type is kept. */
  lemma {:induction false} OfTypeConcat(a: seq<MastodonContent>, b: seq<MastodonContent>, t: string)
    ensures OfType(a + b, t) == OfType(a, t) + OfType(b, t)
  {
    if b == [] {
      assert a + b == a;
    } else {
      OfTypeConcat(a, b[..|b| - 1], t);
      assert (a + b)[..|a + b| - 1] == a + b[..|b| - 1];
    }
  }

  /** A sequence whose items all have type `t` is its own filter. */
  lemma {:induction false} OfTypeAllOfType(s: seq<MastodonContent>, t: string)
    requires forall i :: 0 <= i < |s| ==> s[i].contentType == t
    ensures OfType(s, t) == s
  {
    if s != [] {
      OfTypeAllOfType(s[..|s| - 1], t);
    }
  }

  /** Filtering a sequence extended by one item extends the filter by that item when it has the type. */
  lemma OfTypeSnoc(init: seq<MastodonContent>, x: MastodonContent, t: string)
    ensures OfType(init + [x], t) == OfType(init, t) + (if x.contentType == t then [x] else [])
  {
    assert (init + [x])[..|init|] == init;
  }

  /** When every item is text or image, the two filters together are a permutation of the input. */
  lemma {:induction false} OfTypePartition(s: seq<MastodonContent>)
    requires forall i :: 0 <= i < |s| ==> s[i].contentType == TextPlain || s[i].contentType == ImageJpeg
    ensures multiset(OfType(s, TextPlain) + OfType(s, ImageJpeg)) == multiset(s)
  {
    if s != [] {
      var init, x := s[..|s| - 1], s[|s| - 1];
      assert s == init + [x];
      OfTypePartition(init);
      OfTypeSnoc(init, x, TextPlain);
      OfTypeSnoc(init, x, ImageJpeg);
      var texts, images := OfType(init, TextPlain), OfType(init, ImageJpeg);
      if x.contentType == TextPlain {
        TextPlainIsNotImageJpeg();
        assert OfType(s, ImageJpeg) == images;
        assert multiset(texts + [x] + images) == multiset(texts) + multiset{x} + multiset(images);
      } else {
        assert OfType(s, TextPlain) == texts;
        assert multiset(texts + (images + [x])) == multiset(texts) + multiset(images) + multiset{x};
      }
    }
  }

  /** The i-th delivery carries the i-th item. */
  lemma {:induction false} DeliveriesAt(id: LinkId, cs: seq<MastodonContent>, i: nat)
    requires i < |cs|
    ensures |Deliveries(id, cs)| == |cs|
    ensures Deliveries(id, cs)[i] == Receive(id, EncodingParameters(id, cs[i].contentType, false), cs[i].data)
  {
    if i < |cs| - 1 {
      DeliveriesAt(id, cs[..|cs| - 1], i);
    } else if |cs| > 1 {
      DeliveriesAt(id, cs[..|cs| - 1], 0);
    }
  }

  /** Every item the filter keeps has the filtered type. */
  lemma {:induction false} OfTypeTyped(s: seq<MastodonContent>, t: string, i: nat)
    requires i < |OfType(s, t)|
    ensures OfType(s, t)[i].contentType == t
  {
    OfTypeMembers(s, t);
    assert OfType(s, t)[i] in OfType(s, t);
  }

  lemma TextPlainIsNotImageJpeg()
    ensures TextPlain != ImageJpeg
  {
    assert TextPlain[0] != ImageJpeg[0];
  }

  /**
   * A fetch delivers exactly the text items and then exactly the image
   * items of the search result, each in retrieval order; items of any other
   * type are dropped.
   */
  lemma FetchTextBeforeImage(id: LinkId, results: seq<MastodonContent>)
    ensures |FetchEvents(id, results)| == |OfType(results, TextPlain)| + |OfType(results, ImageJpeg)|
    ensures forall i :: 0 <= i < |OfType(results, TextPlain)| ==>
              FetchEvents(id, results)[i]
              == Receive(id, EncodingParameters(id, TextPlain, false), OfType(results, TextPlain)[i].data)
    ensures forall i :: 0 <= i < |OfType(results, ImageJpeg)| ==>
              FetchEvents(id, results)[|OfType(results, TextPlain)| + i]
              == Receive(id, EncodingParameters(id, ImageJpeg, false), OfType(results, ImageJpeg)[i].data)
  {
    var texts := OfType(results, TextPlain);
    var images := OfType(results, ImageJpeg);
    var all := texts + images;
    if all != [] {
      DeliveriesAt(id, all, 0);
    }
    forall i | 0 <= i < |texts|
      ensures FetchEvents(id, results)[i] == Receive(id, EncodingParameters(id, TextPlain, false), texts[i].data)
    {
      DeliveriesAt(id, all, i);
      OfTypeTyped(results, TextPlain, i);
    }
    forall i | 0 <= i < |images|
      ensures FetchEvents(id, results)[|texts| + i] == Receive(id, EncodingParameters(id, ImageJpeg, false), images[i].data)
    {
      DeliveriesAt(id, all, |texts| + i);
      OfTypeTyped(results, ImageJpeg, i);
    }
  }

  /** Search results [image, text, image, text] are delivered as [text, text, image, image]. */
  lemma FetchInterleavedExample(id: LinkId, t1: Bytes, t2: Bytes, i1: Bytes, i2: Bytes)
    ensures var img1, txt1 := MastodonContent(ImageJpeg, i1), MastodonContent(TextPlain, t1);
            var img2, txt2 := MastodonContent(ImageJpeg, i2), MastodonContent(TextPlain, t2);
            FetchEvents(id, [img1, txt1, img2, txt2]) == Deliveries(id, [txt1, txt2, img1, img2])
  {
    var img1, txt1 := MastodonContent(ImageJpeg, i1), MastodonContent(TextPlain, t1);
    var img2, txt2 := MastodonContent(ImageJpeg, i2), MastodonContent(TextPlain, t2);
    TextPlainIsNotImageJpeg();
    var r := [img1, txt1, img2, txt2];
    assert r[..3] == [img1, txt1, img2];
    assert [img1, txt1, img2][..2] == [img1, txt1];
    assert [img1, txt1][..1] == [img1];
    assert [img1][..0] == [];
    assert OfType([img1], TextPlain) == [];
    assert OfType([img1, txt1], TextPlain) == [txt1];
    assert OfType([img1, txt1, img2], TextPlain) == [txt1];
    assert OfType(r, TextPlain) == [txt1, txt2];
    assert OfType([img1], ImageJpeg) == [img1];
    assert OfType([img1, txt1], ImageJpeg) == [img1];
    assert OfType([img1, txt1, img2], ImageJpeg) == [img1, img2];
    assert OfType(r, ImageJpeg) == [img1, img2];
    assert OfType(r, TextPlain) + OfType(r, ImageJpeg) == [txt1, txt2, img1, img2];
  }

  /**
   * Staging text and then an image for one action and committing it makes
   * the single combined call; on success the entry is gone, so a second
   * commit of the same action finds nothing staged.
   */
  lemma MixedCommitIsOneCombinedPost(q: ContentQueue, id: ActionId, text: Bytes, image: Bytes,
                                     handles: seq<Handle>, hashtag: string, accepts: RemoteCall -> bool)
    ensures var staged := Enqueue(Enqueue(q, id, text, TextPlain).queue, id, image, ImageJpeg).queue;
            var r := PostOutcome(staged, id, handles, hashtag, accepts);
            && r.call == Some(PostImageWithText(image, text, hashtag))
            && (accepts(r.call.value) ==> id !in r.queue && r.events == StatusEvents(handles, PackageSent))
  {
  }

  class Link {
    const linkId: LinkId
    const address: LinkAddress
    var contentQueue: ContentQueue

    /** The entry-invariant the staging methods keep. */
    ghost predicate Valid()
      reads this
    {
      NoEmptyEntries(contentQueue)
    }

    /** The tag every post carries and every fetch searches for. */
    function Hashtag(): (tag: string)
      ensures |tag| == |address.hashtag| + 1
      ensures tag[0] == '#' && tag[1..] == address.hashtag
    {
      "#" + address.hashtag
    }

    constructor (id: LinkId, addr: LinkAddress)
      ensures linkId == id && address == addr
      ensures contentQueue == map[] && Valid()
    {
      linkId := id;
      address := addr;
      contentQueue := map[];
    }

    method EnqueueContent(actionId: ActionId, content: Bytes, contentType: string) returns (status: ComponentStatus)
      modifies this
      ensures Staged(status, contentQueue) == Enqueue(old(contentQueue), actionId, content, contentType)
      ensures old(Valid()) ==> Valid()
    {
      if contentType == TextPlain {
        var entry := EntryOf(contentQueue, actionId);
        contentQueue := contentQueue[actionId := entry.(textContent := content, hasText := true)];
      } else if contentType == ImageJpeg {
        var entry := EntryOf(contentQueue, actionId);
        contentQueue := contentQueue[actionId := entry.(imageContent := content, hasImage := true)];
      } else {
        return ComponentError;
      }
      status := ComponentOk;
    }

    method DequeueContent(actionId: ActionId) returns (status: ComponentStatus)
      modifies this
      ensures status == ComponentOk
      ensures contentQueue == Dequeue(old(contentQueue), actionId)
      ensures old(Valid()) ==> Valid()
    {
      contentQueue := contentQueue - {actionId};
      status := ComponentOk;
    }

    /** Reports `status` for every handle, in order. */
    static method UpdatePackageStatus(handles: seq<Handle>, status: PackageStatus) returns (events: seq<Event>)
      ensures |events| == |handles|
      ensures forall i :: 0 <= i < |handles| ==> events[i] == PackageStatusChanged(handles[i], status)
      ensures events == StatusEvents(handles, status)
    {
      events := [];
      var i := 0;
      while i < |handles|
        invariant 0 <= i <= |handles|
        invariant events == StatusEvents(handles[..i], status)
        invariant |events| == i
        invariant forall k :: 0 <= k < i ==> events[k] == PackageStatusChanged(handles[k], status)
      {
        assert handles[..i + 1][..i] == handles[..i];
        events := events + [PackageStatusChanged(handles[i], status)];
        i := i + 1;
      }
      assert handles[..i] == handles;
    }

    method Post(handles: seq<Handle>, actionId: ActionId, remote: Remote)
      returns (status: ComponentStatus, call: Option<RemoteCall>, events: seq<Event>)
      modifies this
      ensures PostResult(status, call, events, contentQueue)
              == PostOutcome(old(contentQueue), actionId, handles, Hashtag(), remote.accepts)
      // no staged entry: every handle fails, no call is made, and the status is still OK
      ensures actionId !in old(contentQueue) ==>
                && call == None && status == ComponentOk
                && events == StatusEvents(handles, PackageFailedGeneric)
                && contentQueue == old(contentQueue)
      // one call, chosen from the staged parts, tagged with the link's hashtag
      ensures actionId in old(contentQueue) ==>
                var c := old(contentQueue)[actionId];
                && (c.hasText && c.hasImage ==> call == Some(PostImageWithText(c.imageContent, c.textContent, Hashtag())))
                && (c.hasImage && !c.hasText ==> call == Some(PostImage(c.imageContent, Hashtag())))
                && (c.hasText && !c.hasImage ==> call == Some(PostStatus(c.textContent, Hashtag())))
                && (!c.hasText && !c.hasImage ==>
                      call == None && status == ComponentError
                      && events == StatusEvents(handles, PackageFailedGeneric)
                      && contentQueue == old(contentQueue))
      // success: every handle is SENT and the entry goes; failure: every handle FAILED, entry kept
      ensures call.Some? && remote.accepts(call.value) ==>
                status == ComponentOk && events == StatusEvents(handles, PackageSent)
                && contentQueue == old(contentQueue) - {actionId}
      ensures call.Some? && !remote.accepts(call.value) ==>
                status == ComponentError && events == StatusEvents(handles, PackageFailedGeneric)
                && contentQueue == old(contentQueue)
      ensures old(Valid()) ==> Valid() && (actionId in old(contentQueue) ==> call.Some?)
    {
      call := None;
      if actionId !in contentQueue {
        events := UpdatePackageStatus(handles, PackageFailedGeneric);
        return ComponentOk, call, events;
      }
      var content := contentQueue[actionId];
      var hashtag := Hashtag();
      if content.hasImage && content.hasText {
        call := Some(PostImageWithText(content.imageContent, content.textContent, hashtag));
      } else if content.hasImage {
        call := Some(PostImage(content.imageContent, hashtag));
      } else if content.hasText {
        call := Some(PostStatus(content.textContent, hashtag));
      } else {
        events := UpdatePackageStatus(handles, PackageFailedGeneric);
        return ComponentError, call, events;
      }
      var success := remote.accepts(call.value);
      if success {
        events := UpdatePackageStatus(handles, PackageSent);
        contentQueue := contentQueue - {actionId};
        status := ComponentOk;
      } else {
        events := UpdatePackageStatus(handles, PackageFailedGeneric);
        status := ComponentError;
      }
    }

    method Fetch(remote: Remote) returns (status: ComponentStatus, events: seq<Event>)
      ensures status == ComponentOk
      ensures events == FetchEvents(linkId, remote.search(Hashtag()))
    {
      var hashtag := Hashtag();
      var results := remote.search(hashtag);
      var textContent: seq<MastodonContent> := [];
      var imageContent: seq<MastodonContent> := [];
      var i := 0;
      while i < |results|
        invariant 0 <= i <= |results|
        invariant textContent == OfType(results[..i], TextPlain)
        invariant imageContent == OfType(results[..i], ImageJpeg)
      {
        assert results[..i + 1][..i] == results[..i];
        if results[i].contentType == TextPlain {
          textContent := textContent + [results[i]];
        } else if results[i].contentType == ImageJpeg {
          imageContent := imageContent + [results[i]];
        }
        i := i + 1;
      }
      assert results[..i] == results;
      events := [];
      var k := 0;
      while k < |textContent|
        invariant 0 <= k <= |textContent|
        invariant events == Deliveries(linkId, textContent[..k])
      {
        assert textContent[..k + 1][..k] == textContent[..k];
        var c := textContent[k];
        events := events + [Receive(linkId, EncodingParameters(linkId, c.contentType, false), c.data)];
        k := k + 1;
      }
      assert textContent[..k] == textContent + imageContent[..0];
      k := 0;
      while k < |imageContent|
        invariant 0 <= k <= |imageContent|
        invariant events == Deliveries(linkId, textContent + imageContent[..k])
      {
        assert (textContent + imageContent[..k + 1])[..|textContent| + k] == textContent + imageContent[..k];
        var c := imageContent[k];
        events := events + [Receive(linkId, EncodingParameters(linkId, c.contentType, false), c.data)];
        k := k + 1;
      }
      assert imageContent[..k] == imageContent;
      status := ComponentOk;
    }
  }
}

/**
 * The plugin-facing action router. It owns the link registry, binds each
 * action to the link its content was staged on (so that "*" actions can be
 * resolved later), records the content type staged per action, drives the
 * link lifecycle and collects the two credentials the remote client needs.
 */
module Plugin {
  import opened Sdk
  import opened Mastodon
  import opened Staging
  import opened Links
  import opened Registry
  import opened Actions

  /** The channel properties the router consults. */
  datatype ChannelProperties = ChannelProperties(maxLinks: int, linkSide: LinkSide)

  /** What the remote client is built from once both inputs have arrived. */
  datatype Credentials = Credentials(server: string, token: string)

  /** A serialized link address: parsed, or text that does not parse. */
  datatype AddressJson = BadAddress | Address(address: LinkAddress)

  /** `order` lists every key of `m` exactly once. */
  ghost predicate Enumerates(order: seq<LinkId>, m: map<LinkId, Link>)
  {
    && (forall i, j :: 0 <= i < j < |order| ==> order[i] != order[j])
    && (forall k :: k in m <==> k in order)
  }

  /** The deliveries of fetching, in turn, every link `order` names. */
  function FetchAll(m: map<LinkId, Link>, order: seq<LinkId>, remote: Remote): seq<Event>
    requires forall k :: k in order ==> k in m
  {
    if order == [] then []
    else
      var l := m[order[|order| - 1]];
      FetchAll(m, order[..|order| - 1], remote) + FetchEvents(l.linkId, remote.search(l.Hashtag()))
  }

  /** Fetching from one more link appends that link's deliveries. */
  lemma FetchAllSnoc(m: map<LinkId, Link>, order: seq<LinkId>, k: LinkId, remote: Remote)
    requires forall j :: j in order ==> j in m
    requires k in m
    ensures FetchAll(m, order + [k], remote)
            == FetchAll(m, order, remote) + FetchEvents(m[k].linkId, remote.search(m[k].Hashtag()))
  {
    assert (order + [k])[..|order|] == order;
  }

  class PluginMastodon {
    const channel: ChannelProperties
    const serverHandle: Handle
    const tokenHandle: Handle
    /** The `maxTries` a freshly generated address carries. */
    const defaultMaxTries: int
    const links: LinkMap

    var actionToLinkIdMap: map<ActionId, LinkId>
    var contentTypeMap: map<ActionId, string>
    var nextAvailableHashTag: nat
    /** The counter values already turned into hashtags. */
    ghost var issued: set<nat>

    var serverReceived: bool
    var tokenReceived: bool
    var mastodonServer: string
    var accessToken: string
    var client: Option<Credentials>

    ghost predicate Valid()
      reads this, links, links.links.Values
    {
      && links.Valid()
      && (forall k :: k in links.links ==> links.links[k].Valid())
      && actionToLinkIdMap.Keys == contentTypeMap.Keys
      && (forall n :: n in issued ==> n < nextAvailableHashTag)
      && (client.Some? <==> serverReceived && tokenReceived)
    }

    /** Every link's staging table is as it was. */
    twostate predicate QueuesUnchanged()
      reads this, links, links.links.Values
    {
      forall k :: k in old(links.links) ==> k in links.links && links.links[k].contentQueue == old(links.links[k].contentQueue)
    }

    /** Every link's staging table but the one filed under `id` is as it was. */
    twostate predicate OtherQueuesUnchanged(id: LinkId)
      reads this, links, links.links.Values
    {
      forall k :: k in old(links.links) && k != id ==>
        k in links.links && links.links[k].contentQueue == old(links.links[k].contentQueue)
    }

    /** The registry respects a positive link limit. */
    ghost predicate WithinLimit()
      reads this, links
    {
      channel.maxLinks > 0 ==> |links.links| <= channel.maxLinks
    }

    constructor (channel: ChannelProperties, serverHandle: Handle, tokenHandle: Handle,
                 defaultMaxTries: int, firstHashTag: nat)
      ensures Valid() && fresh(links)
      ensures this.channel == channel && this.serverHandle == serverHandle && this.tokenHandle == tokenHandle
      ensures this.defaultMaxTries == defaultMaxTries && nextAvailableHashTag == firstHashTag
      ensures links.links == map[] && actionToLinkIdMap == map[] && contentTypeMap == map[]
      ensures !serverReceived && !tokenReceived && client == None
    {
      this.channel := channel;
      this.serverHandle := serverHandle;
      this.tokenHandle := tokenHandle;
      this.defaultMaxTries := defaultMaxTries;
      links := new LinkMap();
      actionToLinkIdMap := map[];
      contentTypeMap := map[];
      nextAvailableHashTag := firstHashTag;
      issued := {};
      serverReceived, tokenReceived := false, false;
      mastodonServer, accessToken := "", "";
      client := None;
    }

    /**
     * Receives one of the two requested inputs. The client is built, and the
     * component reported started, the first time both have arrived.
     */
    method OnUserInputReceived(handle: Handle, answered: bool, response: string)
      returns (status: ComponentStatus, events: seq<Event>)
      requires Valid()
      modifies this`serverReceived, this`tokenReceived, this`mastodonServer, this`accessToken, this`client
      ensures Valid()
      ensures status == ComponentOk <==> answered && (handle == serverHandle || handle == tokenHandle)
      ensures status != ComponentOk ==>
                status == ComponentError && events == []
                && serverReceived == old(serverReceived) && tokenReceived == old(tokenReceived)
                && mastodonServer == old(mastodonServer) && accessToken == old(accessToken) && client == old(client)
      ensures status == ComponentOk && handle == serverHandle ==>
                serverReceived && mastodonServer == response
                && tokenReceived == old(tokenReceived) && accessToken == old(accessToken)
      ensures status == ComponentOk && handle != serverHandle ==>
                tokenReceived && accessToken == response
                && serverReceived == old(serverReceived) && mastodonServer == old(mastodonServer)
      ensures old(client).Some? ==> client == old(client) && events == []
      ensures old(client).None? && client.Some? ==>
                client.value == Credentials(mastodonServer, accessToken) && events == [StateUpdated(StateStarted)]
      ensures client.None? ==> events == []
    {
      events := [];
      if !answered {
        return ComponentError, events;
      }
      if handle == serverHandle {
        mastodonServer := response;
        serverReceived := true;
      } else if handle == tokenHandle {
        accessToken := response;
        tokenReceived := true;
      } else {
        return ComponentError, events;
      }
      if serverReceived && tokenReceived && client.None? {
        client := Some(Credentials(mastodonServer, accessToken));
        events := [StateUpdated(StateStarted)];
      }
      status := ComponentOk;
    }

    /** The guard before creating or loading a link; a refusal reports the link destroyed. */
    method PreLinkCreate(handle: Handle, linkId: LinkId, invalidSide: LinkSide)
      returns (ok: bool, events: seq<Event>)
      ensures ok <==> CanCreateLink(|links.links|, channel.maxLinks, channel.linkSide, invalidSide)
      ensures ok ==> events == []
      ensures !ok ==> events == [LinkStatusChanged(handle, linkId, LinkDestroyed)]
      ensures ok && channel.maxLinks > 0 ==> |links.links| < channel.maxLinks
    {
      var numLinks := links.Size();
      if channel.maxLinks > 0 && numLinks >= channel.maxLinks {
        return false, [LinkStatusChanged(handle, linkId, LinkDestroyed)];
      }
      if channel.linkSide == LsUndef || channel.linkSide == invalidSide {
        return false, [LinkStatusChanged(handle, linkId, LinkDestroyed)];
      }
      ok, events := true, [];
    }

    /** Files a newly built link and reports its status; a missing link is reported destroyed. */
    method PostLinkCreate(handle: Handle, linkId: LinkId, link: Link?, linkStatus: LinkStatus)
      returns (status: ComponentStatus, events: seq<Event>)
      requires Valid()
      requires link != null ==> link.Valid()
      modifies links
      ensures Valid()
      ensures link == null ==>
                status == ComponentError && events == [LinkStatusChanged(handle, linkId, LinkDestroyed)]
                && links.links == old(links.links)
      ensures link != null ==>
                status == ComponentOk && events == [LinkStatusChanged(handle, linkId, linkStatus)]
                && links.links == old(links.links)[link.linkId := link]
    {
      if link == null {
        return ComponentError, [LinkStatusChanged(handle, linkId, LinkDestroyed)];
      }
      links.Add(link);
      status, events := ComponentOk, [LinkStatusChanged(handle, linkId, linkStatus)];
    }

    /** Filing one more link after the guard keeps the registry within its limit. */
    lemma AddKeepsWithinLimit(m: map<LinkId, Link>, k: LinkId, l: Link)
      requires channel.maxLinks > 0 ==> |m| < channel.maxLinks
      ensures channel.maxLinks > 0 ==> |m[k := l]| <= channel.maxLinks
    {
      if k in m {
        assert m[k := l].Keys == m.Keys;
      } else {
        assert m[k := l].Keys == m.Keys + {k};
      }
    }

    /**
     * Creates a link under a freshly generated address: the hashtag is
     * "pqrstuv" followed by the counter, which then advances, so no
     * generated hashtag is ever handed out twice.
     */
    method CreateLink(handle: Handle, linkId: LinkId, now: real) returns (status: ComponentStatus, events: seq<Event>)
      requires Valid()
      modifies this`nextAvailableHashTag, this`issued, links
      ensures Valid()
      ensures old(WithinLimit()) ==> WithinLimit()
      ensures !CanCreateLink(old(|links.links|), channel.maxLinks, channel.linkSide, LsLoader) ==>
                && status == ComponentError && events == [LinkStatusChanged(handle, linkId, LinkDestroyed)]
                && links.links == old(links.links) && nextAvailableHashTag == old(nextAvailableHashTag)
      ensures CanCreateLink(old(|links.links|), channel.maxLinks, channel.linkSide, LsLoader) ==>
                && status == ComponentOk && events == [LinkStatusChanged(handle, linkId, LinkCreated)]
                && nextAvailableHashTag == old(nextAvailableHashTag) + 1
                && linkId in links.links && fresh(links.links[linkId])
                && links.links == old(links.links)[linkId := links.links[linkId]]
                && links.links[linkId].address
                   == LinkAddress(GeneratedHashtag(old(nextAvailableHashTag)), defaultMaxTries, now)
                && links.links[linkId].contentQueue == map[]
                && (forall n :: n in old(issued) ==> GeneratedHashtag(n) != links.links[linkId].address.hashtag)
    {
      var ok;
      ok, events := PreLinkCreate(handle, linkId, LsLoader);
      if !ok {
        return ComponentError, events;
      }
      var counter := nextAvailableHashTag;
      var address := LinkAddress(GeneratedHashtag(counter), defaultMaxTries, now);
      nextAvailableHashTag := nextAvailableHashTag + 1;
      issued := issued + {counter};
      forall n | n in old(issued)
        ensures GeneratedHashtag(n) != address.hashtag
      {
        GeneratedHashtagsDistinct(n, counter);
      }
      var link := new Link(linkId, address);
      AddKeepsWithinLimit(links.links, linkId, link);
      status, events := PostLinkCreate(handle, linkId, link, LinkCreated);
    }

    /** Loads a link from a serialized address; a refusal by the guard still returns OK. */
    method LoadLinkAddress(handle: Handle, linkId: LinkId, linkAddress: AddressJson)
      returns (status: ComponentStatus, events: seq<Event>)
      requires Valid()
      // an address that does not parse throws out of the call
      requires CanCreateLink(|links.links|, channel.maxLinks, channel.linkSide, LsCreator) ==> linkAddress.Address?
      modifies links
      ensures Valid()
      ensures old(WithinLimit()) ==> WithinLimit()
      ensures status == ComponentOk
      ensures !CanCreateLink(old(|links.links|), channel.maxLinks, channel.linkSide, LsCreator) ==>
                events == [LinkStatusChanged(handle, linkId, LinkDestroyed)] && links.links == old(links.links)
      ensures CanCreateLink(old(|links.links|), channel.maxLinks, channel.linkSide, LsCreator) ==>
                && events == [LinkStatusChanged(handle, linkId, LinkLoaded)]
                && linkId in links.links && fresh(links.links[linkId])
                && links.links == old(links.links)[linkId := links.links[linkId]]
                && links.links[linkId].address == linkAddress.address
                && links.links[linkId].contentQueue == map[]
    {
      var ok;
      ok, events := PreLinkCreate(handle, linkId, LsCreator);
      if !ok {
        return ComponentOk, events;
      }
      var link := new Link(linkId, linkAddress.address);
      AddKeepsWithinLimit(links.links, linkId, link);
      status, events := PostLinkCreate(handle, linkId, link, LinkLoaded);
    }

    /** Loading from several addresses is not supported: the link is reported destroyed. */
    method LoadLinkAddresses(handle: Handle, linkId: LinkId, linkAddresses: seq<string>)
      returns (status: ComponentStatus, events: seq<Event>)
      ensures status == ComponentError
      ensures events == [LinkStatusChanged(handle, linkId, LinkDestroyed)]
    {
      status := ComponentError;
      events := [LinkStatusChanged(handle, linkId, LinkDestroyed)];
    }

    /** Creates a link from a given serialized address; a refusal by the guard still returns OK. */
    method CreateLinkFromAddress(handle: Handle, linkId: LinkId, linkAddress: AddressJson)
      returns (status: ComponentStatus, events: seq<Event>)
      requires Valid()
      // an address that does not parse throws out of the call
      requires CanCreateLink(|links.links|, channel.maxLinks, channel.linkSide, LsLoader) ==> linkAddress.Address?
      modifies links
      ensures Valid()
      ensures old(WithinLimit()) ==> WithinLimit()
      ensures status == ComponentOk
      ensures !CanCreateLink(old(|links.links|), channel.maxLinks, channel.linkSide, LsLoader) ==>
                events == [LinkStatusChanged(handle, linkId, LinkDestroyed)] && links.links == old(links.links)
      ensures CanCreateLink(old(|links.links|), channel.maxLinks, channel.linkSide, LsLoader) ==>
                && events == [LinkStatusChanged(handle, linkId, LinkCreated)]
                && linkId in links.links && fresh(links.links[linkId])
                && links.links == old(links.links)[linkId := links.links[linkId]]
                && links.links[linkId].address == linkAddress.address
                && links.links[linkId].contentQueue == map[]
    {
      var ok;
      ok, events := PreLinkCreate(handle, linkId, LsLoader);
      if !ok {
        return ComponentOk, events;
      }
      var link := new Link(linkId, linkAddress.address);
      AddKeepsWithinLimit(links.links, linkId, link);
      status, events := PostLinkCreate(handle, linkId, link, LinkCreated);
    }

    /** Removes a link; an unknown id is an error that leaves the registry alone. */
    method DestroyLink(handle: Handle, linkId: LinkId) returns (status: ComponentStatus)
      requires Valid()
      modifies links
      ensures Valid()
      ensures old(WithinLimit()) ==> WithinLimit()
      ensures linkId in old(links.links) ==> status == ComponentOk && links.links == old(links.links) - {linkId}
      ensures linkId !in old(links.links) ==> status == ComponentError && links.links == old(links.links)
    {
      var link := links.Remove(linkId);
      if link == null {
        return ComponentError;
      }
      status := ComponentOk;
    }

    /**
     * Stages encoded content for an action. Empty content is skipped. Any
     * other content binds the action to the parameter's link and records its
     * type, whatever the action's type; only a post stages it on the link.
     */
    method EnqueueContent(params: EncodingParameters, action: Action, content: Bytes)
      returns (status: ComponentStatus)
      requires Valid()
      // the link lookup for a post is outside the source's exception handler
      requires content != [] && action.json.Parsed? && action.json.actionType == ActionPost ==>
                 params.linkId in links.links
      modifies this`actionToLinkIdMap, this`contentTypeMap, links.links.Values
      ensures Valid()
      ensures content == [] || !action.json.Parsed? ==>
                && status == (if content == [] then ComponentOk else ComponentError)
                && actionToLinkIdMap == old(actionToLinkIdMap) && contentTypeMap == old(contentTypeMap)
                && QueuesUnchanged()
      ensures content != [] && action.json.Parsed? ==>
                && actionToLinkIdMap == old(actionToLinkIdMap)[action.actionId := params.linkId]
                && contentTypeMap == old(contentTypeMap)[action.actionId := params.contentType]
      ensures content != [] && action.json.Parsed? && action.json.actionType == ActionFetch ==>
                status == ComponentOk && QueuesUnchanged()
      ensures content != [] && action.json.Parsed? && action.json.actionType == ActionUndef ==>
                status == ComponentError && QueuesUnchanged()
      ensures content != [] && action.json.Parsed? && action.json.actionType == ActionPost ==>
                && Staged(status, links.links[params.linkId].contentQueue)
                   == Enqueue(old(links.links[params.linkId].contentQueue), action.actionId, content, params.contentType)
                && OtherQueuesUnchanged(params.linkId)
    {
      if content == [] {
        return ComponentOk;
      }
      if !action.json.Parsed? {
        return ComponentError;
      }
      actionToLinkIdMap := actionToLinkIdMap[action.actionId := params.linkId];
      contentTypeMap := contentTypeMap[action.actionId := params.contentType];
      match action.json.actionType {
        case ActionFetch =>
          status := ComponentOk;
        case ActionPost =>
          var link := links.Get(params.linkId);
          status := link.EnqueueContent(action.actionId, content, params.contentType);
        case ActionUndef =>
          status := ComponentError;
      }
    }

    /**
     * Drops an action's staged content. A "*" action is resolved through its
     * binding; with no binding the call fails and nothing changes. Otherwise
     * both tracking entries go, and a post drops the entry on its link.
     */
    method DequeueContent(action: Action) returns (status: ComponentStatus)
      requires Valid()
      modifies this`actionToLinkIdMap, this`contentTypeMap, links.links.Values
      ensures Valid()
      ensures !action.json.Parsed? ==>
                status == ComponentError && QueuesUnchanged()
                && actionToLinkIdMap == old(actionToLinkIdMap) && contentTypeMap == old(contentTypeMap)
      ensures action.json.Parsed? && ResolveLink(old(actionToLinkIdMap), action.actionId, action.json.target).None? ==>
                status == ComponentError && QueuesUnchanged()
                && actionToLinkIdMap == old(actionToLinkIdMap) && contentTypeMap == old(contentTypeMap)
      ensures action.json.Parsed? && ResolveLink(old(actionToLinkIdMap), action.actionId, action.json.target).Some? ==>
                var linkId := ResolveLink(old(actionToLinkIdMap), action.actionId, action.json.target).value;
                && actionToLinkIdMap == old(actionToLinkIdMap) - {action.actionId}
                && contentTypeMap == old(contentTypeMap) - {action.actionId}
                && (action.json.actionType != ActionPost ==> status == ComponentOk && QueuesUnchanged())
                && (action.json.actionType == ActionPost && linkId !in links.links ==>
                      status == ComponentError && QueuesUnchanged())
                && (action.json.actionType == ActionPost && linkId in links.links ==>
                      && status == ComponentOk
                      && links.links[linkId].contentQueue
                         == Dequeue(old(links.links[linkId].contentQueue), action.actionId)
                      && OtherQueuesUnchanged(linkId))
    {
      if !action.json.Parsed? {
        return ComponentError;
      }
      var linkId: LinkId;
      if action.json.target == Wildcard {
        if action.actionId !in actionToLinkIdMap {
          return ComponentError;
        }
        linkId := actionToLinkIdMap[action.actionId];
      } else {
        linkId := action.json.target;
      }
      actionToLinkIdMap := actionToLinkIdMap - {action.actionId};
      contentTypeMap := contentTypeMap - {action.actionId};
      if action.json.actionType == ActionPost {
        if linkId !in links.links {
          return ComponentError;
        }
        var link := links.Get(linkId);
        status := link.DequeueContent(action.actionId);
      } else {
        status := ComponentOk;
      }
    }

    /**
     * Fetches from every registered link, in the snapshot's order. The
     * outcome follows the fan-out policy: FATAL stops at once, otherwise the
     * last failure seen, otherwise OK.
     */
    method FetchFromAllLinks(remote: Remote)
      returns (status: ComponentStatus, events: seq<Event>, ghost order: seq<LinkId>)
      ensures status == ComponentOk
      ensures Enumerates(order, links.links)
      ensures events == FetchAll(links.links, order, remote)
    {
      var snapshot := links.GetMap();
      var remaining := snapshot.Keys;
      status, events, order := ComponentOk, [], [];
      ghost var statuses: seq<ComponentStatus> := [];
      while remaining != {} && status != ComponentFatal
        invariant remaining <= snapshot.Keys
        invariant forall k :: k in snapshot <==> k in order || k in remaining
        invariant forall k :: k in order ==> k !in remaining
        invariant forall i, j :: 0 <= i < j < |order| ==> order[i] != order[j]
        invariant events == FetchAll(snapshot, order, remote)
        invariant status == FanOut(statuses)
        invariant forall i :: 0 <= i < |statuses| ==> statuses[i] == ComponentOk
        decreases remaining
      {
        var linkId :| linkId in remaining;
        var thisStatus, delivered := snapshot[linkId].Fetch(remote);
        FetchAllSnoc(snapshot, order, linkId, remote);
        FanOutSnoc(statuses, thisStatus);
        events := events + delivered;
        status := FanOutStep(status, thisStatus);
        statuses := statuses + [thisStatus];
        order := order + [linkId];
        remaining := remaining - {linkId};
      }
      FanOutAllOk(statuses);
    }

    /**
     * A fetch action: drops the action's tracking entries and fetches from
     * its link, or from every link for "*"; an unknown link is an error.
     */
    method DoFetch(actionId: ActionId, target: LinkId, remote: Remote)
      returns (status: ComponentStatus, events: seq<Event>, ghost order: seq<LinkId>)
      requires Valid()
      modifies this`actionToLinkIdMap, this`contentTypeMap
      ensures Valid()
      ensures actionToLinkIdMap == old(actionToLinkIdMap) - {actionId}
      ensures contentTypeMap == old(contentTypeMap) - {actionId}
      ensures target == Wildcard ==>
                status == ComponentOk && Enumerates(order, links.links) && events == FetchAll(links.links, order, remote)
      ensures target != Wildcard && target !in links.links ==> status == ComponentError && events == []
      ensures target != Wildcard && target in links.links ==>
                var l := links.links[target];
                status == ComponentOk && events == FetchEvents(l.linkId, remote.search(l.Hashtag()))
    {
      order, events := [], [];
      actionToLinkIdMap := actionToLinkIdMap - {actionId};
      contentTypeMap := contentTypeMap - {actionId};
      if target == Wildcard {
        status, events, order := FetchFromAllLinks(remote);
      } else if target !in links.links {
        status := ComponentError;
      } else {
        var link := links.Get(target);
        status, events := link.Fetch(remote);
      }
    }

    /**
     * A post action: resolves "*" through the binding (none: nothing to
     * send, OK), drops both tracking entries and commits the staged content
     * on the resolved link; an unknown link is an error.
     */
    method DoPost(handles: seq<Handle>, actionId: ActionId, target: LinkId, remote: Remote)
      returns (status: ComponentStatus, events: seq<Event>)
      requires Valid()
      modifies this`actionToLinkIdMap, this`contentTypeMap, links.links.Values
      ensures Valid()
      ensures ResolveLink(old(actionToLinkIdMap), actionId, target).None? ==>
                status == ComponentOk && events == [] && QueuesUnchanged()
                && actionToLinkIdMap == old(actionToLinkIdMap)
                && contentTypeMap == old(contentTypeMap) - {actionId}
      ensures ResolveLink(old(actionToLinkIdMap), actionId, target).Some? ==>
                var linkId := ResolveLink(old(actionToLinkIdMap), actionId, target).value;
                && actionToLinkIdMap == old(actionToLinkIdMap) - {actionId}
                && contentTypeMap == old(contentTypeMap) - {actionId}
                && (linkId !in links.links ==> status == ComponentError && events == [] && QueuesUnchanged())
                && (linkId in links.links ==>
                      var l := links.links[linkId];
                      var r := PostOutcome(old(l.contentQueue), actionId, handles, l.Hashtag(), remote.accepts);
                      && status == r.status && events == r.events && l.contentQueue == r.queue
                      && (actionId in old(l.contentQueue) ==> r.call.Some?)
                      && OtherQueuesUnchanged(linkId))
    {
      events := [];
      var linkId := target;
      if linkId == Wildcard {
        if actionId !in actionToLinkIdMap {
          contentTypeMap := contentTypeMap - {actionId};
          return ComponentOk, events;
        }
        linkId := actionToLinkIdMap[actionId];
      }
      status, events := PostOnLink(handles, actionId, linkId, remote);
    }

    /** Drops both tracking entries of an action and commits its content on link `linkId`. */
    method PostOnLink(handles: seq<Handle>, actionId: ActionId, linkId: LinkId, remote: Remote)
      returns (status: ComponentStatus, events: seq<Event>)
      requires Valid()
      modifies this`actionToLinkIdMap, this`contentTypeMap, links.links.Values
      ensures Valid()
      ensures actionToLinkIdMap == old(actionToLinkIdMap) - {actionId}
      ensures contentTypeMap == old(contentTypeMap) - {actionId}
      ensures linkId !in links.links ==> status == ComponentError && events == [] && QueuesUnchanged()
      ensures linkId in links.links ==>
                var l := links.links[linkId];
                var r := PostOutcome(old(l.contentQueue), actionId, handles, l.Hashtag(), remote.accepts);
                && status == r.status && events == r.events && l.contentQueue == r.queue
                && (actionId in old(l.contentQueue) ==> r.call.Some?)
                && OtherQueuesUnchanged(linkId)
    {
      events := [];
      actionToLinkIdMap := actionToLinkIdMap - {actionId};
      contentTypeMap := contentTypeMap - {actionId};
      if linkId !in links.links {
        return ComponentError, events;
      }
      var link := links.Get(linkId);
      var call;
      status, call, events := link.Post(handles, actionId, remote);
    }

    /**
     * Performs an action: a fetch or a post as above; an empty or malformed
     * payload, or an unknown action type, is an error that changes nothing.
     */
    method DoAction(handles: seq<Handle>, action: Action, remote: Remote)
      returns (status: ComponentStatus, events: seq<Event>, ghost order: seq<LinkId>)
      requires Valid()
      modifies this`actionToLinkIdMap, this`contentTypeMap, links.links.Values
      ensures Valid()
      ensures !action.json.Parsed? || action.json.actionType == ActionUndef ==>
                status == ComponentError && events == [] && QueuesUnchanged()
                && actionToLinkIdMap == old(actionToLinkIdMap) && contentTypeMap == old(contentTypeMap)
      ensures action.json.Parsed? && action.json.actionType == ActionFetch ==>
                && actionToLinkIdMap == old(actionToLinkIdMap) - {action.actionId}
                && contentTypeMap == old(contentTypeMap) - {action.actionId}
                && QueuesUnchanged()
      ensures action.json.Parsed? && action.json.actionType == ActionFetch && action.json.target == Wildcard ==>
                status == ComponentOk && Enumerates(order, links.links)
                && events == FetchAll(links.links, order, remote)
      ensures action.json.Parsed? && action.json.actionType == ActionFetch && action.json.target != Wildcard ==>
                (action.json.target !in links.links ==> status == ComponentError && events == [])
                && (action.json.target in links.links ==>
                      var l := links.links[action.json.target];
                      status == ComponentOk && events == FetchEvents(l.linkId, remote.search(l.Hashtag())))
      ensures action.json.Parsed? && action.json.actionType == ActionPost
              && ResolveLink(old(actionToLinkIdMap), action.actionId, action.json.target).None? ==>
                status == ComponentOk && events == [] && QueuesUnchanged()
                && actionToLinkIdMap == old(actionToLinkIdMap)
                && contentTypeMap == old(contentTypeMap) - {action.actionId}
      ensures action.json.Parsed? && action.json.actionType == ActionPost
              && ResolveLink(old(actionToLinkIdMap), action.actionId, action.json.target).Some? ==>
                var linkId := ResolveLink(old(actionToLinkIdMap), action.actionId, action.json.target).value;
                && actionToLinkIdMap == old(actionToLinkIdMap) - {action.actionId}
                && contentTypeMap == old(contentTypeMap) - {action.actionId}
                && (linkId !in links.links ==> status == ComponentError && events == [] && QueuesUnchanged())
                && (linkId in links.links ==>
                      var l := links.links[linkId];
                      var r := PostOutcome(old(l.contentQueue), action.actionId, handles, l.Hashtag(), remote.accepts);
                      && status == r.status && events == r.events && l.contentQueue == r.queue
                      && (action.actionId in old(l.contentQueue) ==> r.call.Some?)
                      && OtherQueuesUnchanged(linkId))
    {
      order, events := [], [];
      if !action.json.Parsed? {
        return ComponentError, events, order;
      }
      match action.json.actionType {
        case ActionFetch =>
          status, events, order := DoFetch(action.actionId, action.json.target, remote);
        case ActionPost =>
          status, events := DoPost(handles, action.actionId, action.json.target, remote);
        case ActionUndef =>
          status := ComponentError;
      }
    }
  }
}

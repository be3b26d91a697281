/**
 * The registry of active links, keyed by link id. The source guards every
 * operation with one mutex; the model is sequential, so the lock is gone.
 */
module Registry {
  import opened Sdk
  import opened Links

  class LinkMap {
    var links: map<LinkId, Link>

    /** Every link is filed under its own id. */
    ghost predicate Valid()
      reads this
    {
      forall id :: id in links ==> links[id].linkId == id
    }

    constructor ()
      ensures links == map[] && Valid()
    {
      links := map[];
    }

    method Size() returns (n: int)
      ensures n == |links.Keys|
    {
      n := |links|;
    }

    method Clear()
      modifies this
      ensures links == map[] && Valid()
    {
      links := map[];
    }

    /** Files `link` under its id, replacing any link already filed there. */
    method Add(link: Link)
      modifies this
      ensures links == old(links)[link.linkId := link]
      ensures link.linkId in links && links[link.linkId] == link
      ensures old(Valid()) ==> Valid()
    {
      links := links[link.linkId := link];
    }

    /** Looking up a missing id throws in the source; callers must not do it. */
    method Get(id: LinkId) returns (link: Link)
      requires id in links
      ensures link == links[id]
      ensures Valid() ==> link.linkId == id
    {
      link := links[id];
    }

    /** A snapshot of the registry; it does not change the registry. */
    method GetMap() returns (m: map<LinkId, Link>)
      ensures m == links
    {
      m := links;
    }

    /** Removes and returns the link filed under `id`, or returns null when there is none. */
    method Remove(id: LinkId) returns (link: Link?)
      modifies this
      ensures id in old(links) ==> link == old(links)[id] && links == old(links) - {id}
      ensures id !in old(links) ==> link == null && links == old(links)
      ensures old(Valid()) ==> Valid()
    {
      link := null;
      if id in links {
        link := links[id];
        links := links - {id};
      }
    }
  }
}

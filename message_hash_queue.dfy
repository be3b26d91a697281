/**
 * A bounded record of the hashes of recently seen messages, oldest first.
 * Adding trims the oldest hash only once the record already holds more than
 * `max`, so it holds at most `max + 1`. Lookups find the first (oldest)
 * occurrence of a hash.
 */
module HashQueue {

  /** Where a linear search from the front stops: the first index holding `h`, or `|q|`. */
  function Find(q: seq<nat>, h: nat): (i: nat)
    ensures i <= |q|
    ensures i < |q| <==> h in q
    ensures i < |q| ==> q[i] == h
    ensures forall j :: 0 <= j < i ==> q[j] != h
  {
    if q == [] then 0
    else if q[0] == h then 0
    else 1 + Find(q[1..], h)
  }

  /** The three properties of a search result pin it down. */
  lemma {:induction false} FindCharacterized(q: seq<nat>, h: nat, i: nat)
    requires i <= |q|
    requires i < |q| ==> q[i] == h
    requires forall j :: 0 <= j < i ==> q[j] != h
    ensures i == Find(q, h)
  {
    if q != [] && q[0] != h {
      FindCharacterized(q[1..], h, i - 1);
    }
  }

  /** `q` without the first occurrence of `h`; unchanged when `h` is absent. */
  function RemoveFirst(q: seq<nat>, h: nat): seq<nat>
  {
    var i := Find(q, h);
    if i < |q| then q[..i] + q[i + 1..] else q
  }

  /** Removing the first occurrence takes exactly one copy of `h` out, and only when there is one. */
  lemma RemoveFirstCount(q: seq<nat>, h: nat)
    ensures h in q ==> multiset(RemoveFirst(q, h)) == multiset(q) - multiset{h}
    ensures h !in q ==> RemoveFirst(q, h) == q
    ensures h in q ==> |RemoveFirst(q, h)| == |q| - 1
  {
    var i := Find(q, h);
    if i < |q| {
      assert q == q[..i] + [q[i]] + q[i + 1..];
    }
  }

  /** The record after one addition: trim the front when over `max`, then append. */
  function Added(q: seq<nat>, max: nat, h: nat): seq<nat>
  {
    (if |q| > max then q[1..] else q) + [h]
  }

  /**
   * Adding keeps the record within `max + 1`, ends it with the new hash and
   * keeps the newest hashes that were already there, in order.
   */
  lemma AddedKeepsNewest(q: seq<nat>, max: nat, h: nat)
    requires |q| <= max + 1
    ensures var r := Added(q, max, h);
            && |r| <= max + 1
            && |r| == (if |q| > max then |q| else |q| + 1)
            && r[|r| - 1] == h
            && r[..|r| - 1] == q[|q| + 1 - |r|..]
  {
  }

  class MessageHashQueue {
    const max: nat
    /** The message hash; the standard library's string hash is not modelled, only that it is a function. */
    const hash: string -> nat
    var queue: seq<nat>

    ghost predicate Valid()
      reads this
    {
      |queue| <= max + 1
    }

    constructor (max: nat, hash: string -> nat)
      ensures this.max == max && this.hash == hash
      ensures queue == [] && Valid()
    {
      this.max := max;
      this.hash := hash;
      queue := [];
    }

    /** A linear search from the front, as the source's lookups do. */
    method IndexOf(h: nat) returns (i: nat)
      ensures i == Find(queue, h)
    {
      i := 0;
      while i < |queue| && queue[i] != h
        invariant i <= |queue|
        invariant forall j :: 0 <= j < i ==> queue[j] != h
      {
        i := i + 1;
      }
      FindCharacterized(queue, h, i);
    }

    method AddMessage(message: string) returns (msgHash: nat)
      requires Valid()
      modifies this
      ensures Valid()
      ensures msgHash == hash(message)
      ensures queue == Added(old(queue), max, msgHash)
    {
      if |queue| > max {
        queue := queue[1..];
      }
      msgHash := hash(message);
      queue := queue + [msgHash];
    }

    method RemoveHash(h: nat)
      requires Valid()
      modifies this
      ensures Valid()
      ensures queue == RemoveFirst(old(queue), h)
    {
      var i := IndexOf(h);
      if i < |queue| {
        queue := queue[..i] + queue[i + 1..];
      }
    }

    /** Finds a message's hash and drops it together with every older hash. */
    method FindAndRemoveMessage(message: string) returns (found: bool)
      requires Valid()
      modifies this
      ensures Valid()
      ensures found <==> hash(message) in old(queue)
      ensures found ==> queue == old(queue)[Find(old(queue), hash(message)) + 1..]
      ensures !found ==> queue == old(queue)
    {
      var i := IndexOf(hash(message));
      found := i < |queue|;
      if found {
        queue := queue[i + 1..];
      }
    }
  }

  /** A message just added is found, and finding it empties the record up to and including it. */
  lemma AddedThenFound(q: seq<nat>, max: nat, h: nat)
    requires h !in q
    ensures var r := Added(q, max, h);
            h in r && Find(r, h) == |r| - 1 && r[Find(r, h) + 1..] == []
  {
    var r := Added(q, max, h);
    FindCharacterized(r, h, |r| - 1);
  }
}

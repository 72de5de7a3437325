/** The hash of requests by end sector (block/elevator.c): a lookup finds what a scan of all sorted requests would. */
module MergeHash {
  import opened Basics

  function Bucket(buckets: map<nat, seq<nat>>, k: nat): seq<nat> { if k in buckets then buckets[k] else [] }

  /** A request on the hash is in the bucket of its end sector. */
  ghost predicate Placed(h: nat -> nat, buckets: map<nat, seq<nat>>, queued: set<nat>, end: map<nat, nat>) {
    && queued <= end.Keys
    && (forall k :: k in buckets ==> NoDup(buckets[k]))
    && (forall k, x :: k in buckets && x in buckets[k] ==> x in queued && x in end && h(end[x]) == k)
  }

  /** Every mergeable request, but for `hole`, is on the hash. */
  ghost predicate Complete(h: nat -> nat, buckets: map<nat, seq<nat>>, queued: set<nat>, end: map<nat, nat>,
                           mergeable: set<nat>, hole: Option<nat>) {
    && queued <= end.Keys
    && forall x :: x in queued && x in mergeable && Some(x) != hole ==> x in Bucket(buckets, h(end[x]))
  }

  predicate Absent(buckets: map<nat, seq<nat>>, x: nat) { forall k :: k in buckets ==> x !in buckets[k] }

  lemma Added(h: nat -> nat, buckets: map<nat, seq<nat>>, queued: set<nat>, end: map<nat, nat>, mergeable: set<nat>,
              x: nat)
    requires Placed(h, buckets, queued, end) && Complete(h, buckets, queued, end, mergeable, Some(x))
    requires Absent(buckets, x) && x in queued
    ensures var b := buckets[h(end[x]) := [x] + Bucket(buckets, h(end[x]))];
            Placed(h, b, queued, end) && Complete(h, b, queued, end, mergeable, None)
  {
  }

  lemma Dropped(h: nat -> nat, buckets: map<nat, seq<nat>>, queued: set<nat>, end: map<nat, nat>, mergeable: set<nat>,
                k: nat, i: nat)
    requires Placed(h, buckets, queued, end) && Complete(h, buckets, queued, end, mergeable, None)
    requires k in buckets && i < |buckets[k]|
    ensures var x := buckets[k][i]; var b := buckets[k := buckets[k][..i] + buckets[k][i + 1..]];
            Placed(h, b, queued, end) && Complete(h, b, queued, end, mergeable, Some(x)) && Absent(b, x)
  {
    DropOne(buckets[k], i);
    var x := buckets[k][i];
    assert x in buckets[k] && h(end[x]) == k;
    var b := buckets[k := buckets[k][..i] + buckets[k][i + 1..]];
    forall j | j in b ensures x !in b[j] {
      assert j != k ==> b[j] == buckets[j];
    }
  }

  class RqHash {
    /** ELV_HASH_FN, an arbitrary function. */
    const h: nat -> nat
    var buckets: map<nat, seq<nat>>
    /** The requests the scheduler holds, their end sectors, and those that rq_mergeable admits. */
    var queued: set<nat>
    var end: map<nat, nat>
    var mergeable: set<nat>

    ghost predicate Valid()
      reads this
    {
      Placed(h, buckets, queued, end) && Complete(h, buckets, queued, end, mergeable, None)
    }

    constructor (h: nat -> nat)
      ensures Valid() && queued == {}
    {
      this.h := h;
      buckets, queued, end, mergeable := map[], {}, map[], {};
    }

    /** ELV_ON_HASH. */
    predicate OnHash(x: nat)
      reads this
    {
      x in end && x in Bucket(buckets, h(end[x]))
    }

    /** elv_insert for a sorted request. */
    method Insert(x: nat, e: nat, ok: bool)
      requires Valid() && x !in queued
      modifies this
      ensures Valid() && queued == old(queued) + {x} && end == old(end)[x := e]
      ensures mergeable == if ok then old(mergeable) + {x} else old(mergeable) - {x}
      ensures OnHash(x) == ok
    {
      queued, end := queued + {x}, end[x := e];
      mergeable := if ok then mergeable + {x} else mergeable - {x};
      if ok { Add(x); }
    }

    /** elv_rqhash_add. */
    method Add(x: nat)
      requires Placed(h, buckets, queued, end) && Complete(h, buckets, queued, end, mergeable, Some(x))
      requires Absent(buckets, x) && x in queued
      modifies `buckets
      ensures Valid() && OnHash(x)
    {
      var k := h(end[x]);
      Added(h, buckets, queued, end, mergeable, x);
      buckets := buckets[k := [x] + Bucket(buckets, k)];
    }

    /** __elv_rqhash_del. */
    method Del(x: nat)
      requires Valid() && OnHash(x)
      modifies `buckets
      ensures Placed(h, buckets, queued, end) && Complete(h, buckets, queued, end, mergeable, Some(x))
              && Absent(buckets, x)
    {
      var k := h(end[x]);
      var s := Bucket(buckets, k);
      var i := 0;
      while s[i] != x
        invariant i < |s| && x in s[i..]
        decreases |s| - i
      {
        i := i + 1;
      }
      Dropped(h, buckets, queued, end, mergeable, k, i);
      buckets := buckets[k := s[..i] + s[i + 1..]];
    }

    /** elv_rqhash_reposition after a merge has moved the end of x to sector e. */
    method Reposition(x: nat, e: nat)
      requires Valid() && x in queued
      modifies `buckets, `end
      ensures Valid() && end == old(end)[x := e] && OnHash(x)
    {
      if OnHash(x) { Del(x); }
      end := end[x := e];
      Add(x);
    }

    /** elv_rqhash_del for a request that leaves the scheduler: dispatched, or merged into another. */
    method Leave(x: nat)
      requires Valid() && x in queued
      modifies `buckets, `queued
      ensures Valid() && queued == old(queued) - {x} && Absent(buckets, x)
    {
      if OnHash(x) { Del(x); }
      queued := queued - {x};
    }

    /** REQ_NOMERGE, or another flag that stops merging, is set. */
    method StopMerging(x: nat)
      requires Valid()
      modifies `mergeable
      ensures Valid() && mergeable == old(mergeable) - {x}
    {
      mergeable := mergeable - {x};
    }

    /** elv_rqhash_find: a mergeable request ending at `offset`, if there is one at all; requests that cannot be merged
        are dropped from the bucket on the way. */
    method Find(offset: nat) returns (r: Option<nat>)
      requires Valid()
      modifies `buckets
      ensures Valid()
      ensures r != None ==> r.value in queued && r.value in mergeable && end[r.value] == offset
      ensures r == None ==> forall x :: x in queued && x in mergeable ==> end[x] != offset
    {
      var k := h(offset);
      var i := 0;
      while i < |Bucket(buckets, k)|
        invariant Valid() && i <= |Bucket(buckets, k)|
        invariant forall x :: x in Bucket(buckets, k)[..i] && x in mergeable ==> x in end && end[x] != offset
        decreases |Bucket(buckets, k)| - i
      {
        var x := buckets[k][i];
        assert x in buckets[k];
        if x !in mergeable {
          DropAt(k, i);
          continue;
        }
        if end[x] == offset { return Some(x); }
        i := i + 1;
      }
      assert Bucket(buckets, k)[..i] == Bucket(buckets, k);
      return None;
    }

    method DropAt(k: nat, i: nat)
      requires Valid() && k in buckets && i < |buckets[k]| && buckets[k][i] !in mergeable
      modifies `buckets
      ensures Valid() && buckets == old(buckets[k := buckets[k][..i] + buckets[k][i + 1..]])
    {
      Dropped(h, buckets, queued, end, mergeable, k, i);
      buckets := buckets[k := buckets[k][..i] + buckets[k][i + 1..]];
    }
  }
}

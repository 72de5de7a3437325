/** Which bytes are left when a request is completed piece by piece (blk_update_request in block/blk-core.c): what the
    vectors of the bios that are left point to. */
module CompletionData {
  import opened Segments
  import opened Recount
  import opened Completion

  /** One byte in memory. */
  datatype Place = Place(page: nat, offset: nat)

  function VecData(v: Vec): seq<Place> { seq(v.len, i requires 0 <= i < v.len => Place(v.page, v.offset + i)) }

  function Data(vs: seq<Vec>): seq<Place> { if vs == [] then [] else VecData(vs[0]) + Data(vs[1..]) }

  /** The bytes of a chain, in order. */
  function ChainData(bs: seq<Bio>): seq<Place> { if bs == [] then [] else Data(bs[0].vecs) + ChainData(bs[1..]) }

  lemma {:induction false} DataSize(vs: seq<Vec>)
    ensures |Data(vs)| == Sum(vs)
  {
    if vs == [] {
    } else {
      DataSize(vs[1..]);
      SumFront(vs);
    }
  }

  lemma {:induction false} ChainSize(bs: seq<Bio>)
    requires AllFilled(bs)
    ensures |ChainData(bs)| == Total(bs)
  {
    if bs == [] {
    } else {
      assert Filled(bs[0]);
      DataSize(bs[0].vecs);
      ChainSize(bs[1..]);
    }
  }

  lemma DropMore<T>(a: seq<T>, b: seq<T>, n: nat)
    requires |a| <= n <= |a| + |b|
    ensures (a + b)[n..] == b[n - |a|..]
  {
  }

  lemma DropLess<T>(a: seq<T>, b: seq<T>, n: nat)
    requires n <= |a|
    ensures (a + b)[n..] == a[n..] + b
  {
  }

  /** The vectors after n bytes hold the bytes after n. */
  lemma {:induction false} SkipData(vs: seq<Vec>, n: nat)
    requires n <= Sum(vs)
    ensures n <= |Data(vs)| && Data(Skip(vs, n)) == Data(vs)[n..]
  {
    DataSize(vs);
    if vs == [] || n == 0 {
    } else {
      SumFront(vs);
      var v, rest := vs[0], vs[1..];
      if v.len <= n {
        SkipData(rest, n - v.len);
        DropMore(VecData(v), Data(rest), n);
      } else {
        var w := v.(offset := v.offset + n, len := v.len - n);
        assert Skip(vs, n)[0] == w && Skip(vs, n)[1..] == rest;
        assert VecData(w) == VecData(v)[n..];
        DropLess(VecData(v), Data(rest), n);
      }
    }
  }

  lemma {:induction false} AdvanceData(bs: seq<Bio>, n: nat, failed: bool)
    requires AllFilled(bs) && n <= Total(bs)
    ensures n <= |ChainData(bs)| && ChainData(Advance(bs, n, failed).rest) == ChainData(bs)[n..]
  {
    ChainSize(bs);
    if bs == [] {
    } else {
      var b, rest := bs[0], bs[1..];
      assert Filled(b);
      DataSize(b.vecs);
      if n < b.size {
        var r := Advance(bs, n, failed).rest;
        assert r[1..] == rest;
        SkipData(b.vecs, n);
        DropLess(Data(b.vecs), ChainData(rest), n);
      } else {
        AdvanceData(rest, n - b.size, failed);
        DropMore(Data(b.vecs), ChainData(rest), n);
      }
    }
  }

  lemma {:induction false} AdvanceAll(bs: seq<Bio>, n: nat, failed: bool)
    requires Total(bs) <= n
    ensures Advance(bs, n, failed).rest == []
  {
    if bs == [] {
    } else {
      AdvanceAll(bs[1..], n - bs[0].size, failed);
    }
  }

  lemma {:induction false} RunFilled(bs: seq<Bio>, steps: seq<Step>)
    requires AllFilled(bs)
    ensures AllFilled(Run(bs, steps).rest)
  {
    if steps == [] {
    } else {
      RunFilled(bs, Front(steps));
      AdvanceFilled(Run(bs, Front(steps)).rest, Last(steps).bytes, Last(steps).failed);
    }
  }

  /** One more piece, when `done` bytes have been done. */
  lemma StepData(all: seq<Place>, p: seq<Bio>, done: nat, st: Step)
    requires AllFilled(p) && done <= |all| && ChainData(p) == all[done..]
    ensures ChainData(Advance(p, st.bytes, st.failed).rest) == all[Min(done + st.bytes, |all|)..]
  {
    ChainSize(p);
    if st.bytes <= Total(p) {
      AdvanceData(p, st.bytes, st.failed);
    } else {
      AdvanceAll(p, st.bytes, st.failed);
    }
  }

  /** However a request is completed, the bios that are left hold exactly the bytes that are not done, in order. */
  lemma {:induction false} RunData(bs: seq<Bio>, steps: seq<Step>)
    requires AllFilled(bs)
    ensures ChainData(Run(bs, steps).rest) == ChainData(bs)[Min(Bytes(steps), |ChainData(bs)|)..]
  {
    if steps == [] {
    } else {
      RunData(bs, Front(steps));
      RunFilled(bs, Front(steps));
      StepData(ChainData(bs), Run(bs, Front(steps)).rest, Min(Bytes(Front(steps)), |ChainData(bs)|), Last(steps));
    }
  }
}

/** Cutting a sequence into contiguous chunks of bounded size.

    The handlers call `batch.batch_of(messages, max_batch_size)`, whose
    source file is not part of this model. `Chunks` is the conventional
    definition (full chunks first, a shorter last chunk), and
    `ChunksContract` states the contract the framework relies on. */
module Chunking {
  import opened Sequences

  function Chunks<T>(s: seq<T>, n: nat): seq<seq<T>>
    requires n > 0
    decreases |s|
  {
    if |s| == 0 then []
    else if |s| <= n then [s]
    else [s[..n]] + Chunks(s[n..], n)
  }

  /** The chunks, in order, concatenate back to the input; none is empty or
      longer than `n`; only the last may be shorter than `n`; and the empty
      input gives no chunk at all. */
  lemma {:induction false} ChunksContract<T>(s: seq<T>, n: nat)
    requires n > 0
    ensures Flatten(Chunks(s, n)) == s
    ensures forall i :: 0 <= i < |Chunks(s, n)| ==> 0 < |Chunks(s, n)[i]| <= n
    ensures forall i :: 0 <= i < |Chunks(s, n)| - 1 ==> |Chunks(s, n)[i]| == n
    ensures Chunks(s, n) == [] <==> s == []
    decreases |s|
  {
    if |s| > n {
      ChunksContract(s[n..], n);
      var cs := Chunks(s, n);
      assert cs == [s[..n]] + Chunks(s[n..], n);
      assert cs[1..] == Chunks(s[n..], n);
      assert Flatten(cs) == s[..n] + Flatten(Chunks(s[n..], n));
      assert s[..n] + s[n..] == s;
      forall i | 1 <= i < |cs|
        ensures 0 < |cs[i]| <= n
        ensures i < |cs| - 1 ==> |cs[i]| == n
      {
        assert cs[i] == Chunks(s[n..], n)[i - 1];
      }
    } else if |s| > 0 {
      assert Flatten([s]) == s + Flatten([s][1..]);
      assert [s][1..] == [];
    }
  }
}

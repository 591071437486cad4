/** The double-ended queue (`VecDeque`) that backs each direction of a
    channel, seen as a value: a sequence whose index 0 is the oldest
    element. Only the two operations the channel uses are modelled,
    `push_back` and `pop_front`, together with their iterations, which
    describe a run of writes and a run of reads. */
module Queue {

  /** The result of `pop_front`: `None` when the queue was empty. */
  datatype Option<T> = None | Some(value: T)

  /** `push_back`: the queue keeps everything it held, in order, and gains
      `x` as its newest element. */
  function PushBack<T>(q: seq<T>, x: T): (r: seq<T>)
    ensures |r| == |q| + 1
    ensures r[..|q|] == q && r[|q|] == x
  {
    q + [x]
  }

  /** `pop_front`: on an empty queue, `None` and the queue as it was;
      otherwise the oldest element and the queue without exactly that
      element. */
  function PopFront<T>(q: seq<T>): (r: (Option<T>, seq<T>))
    ensures r.0.None? <==> q == []
    ensures q == [] ==> r.1 == q
    ensures q != [] ==> [r.0.value] + r.1 == q
  {
    if q == [] then (None, q) else (Some(q[0]), q[1..])
  }

  /** A run of `push_back` calls, one per element of `xs`, oldest first. */
  function PushAll<T>(q: seq<T>, xs: seq<T>): (r: seq<T>)
    ensures r == q + xs
    decreases |xs|
  {
    if xs == [] then q
    else
      var q' := PushBack(q, xs[0]);
      assert q' + xs[1..] == q + xs;
      PushAll(q', xs[1..])
  }

  /** A run of `n` `pop_front` calls: the results in call order and the
      queue left behind. The i-th call sees the i-th oldest element, and
      every call after the queue ran dry sees `None`. */
  function ReadN<T>(q: seq<T>, n: nat): (r: (seq<Option<T>>, seq<T>))
    ensures |r.0| == n
    ensures forall i :: 0 <= i < n ==> r.0[i] == if i < |q| then Some(q[i]) else None
    ensures r.1 == if n <= |q| then q[n..] else []
  {
    if n == 0 then ([], q)
    else
      var (first, rest) := PopFront(q);
      var (later, left) := ReadN(rest, n - 1);
      ([first] + later, left)
  }

  /** First in, first out: pushing `xs` onto a queue holding `q` and then
      popping as many times as there are elements returns `q` and then `xs`,
      in order, and leaves the queue empty; one more pop returns `None`. */
  lemma {:induction false} FifoOrder<T>(q: seq<T>, xs: seq<T>)
    ensures var (got, left) := ReadN(PushAll(q, xs), |q| + |xs|);
            left == [] &&
            (forall i :: 0 <= i < |q| ==> got[i] == Some(q[i])) &&
            (forall j :: 0 <= j < |xs| ==> got[|q| + j] == Some(xs[j]))
    ensures PopFront(ReadN(PushAll(q, xs), |q| + |xs|).1).0 == None
  {
  }

  /** A push never disturbs the front of a non-empty queue: popping after
      pushing `x` returns the same element as popping before, and `x` stays
      queued behind the rest. */
  lemma PushKeepsFront<T>(q: seq<T>, x: T)
    requires q != []
    ensures PopFront(PushBack(q, x)) == (Some(q[0]), PushBack(q[1..], x))
  {
    assert (q + [x])[1..] == q[1..] + [x];
  }
}

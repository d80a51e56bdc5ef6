/** The bounded experience-replay buffer of src/memory.ts. */
module ReplayMemory {
  import opened Tensors

  /** One stored step `[state, action, reward, nextState]`; `nextState` is
      null when that step ended the game. */
  datatype Transition = Transition(state: Tensor, action: int, reward: real, nextState: Tensor?)

  /** The tensors a transition owns: its state and, unless null, its next state. */
  function Owned(t: Transition): set<Tensor>
  {
    if t.nextState == null then {t.state} else {t.state, t.nextState}
  }

  /** The contents after `addSample(t)` on contents `q`: push, then drop the
      oldest element when the buffer holds more than `maxMemory`. */
  function Pushed(q: seq<Transition>, t: Transition, maxMemory: int): (r: seq<Transition>)
    ensures |q| < maxMemory ==> r == q + [t]
    ensures |q| >= maxMemory && q != [] ==> r == q[1..] + [t]
    ensures |q| >= maxMemory && q == [] ==> r == []
    ensures |q| <= maxMemory ==> |r| <= maxMemory
    ensures maxMemory > 0 ==> |r| > 0 && r[|r| - 1] == t
  {
    var pushed := q + [t];
    if |pushed| > maxMemory then pushed[1..] else pushed
  }

  /** The tensors of the transition `addSample(t)` shifts out of contents
      `q`, if it shifts one out. */
  function Evicted(q: seq<Transition>, t: Transition, maxMemory: int): (r: set<Tensor>)
    ensures |q| + 1 <= maxMemory ==> r == {}
    ensures |q| + 1 > maxMemory && q != [] ==>
              q[0].state in r && (q[0].nextState != null ==> q[0].nextState in r) && r <= Owned(q[0])
    ensures |q| + 1 > maxMemory && q == [] ==> r == Owned(t)
  {
    if |q| + 1 > maxMemory then Owned((q + [t])[0]) else {}
  }

  /** Consecutive steps of a game share a tensor: one transition's next
      state is the following one's state. When the older of such a pair is
      shifted out of a full buffer, the tensor disposed with it is the state
      of the transition that is now the oldest, which the buffer still
      holds. */
  lemma EvictionDisposesSharedState(q: seq<Transition>, t: Transition, maxMemory: int)
    requires |q| >= 2 && |q| >= maxMemory
    requires q[1].state == q[0].nextState
    ensures Pushed(q, t, maxMemory)[0] == q[1]
    ensures q[1].state in Evicted(q, t, maxMemory)
  {
  }

  /** The contents after adding the first `n` transitions of `ts`, in order. */
  function PushedFirst(q: seq<Transition>, ts: seq<Transition>, n: nat, maxMemory: int): seq<Transition>
    requires n <= |ts|
    decreases n
  {
    if n == 0 then q else Pushed(PushedFirst(q, ts, n - 1, maxMemory), ts[n - 1], maxMemory)
  }

  /** The contents after adding every transition of `ts`, in order. */
  function PushedAll(q: seq<Transition>, ts: seq<Transition>, maxMemory: int): seq<Transition>
  {
    PushedFirst(q, ts, |ts|, maxMemory)
  }

  /** Adding the first `n` transitions of a sequence depends on nothing
      else in it. */
  lemma {:induction false} PushedFirstPrefix(q: seq<Transition>, a: seq<Transition>, b: seq<Transition>,
                                             n: nat, maxMemory: int)
    requires n <= |a| && n <= |b|
    requires forall i :: 0 <= i < n ==> a[i] == b[i]
    ensures PushedFirst(q, a, n, maxMemory) == PushedFirst(q, b, n, maxMemory)
    decreases n
  {
    if n > 0 {
      PushedFirstPrefix(q, a, b, n - 1, maxMemory);
    }
  }

  /** Adding `ts + [t]` is adding `ts`, then `t`. */
  lemma PushedAllSnoc(q: seq<Transition>, ts: seq<Transition>, t: Transition, maxMemory: int)
    ensures PushedAll(q, ts + [t], maxMemory) == Pushed(PushedAll(q, ts, maxMemory), t, maxMemory)
  {
    PushedFirstPrefix(q, ts + [t], ts, |ts|, maxMemory);
  }

  /** Adding `a`, then `b`, is adding `a + b`. */
  lemma {:induction false} PushedAllAppend(q: seq<Transition>, a: seq<Transition>, b: seq<Transition>, maxMemory: int)
    ensures PushedAll(PushedAll(q, a, maxMemory), b, maxMemory) == PushedAll(q, a + b, maxMemory)
    decreases |b|
  {
    if b == [] {
      assert a + b == a;
    } else {
      var init, t := b[..|b| - 1], b[|b| - 1];
      assert b == init + [t];
      assert a + b == (a + init) + [t];
      PushedAllAppend(q, a, init, maxMemory);
      PushedAllSnoc(PushedAll(q, a, maxMemory), init, t, maxMemory);
      PushedAllSnoc(q, a + init, t, maxMemory);
    }
  }

  /** The last `n` elements of `s`, or all of `s` when it is shorter. */
  function Latest(s: seq<Transition>, n: nat): (r: seq<Transition>)
    ensures |r| == if |s| <= n then |s| else n
    ensures r == s[|s| - |r|..]
  {
    if |s| <= n then s else s[|s| - n..]
  }

  /** A FIFO buffer of capacity `maxMemory` holds exactly the `maxMemory`
      most recent transitions ever added, in insertion order. */
  lemma {:induction false} PushedAllKeepsLatest(q: seq<Transition>, ts: seq<Transition>, maxMemory: int)
    requires |q| <= maxMemory
    ensures PushedAll(q, ts, maxMemory) == Latest(q + ts, maxMemory)
    decreases |ts|
  {
    if ts == [] {
      assert q + ts == q;
    } else {
      var init, t := ts[..|ts| - 1], ts[|ts| - 1];
      PushedAllKeepsLatest(q, init, maxMemory);
      assert ts == init + [t];
      PushedAllSnoc(q, init, t, maxMemory);
      var a := q + init;
      assert q + ts == a + [t];
      var before := Latest(a, maxMemory);
      if |a| >= maxMemory {
        assert before == a[|a| - maxMemory..];
        if maxMemory > 0 {
          calc {
            Pushed(before, t, maxMemory);
            before[1..] + [t];
            a[|a| - maxMemory + 1..] + [t];
            (a + [t])[|a| + 1 - maxMemory..];
          }
        }
      }
    }
  }

  /** After adding `ts` to a buffer within capacity, its length is the
      smaller of capacity and old length plus `|ts|`, and when `ts` fits it
      ends with all of `ts`. */
  lemma PushedAllShape(q: seq<Transition>, ts: seq<Transition>, maxMemory: int)
    requires |q| <= maxMemory
    ensures |PushedAll(q, ts, maxMemory)| == if |q| + |ts| <= maxMemory then |q| + |ts| else maxMemory
    ensures |ts| <= maxMemory ==> PushedAll(q, ts, maxMemory)[|PushedAll(q, ts, maxMemory)| - |ts|..] == ts
  {
    PushedAllKeepsLatest(q, ts, maxMemory);
    var r := PushedAll(q, ts, maxMemory);
    if |ts| <= maxMemory {
      assert r == (q + ts)[|q + ts| - |r|..];
      assert r[|r| - |ts|..] == (q + ts)[|q|..];
    }
  }

  /** Everything in the buffer after a run of additions was either there
      before or is one of the added transitions. */
  lemma {:induction false} PushedAllFrom(q: seq<Transition>, ts: seq<Transition>, maxMemory: int)
    ensures forall x :: x in PushedAll(q, ts, maxMemory) ==> x in q || x in ts
    decreases |ts|
  {
    if ts != [] {
      var init := ts[..|ts| - 1];
      PushedAllFrom(q, init, maxMemory);
      assert ts == init + [ts[|ts| - 1]];
      PushedAllSnoc(q, init, ts[|ts| - 1], maxMemory);
      forall x | x in init ensures x in ts {
        var k :| 0 <= k < |init| && init[k] == x;
        assert ts[k] == x;
      }
    }
  }

  /** The outcome of lodash `sampleSize(samples, n)`: `batch` lists the
      elements at pairwise distinct `positions`, as many as the clamp of `n`
      into `[0, |samples|]`. */
  ghost predicate IsDrawOf(batch: seq<Transition>, positions: seq<nat>, samples: seq<Transition>, n: int)
  {
    && |positions| == (if n < 0 then 0 else if n > |samples| then |samples| else n)
    && |batch| == |positions|
    && (forall i :: 0 <= i < |positions| ==> positions[i] < |samples| && batch[i] == samples[positions[i]])
    && (forall i, j :: 0 <= i < j < |positions| ==> positions[i] != positions[j])
  }

  class Memory {
    const maxMemory: int
    var samples: seq<Transition>
    /** Every tensor this buffer has disposed. */
    var disposed: set<Tensor>

    /** The buffer's invariant: it never holds more than its capacity. */
    ghost predicate Valid()
      reads this
    {
      |samples| <= maxMemory
    }

    constructor (maxMemory: int)
      ensures this.maxMemory == maxMemory && samples == [] && disposed == {}
    {
      this.maxMemory := maxMemory;
      samples := [];
      disposed := {};
    }

    /** Appends `sample`; on overflow shifts out the oldest transition and
        disposes the tensors it owns, and nothing else. */
    method AddSample(sample: Transition)
      modifies this
      ensures samples == Pushed(old(samples), sample, maxMemory)
      ensures old(Valid()) ==> Valid()
      ensures disposed == old(disposed) + Evicted(old(samples), sample, maxMemory)
    {
      samples := samples + [sample];
      if |samples| > maxMemory {
        var oldest := samples[0];
        samples := samples[1..];
        disposed := disposed + {oldest.state};
        if oldest.nextState != null {
          disposed := disposed + {oldest.nextState};
        }
      }
    }

    /** `sampleSize(this.samples, nSamples)`: which distinct positions are
        drawn is the random generator's choice. */
    method Sample(nSamples: int) returns (batch: seq<Transition>, ghost positions: seq<nat>)
      ensures IsDrawOf(batch, positions, samples, nSamples)
    {
      var k := if nSamples < 0 then 0 else if nSamples > |samples| then |samples| else nSamples;
      ghost var inOrder: seq<nat> := seq(k, i => i);
      assert forall i :: 0 <= i < k ==> inOrder[i] < |samples|;
      var drawn: seq<nat> :| |drawn| == k && (forall i :: 0 <= i < k ==> drawn[i] < |samples|)
        && (forall i, j :: 0 <= i < j < k ==> drawn[i] != drawn[j]);
      var current := samples;
      batch := seq(k, i requires 0 <= i < k => current[drawn[i]]);
      positions := drawn;
    }
  }
}

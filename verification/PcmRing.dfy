/** The playback queue between RTP bursts and the steady USB clock: a ring over a fixed array, bounded at 300 ms. */
module PcmRing {
  import opened Common

  type Sample = x: int | -32768 <= x < 32768 witness 0

  const BLOCK := 800
  const CAPACITY := 3 * BLOCK

  /** The newest k samples. */
  function Newest(s: seq<Sample>, k: nat): (r: seq<Sample>)
    ensures |r| == if |s| < k then |s| else k
  {
    if |s| <= k then s else s[|s| - k..]
  }

  /** Dropping the oldest before each sample or all at once leaves the same. */
  lemma {:induction false} NewestStep(s: seq<Sample>, x: Sample, k: nat)
    requires k > 0
    ensures Newest(Newest(s, k) + [x], k) == Newest(s + [x], k)
  {
  }

  function Silence(k: nat): seq<Sample> { seq(k, _ => 0) }

  lemma {:induction false} NextFilled(from: seq<Sample>, rest: seq<Sample>, i: nat)
    requires i < |from| && i < |rest|
    ensures (from[..i] + rest[i..])[i := from[i]] == from[..i + 1] + rest[i + 1..]
    ensures from[i..][0] == from[i] && from[i..][1..] == from[i + 1..]
  {
  }

  lemma {:induction false} NewestAll(s: seq<Sample>)
    requires |s| <= CAPACITY
    ensures Newest(s, CAPACITY) == s
  {
  }

  lemma {:induction false} NewestOne(s: seq<Sample>, x: Sample)
    requires |s| <= CAPACITY
    ensures Newest(s + [x], CAPACITY) == (if |s| == CAPACITY then s[1..] else s) + [x]
  {
  }

  /** The place of the i-th sample behind the head. */
  function At(head: nat, i: nat): (at: nat)
    requires head < CAPACITY && i <= CAPACITY
    ensures at == if head + i < CAPACITY then head + i else head + i - CAPACITY
  {
    (head + i) % CAPACITY
  }

  /** What a ring holds, oldest first. */
  function Window(a: seq<Sample>, head: nat, n: nat): (s: seq<Sample>)
    requires |a| == CAPACITY && head < CAPACITY && n <= CAPACITY
    ensures |s| == n && forall i :: 0 <= i < n ==> s[i] == a[At(head, i)]
  {
    seq(n, i requires 0 <= i < n => a[At(head, i)])
  }

  lemma {:induction false} WindowDrop(a: seq<Sample>, head: nat, n: nat)
    requires |a| == CAPACITY && head < CAPACITY && 0 < n <= CAPACITY
    ensures Window(a, At(head, 1), n - 1) == Window(a, head, n)[1..] && Window(a, head, n)[0] == a[head]
  {
    hide At;
  }

  lemma {:induction false} WindowAppend(a: seq<Sample>, head: nat, n: nat, x: Sample)
    requires |a| == CAPACITY && head < CAPACITY && n < CAPACITY
    ensures Window(a[At(head, n) := x], head, n + 1) == Window(a, head, n) + [x]
  {
    hide At;
  }

  class Queue {
    const samples: array<Sample>
    var head: nat
    var n: nat
    var primed: bool
    ghost var pushed: seq<Sample>      // everything ever pushed
    ghost var popped: nat
    ghost var dropped: nat

    ghost predicate Shape() reads this { samples.Length == CAPACITY && head < CAPACITY && n <= CAPACITY }

    /** Everything pushed was popped, dropped or is still queued, and the queue is the end of what was pushed. */
    ghost predicate Accounts()
      requires Shape()
      reads this, samples
    {
      |pushed| == popped + dropped + n && Contents() == pushed[|pushed| - n..] && (!primed ==> popped == 0)
    }

    ghost predicate Valid() reads this, samples { Shape() && Accounts() }

    ghost function Contents(): (s: seq<Sample>)
      requires Shape()
      reads this, samples
      ensures |s| == n
    {
      Window(samples[..], head, n)
    }

    constructor ()
      ensures Valid() && fresh(samples) && Contents() == [] && pushed == [] && !primed && popped == 0 && dropped == 0
    {
      samples := new Sample[CAPACITY](_ => 0);
      head, n, primed := 0, 0, false;
      pushed, popped, dropped := [], 0, 0;
    }

    method DropOldest()
      requires Valid() && n > 0
      modifies this`head, this`n, this`dropped
      ensures Valid() && n == old(n) - 1 && dropped == old(dropped) + 1
      ensures Contents() == old(Contents())[1..]
    {
      hide Window, At;
      WindowDrop(samples[..], head, n);
      head, n, dropped := At(head, 1), n - 1, dropped + 1;
    }

    method Append(x: Sample)
      requires Valid() && n < CAPACITY
      modifies this`n, this`pushed, samples
      ensures Valid() && n == old(n) + 1 && pushed == old(pushed) + [x]
      ensures Contents() == old(Contents()) + [x]
    {
      WindowAppend(samples[..], head, n, x);
      ghost var before := samples[..];
      var at := At(head, n);
      samples[at] := x;
      assert samples[..] == before[at := x];
      n, pushed := n + 1, pushed + [x];
    }

    method PushOne(x: Sample)
      requires Valid()
      modifies this`head, this`n, this`pushed, this`dropped, samples
      ensures Valid() && pushed == old(pushed) + [x]
      ensures Contents() == Newest(old(Contents()) + [x], CAPACITY)
      ensures dropped == old(dropped) + (if old(n) == CAPACITY then 1 else 0)
    {
      hide Newest, Window, At, Accounts;
      NewestOne(Contents(), x);
      if n == CAPACITY { DropOldest(); }
      Append(x);
    }

    /** Keeps the newest 300 ms and says how many samples had to go. */
    method Push(block: seq<Sample>) returns (lost: nat)
      requires Valid()
      modifies this`head, this`n, this`pushed, this`dropped, samples
      ensures Valid() && pushed == old(pushed) + block
      ensures Contents() == Newest(old(Contents()) + block, CAPACITY)
      ensures lost == Max(0, |old(Contents())| + |block| - CAPACITY) && dropped == old(dropped) + lost
    {
      hide Newest, Window, At, Accounts;
      lost := Max(0, n + |block| - CAPACITY);
      ghost var before := Contents();
      assert before + [] == before;
      NewestAll(before);
      for i := 0 to |block|
        invariant Valid() && pushed == old(pushed) + block[..i]
        invariant Contents() == Newest(before + block[..i], CAPACITY)
        invariant dropped == old(dropped) + Max(0, |before| + i - CAPACITY)
      {
        NewestStep(before + block[..i], block[i], CAPACITY);
        assert before + block[..i] + [block[i]] == before + block[..i + 1];
        PushOne(block[i]);
      }
      assert block[..|block|] == block;
    }

    /**
     * Fills a block for the USB clock: the oldest samples, then silence. Only before the first complete block it holds
     * everything back and answers -1.
     */
    method Pop(block: array<Sample>) returns (filled: int)
      requires Valid() && block != samples
      modifies this`head, this`n, this`primed, this`popped, block
      ensures Valid() && samples[..] == old(samples[..])
      ensures filled == -1 <==> !old(primed) && old(n) < block.Length
      ensures filled == -1 ==> Contents() == old(Contents()) && !primed && block[..] == Silence(block.Length)
      ensures filled != -1 ==> primed && filled == Min(old(n), block.Length) && popped == old(popped) + filled
      ensures filled != -1 ==> Contents() == old(Contents())[filled..]
      ensures filled != -1 ==> block[..] == old(Contents())[..filled] + Silence(block.Length - filled)
    {
      hide Window, At;
      Clear(block);
      if !primed && n < block.Length { return -1; }
      primed := true;
      filled := Min(n, block.Length);
      Fill(block, filled);
    }

    method Fill(block: array<Sample>, count: nat)
      requires Valid() && block != samples && primed && count == Min(n, block.Length)
      modifies this`head, this`n, this`popped, block
      ensures Valid() && popped == old(popped) + count && Contents() == old(Contents())[count..]
      ensures block[..] == old(Contents())[..count] + old(block[..])[count..]
    {
      hide Window, At, Accounts;
      ghost var before, rest, size := Contents(), block[..], n;
      var i := 0;
      while i < block.Length && n > 0
        invariant 0 <= i <= count && n == size - i && popped == old(popped) + i
        invariant Valid() && Contents() == before[i..]
        invariant block[..] == before[..i] + rest[i..]
      {
        ghost var was := block[..];
        var x := TakeOldest();
        block[i] := x;
        assert block[..] == was[i := x];
        NextFilled(before, rest, i);
        i := i + 1;
      }
    }

    method TakeOldest() returns (x: Sample)
      requires Valid() && n > 0 && primed
      modifies this`head, this`n, this`popped
      ensures Valid() && n == old(n) - 1 && popped == old(popped) + 1
      ensures x == old(Contents())[0] && Contents() == old(Contents())[1..]
    {
      WindowDrop(samples[..], head, n);
      x := samples[head];
      head, n, popped := At(head, 1), n - 1, popped + 1;
    }
  }

  method Clear(block: array<Sample>)
    modifies block
    ensures block[..] == Silence(block.Length)
  {
    for i := 0 to block.Length
      invariant forall j :: 0 <= j < i ==> block[j] == 0
    {
      block[i] := 0;
    }
  }
}

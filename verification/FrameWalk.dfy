/**
 The frame-pointer walk of the stall watchdog (apple/Dub/App/MainThreadWatchdog.swift): it follows
 saved frame pointers up a suspended thread's stack, into a buffer allocated beforehand.
 */
module FrameWalk {
  const LIMIT: nat := 0x1_0000_0000_0000_0000

  /** A 64-bit machine word. */
  type Word = x: int | 0 <= x < LIMIT

  /** The words at every address, as the suspended thread left them. */
  type Memory = Word -> Word

  datatype Arch = X86_64 | Arm64

  datatype Registers = Registers(pc: Word, lr: Word, fp: Word)

  datatype Stack = Stack(memory: Memory, bottom: Word, top: Word)

  /** The addresses read, the return addresses written, and whether the bound check's addition ran
      past the end of the address space, which stops the process. */
  datatype Trace = Trace(visited: seq<Word>, pcs: seq<Word>, traps: bool)

  predicate Overflows(fp: Word) {
    fp + 16 >= LIMIT
  }

  predicate OnStack(s: Stack, fp: Word) {
    s.bottom <= fp && fp + 16 <= s.top && fp % 8 == 0
  }

  /** The frame at `fp` is whole and points further up. */
  predicate Climbs(s: Stack, fp: Word) {
    !Overflows(fp) && OnStack(s, fp) && s.memory(fp + 8) != 0 && s.memory(fp) > fp
  }

  /** The frames from `fp` on, as far as a buffer with `room` left takes them. */
  function Frames(s: Stack, fp: Word, room: nat): Trace
    decreases room
  {
    if room == 0 || fp < s.bottom then Trace([], [], false)
    else if Overflows(fp) then Trace([], [], true)
    else if !OnStack(s, fp) then Trace([], [], false)
    else
      var (next, ret) := (s.memory(fp), s.memory(fp + 8));
      if ret == 0 then Trace([fp], [], false)
      else if next <= fp then Trace([fp], [ret], false)
      else
        var rest := Frames(s, next, room - 1);
        Trace([fp] + rest.visited, [ret] + rest.pcs, rest.traps)
  }

  lemma FramesStop(s: Stack, fp: Word, room: nat)
    ensures room == 0 || fp < s.bottom || (!Overflows(fp) && !OnStack(s, fp)) ==>
              Frames(s, fp, room).pcs == [] && !Frames(s, fp, room).traps
    ensures room > 0 && s.bottom <= fp && Overflows(fp) ==>
              Frames(s, fp, room).pcs == [] && Frames(s, fp, room).traps
    ensures room > 0 && !Overflows(fp) && OnStack(s, fp) && s.memory(fp + 8) == 0 ==>
              Frames(s, fp, room).pcs == [] && !Frames(s, fp, room).traps
  {
  }

  lemma FramesGo(s: Stack, fp: Word, room: nat)
    requires room > 0 && !Overflows(fp) && OnStack(s, fp) && s.memory(fp + 8) != 0
    ensures var (next, ret, t) := (s.memory(fp), s.memory(fp + 8), Frames(s, fp, room));
            && (next <= fp ==> t.pcs == [ret] && !t.traps)
            && (next > fp ==> t.pcs == [ret] + Frames(s, next, room - 1).pcs
                              && t.traps == Frames(s, next, room - 1).traps)
  {
  }

  /** What is written before the walk: the program counter and, on ARM, the link register. */
  function Heads(arch: Arch, r: Registers, length: nat): (heads: seq<Word>)
    requires length >= 1
    ensures 1 <= |heads| <= length
  {
    if arch == Arm64 && length > 1 then [r.pc, r.lr] else [r.pc]
  }

  lemma InRange(fp: Word)
    requires !Overflows(fp)
    ensures fp + 8 < LIMIT
  {
  }

  lemma Shift(front: seq<Word>, x: Word, rest: seq<Word>)
    ensures front + ([x] + rest) == (front + [x]) + rest && front + [x] + [] == front + [x]
  {
  }

  /** The loop: each frame's return address goes in the next slot, and the walk climbs. */
  method Climb(pcs: array<Word>, start: nat, s: Stack, fp0: Word) returns (n: nat, traps: bool)
    requires start <= pcs.Length
    modifies pcs
    ensures start <= n <= pcs.Length && forall i :: n <= i < pcs.Length ==> pcs[i] == old(pcs[i])
    ensures pcs[..n] == old(pcs[..start]) + Frames(s, fp0, pcs.Length - start).pcs
    ensures traps == Frames(s, fp0, pcs.Length - start).traps
  {
    hide Frames, Overflows, OnStack;
    n, traps := start, false;
    var fp: Word := fp0;
    ghost var all := Frames(s, fp0, pcs.Length - start);
    ghost var whole := pcs[..start] + all.pcs;
    while n < pcs.Length && fp >= s.bottom
      invariant start <= n <= pcs.Length && forall i :: n <= i < pcs.Length ==> pcs[i] == old(pcs[i])
      invariant pcs[..n] + Frames(s, fp, pcs.Length - n).pcs == whole
      invariant Frames(s, fp, pcs.Length - n).traps == all.traps
      decreases pcs.Length - n
    {
      FramesStop(s, fp, pcs.Length - n);
      if Overflows(fp) { return n, true; }
      if !OnStack(s, fp) { return; }
      assert fp + 8 < LIMIT by { InRange(fp); }
      var (next, ret) := (s.memory(fp), s.memory(fp + 8));
      if ret == 0 { return; }
      FramesGo(s, fp, pcs.Length - n);
      Shift(pcs[..n], ret, if next <= fp then [] else Frames(s, next, pcs.Length - n - 1).pcs);
      pcs[n] := ret;
      assert pcs[..n + 1] == pcs[..n] + [ret];
      n := n + 1;
      if next <= fp { return; }
      fp := next;
    }
    FramesStop(s, fp, pcs.Length - n);
  }

  /** The walk, in place. `pcs` must hold at least one frame, as the caller's always does. */
  method Walk(pcs: array<Word>, arch: Arch, suspended: bool, gotState: bool, r: Registers, s: Stack)
    returns (n: nat, traps: bool)
    requires pcs.Length >= 1
    modifies pcs
    ensures n <= pcs.Length && forall i :: n <= i < pcs.Length ==> pcs[i] == old(pcs[i])
    ensures !(suspended && gotState) ==> n == 0 && !traps
    ensures suspended && gotState ==>
              var heads := Heads(arch, r, pcs.Length);
              var frames := Frames(s, r.fp, pcs.Length - |heads|);
              pcs[..n] == heads + frames.pcs && traps == frames.traps
  {
    n, traps := 0, false;
    if !suspended || !gotState { return; }
    pcs[n] := r.pc;
    n := n + 1;
    if arch == Arm64 && n < pcs.Length {
      pcs[n] := r.lr;
      n := n + 1;
    }
    assert pcs[..n] == Heads(arch, r, pcs.Length);
    n, traps := Climb(pcs, n, s, r.fp);
  }

  // ----- What the walk collects -----

  /** The mathematical chain of saved frame pointers, with no bounds and no buffer. */
  function FrameAt(memory: Memory, fp: Word, k: nat): Word
    decreases k
  {
    if k == 0 then fp else FrameAt(memory, memory(fp), k - 1)
  }

  lemma {:induction false} FrameAfter(memory: Memory, fp: Word, k: nat)
    ensures FrameAt(memory, fp, k + 1) == memory(FrameAt(memory, fp, k))
    decreases k
  {
    if k == 0 {
    } else {
      FrameAfter(memory, memory(fp), k - 1);
    }
  }

  predicate IsReturnAddress(memory: Memory, frame: Word, pc: Word) {
    frame + 8 < LIMIT && pc == memory(frame + 8) && pc != 0
  }

  /** Every address visited is the chain's, and every word written is the return address stored
      beside it: the output is a prefix of the mathematical chain. */
  lemma {:induction false} WalkFollowsTheChain(s: Stack, fp: Word, room: nat, i: nat)
    ensures var t := Frames(s, fp, room);
            && (i < |t.visited| ==> t.visited[i] == FrameAt(s.memory, fp, i))
            && |t.pcs| <= |t.visited| <= room
            && (i < |t.pcs| ==> IsReturnAddress(s.memory, FrameAt(s.memory, fp, i), t.pcs[i]))
    decreases room
  {
    if room == 0 || !Climbs(s, fp) {
    } else {
      WalkFollowsTheChain(s, s.memory(fp), room - 1, if i == 0 then 0 else i - 1);
    }
  }

  /** Whatever the memory holds, cycles included, it reads aligned words inside the stack's bounds,
      at strictly rising addresses. */
  lemma {:induction false} ReadsRiseWithinTheStack(s: Stack, fp: Word, room: nat)
    ensures var v := Frames(s, fp, room).visited;
            && (forall i :: 0 <= i < |v| ==>
                  fp <= v[i] && s.bottom <= v[i] && v[i] + 16 <= s.top && v[i] % 8 == 0)
            && (forall i, j :: 0 <= i < j < |v| ==> v[i] < v[j])
            && (v != [] ==> v[0] == fp)
    decreases room
  {
    if room == 0 || !Climbs(s, fp) {
    } else {
      ReadsRiseWithinTheStack(s, s.memory(fp), room - 1);
    }
  }

  lemma NextAligned(a: int, b: int)
    requires a % 8 == 0 && a < b
    ensures b % 8 == 0 ==> b >= a + 8
  {
  }

  /** So it ends by itself: a stack of so many bytes has at most an eighth as many frames, however
      large the buffer. */
  lemma {:induction false} StackBoundsTheWalk(s: Stack, fp: Word, room: nat)
    ensures var n := |Frames(s, fp, room).visited|; n == 0 || fp + 8 * n + 8 <= s.top
    decreases room
  {
    if room == 0 || !Climbs(s, fp) {
    } else {
      StackBoundsTheWalk(s, s.memory(fp), room - 1);
      NextAligned(fp, s.memory(fp));
    }
  }

  /** A larger buffer only adds frames at the far end. */
  lemma {:induction false} LargerBufferExtends(s: Stack, fp: Word, room: nat, more: nat)
    requires room <= more
    ensures Frames(s, fp, room).pcs <= Frames(s, fp, more).pcs
    decreases room
  {
    if room == 0 || !Climbs(s, fp) {
    } else {
      LargerBufferExtends(s, s.memory(fp), room - 1, more - 1);
    }
  }

  /** A whole aligned frame within the stack's bounds, short of the end of the address space, with a
      return address in it. */
  predicate HoldsFrame(s: Stack, fp: Word) {
    && s.bottom <= fp && fp % 8 == 0 && fp + 16 <= s.top && fp + 16 < LIMIT
    && s.memory(fp + 8) != 0
  }

  /** The chain's frame `k` is come to: every one before it is a frame, and points upwards. */
  predicate Reachable(s: Stack, fp: Word, k: nat)
    decreases k
  {
    k == 0 || (HoldsFrame(s, fp) && s.memory(fp) > fp && Reachable(s, s.memory(fp), k - 1))
  }

  /** It stops exactly where the buffer is full or the chain's next frame is off the stack, holds no
      return address, or follows one that does not point upwards. */
  lemma {:induction false} WalkTakesEveryFrame(s: Stack, fp: Word, room: nat, k: nat)
    ensures k < |Frames(s, fp, room).pcs| <==>
            k < room && Reachable(s, fp, k) && HoldsFrame(s, FrameAt(s.memory, fp, k))
    decreases room
  {
    if room == 0 || k == 0 || !Climbs(s, fp) {
    } else {
      WalkTakesEveryFrame(s, s.memory(fp), room - 1, k - 1);
    }
  }

  predicate TrapsAt(s: Stack, fp: Word, k: nat) {
    var frame := FrameAt(s.memory, fp, k);
    Reachable(s, fp, k) && frame >= LIMIT - 16 && s.bottom <= frame
  }

  /** The bound check adds before it compares, so a frame pointer in the last sixteen bytes of the
      address space stops the process instead of the walk: exactly when one is reached with room to
      spare. */
  lemma {:induction false} TrapsExactly(s: Stack, fp: Word, room: nat)
    ensures Frames(s, fp, room).traps <==> exists k :: 0 <= k < room && TrapsAt(s, fp, k)
    decreases room
  {
    if room == 0 {
    } else {
      var next := s.memory(fp);
      assert TrapsAt(s, fp, 0) <==> Overflows(fp) && s.bottom <= fp;
      assert forall k :: 1 <= k < room ==> (TrapsAt(s, fp, k) <==> Climbs(s, fp) && TrapsAt(s, next, k - 1));
      if Climbs(s, fp) {
        TrapsExactly(s, next, room - 1);
        if Frames(s, next, room - 1).traps {
          var k :| 0 <= k < room - 1 && TrapsAt(s, next, k);
          assert TrapsAt(s, fp, k + 1);
        }
      }
    }
  }

  /** A thread stopped with all ones in its frame register, as frameless code may leave it, is such a
      case. */
  lemma AllOnesTraps(memory: Memory, bottom: Word, top: Word)
    ensures Frames(Stack(memory, bottom, top), LIMIT - 1, 1).traps
  {
  }
}

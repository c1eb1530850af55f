/** The jitter buffer as the object the mixer loop updates in place. */
module JitterBuffer {
  import opened Packets
  import opened JitterModel

  lemma LeastWith(first: bool, min: uint32, s: uint32, seen: set<uint32>)
    requires if first then seen == {} else IsLeast(min, seen)
    ensures IsLeast(if first || s < min then s else min, seen + {s})
  {
  }

  lemma GreatestWith(first: bool, max: uint32, s: uint32, seen: set<uint32>)
    requires if first then seen == {} else IsGreatest(max, seen)
    ensures IsGreatest(if first || s > max then s else max, seen + {s})
  {
  }

  class SpeakerJitterBuffer {
    var minStart: nat
    var maxKeep: nat
    var packets: map<uint32, AudioPacket>
    var head: uint32
    var started: bool

    function View(): Jitter
      reads this
    {
      Jitter(minStart, maxKeep, packets, head, started)
    }

    constructor (jitterMinPackets: uint32)
      requires jitterMinPackets <= 0xFFFF
      ensures View() == Empty(jitterMinPackets) && WellFormed(View())
    {
      var depth := if jitterMinPackets < 1 then 1 else jitterMinPackets;
      minStart := depth;
      maxKeep := if depth * 8 < 32 then 32 else depth * 8;
      packets := map[];
      head := 0;
      started := false;
    }

    method ResetBuffer()
      modifies this
      ensures View() == Reset(old(View()))
    {
      packets := map[];
      head := 0;
      started := false;
    }

    /** The least resident number, found by one pass over the map. */
    method MinSeq() returns (min: uint32, ok: bool)
      ensures ok <==> |packets| != 0
      ensures ok ==> min == MinKey(packets)
    {
      if |packets| == 0 {
        return 0, false;
      }
      hide IsLeast;
      var first := true;
      min := 0;
      var rest := packets.Keys;
      ghost var seen: set<uint32> := {};
      while rest != {}
        invariant first <==> seen == {}
        invariant seen + rest == packets.Keys
        invariant !first ==> IsLeast(min, seen)
        decreases rest
      {
        var s :| s in rest;
        LeastWith(first, min, s, seen);
        if first || s < min {
          min := s;
          first := false;
        }
        rest, seen := rest - {s}, seen + {s};
      }
      assert seen == packets.Keys;
      MinKeyIs(packets, min);
      ok := true;
    }

    method MaxSeq() returns (max: uint32, ok: bool)
      ensures ok <==> |packets| != 0
      ensures ok ==> max == MaxKey(packets)
    {
      if |packets| == 0 {
        return 0, false;
      }
      hide IsGreatest;
      var first := true;
      max := 0;
      var rest := packets.Keys;
      ghost var seen: set<uint32> := {};
      while rest != {}
        invariant first <==> seen == {}
        invariant seen + rest == packets.Keys
        invariant !first ==> IsGreatest(max, seen)
        decreases rest
      {
        var s :| s in rest;
        GreatestWith(first, max, s, seen);
        if first || s > max {
          max := s;
          first := false;
        }
        rest, seen := rest - {s}, seen + {s};
      }
      assert seen == packets.Keys;
      MaxKeyIs(packets, max);
      ok := true;
    }

    /** The trim loop: drops the least number until the buffer fits. */
    method DropExcess()
      modifies this
      ensures View() == Trim(old(View()))
    {
      while |packets| > maxKeep
        invariant Trim(View()) == Trim(old(View()))
        decreases |packets|
      {
        var min, ok := MinSeq();
        if !ok {
          break;
        }
        assert (packets - {min}).Keys == packets.Keys - {min};
        assert DropOldest(View()) == View().(packets := packets - {min},
                                             head := if started && min >= head then Add32(min, 1) else head);
        packets := packets - {min};
        if started && min >= head {
          head := Add32(min, 1);
        }
      }
    }

    method Push(p: AudioPacket)
      modifies this
      ensures View() == JitterModel.Push(old(View()), p)
    {
      if p.sequence in packets {
        return;
      }
      packets := packets[p.sequence := p];
      if !started && |packets| >= minStart {
        var min, ok := MinSeq();
        if ok {
          head := min;
          started := true;
        }
      }
      DropExcess();
    }

    method Pop() returns (r: Option<AudioPacket>)
      modifies this
      ensures (View(), r) == JitterModel.Pop(old(View()))
    {
      if |packets| == 0 {
        started := false;
        return None;
      }
      if !started {
        if |packets| < minStart {
          return None;
        }
        var least, ok := MinSeq();
        head := least;
        started := true;
      }
      if head in packets {
        r := Some(packets[head]);
        packets := packets - {head};
        head := Add32(head, 1);
        return;
      }
      var min, minOk := MinSeq();
      var max, maxOk := MaxSeq();
      if head < min {
        head := min;
        if head in packets {
          r := Some(packets[head]);
          packets := packets - {head};
          head := Add32(head, 1);
          return;
        }
      }
      if Add32(head, Truncate32(maxKeep / 2)) < max {
        head := min;
        if head in packets {
          r := Some(packets[head]);
          packets := packets - {head};
          head := Add32(head, 1);
          return;
        }
      }
      r := None;
    }

    method ForceStartFromMinSeq()
      modifies this
      ensures View() == ForceStart(old(View()))
    {
      if |packets| == 0 {
        return;
      }
      var min, ok := MinSeq();
      if !ok {
        return;
      }
      head := min;
      started := true;
    }

    method SetMinStartClamped(n: int, floor: nat, ceil: nat)
      modifies this
      ensures View() == SetMinStart(old(View()), n, floor, ceil)
    {
      var depth := n;
      if depth < floor {
        depth := floor;
      }
      if depth > ceil {
        depth := ceil;
      }
      if depth == minStart {
        return;
      }
      minStart := depth;
      maxKeep := depth * 8;
      if maxKeep < 32 {
        maxKeep := 32;
      }
      DropExcess();
    }
  }
}

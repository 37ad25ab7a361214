/** The bounded, evicting, expiring queue of packets that wait for a router. */
module Store {
  import opened Wrappers
  import opened Packet

  /** A packet with the instant of its reception. */
  datatype QuePacket = QuePacket(packet: Packet, received: nat)

  /** A clock reading for each packet that a collection pass looks at, in order. */
  type Clock = nat -> nat

  /** Time since reception, never negative. */
  function Elapsed(p: QuePacket, now: nat): nat {
    if now >= p.received then now - p.received else 0
  }

  /** The queue after a packet is appended and, if the queue is then over its limit, its oldest packet dropped. */
  function Push(waiting: seq<QuePacket>, max: nat, p: QuePacket): seq<QuePacket> {
    var w := waiting + [p];
    if |w| > max then w[1..] else w
  }

  /** The packets not older than `duration`, packet `i` aged by reading `start + i`. */
  function Retain(waiting: seq<QuePacket>, duration: nat, clock: Clock, start: nat): (kept: seq<QuePacket>)
    ensures |kept| <= |waiting|
  {
    if waiting == [] then []
    else
      var rest := Retain(waiting[1..], duration, clock, start + 1);
      if Elapsed(waiting[0], clock(start)) <= duration then [waiting[0]] + rest else rest
  }

  // -------- Where every packet goes --------

  datatype Fate = Waiting | Popped | Evicted | Expired

  /** Every packet ever stored with its one fate, and the arrival numbers of those waiting and of those popped. */
  datatype Ledger = Ledger(arrived: seq<QuePacket>, fate: seq<Fate>, waiting: seq<nat>, popped: seq<nat>)

  const EMPTY := Ledger([], [], [], [])

  datatype Call = StoreCall(p: QuePacket) | PopCall | GcCall(duration: nat, clock: Clock)

  ghost predicate InRange(s: seq<nat>, n: nat) {
    forall i | 0 <= i < |s| :: s[i] < n
  }

  /** The arrival numbers that a collection pass keeps. */
  ghost function Kept(arrived: seq<QuePacket>, w: seq<nat>, duration: nat, clock: Clock, start: nat): seq<nat>
    requires InRange(w, |arrived|)
  {
    if w == [] then []
    else
      var rest := Kept(arrived, w[1..], duration, clock, start + 1);
      if Elapsed(arrived[w[0]], clock(start)) <= duration then [w[0]] + rest else rest
  }

  /** The waiting packets not in `kept` expire. */
  ghost function Expire(fate: seq<Fate>, kept: seq<nat>): seq<Fate> {
    seq(|fate|, n requires 0 <= n < |fate| => if fate[n].Waiting? && n !in kept then Expired else fate[n])
  }

  ghost function Apply(l: Ledger, max: nat, call: Call): Ledger
    requires InRange(l.waiting, |l.arrived|) && |l.fate| == |l.arrived|
  {
    match call
    case StoreCall(p) =>
      var w, fate := l.waiting + [|l.arrived|], l.fate + [Waiting];
      var stored := l.(arrived := l.arrived + [p], fate := fate, waiting := w);
      if |w| > max then stored.(waiting := w[1..], fate := fate[w[0] := Evicted]) else stored
    case PopCall =>
      if l.waiting == [] then l
      else
        var n := l.waiting[0];
        l.(waiting := l.waiting[1..], popped := l.popped + [n], fate := l.fate[n := Popped])
    case GcCall(duration, clock) =>
      var kept := Kept(l.arrived, l.waiting, duration, clock, 0);
      l.(waiting := kept, fate := Expire(l.fate, kept))
  }

  ghost predicate Increasing(s: seq<nat>) {
    forall i, j | 0 <= i < j < |s| :: s[i] < s[j]
  }

  /** The list holds exactly the packets of one fate, in order of arrival. */
  ghost predicate Lists(s: seq<nat>, fate: seq<Fate>, f: Fate) {
    Increasing(s) && InRange(s, |fate|) && forall n | 0 <= n < |fate| :: fate[n] == f <==> n in s
  }

  /** What left by the front arrived before everything that waits. */
  ghost predicate FrontFirst(l: Ledger) {
    forall n, j | 0 <= n < |l.fate| && (l.fate[n].Popped? || l.fate[n].Evicted?) && 0 <= j < |l.waiting| ::
      n < l.waiting[j]
  }

  ghost predicate Accounted(l: Ledger, max: nat) {
    && |l.fate| == |l.arrived|
    && Lists(l.waiting, l.fate, Waiting)
    && Lists(l.popped, l.fate, Popped)
    && FrontFirst(l)
    && |l.waiting| <= max
  }

  ghost function Select(arrived: seq<QuePacket>, w: seq<nat>): seq<QuePacket>
    requires InRange(w, |arrived|)
  {
    seq(|w|, i requires 0 <= i < |w| => arrived[w[i]])
  }

  // -------- The queue itself --------

  class RouterStore {
    var waiting: seq<QuePacket>
    const maxPackets: nat
    ghost var ledger: Ledger

    ghost predicate Valid()
      reads this
    {
      Accounted(ledger, maxPackets) && waiting == Select(ledger.arrived, ledger.waiting)
    }

    constructor (maxPackets: nat)
      ensures Valid() && this.maxPackets == maxPackets && waiting == [] && ledger == EMPTY
    {
      this.maxPackets := maxPackets;
      waiting := [];
      ledger := EMPTY;
    }

    method StoreWaitingPacket(packet: Packet, received: nat)
      requires Valid()
      modifies this
      ensures Valid() && ledger == Apply(old(ledger), maxPackets, StoreCall(QuePacket(packet, received)))
      ensures waiting == Push(old(waiting), maxPackets, QuePacket(packet, received))
    {
      var p := QuePacket(packet, received);
      AccountedStep(ledger, maxPackets, StoreCall(p));
      ledger := Apply(ledger, maxPackets, StoreCall(p));
      waiting := waiting + [p];
      if |waiting| > maxPackets {
        waiting := waiting[1..];
      }
    }

    method PopWaitingPacket() returns (r: Option<QuePacket>)
      requires Valid()
      modifies this
      ensures Valid() && ledger == Apply(old(ledger), maxPackets, PopCall)
      ensures r == if old(waiting) == [] then None else Some(old(waiting)[0])
      ensures waiting == if old(waiting) == [] then [] else old(waiting)[1..]
    {
      AccountedStep(ledger, maxPackets, PopCall);
      ledger := Apply(ledger, maxPackets, PopCall);
      if waiting == [] {
        return None;
      }
      r := Some(waiting[0]);
      waiting := waiting[1..];
    }

    method GcWaitingPackets(duration: nat, clock: Clock) returns (removed: nat)
      requires Valid()
      modifies this
      ensures Valid() && ledger == Apply(old(ledger), maxPackets, GcCall(duration, clock))
      ensures waiting == Retain(old(waiting), duration, clock, 0)
      ensures removed == |old(waiting)| - |waiting|
    {
      var before := |waiting|;
      AccountedStep(ledger, maxPackets, GcCall(duration, clock));
      RetainSelects(ledger.arrived, ledger.waiting, duration, clock, 0);
      ledger := Apply(ledger, maxPackets, GcCall(duration, clock));
      waiting := Retain(waiting, duration, clock, 0);
      removed := before - |waiting|;
    }
  }

  // -------- Proofs --------

  lemma {:induction false} KeptPart(arrived: seq<QuePacket>, w: seq<nat>, duration: nat, clock: Clock, start: nat)
    requires InRange(w, |arrived|)
    ensures var kept := Kept(arrived, w, duration, clock, start);
            |kept| <= |w| && forall n | n in kept :: n in w
  {
    if w == [] {
    } else {
      KeptPart(arrived, w[1..], duration, clock, start + 1);
    }
  }

  lemma PrependIncreasing(n: nat, s: seq<nat>)
    requires Increasing(s) && forall m | m in s :: n < m
    ensures Increasing([n] + s)
  {
    assert forall i | 0 <= i < |s| :: s[i] in s;
  }

  lemma AppendIncreasing(s: seq<nat>, n: nat)
    requires Increasing(s) && forall m | m in s :: m < n
    ensures Increasing(s + [n])
  {
    assert forall i | 0 <= i < |s| :: s[i] in s;
  }

  /** The pass keeps the old order. */
  lemma {:induction false} KeptOrder(arrived: seq<QuePacket>, w: seq<nat>, duration: nat, clock: Clock, start: nat)
    requires Increasing(w) && InRange(w, |arrived|)
    ensures Increasing(Kept(arrived, w, duration, clock, start))
  {
    if w == [] {
    } else {
      var rest := Kept(arrived, w[1..], duration, clock, start + 1);
      assert Increasing(rest) by {
        KeptOrder(arrived, w[1..], duration, clock, start + 1);
      }
      KeptPart(arrived, w[1..], duration, clock, start + 1);
      hide Increasing;
      assert forall m | m in w[1..] :: w[0] < m by {
        FirstIsLeast(w);
      }
      PrependIncreasing(w[0], rest);
    }
  }

  lemma FirstIsLeast(w: seq<nat>)
    requires Increasing(w) && w != []
    ensures forall m | m in w[1..] :: w[0] < m
  {
  }

  /** Keeping arrival numbers and retaining packets is the same pass. */
  lemma {:induction false} RetainSelects(arrived: seq<QuePacket>, w: seq<nat>, duration: nat, clock: Clock, start: nat)
    requires InRange(w, |arrived|)
    ensures var kept := Kept(arrived, w, duration, clock, start);
            && InRange(kept, |arrived|)
            && Retain(Select(arrived, w), duration, clock, start) == Select(arrived, kept)
  {
    if w == [] {
    } else {
      hide Elapsed;
      RetainSelects(arrived, w[1..], duration, clock, start + 1);
      var rest := Kept(arrived, w[1..], duration, clock, start + 1);
      SelectTail(arrived, w);
      SelectCons(arrived, w[0], rest);
      hide Select;
      assert Select(arrived, w) != [];
    }
  }

  lemma SelectTail(arrived: seq<QuePacket>, w: seq<nat>)
    requires InRange(w, |arrived|) && w != []
    ensures Select(arrived, w)[1..] == Select(arrived, w[1..]) && Select(arrived, w)[0] == arrived[w[0]]
  {
  }

  lemma SelectCons(arrived: seq<QuePacket>, n: nat, w: seq<nat>)
    requires n < |arrived| && InRange(w, |arrived|)
    ensures InRange([n] + w, |arrived|) && Select(arrived, [n] + w) == [arrived[n]] + Select(arrived, w)
  {
  }

  /** Appending a packet that waits. */
  lemma AccountedAppend(l: Ledger, max: nat, p: QuePacket)
    requires Accounted(l, max)
    ensures var l' := l.(arrived := l.arrived + [p], fate := l.fate + [Waiting], waiting := l.waiting + [|l.arrived|]);
            Accounted(l', max + 1)
  {
  }

  lemma ListsTakeFront(w: seq<nat>, fate: seq<Fate>, f: Fate)
    requires Lists(w, fate, Waiting) && w != [] && !f.Waiting?
    ensures w[0] < |fate| && Lists(w[1..], fate[w[0] := f], Waiting)
  {
    var n := w[0];
    FirstIsLeast(w);
    assert w == [n] + w[1..];
    hide Increasing;
    assert Increasing(w[1..]) by {
      TailIncreasing(w);
    }
  }

  lemma TailIncreasing(w: seq<nat>)
    requires Increasing(w) && w != []
    ensures Increasing(w[1..])
  {
  }

  lemma ListsPopped(popped: seq<nat>, fate: seq<Fate>, n: nat)
    requires Lists(popped, fate, Popped) && n < |fate| && fate[n].Waiting? && forall m | m in popped :: m < n
    ensures Lists(popped + [n], fate[n := Popped], Popped)
    ensures Lists(popped, fate[n := Evicted], Popped)
  {
    AppendIncreasing(popped, n);
    hide Increasing;
  }

  /** Taking the oldest waiting packet away, for either reason. */
  lemma AccountedTakeFront(l: Ledger, max: nat, f: Fate)
    requires Accounted(l, max) && l.waiting != [] && (f.Popped? || f.Evicted?)
    ensures var n := l.waiting[0];
            var popped := if f.Popped? then l.popped + [n] else l.popped;
            Accounted(l.(waiting := l.waiting[1..], popped := popped, fate := l.fate[n := f]), max)
    ensures |l.waiting[1..]| == |l.waiting| - 1
  {
    var n := l.waiting[0];
    assert l.fate[n].Waiting?;
    forall m | m in l.popped
      ensures m < n
    {
      assert l.fate[m].Popped?;
    }
    FirstIsLeast(l.waiting);
    ListsTakeFront(l.waiting, l.fate, f);
    ListsPopped(l.popped, l.fate, n);
    hide Lists, Increasing;
    assert FrontFirst(l.(waiting := l.waiting[1..], fate := l.fate[n := f]));
  }

  /** After the pass exactly the kept packets wait, and the other lists are as before. */
  lemma ExpireLists(fate: seq<Fate>, w: seq<nat>, kept: seq<nat>, popped: seq<nat>)
    requires Lists(w, fate, Waiting) && Lists(popped, fate, Popped)
    requires Increasing(kept) && forall n | n in kept :: n in w
    ensures Lists(kept, Expire(fate, kept), Waiting) && Lists(popped, Expire(fate, kept), Popped)
  {
    forall i | 0 <= i < |kept|
      ensures kept[i] < |fate|
    {
      assert kept[i] in kept;
    }
  }

  lemma AccountedGc(l: Ledger, max: nat, duration: nat, clock: Clock)
    requires Accounted(l, max)
    ensures Accounted(Apply(l, max, GcCall(duration, clock)), max)
  {
    var kept := Kept(l.arrived, l.waiting, duration, clock, 0);
    KeptOrder(l.arrived, l.waiting, duration, clock, 0);
    KeptPart(l.arrived, l.waiting, duration, clock, 0);
    ExpireLists(l.fate, l.waiting, kept, l.popped);
    hide Lists, Kept;
    assert FrontFirst(l.(waiting := kept, fate := Expire(l.fate, kept))) by {
      forall j | 0 <= j < |kept|
        ensures kept[j] in l.waiting
      {
        assert kept[j] in kept;
      }
    }
  }

  /** Each call keeps the account. */
  lemma AccountedStep(l: Ledger, max: nat, call: Call)
    requires Accounted(l, max)
    ensures Accounted(Apply(l, max, call), max)
  {
    match call
    case StoreCall(p) =>
      AccountedAppend(l, max, p);
      var l' := l.(arrived := l.arrived + [p], fate := l.fate + [Waiting], waiting := l.waiting + [|l.arrived|]);
      if |l'.waiting| > max {
        AccountedTakeFront(l', max + 1, Evicted);
      }
    case PopCall =>
      if l.waiting != [] {
        AccountedTakeFront(l, max, Popped);
      }
    case GcCall(duration, clock) =>
      AccountedGc(l, max, duration, clock);
  }

  /** The state after a sequence of calls on a new queue. */
  ghost function After(max: nat, calls: seq<Call>): (l: Ledger)
    ensures Accounted(l, max)
    decreases |calls|
  {
    if calls == [] then EMPTY
    else
      var l := After(max, calls[..|calls| - 1]);
      AccountedStep(l, max, calls[|calls| - 1]);
      Apply(l, max, calls[|calls| - 1])
  }

  /** The packets that the calls store, in order. */
  ghost function Stored(calls: seq<Call>): seq<QuePacket> {
    if calls == [] then []
    else
      var last := calls[|calls| - 1];
      Stored(calls[..|calls| - 1]) + if last.StoreCall? then [last.p] else []
  }

  /**
    Conservation: after any calls, exactly the stored packets are on record, each with one fate; the waiting
    and the popped ones are listed in order of arrival, and no more wait than the limit allows.
   */
  lemma {:induction false} Conservation(max: nat, calls: seq<Call>)
    ensures After(max, calls).arrived == Stored(calls)
    ensures Accounted(After(max, calls), max)
    decreases |calls|
  {
    if calls == [] {
    } else {
      Conservation(max, calls[..|calls| - 1]);
    }
  }

  /** A call never changes the fate of a packet that no longer waits. */
  lemma FatesAreFinal(l: Ledger, max: nat, call: Call, n: nat)
    requires Accounted(l, max) && n < |l.fate| && !l.fate[n].Waiting?
    ensures n < |Apply(l, max, call).fate| && Apply(l, max, call).fate[n] == l.fate[n]
  {
    if l.waiting != [] {
      assert l.fate[l.waiting[0]].Waiting?;
    }
  }

  /** With packets queued in order of reception and a single clock reading, exactly a prefix expires. */
  lemma {:induction false} GcRemovesPrefix(waiting: seq<QuePacket>, duration: nat, now: nat, start: nat)
    requires forall i, j | 0 <= i < j < |waiting| :: waiting[i].received <= waiting[j].received
    ensures var kept := Retain(waiting, duration, _ => now, start);
            && |kept| <= |waiting|
            && kept == waiting[|waiting| - |kept|..]
            && (forall i | 0 <= i < |waiting| - |kept| :: waiting[i].received + duration < now)
            && (forall i | |waiting| - |kept| <= i < |waiting| :: now <= waiting[i].received + duration)
  {
    if waiting == [] {
    } else {
      GcRemovesPrefix(waiting[1..], duration, now, start + 1);
      var rest := Retain(waiting[1..], duration, _ => now, start + 1);
      if Elapsed(waiting[0], now) <= duration {
        assert rest == waiting[1..];
      }
    }
  }

  // -------- Which packets a call drops --------

  /** A packet is dropped only from a full queue, and then it is the one that has waited longest. */
  lemma StoreExact(l: Ledger, max: nat, p: QuePacket)
    requires Accounted(l, max)
    ensures var l', n := Apply(l, max, StoreCall(p)), |l.arrived|;
            if |l.waiting| < max then l'.waiting == l.waiting + [n] && l'.fate == l.fate + [Waiting]
            else if max > 0 then
              && l'.waiting == l.waiting[1..] + [n]
              && l'.fate == (l.fate + [Waiting])[l.waiting[0] := Evicted]
            else l'.waiting == [] && l'.fate == l.fate + [Evicted]
  {
  }

  /** The queue keeps the newest packets, as many as there is room for. */
  lemma PushKeepsNewest(waiting: seq<QuePacket>, max: nat, p: QuePacket)
    requires |waiting| <= max
    ensures var all := waiting + [p];
            Push(waiting, max, p) == if |all| <= max then all else all[|all| - max..]
  {
  }

  /** A pass keeps the packet at position `i` exactly when its clock reading is not past reception plus duration. */
  lemma {:induction false} GcExact(arrived: seq<QuePacket>, w: seq<nat>, duration: nat, clock: Clock, start: nat,
                                   i: nat)
    requires InRange(w, |arrived|) && Increasing(w) && i < |w|
    ensures w[i] in Kept(arrived, w, duration, clock, start)
            <==> clock(start + i) <= arrived[w[i]].received + duration
  {
    KeptPart(arrived, w[1..], duration, clock, start + 1);
    FirstIsLeast(w);
    if i == 0 {
    } else {
      GcExact(arrived, w[1..], duration, clock, start + 1, i - 1);
      assert w[i] != w[0];
    }
  }
}

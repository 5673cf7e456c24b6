/**
  The observer plumbing of pygarl: the control signals, the data reader's list
  of attached sample managers and the sample manager's list of receivers.

  A subscriber's own handler (`receive_data`, `receive_signal`,
  `receive_sample`) is code outside this model, so a notification is recorded
  as the sequence of `Delivery` values it makes, one per call, in call order.
 */
module Abstracts {
  import opened Wrappers

  /** `ControlSignal`: the class defines exactly three members. */
  datatype ControlSignal = Start | Stop | Error
  {
    /** The integer value of the class attribute. */
    function Value(): (v: nat)
      ensures v < 3
    {
      match this
      case Start => 0
      case Stop => 1
      case Error => 2
    }

    /** The attribute name under which the class defines the member. */
    function Name(): string
    {
      match this
      case Start => "START"
      case Stop => "STOP"
      case Error => "ERROR"
    }
  }

  /**
    Attribute lookup `ControlSignal.<name>`: `None` is the AttributeError
    Python raises for a name the class does not define.
   */
  function SignalNamed(name: string): (r: Option<ControlSignal>)
    ensures r.Some? <==> name == "START" || name == "STOP" || name == "ERROR"
    ensures r.Some? ==> r.value.Name() == name
  {
    if name == "START" then Some(Start)
    else if name == "STOP" then Some(Stop)
    else if name == "ERROR" then Some(Error)
    else None
  }

  /** Distinct members have distinct values and names. */
  lemma SignalValuesDistinct(a: ControlSignal, b: ControlSignal)
    requires a != b
    ensures a.Value() != b.Value() && a.Name() != b.Name()
  {
  }

  /** The class has no TIMEOUT member, so `ControlSignal.TIMEOUT` raises. */
  lemma TimeoutIsNotASignal()
    ensures SignalNamed("TIMEOUT") == None
    ensures forall s: ControlSignal :: s.Name() != "TIMEOUT"
  {
  }

  /** What a manager is handed: `receive_data(values)` or `receive_signal(signal)`. */
  datatype Notification = DataNote(values: seq<real>) | SignalNote(signal: ControlSignal)

  /** One call of a subscriber's handler: the subscriber called and the argument it got. */
  datatype Delivery<T, P> = Delivery(target: T, payload: P)

  /**
    The calls made by `for s in subscribers: s.handler(payload)`: one per list
    entry, in list order, all with the same payload.
   */
  function Fanout<T, P>(subscribers: seq<T>, payload: P): (r: seq<Delivery<T, P>>)
    ensures |r| == |subscribers|
    ensures forall i :: 0 <= i < |r| ==> r[i] == Delivery(subscribers[i], payload)
  {
    if subscribers == [] then []
    else [Delivery(subscribers[0], payload)] + Fanout(subscribers[1..], payload)
  }

  /** The payloads handed to subscriber `s`, in order. */
  function ReceivedBy<T(==), P>(sent: seq<Delivery<T, P>>, s: T): seq<P>
  {
    if sent == [] then []
    else (if sent[0].target == s then [sent[0].payload] else []) + ReceivedBy(sent[1..], s)
  }

  /** `n` copies of `p`. */
  function Copies<P>(p: P, n: nat): (r: seq<P>)
    ensures |r| == n
    ensures forall i :: 0 <= i < n ==> r[i] == p
  {
    if n == 0 then [] else [p] + Copies(p, n - 1)
  }

  lemma {:induction false} ReceivedByAppend<T, P>(a: seq<Delivery<T, P>>, b: seq<Delivery<T, P>>, s: T)
    ensures ReceivedBy(a + b, s) == ReceivedBy(a, s) + ReceivedBy(b, s)
  {
    if a == [] {
      assert a + b == b;
    } else {
      var c := a + b;
      assert c[0] == a[0] && c[1..] == a[1..] + b;
      var head: seq<P> := if a[0].target == s then [a[0].payload] else [];
      ReceivedByAppend(a[1..], b, s);
      assert ReceivedBy(c, s) == head + ReceivedBy(c[1..], s);
      assert ReceivedBy(a, s) == head + ReceivedBy(a[1..], s);
    }
  }

  /**
    A notification reaches each subscriber once per occurrence in the list:
    one attached once gets the payload exactly once, one never attached gets nothing.
   */
  lemma {:induction false} FanoutReceivedBy<T, P>(subscribers: seq<T>, payload: P, s: T)
    ensures ReceivedBy(Fanout(subscribers, payload), s) == Copies(payload, multiset(subscribers)[s])
  {
    if subscribers != [] {
      FanoutReceivedBy(subscribers[1..], payload, s);
      assert subscribers == [subscribers[0]] + subscribers[1..];
      assert multiset(subscribers) == multiset{subscribers[0]} + multiset(subscribers[1..]);
      var f := Fanout(subscribers, payload);
      assert f[1..] == Fanout(subscribers[1..], payload);
    }
  }

  /** Fanning out to a list extended at its end adds the new subscriber's call last. */
  lemma FanoutAppend<T, P>(subscribers: seq<T>, s: T, payload: P)
    ensures Fanout(subscribers + [s], payload) == Fanout(subscribers, payload) + [Delivery(s, payload)]
  {
    assert |Fanout(subscribers + [s], payload)| == |Fanout(subscribers, payload) + [Delivery(s, payload)]|;
  }

  /** Position of the first occurrence of `x` in `s` (what `list.remove` looks for). */
  function IndexOf<T(==)>(s: seq<T>, x: T): (i: nat)
    requires x in s
    ensures i < |s| && s[i] == x && x !in s[..i]
  {
    if s[0] == x then 0
    else
      var j := IndexOf(s[1..], x);
      assert s[..j + 1] == [s[0]] + s[1..][..j];
      1 + j
  }

  /** `list.remove(x)` on a list that holds `x`: drop the first occurrence only. */
  function RemoveFirst<T(==)>(s: seq<T>, x: T): (r: seq<T>)
    requires x in s
    ensures |r| == |s| - 1
  {
    var i := IndexOf(s, x);
    s[..i] + s[i + 1..]
  }

  /** Removal takes away exactly one copy of `x` and keeps every other element. */
  lemma RemoveFirstMultiset<T>(s: seq<T>, x: T)
    requires x in s
    ensures multiset(RemoveFirst(s, x)) == multiset(s) - multiset{x}
  {
    var i := IndexOf(s, x);
    assert s == s[..i] + [x] + s[i + 1..];
  }

  /** The entries before the removed one keep their place; the ones after move up by one. */
  lemma RemoveFirstOrder<T>(s: seq<T>, x: T)
    requires x in s
    ensures var i := IndexOf(s, x);
            (forall k :: 0 <= k < i ==> RemoveFirst(s, x)[k] == s[k]) &&
            (forall k :: i <= k < |s| - 1 ==> RemoveFirst(s, x)[k] == s[k + 1])
  {
    var i := IndexOf(s, x);
    var r := RemoveFirst(s, x);
    assert r == s[..i] + s[i + 1..];
    forall k | i <= k < |s| - 1 ensures r[k] == s[k + 1] {
      assert r[k] == s[i + 1..][k - i];
    }
  }

  /** An index holding `x` with no `x` before it is the first occurrence. */
  lemma FirstOccurrence<T>(s: seq<T>, x: T, i: nat)
    requires i < |s| && s[i] == x && x !in s[..i]
    ensures IndexOf(s, x) == i
  {
    var j := IndexOf(s, x);
    forall k | 0 <= k < j ensures s[k] != x { assert s[k] == s[..j][k]; }
    forall k | 0 <= k < i ensures s[k] != x { assert s[k] == s[..i][k]; }
  }

  /** Attaching and then detaching the same subscriber: the first occurrence goes, the new entry stays. */
  lemma DetachAfterAttach<T>(s: seq<T>, x: T)
    ensures x in s ==> RemoveFirst(s + [x], x) == RemoveFirst(s, x) + [x]
    ensures x !in s ==> RemoveFirst(s + [x], x) == s
  {
    var t := s + [x];
    if x in s {
      var i := IndexOf(s, x);
      assert t[..i] == s[..i];
      FirstOccurrence(t, x, i);
      assert t[..i] + t[i + 1..] == s[..i] + s[i + 1..] + [x];
    } else {
      assert t[..|s|] == s;
      FirstOccurrence(t, x, |s|);
    }
  }

  /**
    A subscriber attached once and then detached is left out of every later
    notification, while every other subscriber still gets it as often as before.
   */
  lemma DetachedGetsNothing<T, P>(subscribers: seq<T>, x: T, payload: P, other: T)
    requires multiset(subscribers)[x] == 1 && other != x
    ensures ReceivedBy(Fanout(RemoveFirst(subscribers, x), payload), x) == []
    ensures ReceivedBy(Fanout(RemoveFirst(subscribers, x), payload), other) ==
              ReceivedBy(Fanout(subscribers, payload), other)
  {
    RemoveFirstMultiset(subscribers, x);
    FanoutReceivedBy(RemoveFirst(subscribers, x), payload, x);
    FanoutReceivedBy(RemoveFirst(subscribers, x), payload, other);
    FanoutReceivedBy(subscribers, payload, other);
  }

  /** `AbstractDataReader`: the ordered list of attached managers. */
  class DataReader<M(==)> {
    var managers: seq<M>

    constructor()
      ensures managers == []
    {
      managers := [];
    }

    /** `attach_manager`: the manager goes at the end; earlier entries keep their order. */
    method AttachManager(manager: M)
      modifies this
      ensures managers == old(managers) + [manager]
    {
      managers := managers + [manager];
    }

    /**
      `detach_manager`: `removed` is false exactly when `list.remove` raises
      ValueError (the manager is not attached), and then nothing changes.
     */
    method DetachManager(manager: M) returns (removed: bool)
      modifies this
      ensures removed == (manager in old(managers))
      ensures removed ==> managers == RemoveFirst(old(managers), manager)
      ensures !removed ==> managers == old(managers)
    {
      removed := manager in managers;
      if removed {
        managers := RemoveFirst(managers, manager);
      }
    }

    /** `notify_data`: every attached manager's `receive_data(data)`, in list order. */
    method NotifyData(data: seq<real>) returns (sent: seq<Delivery<M, Notification>>)
      ensures sent == Fanout(managers, DataNote(data))
    {
      sent := Notify(DataNote(data));
    }

    /** `notify_signal`: every attached manager's `receive_signal(signal)`, in list order. */
    method NotifySignal(signal: ControlSignal) returns (sent: seq<Delivery<M, Notification>>)
      ensures sent == Fanout(managers, SignalNote(signal))
    {
      sent := Notify(SignalNote(signal));
    }

    /** The loop shared by `notify_data` and `notify_signal`. */
    method Notify(note: Notification) returns (sent: seq<Delivery<M, Notification>>)
      ensures sent == Fanout(managers, note)
    {
      sent := [];
      for i := 0 to |managers|
        invariant sent == Fanout(managers[..i], note)
      {
        FanoutAppend(managers[..i], managers[i], note);
        assert managers[..i + 1] == managers[..i] + [managers[i]];
        sent := sent + [Delivery(managers[i], note)];
      }
      assert managers[..|managers|] == managers;
    }
  }

  /** `AbstractSampleManager`: the axis count, the sample buffer and the ordered receiver list. */
  class SampleManager<R(==), S> {
    var axis: int
    var buffer: seq<seq<real>>
    var receivers: seq<R>

    /** `__init__(axis=6)`: empty buffer, no receivers. */
    constructor(axis: int := 6)
      ensures this.axis == axis && buffer == [] && receivers == []
    {
      this.axis := axis;
      buffer := [];
      receivers := [];
    }

    /** `attach_receiver`: the receiver goes at the end; earlier entries keep their order. */
    method AttachReceiver(receiver: R)
      modifies this
      ensures receivers == old(receivers) + [receiver]
      ensures axis == old(axis) && buffer == old(buffer)
    {
      receivers := receivers + [receiver];
    }

    /**
      `detach_receiver`: `removed` is false exactly when `list.remove` raises
      ValueError (the receiver is not attached), and then nothing changes.
     */
    method DetachReceiver(receiver: R) returns (removed: bool)
      modifies this
      ensures removed == (receiver in old(receivers))
      ensures removed ==> receivers == RemoveFirst(old(receivers), receiver)
      ensures !removed ==> receivers == old(receivers)
      ensures axis == old(axis) && buffer == old(buffer)
    {
      removed := receiver in receivers;
      if removed {
        receivers := RemoveFirst(receivers, receiver);
      }
    }

    /** `notify_receivers`: every receiver's `receive_sample(sample)`, in attachment order. */
    method NotifyReceivers(sample: S) returns (sent: seq<Delivery<R, S>>)
      ensures sent == Fanout(receivers, sample)
    {
      sent := [];
      for i := 0 to |receivers|
        invariant sent == Fanout(receivers[..i], sample)
      {
        FanoutAppend(receivers[..i], receivers[i], sample);
        assert receivers[..i + 1] == receivers[..i] + [receivers[i]];
        sent := sent + [Delivery(receivers[i], sample)];
      }
      assert receivers[..|receivers|] == receivers;
    }
  }
}

/**
 * The listener registry of `PartAPI`: a map from event name to the ordered
 * list of listeners registered for it. Listeners are opaque ids compared by
 * identity; invoking one is recorded as a `Delivery`.
 */
module Registry {

  type ListenerId = nat

  type Event = string

  type Listeners = map<Event, seq<ListenerId>>

  /** One invocation `listener(value)`. */
  datatype Delivery = Delivery(listener: ListenerId, value: bool)

  /** The list registered for `e`, empty when the map has none. */
  function ListenersOf(m: Listeners, e: Event): seq<ListenerId> {
    if e in m then m[e] else []
  }

  /** `addListener`: the list for `e` is created if absent and `l` is appended to it. */
  function Subscribe(m: Listeners, e: Event, l: ListenerId): (r: Listeners)
    ensures r.Keys == m.Keys + {e}
    ensures r[e] == ListenersOf(m, e) + [l]
    ensures forall e' :: e' in m && e' != e ==> r[e'] == m[e']
  {
    m[e := ListenersOf(m, e) + [l]]
  }

  /** The `filter` of `removeListener`: every element of `s` that is not `l`, in order. */
  function Without(s: seq<ListenerId>, l: ListenerId): (r: seq<ListenerId>)
    ensures forall x :: x in r <==> x in s && x != l
    ensures |r| <= |s|
  {
    if s == [] then []
    else if s[0] == l then Without(s[1..], l)
    else [s[0]] + Without(s[1..], l)
  }

  /** `removeListener`: filters the list for `e` when there is one, and does nothing otherwise. */
  function Unsubscribe(m: Listeners, e: Event, l: ListenerId): (r: Listeners)
    ensures r.Keys == m.Keys
    ensures e in m ==> r[e] == Without(m[e], l) && l !in r[e]
    ensures forall e' :: e' in m && e' != e ==> r[e'] == m[e']
  {
    if e in m then m[e := Without(m[e], l)] else m
  }

  /** The invocations `notify` makes for the list `ls`: each listener once, in order, with `v`. */
  function Deliveries(ls: seq<ListenerId>, v: bool): (r: seq<Delivery>)
    ensures |r| == |ls|
    ensures forall i :: 0 <= i < |ls| ==> r[i] == Delivery(ls[i], v)
  {
    if ls == [] then [] else [Delivery(ls[0], v)] + Deliveries(ls[1..], v)
  }

  /** Filtering distributes over concatenation: the survivors keep their relative order. */
  lemma {:induction false} WithoutAppend(a: seq<ListenerId>, b: seq<ListenerId>, l: ListenerId)
    ensures Without(a + b, l) == Without(a, l) + Without(b, l)
    decreases |a|
  {
    if a == [] {
      assert a + b == b;
    } else {
      assert (a + b)[1..] == a[1..] + b;
      WithoutAppend(a[1..], b, l);
    }
  }

  /** Removing a listener that is not registered changes nothing. */
  lemma {:induction false} WithoutAbsent(s: seq<ListenerId>, l: ListenerId)
    requires l !in s
    ensures Without(s, l) == s
    decreases |s|
  {
    if s != [] {
      WithoutAbsent(s[1..], l);
      assert s == [s[0]] + s[1..];
    }
  }

  /** Every other listener keeps all of its occurrences. */
  lemma {:induction false} WithoutKeepsOthers(s: seq<ListenerId>, l: ListenerId, x: ListenerId)
    requires x != l
    ensures multiset(Without(s, l))[x] == multiset(s)[x]
    decreases |s|
  {
    if s != [] {
      WithoutKeepsOthers(s[1..], l, x);
      assert s == [s[0]] + s[1..];
    }
  }

  /** `removeListener` is idempotent. */
  lemma UnsubscribeIdempotent(m: Listeners, e: Event, l: ListenerId)
    ensures Unsubscribe(Unsubscribe(m, e, l), e, l) == Unsubscribe(m, e, l)
  {
    if e in m {
      WithoutAbsent(Without(m[e], l), l);
    }
  }

  /** `removeListener` of an unknown event or of a listener never added is a no-op. */
  lemma UnsubscribeUnknown(m: Listeners, e: Event, l: ListenerId)
    requires e !in m || l !in m[e]
    ensures Unsubscribe(m, e, l) == m
  {
    if e in m {
      WithoutAbsent(m[e], l);
    }
  }

  /** After `addListener(e, l)`, publishing `e` reaches the earlier listeners in order and then `l`. */
  lemma PublishAfterSubscribe(m: Listeners, e: Event, l: ListenerId, v: bool)
    ensures Deliveries(ListenersOf(Subscribe(m, e, l), e), v) == Deliveries(ListenersOf(m, e), v) + [Delivery(l, v)]
  {
  }

  /** A listener subscribed once is invoked exactly once per publish, with the published value. */
  lemma PublishOnceAfterSubscribe(m: Listeners, e: Event, l: ListenerId, v: bool)
    requires l !in ListenersOf(m, e)
    ensures multiset(Deliveries(ListenersOf(Subscribe(m, e, l), e), v))[Delivery(l, v)] == 1
  {
    PublishAfterSubscribe(m, e, l, v);
    var before := Deliveries(ListenersOf(m, e), v);
    assert Delivery(l, v) !in before;
  }

  /** After `removeListener(e, l)`, publishing `e` never reaches `l`. */
  lemma PublishAfterUnsubscribe(m: Listeners, e: Event, l: ListenerId, v: bool)
    ensures forall d :: d in Deliveries(ListenersOf(Unsubscribe(m, e, l), e), v) ==> d.listener != l
  {
  }

  /** Listeners registered one after the other are invoked in registration order. */
  lemma PublishInRegistrationOrder(m: Listeners, e: Event, a: ListenerId, b: ListenerId, v: bool)
    ensures Deliveries(ListenersOf(Subscribe(Subscribe(m, e, a), e, b), e), v)
         == Deliveries(ListenersOf(m, e), v) + [Delivery(a, v), Delivery(b, v)]
  {
  }
}

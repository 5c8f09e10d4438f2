/**
 * The game's publish/subscribe event bus.  Listeners are callbacks, which are
 * code this model cannot call; each is identified by a handle, and what the
 * bus observably does when it publishes is the ordered list of (listener,
 * event) invocations, which the bus records in `delivered`.
 */
module Events {
  /** The four event classes the game defines. */
  datatype Event =
    | MoneyChanged(newAmount: int)
    | WaveStarted(waveNumber: int)
    | EnemyReachedCastle(damage: int)
    | GameOver(victory: bool)

  /** The class of an event, which is the key listeners are registered under. */
  datatype EventType = MoneyChangedType | WaveStartedType | EnemyReachedCastleType | GameOverType

  function TypeOf(e: Event): EventType
  {
    match e
    case MoneyChanged(_) => MoneyChangedType
    case WaveStarted(_) => WaveStartedType
    case EnemyReachedCastle(_) => EnemyReachedCastleType
    case GameOver(_) => GameOverType
  }

  /** A handle standing for one subscribed callback. */
  type Listener = nat

  datatype Delivery = Delivery(listener: Listener, event: Event)

  /** One call on the bus, as a ghost history of how the listener map was built. */
  datatype BusOp =
    | Subscribe(eventType: EventType, listener: Listener)
    | Clear(eventType: EventType)
    | ClearAll

  /** The listeners registered for `t` after replaying `ops` on an empty bus. */
  function ListenersAfter(ops: seq<BusOp>, t: EventType): seq<Listener>
  {
    if ops == [] then []
    else
      var before := ListenersAfter(ops[..|ops| - 1], t);
      match ops[|ops| - 1]
      case Subscribe(t', l) => if t' == t then before + [l] else before
      case Clear(t') => if t' == t then [] else before
      case ClearAll => []
  }

  /** Whether `op` discards the listeners of `t`. */
  predicate Resets(op: BusOp, t: EventType)
  {
    op == ClearAll || op == Clear(t)
  }

  /** The subscriptions to `t` in `ops`, in order. */
  function SubscriptionsTo(ops: seq<BusOp>, t: EventType): (r: seq<Listener>)
    ensures |r| <= |ops|
  {
    if ops == [] then []
    else
      var rest := SubscriptionsTo(ops[..|ops| - 1], t);
      match ops[|ops| - 1]
      case Subscribe(t', l) => if t' == t then rest + [l] else rest
      case _ => rest
  }

  /**
   * The listeners of `t` are exactly the subscriptions to `t` made since the
   * last operation that cleared `t`, kept in subscription order and with
   * repeated subscriptions kept.
   */
  lemma {:induction false} ListenersAreSubscriptionsSinceLastClear(ops: seq<BusOp>, t: EventType, k: nat)
    requires k <= |ops|
    requires k > 0 ==> Resets(ops[k - 1], t)
    requires forall i :: k <= i < |ops| ==> !Resets(ops[i], t)
    ensures ListenersAfter(ops, t) == SubscriptionsTo(ops[k..], t)
  {
    if |ops| == k {
      if k > 0 {
        assert ops[..k] == ops[..k - 1] + [ops[k - 1]];
      }
    } else {
      var init := ops[..|ops| - 1];
      assert init[k..] == ops[k..][..|ops[k..]| - 1];
      assert forall i :: k <= i < |init| ==> init[i] == ops[i];
      if k > 0 {
        assert init[k - 1] == ops[k - 1];
      }
      ListenersAreSubscriptionsSinceLastClear(init, t, k);
    }
  }

  lemma ListenersAfterStep(ops: seq<BusOp>, op: BusOp, t: EventType)
    ensures op.Subscribe? ==>
      ListenersAfter(ops + [op], t) == (if op.eventType == t then ListenersAfter(ops, t) + [op.listener] else ListenersAfter(ops, t))
    ensures op.Clear? ==>
      ListenersAfter(ops + [op], t) == (if op.eventType == t then [] else ListenersAfter(ops, t))
    ensures op.ClearAll? ==> ListenersAfter(ops + [op], t) == []
  {
    assert (ops + [op])[..|ops|] == ops;
  }

  /** Clearing or subscribing under one type never changes another type's listeners. */
  lemma {:induction false} OtherTypesUnaffected(ops: seq<BusOp>, op: BusOp, t: EventType)
    requires op != ClearAll && op.eventType != t
    ensures ListenersAfter(ops + [op], t) == ListenersAfter(ops, t)
  {
    assert (ops + [op])[..|ops|] == ops;
  }

  /** The invocations one publish performs: each listener in order, once per registration. */
  function Deliveries(listeners: seq<Listener>, e: Event): (r: seq<Delivery>)
    ensures |r| == |listeners|
    ensures forall i :: 0 <= i < |r| ==> r[i] == Delivery(listeners[i], e)
  {
    if listeners == [] then [] else [Delivery(listeners[0], e)] + Deliveries(listeners[1..], e)
  }

  class EventBus {
    /** The listener lists, keyed by event class. */
    var listeners: map<EventType, seq<Listener>>
    /** Every listener invocation made by `Publish`, in order. */
    var delivered: seq<Delivery>
    /** The calls that built `listeners`. */
    ghost var ops: seq<BusOp>

    ghost predicate Valid()
      reads this
    {
      forall t :: ListenersOf(t) == ListenersAfter(ops, t)
    }

    /** `listeners.get(t)`, with an absent key read as no listeners. */
    function ListenersOf(t: EventType): seq<Listener>
      reads this
    {
      if t in listeners then listeners[t] else []
    }

    constructor ()
      ensures Valid() && listeners == map[] && delivered == [] && ops == []
    {
      listeners := map[];
      delivered := [];
      ops := [];
    }

    method Subscribe(t: EventType, l: Listener)
      requires Valid()
      modifies this
      ensures Valid() && ops == old(ops) + [BusOp.Subscribe(t, l)]
      ensures listeners == old(listeners)[t := old(ListenersOf(t)) + [l]]
      ensures delivered == old(delivered)
    {
      ghost var before := ops;
      listeners := listeners[t := ListenersOf(t) + [l]];
      ops := ops + [BusOp.Subscribe(t, l)];
      forall t' ensures ListenersOf(t') == ListenersAfter(ops, t') {
        ListenersAfterStep(before, BusOp.Subscribe(t, l), t');
      }
    }

    /** Calls the listeners of the event's own class, in registration order. */
    method Publish(e: Event)
      requires Valid()
      modifies this
      ensures Valid() && ops == old(ops) && listeners == old(listeners)
      ensures delivered == old(delivered) + Deliveries(ListenersOf(TypeOf(e)), e)
      ensures TypeOf(e) !in listeners ==> delivered == old(delivered)
    {
      if TypeOf(e) in listeners {
        var ls := listeners[TypeOf(e)];
        var i := 0;
        while i < |ls|
          invariant 0 <= i <= |ls|
          invariant listeners == old(listeners) && ops == old(ops)
          invariant delivered == old(delivered) + Deliveries(ls[..i], e)
        {
          assert ls[..i + 1] == ls[..i] + [ls[i]];
          DeliveriesAppend(ls[..i], ls[i], e);
          delivered := delivered + [Delivery(ls[i], e)];
          i := i + 1;
        }
        assert ls[..|ls|] == ls;
      }
    }

    method ClearListeners(t: EventType)
      requires Valid()
      modifies this
      ensures Valid() && ops == old(ops) + [Clear(t)]
      ensures listeners == old(listeners) - {t}
      ensures delivered == old(delivered)
    {
      ghost var before := ops;
      listeners := listeners - {t};
      ops := ops + [Clear(t)];
      forall t' ensures ListenersOf(t') == ListenersAfter(ops, t') {
        ListenersAfterStep(before, Clear(t), t');
      }
    }

    method ClearAllListeners()
      requires Valid()
      modifies this
      ensures Valid() && ops == old(ops) + [ClearAll]
      ensures listeners == map[]
      ensures delivered == old(delivered)
    {
      listeners := map[];
      ops := ops + [ClearAll];
    }
  }

  lemma {:induction false} DeliveriesAppend(ls: seq<Listener>, l: Listener, e: Event)
    ensures Deliveries(ls + [l], e) == Deliveries(ls, e) + [Delivery(l, e)]
  {
    if ls != [] {
      assert (ls + [l])[1..] == ls[1..] + [l];
      DeliveriesAppend(ls[1..], l, e);
    }
  }
}

/** A model of the system notification center that the popup renderer
    subscribes to: a set of active subscriptions, each identified by the
    opaque token that registering it returned. Only the two keyboard
    channels the renderer uses are modelled. */
module Notifications {

  /** The opaque observer handle returned by registering a subscription. */
  type Token = nat

  /** The keyboard notification channels the renderer listens on. */
  datatype Channel = KeyboardWillShow | KeyboardWillHide

  /** One active subscription: its handle, its channel and the object whose
      callback it invokes. */
  datatype Subscription = Subscription(token: Token, channel: Channel, observer: object)

  /** The center's state as a value: the active subscriptions and the next
      handle it will hand out. */
  datatype Center = Center(active: set<Subscription>, nextToken: Token)

  /** Handles are never reused: every active handle was issued before
      `nextToken`, and no two active subscriptions share a handle. */
  ghost predicate WellFormed(c: Center)
  {
    && (forall s :: s in c.active ==> s.token < c.nextToken)
    && (forall s, t :: s in c.active && t in c.active && s.token == t.token ==> s == t)
  }

  /** Registering adds one subscription under a handle never issued before
      and returns that handle. */
  function Add(c: Center, channel: Channel, observer: object): (r: (Center, Token))
    ensures WellFormed(c) ==> WellFormed(r.0)
    ensures WellFormed(c) ==> Subscription(r.1, channel, observer) !in c.active
    ensures r.0.active == c.active + {Subscription(r.1, channel, observer)}
    ensures r.1 == c.nextToken && r.0.nextToken == c.nextToken + 1
  {
    var s := Subscription(c.nextToken, channel, observer);
    (Center(c.active + {s}, c.nextToken + 1), c.nextToken)
  }

  /** Unregistering removes every subscription carrying the handle; a handle
      that is not active leaves the center as it was. */
  function Remove(c: Center, token: Token): (r: Center)
    ensures WellFormed(c) ==> WellFormed(r)
    ensures forall s :: s in r.active ==> s in c.active && s.token != token
    ensures forall s :: s in c.active && s.token != token ==> s in r.active
    ensures (forall s :: s in c.active ==> s.token != token) ==> r == c
    ensures r.nextToken == c.nextToken
  {
    Center((set s | s in c.active && s.token != token), c.nextToken)
  }

  /** The shared notification center, updated in place by the renderers
      that register with it. */
  class NotificationCenter {
    var active: set<Subscription>
    var nextToken: Token

    function State(): Center
      reads this
    {
      Center(active, nextToken)
    }

    constructor ()
      ensures State() == Center({}, 0) && WellFormed(State())
    {
      active := {};
      nextToken := 0;
    }

    method AddObserver(channel: Channel, observer: object) returns (token: Token)
      modifies this
      ensures (State(), token) == Add(old(State()), channel, observer)
    {
      token := nextToken;
      active := active + {Subscription(token, channel, observer)};
      nextToken := nextToken + 1;
    }

    method RemoveObserver(token: Token)
      modifies this
      ensures State() == Remove(old(State()), token)
    {
      active := set s | s in active && s.token != token;
    }
  }
}

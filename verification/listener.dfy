/** The record stored for every registration: an event name, a callback and the
    context the callback is bound to when the event fires.

    Callbacks and contexts are foreign objects that the registry only ever compares
    by identity (`===`), so they are modelled as opaque identities. A listener record
    is itself an object: two records built from the same triple are `Equals` but are
    still different objects, which is what removal by reference relies on. */
module EventListeners {

  /** Identity of a callback function object. */
  type CallbackRef = nat

  /** Identity of the object a callback is invoked on. */
  type ContextRef = nat

  class Listener {
    const eventName: string
    const callback: CallbackRef
    const context: ContextRef

    /** Stores exactly the three given values. */
    constructor (name: string, callback: CallbackRef, context: ContextRef)
      ensures eventName == name
      ensures this.callback == callback && this.context == context
    {
      eventName := name;
      this.callback := callback;
      this.context := context;
    }

    /** Two records are equal when name, callback and context are all identical. */
    predicate Equals(other: Listener) {
      eventName == other.eventName && callback == other.callback && context == other.context
    }
  }

  /** `Equals` is an equivalence relation, so it can serve as the duplicate test of
      a registry, and it distinguishes records only by their three fields. */
  lemma EqualsIsEquivalence(a: Listener, b: Listener, c: Listener)
    ensures a.Equals(a)
    ensures a.Equals(b) <==> b.Equals(a)
    ensures a.Equals(b) && b.Equals(c) ==> a.Equals(c)
    ensures a.Equals(b) <==> (a.eventName, a.callback, a.context) == (b.eventName, b.callback, b.context)
  {
  }
}

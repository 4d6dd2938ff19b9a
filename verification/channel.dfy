/** The listener registry of one channel (js/EventDispatcher.js).

    A channel maps every event name to the ordered list of listener records
    registered for it, and carries a mute flag that gates dispatch. The pure
    functions below describe what each operation does to the map; the class
    `EventChannel` performs the operations in place and is proved against them. */
module EventChannels {
  import opened EventListeners

  datatype Option<T> = None | Some(value: T)

  /** One call a dispatch performs: `callback` invoked with `context` as receiver. */
  datatype Invocation = Invocation(callback: CallbackRef, context: ContextRef)

  /** The `_listeners` object: event name to listeners in registration order. */
  type Registry = map<string, seq<Listener>>

  /** What an unlisten operation reports, and the registry it leaves behind. */
  datatype Removal = Removal(removed: bool, registry: Registry)

  /** Whether duplicate triples may be stored; the source fixes this to false. */
  const ENABLE_SAME_LISTENER_ADD := false

  // ---------------------------------------------------------------------------
  // Lists of listeners
  // ---------------------------------------------------------------------------

  /** The list stored under `name`, or the empty list when there is none. */
  function Lookup(m: Registry, name: string): (s: seq<Listener>)
    ensures name !in m ==> s == []
    ensures name in m ==> s == m[name]
  {
    if name in m then m[name] else []
  }

  /** Whether some entry of `s` equals `l` (the `some(equals)` test). */
  predicate Contains(s: seq<Listener>, l: Listener) {
    exists i :: 0 <= i < |s| && l.Equals(s[i])
  }

  /** Whether `l` is registered with this callback and context (its name aside). */
  predicate Matches(l: Listener, callback: CallbackRef, context: ContextRef) {
    l.callback == callback && l.context == context
  }

  /** Index of the first entry registered with `callback` and `context`. */
  function FirstMatch(s: seq<Listener>, callback: CallbackRef, context: ContextRef): (r: Option<nat>)
    ensures r.Some? ==> r.value < |s| && Matches(s[r.value], callback, context)
    ensures r.Some? ==> forall j :: 0 <= j < r.value ==> !Matches(s[j], callback, context)
    ensures r.None? ==> forall j :: 0 <= j < |s| ==> !Matches(s[j], callback, context)
    decreases |s|
  {
    if s == [] then None
    else if Matches(s[0], callback, context) then Some(0)
    else match FirstMatch(s[1..], callback, context)
      case None => None
      case Some(i) => Some(i + 1)
  }

  /** Index of the first entry that is the very object `l` (`indexOf`). */
  function IndexOf(s: seq<Listener>, l: Listener): (r: Option<nat>)
    ensures r.Some? ==> r.value < |s| && s[r.value] == l
    ensures r.Some? ==> forall j :: 0 <= j < r.value ==> s[j] != l
    ensures r.None? <==> l !in s
    decreases |s|
  {
    if s == [] then None
    else if s[0] == l then Some(0)
    else match IndexOf(s[1..], l)
      case None => None
      case Some(i) => Some(i + 1)
  }

  /** The calls made by triggering every entry of `s`, in list order. */
  function Invocations(s: seq<Listener>): (r: seq<Invocation>)
    ensures |r| == |s|
    ensures forall i :: 0 <= i < |s| ==> r[i] == Invocation(s[i].callback, s[i].context)
    decreases |s|
  {
    if s == [] then [] else [Invocation(s[0].callback, s[0].context)] + Invocations(s[1..])
  }

  // ---------------------------------------------------------------------------
  // The registry invariant
  // ---------------------------------------------------------------------------

  /** Every entry of `s` is named `name`, and no two entries are equal. */
  ghost predicate ListWellFormed(s: seq<Listener>, name: string) {
    && (forall i :: 0 <= i < |s| ==> s[i].eventName == name)
    && (forall i, j :: 0 <= i < j < |s| ==> !s[i].Equals(s[j]))
  }

  /** Every list is well formed for the name it is stored under. */
  ghost predicate WellFormed(m: Registry) {
    forall k :: k in m ==> ListWellFormed(m[k], k)
  }

  /** Taking one entry out of a well-formed list leaves it well formed. */
  lemma RemovalKeepsListWellFormed(s: seq<Listener>, i: nat, name: string)
    requires i < |s| && ListWellFormed(s, name)
    ensures ListWellFormed(s[..i] + s[i + 1..], name)
  {
  }

  // ---------------------------------------------------------------------------
  // The operations on the map
  // ---------------------------------------------------------------------------

  /** The registry after `listen` has built the record `l`: a list is created for its
      name if there is none, and `l` is appended unless an equal record is there. */
  function Listened(m: Registry, l: Listener): (r: Registry)
    ensures r.Keys == m.Keys + {l.eventName}
    ensures forall k :: k in m && k != l.eventName ==> r[k] == m[k]
    ensures Contains(Lookup(m, l.eventName), l) ==> r == m
    ensures !Contains(Lookup(m, l.eventName), l) ==> r[l.eventName] == Lookup(m, l.eventName) + [l]
  {
    var s := Lookup(m, l.eventName);
    if !ENABLE_SAME_LISTENER_ADD && Contains(s, l) then m else m[l.eventName := s + [l]]
  }

  /** The outcome of `unlisten(name, callback, context)`: the first entry with that
      callback and context is removed, and the name is dropped once its list is empty. */
  function Unlistened(m: Registry, name: string, callback: CallbackRef, context: ContextRef): (r: Removal)
    ensures r.removed <==> exists i :: 0 <= i < |Lookup(m, name)| && Matches(Lookup(m, name)[i], callback, context)
    ensures !r.removed ==> r.registry == m
    ensures r.removed ==> exists i :: (0 <= i < |Lookup(m, name)| && FirstMatch(Lookup(m, name), callback, context) == Some(i)
      && Lookup(r.registry, name) == Lookup(m, name)[..i] + Lookup(m, name)[i + 1..])
    ensures r.removed ==> (name in r.registry <==> |Lookup(m, name)| > 1)
    ensures r.registry.Keys <= m.Keys
    ensures forall k :: k in m && k != name ==> k in r.registry && r.registry[k] == m[k]
  {
    var s := Lookup(m, name);
    match FirstMatch(s, callback, context)
    case None => Removal(false, m)
    case Some(i) =>
      var rest := s[..i] + s[i + 1..];
      Removal(true, if |rest| == 0 then m - {name} else m[name := rest])
  }

  /** The outcome of `unlistenListener(l)`: the very object `l` is removed from the list
      of its own name. Unlike `Unlistened`, the name stays even when its list empties. */
  function UnlistenedListener(m: Registry, l: Listener): (r: Removal)
    requires l.eventName in m
    ensures r.removed <==> l in m[l.eventName]
    ensures !r.removed ==> r.registry == m
    ensures r.registry.Keys == m.Keys
    ensures r.removed ==> exists i :: (0 <= i < |m[l.eventName]| && IndexOf(m[l.eventName], l) == Some(i)
      && r.registry[l.eventName] == m[l.eventName][..i] + m[l.eventName][i + 1..])
    ensures forall k :: k in m && k != l.eventName ==> r.registry[k] == m[k]
  {
    var s := m[l.eventName];
    match IndexOf(s, l)
    case None => Removal(false, m)
    case Some(i) => Removal(true, m[l.eventName := s[..i] + s[i + 1..]])
  }

  /** The calls `dispatch(name)` performs: none while muted, otherwise one per entry
      of the list for `name`, in list order. */
  function Dispatched(m: Registry, muted: bool, name: string): (r: seq<Invocation>)
    ensures muted ==> r == []
    ensures !muted ==> |r| == |Lookup(m, name)|
    ensures !muted ==> forall i :: 0 <= i < |r| ==> r[i] == Invocation(Lookup(m, name)[i].callback, Lookup(m, name)[i].context)
  {
    if muted then [] else Invocations(Lookup(m, name))
  }

  /** The registry after the records `ls` are listened to one after another. */
  ghost function ListenedAll(m: Registry, ls: seq<Listener>): Registry
    decreases |ls|
  {
    if ls == [] then m else ListenedAll(Listened(m, ls[0]), ls[1..])
  }

  // ---------------------------------------------------------------------------
  // Properties of the operations
  // ---------------------------------------------------------------------------

  /** `listen` keeps the registry well formed and leaves a non-empty list under the
      listener's name. */
  lemma ListenPreservesWellFormed(m: Registry, l: Listener)
    requires WellFormed(m)
    ensures WellFormed(Listened(m, l))
    ensures |Lookup(Listened(m, l), l.eventName)| > 0
  {
  }

  /** Listening again with an equal triple changes nothing. */
  lemma ListenIdempotent(m: Registry, a: Listener, b: Listener)
    requires a.Equals(b)
    ensures Listened(Listened(m, a), b) == Listened(m, a)
  {
    var r := Listened(m, a);
    var s := Lookup(r, a.eventName);
    if Contains(Lookup(m, a.eventName), a) {
      var i :| 0 <= i < |Lookup(m, a.eventName)| && a.Equals(Lookup(m, a.eventName)[i]);
      assert b.Equals(s[i]);
    } else {
      assert s[|s| - 1] == a;
      assert b.Equals(s[|s| - 1]);
    }
    assert Contains(Lookup(r, b.eventName), b);
  }

  /** Once an entry equal to `a` is stored, listening with any number of triples
      equal to `a` leaves the registry as it is. */
  lemma {:induction false} ListenedAllEqualIsNoop(m: Registry, a: Listener, ls: seq<Listener>)
    requires Contains(Lookup(m, a.eventName), a)
    requires forall i :: 0 <= i < |ls| ==> ls[i].Equals(a)
    ensures ListenedAll(m, ls) == m
    decreases |ls|
  {
    if ls != [] {
      var i :| 0 <= i < |Lookup(m, a.eventName)| && a.Equals(Lookup(m, a.eventName)[i]);
      assert ls[0].Equals(Lookup(m, ls[0].eventName)[i]);
      assert Listened(m, ls[0]) == m;
      ListenedAllEqualIsNoop(m, a, ls[1..]);
    }
  }

  /** De-duplication: listening N > 0 times with equal triples has the effect of
      listening once; starting from no listeners for that name, exactly one entry
      (the first record) is stored. */
  lemma RepeatedListenStoresOnce(m: Registry, ls: seq<Listener>)
    requires |ls| > 0
    requires forall i :: 0 <= i < |ls| ==> ls[i].Equals(ls[0])
    ensures ListenedAll(m, ls) == Listened(m, ls[0])
    ensures Lookup(m, ls[0].eventName) == [] ==> Lookup(ListenedAll(m, ls), ls[0].eventName) == [ls[0]]
  {
    var m1 := Listened(m, ls[0]);
    var s := Lookup(m1, ls[0].eventName);
    if Contains(Lookup(m, ls[0].eventName), ls[0]) {
      assert m1 == m;
    } else {
      assert s[|s| - 1] == ls[0];
      EqualsIsEquivalence(ls[0], ls[0], ls[0]);
    }
    assert Contains(s, ls[0]);
    ListenedAllEqualIsNoop(m1, ls[0], ls[1..]);
  }

  /** A record built for a duplicate triple is not stored: listening with it leaves
      the registry unchanged, and removing it by reference afterwards fails. */
  lemma DuplicateHandleNotStored(m: Registry, l: Listener)
    requires Contains(Lookup(m, l.eventName), l)
    requires l !in Lookup(m, l.eventName)
    ensures Listened(m, l) == m
    ensures l.eventName in Listened(m, l)
    ensures !UnlistenedListener(Listened(m, l), l).removed
  {
  }

  /** `unlisten` keeps the registry well formed. */
  lemma UnlistenPreservesWellFormed(m: Registry, name: string, callback: CallbackRef, context: ContextRef)
    requires WellFormed(m)
    ensures WellFormed(Unlistened(m, name, callback, context).registry)
  {
  }

  /** `unlistenListener` keeps the registry well formed. */
  lemma UnlistenListenerPreservesWellFormed(m: Registry, l: Listener)
    requires WellFormed(m) && l.eventName in m
    ensures WellFormed(UnlistenedListener(m, l).registry)
  {
  }

  /** After a successful `unlisten(name, callback, context)` on a well-formed registry
      no entry for `name` carries that callback and context any more, so dispatching
      `name` never invokes that pair again. */
  lemma UnlistenIsEffective(m: Registry, name: string, callback: CallbackRef, context: ContextRef, muted: bool)
    requires WellFormed(m)
    requires Unlistened(m, name, callback, context).removed
    ensures forall l :: l in Lookup(Unlistened(m, name, callback, context).registry, name) ==> !Matches(l, callback, context)
    ensures Invocation(callback, context) !in Dispatched(Unlistened(m, name, callback, context).registry, muted, name)
  {
  }

  /** Fan-out and isolation by name: on a well-formed registry, dispatching `name`
      invokes a pair exactly when it is unmuted and some listener registered under
      `name` (and so named `name`) carries it. */
  lemma DispatchInvokesRegistered(m: Registry, muted: bool, name: string, callback: CallbackRef, context: ContextRef)
    requires WellFormed(m)
    ensures Invocation(callback, context) in Dispatched(m, muted, name) <==>
      !muted && exists l :: l in Lookup(m, name) && l.eventName == name && Matches(l, callback, context)
  {
  }

  /** Each listener once: on a well-formed registry a dispatch never performs the
      same call twice. */
  lemma DispatchInvokesEachOnce(m: Registry, muted: bool, name: string)
    requires WellFormed(m)
    ensures forall p, q :: 0 <= p < q < |Dispatched(m, muted, name)| ==>
      Dispatched(m, muted, name)[p] != Dispatched(m, muted, name)[q]
  {
  }

  // ---------------------------------------------------------------------------
  // The channel object
  // ---------------------------------------------------------------------------

  class EventChannel {
    const id: string
    var listeners: Registry
    var muted: bool

    ghost predicate Valid()
      reads this
    {
      WellFormed(listeners)
    }

    /** A fresh channel: no listeners and not muted. */
    constructor (id: string)
      ensures Valid()
      ensures this.id == id && listeners == map[] && !muted
    {
      this.id := id;
      listeners := map[];
      muted := false;
    }

    /** Registers a new record for the triple and returns it. The record is stored
        only when no equal record is stored; either way it is a new object. */
    method Listen(eventName: string, callback: CallbackRef, context: ContextRef) returns (listener: Listener)
      requires Valid()
      modifies this
      ensures Valid()
      ensures fresh(listener)
      ensures listener.eventName == eventName && listener.callback == callback && listener.context == context
      ensures listeners == Listened(old(listeners), listener)
      ensures muted == old(muted)
    {
      listener := new Listener(eventName, callback, context);
      if eventName !in listeners {
        listeners := listeners[eventName := []];
      }
      if ENABLE_SAME_LISTENER_ADD || !HasListener(listener) {
        listeners := listeners[eventName := listeners[eventName] + [listener]];
      }
      ListenPreservesWellFormed(old(listeners), listener);
    }

    /** Whether a record equal to `listener` is stored under its name. */
    predicate HasListener(listener: Listener)
      reads this
      ensures HasListener(listener) <==> Contains(Lookup(listeners, listener.eventName), listener)
    {
      listener.eventName in listeners && Contains(listeners[listener.eventName], listener)
    }

    /** Removes the first record for `eventName` with this callback and context;
        reports whether one was found. */
    method Unlisten(eventName: string, callback: CallbackRef, context: ContextRef) returns (removed: bool)
      requires Valid()
      modifies this
      ensures Valid()
      ensures Removal(removed, listeners) == Unlistened(old(listeners), eventName, callback, context)
      ensures muted == old(muted)
    {
      var current := Lookup(listeners, eventName);
      var i := 0;
      while i < |current|
        invariant 0 <= i <= |current|
        invariant forall j :: 0 <= j < i ==> !Matches(current[j], callback, context)
        invariant listeners == old(listeners)
      {
        if Matches(current[i], callback, context) {
          var rest := current[..i] + current[i + 1..];
          if |rest| == 0 {
            listeners := listeners - {eventName};
          } else {
            listeners := listeners[eventName := rest];
          }
          UnlistenPreservesWellFormed(old(listeners), eventName, callback, context);
          return true;
        }
        i := i + 1;
      }
      UnlistenPreservesWellFormed(old(listeners), eventName, callback, context);
      return false;
    }

    /** Removes the very record `listener` from the list of its name; reports whether
        it was there. The source dereferences the list unchecked, so the name must
        have one. */
    method UnlistenListener(listener: Listener) returns (removed: bool)
      requires Valid()
      requires listener.eventName in listeners
      modifies this
      ensures Valid()
      ensures Removal(removed, listeners) == UnlistenedListener(old(listeners), listener)
      ensures muted == old(muted)
    {
      UnlistenListenerPreservesWellFormed(listeners, listener);
      var current := listeners[listener.eventName];
      var index := IndexOf(current, listener);
      if index.Some? {
        listeners := listeners[listener.eventName := current[..index.value] + current[index.value + 1..]];
        return true;
      }
      return false;
    }

    /** The calls dispatching `event` performs, in order; the registry is not changed. */
    method Dispatch(event: string) returns (calls: seq<Invocation>)
      ensures calls == Dispatched(listeners, muted, event)
    {
      calls := [];
      if !muted {
        var current := Lookup(listeners, event);
        var i := 0;
        while i < |current|
          invariant 0 <= i <= |current|
          invariant |calls| == i
          invariant forall j :: 0 <= j < i ==> calls[j] == Invocation(current[j].callback, current[j].context)
        {
          calls := calls + [Invocation(current[i].callback, current[i].context)];
          i := i + 1;
        }
      }
    }

    /** Stops dispatch from invoking anything; listeners are kept. */
    method Mute()
      modifies this
      ensures muted && listeners == old(listeners)
    {
      muted := true;
    }

    /** Lets dispatch invoke listeners again. */
    method Unmute()
      modifies this
      ensures !muted && listeners == old(listeners)
    {
      muted := false;
    }

    /** A copy of the list for `eventName`, or the empty list: on a valid channel
        every entry carries that name and no two entries are equal. */
    function GetListeners(eventName: string): (r: seq<Listener>)
      reads this
      ensures r == Lookup(listeners, eventName)
      ensures Valid() ==> forall i :: 0 <= i < |r| ==> r[i].eventName == eventName
      ensures Valid() ==> forall i, j :: 0 <= i < j < |r| ==> !r[i].Equals(r[j])
    {
      if eventName in listeners then listeners[eventName] else []
    }
  }
}

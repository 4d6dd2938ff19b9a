# Event channels and the event bus, in Dafny

This project models the core of a small in-process publish/subscribe library written
in JavaScript:

- the listener record (`EventListener`: an event name, a callback and the context the
  callback is bound to);
- the channel registry (`EventChannel` of js/EventDispatcher.js): a map from event
  name to the listeners registered for it, in registration order, plus a mute flag;
- the bus (`EventBus` of js/EventBus.js): a router that owns named channels, always
  holds `"default_channel"`, and forwards `listen`, `unlisten` and `dispatch` to one of
  them.

Callbacks and contexts are foreign objects that the library only compares by identity,
so they are opaque identities (`CallbackRef`, `ContextRef`, both `nat`). A listener
record is a Dafny object with constant fields. The library distinguishes two records
built from the same triple (`unlistenListener` removes by reference), and the model
keeps that distinction. Dispatching does not run callbacks. It returns the sequence of
`Invocation(callback, context)` calls the library would make, in order.

Layout:

- `listener.dfy`, module `EventListeners`: the record and its equality.
- `channel.dfy`, module `EventChannels`:
  - pure functions stating what each channel operation does to the registry map
    (`Listened`, `Unlistened`, `UnlistenedListener`, `Dispatched`);
  - the registry invariant `WellFormed`: every entry stored under a name carries that
    name, and no list holds two equal entries;
  - lemmas about the functions and the invariant;
  - the class `EventChannel`, whose methods update the registry in place and are
    proved against those functions.
- `bus.dfy`, module `EventBuses`: the class `EventBus` over a map from channel id to
  `EventChannel` objects. Errors the source throws are `Fail`/`Failure` values
  (`ChannelNotFound`, `ChannelAlreadyExists`).
- `scenarios.dfy`, module `Scenarios`: the behaviours the library's test files exercise,
  each stated as a method whose postcondition gives the calls every dispatch makes.

Where the code and its documentation differ, the model follows the code, with these
exceptions and choices:

- `EventBus.listen` and `EventBus.dispatch` test `this._channels[id]`, a variable that
  does not exist in their scope (js/EventBus.js:109, js/EventBus.js:142). The model
  implements the documented behaviour instead (`@throws` if the channel does not exist,
  js/EventBus.js:106, js/EventBus.js:139): it tests the channel argument, as `unlisten`
  does at js/EventBus.js:126.
- The channel class defined inside js/EventBus.js (lines 24-84) cannot work. It pushes
  to an unassigned array and reads a field that is never set. The bus is therefore
  modelled over the channel of js/EventDispatcher.js.
- `EventBus.dispatch(target, eventName, channel)` hands its first argument to the
  channel as the event, which is how test/EventBusTest.js calls it. The model's
  `Dispatch(event, channelId)` takes the event name and the channel.
- A channel argument is tested for truthiness. An omitted argument and `""` therefore
  both select the default channel (`IsNamed`, `Selected`).
- A duplicate `listen` returns a new record, which is not stored. It does not return
  the stored one.
- The bus has no get-or-create accessor and no way to remove a channel. Channels come
  only from the constructor and `createChannel`, which throws on an existing id.

## Model

| member | source | states |
|---|---|---|
| `EventListeners.Listener.constructor` | js/EventListener.js:5-9 | the new record holds exactly the given name, callback and context |
| `EventListeners.EqualsIsEquivalence` | js/EventListener.js:22-25 | `equals` holds exactly when name, callback and context are identical; it is reflexive, symmetric and transitive, so it can serve as a de-duplication test |
| `EventChannels.FirstMatch` | js/EventDispatcher.js:152-154 | the index `unlisten`'s loop stops at: an entry with the given callback and context, with no such entry before it; none when no entry has them |
| `EventChannels.IndexOf` | js/EventDispatcher.js:173 | `indexOf` by reference: the first position holding that very record, none exactly when it is absent |
| `EventChannels.Invocations` | js/EventDispatcher.js:190-192 | triggering a list makes one call per entry, in list order, with the entry's callback and context |
| `EventChannels.Listened` | js/EventDispatcher.js:108-115 | `listen` creates the name's list if missing and appends the record at its end unless an equal record is stored, in which case nothing changes; other names are untouched |
| `EventChannels.Unlistened` | js/EventDispatcher.js:146-164 | `unlisten` removes only the first entry with that callback and context and reports true; the name is deleted when its list empties; with no match or no list it reports false and changes nothing; other names are untouched |
| `EventChannels.UnlistenedListener` | js/EventDispatcher.js:171-179 | `unlistenListener` removes exactly the entry that is the given object and reports true, or reports false and changes nothing; the name stays even if its list empties |
| `EventChannels.Dispatched` | js/EventDispatcher.js:185-195 | `dispatch` calls nothing while muted, nothing for a name without listeners, and otherwise each entry once, in list order |
| `EventChannels.RemovalKeepsListWellFormed` | js/EventDispatcher.js:155 | `splice(i, 1)` on a list keeps its entries named alike and pairwise unequal |
| `EventChannels.ListenPreservesWellFormed` | js/EventDispatcher.js:106-115 | `listen` keeps every entry under the key of its own name and no duplicates in a list, and leaves a non-empty list under the name |
| `EventChannels.ListenIdempotent` | js/EventDispatcher.js:112-115 | listening again with an equal triple leaves the registry unchanged |
| `EventChannels.ListenedAllEqualIsNoop` | js/EventDispatcher.js:113 | once an equal record is stored, any number of further listens with equal triples change nothing |
| `EventChannels.RepeatedListenStoresOnce` | js/EventDispatcher.js:108-136 | N > 0 listens with one triple have the effect of one; starting from no listeners for the name, exactly one entry, the first record, is stored |
| `EventChannels.DuplicateHandleNotStored` | js/EventDispatcher.js:113-117 | the record returned for a duplicate triple is not stored, so `unlistenListener` on it reports false |
| `EventChannels.UnlistenPreservesWellFormed` | js/EventDispatcher.js:146-164 | `unlisten` keeps the registry invariant |
| `EventChannels.UnlistenListenerPreservesWellFormed` | js/EventDispatcher.js:171-179 | `unlistenListener` keeps the registry invariant |
| `EventChannels.UnlistenIsEffective` | js/EventDispatcher.js:152-159 | after a successful `unlisten` no entry of that name carries the callback and context, so dispatching the name never calls that pair |
| `EventChannels.DispatchInvokesRegistered` | js/EventDispatcher.js:185-195 | a pair is called by dispatching a name exactly when the channel is unmuted and a listener registered under that name, and carrying that name, has that pair; a listener of another name is never called |
| `EventChannels.DispatchInvokesEachOnce` | js/EventDispatcher.js:185-195 | on a registry that keeps the invariant, a dispatch never makes the same call twice |
| `EventChannels.EventChannel.constructor` | js/EventDispatcher.js:66-93 | a new channel has its id, no listeners and is not muted |
| `EventChannels.EventChannel.Listen` | js/EventDispatcher.js:102-118 | returns a new record holding the three arguments; the registry becomes `Listened` of the old one with that record; the mute flag and the invariant are kept |
| `EventChannels.EventChannel.HasListener` | js/EventDispatcher.js:125-136 | true exactly when an equal record is stored under the record's name, false when the name has no list |
| `EventChannels.EventChannel.Unlisten` | js/EventDispatcher.js:146-164 | the index loop reports and leaves exactly what `Unlistened` describes; the mute flag and the invariant are kept |
| `EventChannels.EventChannel.UnlistenListener` | js/EventDispatcher.js:171-179 | reports and leaves exactly what `UnlistenedListener` describes, given that the record's name has a list |
| `EventChannels.EventChannel.Dispatch` | js/EventDispatcher.js:185-195 | the loop makes exactly the calls `Dispatched` describes and changes nothing |
| `EventChannels.EventChannel.Mute` | js/EventDispatcher.js:201-203 | sets the mute flag and nothing else |
| `EventChannels.EventChannel.Unmute` | js/EventDispatcher.js:208-210 | clears the mute flag and nothing else |
| `EventChannels.EventChannel.GetListeners` | js/EventDispatcher.js:217-224 | a copy of the name's list, or the empty list; on a valid channel every entry carries the name and no two are equal |
| `EventBuses.Selected` | js/EventBus.js:113 | the addressed channel is the named one, or the default channel when the argument is missing or empty |
| `EventBuses.EventBus.constructor` | js/EventBus.js:95-98 | a new bus holds exactly one channel, a new, empty, unmuted channel under `"default_channel"` |
| `EventBuses.EventBus.Listen` | js/EventBus.js:108-116 | a named channel that does not exist throws and nothing changes; otherwise the addressed channel (the default one when none is named) listens, and every other channel's listeners stay the same |
| `EventBuses.EventBus.Unlisten` | js/EventBus.js:125-133 | a named channel that does not exist gives false without throwing; otherwise the result and new state are the addressed channel's `unlisten`; other channels stay the same |
| `EventBuses.EventBus.Dispatch` | js/EventBus.js:141-149 | a named channel that does not exist throws; otherwise exactly the calls the addressed channel's dispatch makes, from its own listeners and mute flag |
| `EventBuses.EventBus.CreateChannel` | js/EventBus.js:157-164 | an absent id gains a new, empty channel and no other entry changes; a present id throws and the channel map is unchanged |
| `EventBuses.EventBus.GetChannel` | js/EventBus.js:171-173 | the stored channel for the id, or nothing when absent |
| `EventBuses.EventBus.HasChannel` | js/EventBus.js:179-181 | true exactly when `getChannel` finds a channel |
| `Scenarios.ListenAndDispatch` | test/EventDispatcherTest.js:17-23 | after `listen`, `dispatch` calls the listener once with its context |
| `Scenarios.UnlistenThenDispatch` | test/EventDispatcherTest.js:33-40 | `unlisten` with the same triple succeeds and the next dispatch calls nothing |
| `Scenarios.UnlistenListenerThenDispatch` | test/EventDispatcherTest.js:42-47 | `unlistenListener` on the returned record succeeds and the next dispatch calls nothing |
| `Scenarios.MuteThenUnmute` | test/EventDispatcherTest.js:49-66 | a muted channel calls nothing; after `unmute` the listener is called again |
| `Scenarios.RepeatedListen` | js/EventDispatcher.js:102-117 | three identical `listen` calls leave one stored entry; the second returned record is not stored |
| `Scenarios.DefaultChannelFanOut` | test/EventBusTest.js:1-34 | on the default channel, dispatching "event1" calls callback1 then callback3, once each, and never callback2 |
| `Scenarios.CreatedChannelIsolation` | js/EventBus.js:151-164 | a created channel delivers to its own listeners only, the default channel sees none of them, and creating the channel again throws |
| `Scenarios.MutedChannel` | js/EventBus.js:166-173 | muting a channel through the handle `getChannel` returns silences the bus's dispatch to it; unmuting restores it |
| `Scenarios.UnknownChannel` | js/EventBus.js:100-149 | on a never-created channel, `dispatch` and `listen` throw and `unlisten` returns false |

## Left out

- Running callbacks (`trigger`, `callback.call(context, …)`) is a call into foreign code. Dispatch yields the ordered calls instead.
- Event payloads are left out. The model passes no payload: `trigger` ignores its argument and reads a field `event` that is never set.
- Exceptions raised inside callbacks are left out, along with what happens to the remaining deliveries of that dispatch.
- Callbacks that `listen`, `unlisten` or `dispatch` on the same channel during a dispatch are left out. Such re-entrant changes depend on foreign code.
- Sharing of the listener arrays is not modelled. The registry's lists are values, so updating an array in place and replacing it are the same here. `getListeners` returns an independent copy by construction.
- The `Event` object form of `dispatch` (js/Event.js, js/EventDispatcher.js:187) is left out. An event is its name.
- Non-string event names and channel ids are left out. JavaScript turns a key into a string but `equals` compares the original value, so the name `1` and the name `"1"` share a list without being equal.
- Names that collide with properties of `Object.prototype` (such as `"toString"`) are left out. The model treats `_listeners` and `_channels` as plain dictionaries.
- `EventChannels.EventChannel.UnlistenListener`: it requires the record's name to have a list. The source dereferences `undefined` at js/EventDispatcher.js:173 otherwise, which is a crash, not a designed outcome.
- The global `UID` counters and `_getUID` are left out. No operation's logic uses them.
- The `window` and `module.exports` exports are left out.
- The random channel-id generation of the unused channel class in js/EventBus.js is left out.
- The `callback` argument of js/EventBus.js:147 is left out. That identifier is undefined.
- js/GEventBus.js and the root EventBus.js are earlier drafts and are not part of this model. They dereference unassigned arrays, look up a literal `"_uid"` key and write hidden ids into caller objects.
- gulpfile.js is a build script and is not part of this model.
- The payload test at test/EventDispatcherTest.js:25-31 is not modelled, because payloads are left out.
- The test files construct an `EventDispatcher`, which js/EventDispatcher.js does not define. Its tests are read as tests of the `EventChannel` that file exports.

/** The event bus (js/EventBus.js): a router that owns named channels and forwards
    listen, unlisten and dispatch calls to one of them.

    The channels are the registries of js/EventDispatcher.js (module EventChannels).
    The bus always holds the default channel; other channels exist only once
    `CreateChannel` has made them. A call that names a channel that does not exist
    fails for `Listen` and `Dispatch` and is merely reported for `Unlisten`. */
module EventBuses {
  import opened EventListeners
  import opened EventChannels

  /** The id under which the bus keeps the channel used when none is named. */
  const DEFAULT_CHANNEL: string := "default_channel"

  /** The errors the bus throws. */
  datatype BusError = ChannelNotFound(channelId: string) | ChannelAlreadyExists(channelId: string)

  /** A call that either completes or throws. */
  datatype Outcome = Pass | Fail(error: BusError)

  /** A call that either returns a value or throws. */
  datatype Result<T> = Success(value: T) | Failure(error: BusError)

  /** Whether a call names a channel. The source tests the argument for truthiness,
      so an omitted argument and the empty string both select the default channel. */
  predicate IsNamed(channelId: Option<string>) {
    channelId.Some? && channelId.value != ""
  }

  /** The id of the channel a call addresses (`channelId || DEFAULT_CHANNEL`): never
      empty, the named channel when one is named, the default channel otherwise. */
  function Selected(channelId: Option<string>): (id: string)
    ensures id != ""
    ensures IsNamed(channelId) ==> id == channelId.value
    ensures !IsNamed(channelId) ==> id == DEFAULT_CHANNEL
  {
    if IsNamed(channelId) then channelId.value else DEFAULT_CHANNEL
  }

  class EventBus {
    var channels: map<string, EventChannel>

    /** The default channel is present, and every channel is valid and keyed by its own
        id, so distinct ids always name distinct channel objects. */
    ghost predicate Valid()
      reads this, channels.Values
    {
      && DEFAULT_CHANNEL in channels
      && forall id :: id in channels ==> channels[id].id == id && channels[id].Valid()
    }

    /** A new bus holds exactly one channel, the empty, unmuted default channel. */
    constructor ()
      ensures Valid()
      ensures channels.Keys == {DEFAULT_CHANNEL}
      ensures fresh(channels[DEFAULT_CHANNEL])
      ensures channels[DEFAULT_CHANNEL].listeners == map[] && !channels[DEFAULT_CHANNEL].muted
    {
      var channel := new EventChannel(DEFAULT_CHANNEL);
      channels := map[DEFAULT_CHANNEL := channel];
    }

    /** Whether a call names a channel that does not exist. */
    predicate Missing(channelId: Option<string>)
      reads this
    {
      IsNamed(channelId) && channelId.value !in channels
    }

    /** Registers the triple on the addressed channel. Throws when a named channel does
        not exist; no channel changes then, and otherwise only the addressed one does.
        The bus discards the record the channel returns; `listener` exposes it to proofs. */
    method Listen(eventName: string, callback: CallbackRef, context: ContextRef, channelId: Option<string>)
      returns (r: Outcome, ghost listener: Listener?)
      requires Valid()
      modifies channels.Values
      ensures Valid()
      ensures Missing(channelId) ==> r == Fail(ChannelNotFound(channelId.value)) && listener == null
      ensures !Missing(channelId) ==> r == Pass && listener != null && fresh(listener)
      ensures !Missing(channelId) ==>
        && listener.eventName == eventName && listener.callback == callback && listener.context == context
        && channels[Selected(channelId)].listeners == Listened(old(channels[Selected(channelId)].listeners), listener)
      ensures forall id :: id in channels && (Missing(channelId) || id != Selected(channelId)) ==>
        channels[id].listeners == old(channels[id].listeners)
      ensures forall id :: id in channels ==> channels[id].muted == old(channels[id].muted)
    {
      // The source tests `this._channels[id]` here, a variable that does not exist in
      // that scope; the documented behaviour, modelled here, tests the channel argument.
      if IsNamed(channelId) && channelId.value !in channels {
        return Fail(ChannelNotFound(channelId.value)), null;
      }
      var channel := channels[Selected(channelId)];
      var stored := channel.Listen(eventName, callback, context);
      return Pass, stored;
    }

    /** Removes the first matching registration from the addressed channel. A named
        channel that does not exist is reported as `false`, not thrown; otherwise the
        result is that of the channel's own `Unlisten`. Other channels never change. */
    method Unlisten(eventName: string, callback: CallbackRef, context: ContextRef, channelId: Option<string>)
      returns (removed: bool)
      requires Valid()
      modifies channels.Values
      ensures Valid()
      ensures Missing(channelId) ==> !removed
      ensures !Missing(channelId) ==>
        Removal(removed, channels[Selected(channelId)].listeners)
          == Unlistened(old(channels[Selected(channelId)].listeners), eventName, callback, context)
      ensures forall id :: id in channels && (Missing(channelId) || id != Selected(channelId)) ==>
        channels[id].listeners == old(channels[id].listeners)
      ensures forall id :: id in channels ==> channels[id].muted == old(channels[id].muted)
    {
      if IsNamed(channelId) && channelId.value !in channels {
        return false;
      }
      var channel := channels[Selected(channelId)];
      removed := channel.Unlisten(eventName, callback, context);
    }

    /** The calls dispatching `event` on the addressed channel performs. Throws when a
        named channel does not exist; only the addressed channel's listeners and mute
        flag are consulted, and nothing changes. */
    method Dispatch(event: string, channelId: Option<string>) returns (r: Result<seq<Invocation>>)
      requires Valid()
      ensures Missing(channelId) ==> r == Failure(ChannelNotFound(channelId.value))
      ensures !Missing(channelId) ==>
        r == Success(Dispatched(channels[Selected(channelId)].listeners, channels[Selected(channelId)].muted, event))
    {
      // As in Listen, the source's existence test reads an undeclared `id`.
      if IsNamed(channelId) && channelId.value !in channels {
        return Failure(ChannelNotFound(channelId.value));
      }
      var channel := channels[Selected(channelId)];
      var calls := channel.Dispatch(event);
      return Success(calls);
    }

    /** Adds a new, empty channel under `id`. Throws, changing nothing, when a channel
        with that id exists already; existing channels are never touched. */
    method CreateChannel(id: string) returns (r: Outcome)
      requires Valid()
      modifies this
      ensures Valid()
      ensures id in old(channels) ==> r == Fail(ChannelAlreadyExists(id)) && channels == old(channels)
      ensures id !in old(channels) ==>
        && r == Pass
        && id in channels && fresh(channels[id])
        && channels == old(channels)[id := channels[id]]
        && channels[id].listeners == map[] && !channels[id].muted
    {
      if id in channels {
        return Fail(ChannelAlreadyExists(id));
      }
      var channel := new EventChannel(id);
      channels := channels[id := channel];
      return Pass;
    }

    /** The channel stored under `id`, or nothing (the source's `null`). */
    function GetChannel(id: string): (r: Option<EventChannel>)
      reads this
      ensures r.Some? <==> id in channels
      ensures r.Some? ==> r.value == channels[id]
    {
      if id in channels then Some(channels[id]) else None
    }

    /** Whether a channel is stored under `id`; agrees with `GetChannel`. */
    predicate HasChannel(id: string)
      reads this
      ensures HasChannel(id) <==> GetChannel(id).Some?
    {
      id in channels
    }
  }
}

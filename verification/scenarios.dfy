/** The behaviours exercised by test/EventDispatcherTest.js and test/EventBusTest.js,
    stated as methods whose postconditions give the calls each dispatch performs.
    Callbacks and contexts are numbered stand-ins for the test's functions and objects. */
module Scenarios {
  import opened EventListeners
  import opened EventChannels
  import opened EventBuses

  /** `dummyObject.foo` and `dummyObject` of the channel tests. */
  const FOO: CallbackRef := 10
  const DUMMY: ContextRef := 20

  /** `callback1`, `callback2`, `callback3` and the shared context of the bus test. */
  const CALLBACK1: CallbackRef := 1
  const CALLBACK2: CallbackRef := 2
  const CALLBACK3: CallbackRef := 3
  const TEST_CONTEXT: ContextRef := 0

  /** Listening and dispatching invokes the listener once. */
  method ListenAndDispatch() returns (calls: seq<Invocation>)
    ensures calls == [Invocation(FOO, DUMMY)]
  {
    var channel := new EventChannel("test_channel");
    var _ := channel.Listen("test", FOO, DUMMY);
    calls := channel.Dispatch("test");
  }

  /** After `unlisten` with the same triple, dispatch invokes nothing. */
  method UnlistenThenDispatch() returns (removed: bool, calls: seq<Invocation>)
    ensures removed && calls == []
  {
    var channel := new EventChannel("test_channel");
    var _ := channel.Listen("test", FOO, DUMMY);
    removed := channel.Unlisten("test", FOO, DUMMY);
    calls := channel.Dispatch("test");
  }

  /** Removing the returned record by reference succeeds; the name's list is left
      empty but present, and dispatch invokes nothing. */
  method UnlistenListenerThenDispatch() returns (removed: bool, calls: seq<Invocation>)
    ensures removed && calls == []
  {
    var channel := new EventChannel("test_channel");
    var listener := channel.Listen("test", FOO, DUMMY);
    assert channel.listeners["test"] == [listener] by {
      assert Listened(map[], listener)["test"] == [listener];
    }
    removed := channel.UnlistenListener(listener);
    assert IndexOf([listener], listener) == Some(0);
    assert Lookup(channel.listeners, "test") == [];
    calls := channel.Dispatch("test");
  }

  /** A muted channel invokes nothing; once unmuted it invokes the listener again. */
  method MuteThenUnmute() returns (whileMuted: seq<Invocation>, afterUnmute: seq<Invocation>)
    ensures whileMuted == [] && afterUnmute == [Invocation(FOO, DUMMY)]
  {
    var channel := new EventChannel("test_channel");
    var _ := channel.Listen("test", FOO, DUMMY);
    channel.Mute();
    whileMuted := channel.Dispatch("test");
    channel.Unmute();
    afterUnmute := channel.Dispatch("test");
  }

  /** Listening three times with one triple stores one record, the first; the records
      returned by the later calls are not stored, so removing one by reference fails. */
  method RepeatedListen() returns (stored: nat, secondRemoved: bool)
    ensures stored == 1 && !secondRemoved
  {
    var channel := new EventChannel("test_channel");
    var first := channel.Listen("event1", FOO, DUMMY);
    assert channel.listeners["event1"] == [first];
    ghost var before := channel.listeners;
    var second := channel.Listen("event1", FOO, DUMMY);
    assert second.Equals(Lookup(before, "event1")[0]);
    assert channel.listeners == before;
    var third := channel.Listen("event1", FOO, DUMMY);
    assert third.Equals(Lookup(before, "event1")[0]);
    assert channel.listeners == before;
    stored := |channel.GetListeners("event1")|;
    secondRemoved := channel.UnlistenListener(second);
  }

  /** On the default channel, dispatching "event1" invokes callback1 and callback3 once
      each, in registration order, and never callback2. */
  method DefaultChannelFanOut() returns (calls: Result<seq<Invocation>>)
    ensures calls == Success([Invocation(CALLBACK1, TEST_CONTEXT), Invocation(CALLBACK3, TEST_CONTEXT)])
  {
    var bus := new EventBus();
    var channel := bus.channels[DEFAULT_CHANNEL];
    assert "event1" != "event2" by {
      assert "event1"[5] != "event2"[5];
    }
    var r1, l1 := bus.Listen("event1", CALLBACK1, TEST_CONTEXT, None);
    assert channel.listeners == map["event1" := [l1]] by {
      assert !Contains(Lookup(map[], "event1"), l1);
      assert Listened(map[], l1)["event1"] == [l1];
    }
    ghost var m1 := channel.listeners;
    var r2, l2 := bus.Listen("event2", CALLBACK2, TEST_CONTEXT, None);
    assert channel.listeners == map["event1" := [l1], "event2" := [l2]] by {
      assert Lookup(m1, "event2") == [];
      assert Listened(m1, l2)["event2"] == [l2];
    }
    ghost var m2 := channel.listeners;
    var r3, l3 := bus.Listen("event1", CALLBACK3, TEST_CONTEXT, None);
    assert !Contains(Lookup(m2, "event1"), l3);
    calls := bus.Dispatch("event1", None);
    ghost var d := Dispatched(channel.listeners, false, "event1");
    assert Lookup(channel.listeners, "event1") == [l1, l3];
    assert d == [Invocation(CALLBACK1, TEST_CONTEXT), Invocation(CALLBACK3, TEST_CONTEXT)];
  }

  /** A created channel receives its own listeners and is isolated from the default
      channel; it cannot be created a second time. */
  method CreatedChannelIsolation()
    returns (onChannel: Result<seq<Invocation>>, onDefault: Result<seq<Invocation>>, again: Outcome)
    ensures onChannel == Success([Invocation(CALLBACK1, TEST_CONTEXT)])
    ensures onDefault == Success([])
    ensures again == Fail(ChannelAlreadyExists("channel0"))
  {
    assert "channel0" != DEFAULT_CHANNEL by {
      assert "channel0"[0] != DEFAULT_CHANNEL[0];
    }
    var bus := new EventBus();
    var created := bus.CreateChannel("channel0");
    var r, l := bus.Listen("event1", CALLBACK1, TEST_CONTEXT, Some("channel0"));
    assert bus.channels["channel0"].listeners["event1"] == [l] by {
      assert !Contains(Lookup(map[], "event1"), l);
      assert Listened(map[], l)["event1"] == [l];
    }
    assert Dispatched(bus.channels["channel0"].listeners, false, "event1") == [Invocation(CALLBACK1, TEST_CONTEXT)];
    onChannel := bus.Dispatch("event1", Some("channel0"));
    onDefault := bus.Dispatch("event1", None);
    again := bus.CreateChannel("channel0");
  }

  /** Muting a channel through the handle `GetChannel` returns silences it; unmuting
      it lets the same listener fire again. */
  method MutedChannel() returns (whileMuted: Result<seq<Invocation>>, afterUnmute: Result<seq<Invocation>>)
    ensures whileMuted == Success([])
    ensures afterUnmute == Success([Invocation(CALLBACK1, TEST_CONTEXT)])
  {
    var bus := new EventBus();
    var created := bus.CreateChannel("channel0");
    var r, l := bus.Listen("event1", CALLBACK1, TEST_CONTEXT, Some("channel0"));
    var channel := bus.GetChannel("channel0");
    assert channel.value.listeners["event1"] == [l] by {
      assert !Contains(Lookup(map[], "event1"), l);
      assert Listened(map[], l)["event1"] == [l];
    }
    channel.value.Mute();
    assert bus.Valid();
    whileMuted := bus.Dispatch("event1", Some("channel0"));
    channel.value.Unmute();
    assert bus.Valid();
    assert Dispatched(channel.value.listeners, false, "event1") == [Invocation(CALLBACK1, TEST_CONTEXT)];
    afterUnmute := bus.Dispatch("event1", Some("channel0"));
  }

  /** A channel that was never created: dispatch and listen throw, unlisten reports false. */
  method UnknownChannel() returns (dispatched: Result<seq<Invocation>>, listened: Outcome, removed: bool)
    ensures dispatched == Failure(ChannelNotFound("channel0"))
    ensures listened == Fail(ChannelNotFound("channel0"))
    ensures !removed
  {
    var bus := new EventBus();
    dispatched := bus.Dispatch("event1", Some("channel0"));
    ghost var l;
    listened, l := bus.Listen("event1", CALLBACK1, TEST_CONTEXT, Some("channel0"));
    removed := bus.Unlisten("event1", CALLBACK1, TEST_CONTEXT, Some("channel0"));
  }
}

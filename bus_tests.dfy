/** The two scenarios the bus is tested with, stated over the model: a
    recording plugin with the default filter, and the echo plugin. */
module BusTests {
  import opened Events
  import opened Plugins
  import opened Bus

  /** A bus holding only a recording plugin lists its one name, and any
      event reaches that plugin exactly once and succeeds. */
  lemma RecorderScenario(e: Event)
    ensures NamesOf([Recorder("recorder")]) == ["recorder"]
    ensures DispatchOver([Recorder("recorder")], e) == [Ok]
    ensures Accepted([Recorder("recorder")], e) == [0]
  {
    DispatchAllAccepting([Recorder("recorder")], e);
    assert Accepted([Recorder("recorder")], e) == [0] + AcceptedFrom([Recorder("recorder")], e, 1);
  }

  /** A bus holding only the echo plugin returns one success for an event
      named "echo" and no result at all for an event with any other name. */
  lemma EchoOnlyBus(e: Event)
    ensures e.name == "echo" ==> DispatchOver([Echo], e) == [Ok]
    ensures e.name != "echo" ==> DispatchOver([Echo], e) == []
  {
    if e.name == "echo" {
      DispatchAllAccepting([Echo], e);
    } else {
      DispatchNoneAccepting([Echo], e);
    }
  }

  /** The recording-plugin test, stated against the bus as a class. */
  method RegistersPluginsAndDispatchesEvents()
  {
    var bus := new EventBus();
    bus.Register(Recorder("recorder"));
    assert bus.PluginNames() == ["recorder"];
    var event := NewEvent("any", "payload");
    var results := bus.Dispatch(event);
    RecorderScenario(event);
    assert |results| == 1 && results[0].Ok?;
    assert Accepted(bus.plugins, event) == [0];
  }

  /** The echo-plugin test, stated against the bus as a class, with the
      expectation for the event named "other" corrected to what the bus
      does: no result, because the echo plugin does not accept that event;
      its handler, called directly, reports the error. */
  method EchoPluginAcceptsOnlyEchoEvents()
  {
    var bus := new EventBus();
    bus.Register(Echo);
    var echo := NewEvent("echo", "hello");
    var other := NewEvent("other", "ignored");
    var echoResults := bus.Dispatch(echo);
    EchoOnlyBus(echo);
    assert |echoResults| == 1 && echoResults[0].Ok?;
    var otherResults := bus.Dispatch(other);
    EchoOnlyBus(other);
    assert |otherResults| == 0;
    assert Handle(Echo, other).Err?;
  }

  /** The echo test as written expects exactly one result when the event
      named "other" is dispatched to a bus holding only the echo plugin;
      the bus returns none, so that expectation cannot hold. */
  lemma EchoOtherExpectationAsWritten()
    ensures |DispatchOver([Echo], Event("other", "ignored"))| != 1
  {
    EchoOnlyBus(Event("other", "ignored"));
  }

  /** What holds instead: the dispatch returns no result, and only a direct
      call of the echo handler yields the expected error. */
  lemma EchoOtherExpectationCorrected()
    ensures DispatchOver([Echo], Event("other", "ignored")) == []
    ensures Handle(Echo, Event("other", "ignored")) ==
            Err(EventError("Echo plugin received unexpected event"))
  {
    EchoOnlyBus(Event("other", "ignored"));
  }
}

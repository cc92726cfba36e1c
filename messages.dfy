/** The error channel: `MessagesService` holds the last published batch and
    passes non-empty batches on through `errors$`; `MessagesComponent` opens
    its panel for every batch it is handed and closes it locally. The two
    classes refer to each other (the panel reads the bus it was given, the
    bus delivers to the panel subscribed to it), so they share a module. */
module Messages {

  /** The filter on `errors$`: a batch is passed on exactly when it holds at
      least one message. */
  predicate Delivers(batch: seq<string>) {
    |batch| > 0
  }

  /** `MessagesService`. */
  class Bus {
    /** The batch the subject currently holds. */
    var last: seq<string>
    /** The panel subscribed to `errors$`, if any. */
    var listener: Panel?
    /** Every batch `errors$` has handed to the listener, in order. */
    ghost var delivered: seq<seq<string>>

    ghost predicate Valid()
      reads this
    {
      listener != null ==> listener.bus == this
    }

    constructor ()
      ensures Valid()
      ensures last == [] && listener == null && delivered == []
    {
      last := [];
      listener := null;
      delivered := [];
    }

    /** `showErrors(...errors)`: the batch replaces the held one wholesale,
        and reaches the listener only when it is non-empty, however often the
        same batch was published before. */
    method ShowErrors(errors: seq<string>)
      requires Valid()
      modifies this, listener
      ensures Valid()
      ensures last == errors && listener == old(listener)
      ensures delivered == old(delivered) + if Delivers(errors) && listener != null then [errors] else []
      ensures listener != null ==> listener.showMessages == (old(listener.showMessages) || Delivers(errors))
    {
      last := errors;
      if Delivers(errors) && listener != null {
        listener.OnDelivered(errors);
        delivered := delivered + [errors];
      }
    }

    /** A panel subscribes to `errors$`; the subject replays its held batch
        at once, through the same non-empty filter. */
    method Subscribe(panel: Panel)
      requires Valid() && listener == null && panel.bus == this
      modifies this, panel
      ensures Valid()
      ensures listener == panel && last == old(last)
      ensures delivered == old(delivered) + if Delivers(last) then [last] else []
      ensures panel.showMessages == (old(panel.showMessages) || Delivers(last))
    {
      listener := panel;
      if Delivers(last) {
        panel.OnDelivered(last);
        delivered := delivered + [last];
      }
    }
  }

  /** `MessagesComponent`. */
  class Panel {
    /** Whether the error panel is shown. */
    var showMessages: bool
    /** The injected `MessagesService`. */
    const bus: Bus

    constructor (messagesService: Bus)
      ensures !showMessages && bus == messagesService
    {
      showMessages := false;
      bus := messagesService;
    }

    /** `ngOnInit`, together with the template's subscription to the
        resulting `errors$`. */
    method NgOnInit()
      requires bus.Valid() && bus.listener == null
      modifies this, bus
      ensures bus.Valid() && bus.listener == this && bus.last == old(bus.last)
      ensures bus.delivered == old(bus.delivered) + if Delivers(bus.last) then [bus.last] else []
      ensures showMessages == (old(showMessages) || Delivers(bus.last))
    {
      bus.Subscribe(this);
    }

    /** The `tap` on the delivered stream: every batch that gets through
        opens the panel. */
    method OnDelivered(batch: seq<string>)
      requires Delivers(batch)
      modifies this`showMessages
      ensures showMessages
    {
      showMessages := true;
    }

    /** `onClose`: hides the panel and leaves the bus as it is. */
    method OnClose()
      modifies this`showMessages
      ensures !showMessages
      ensures unchanged(bus)
    {
      showMessages := false;
    }
  }

  /** Closing the panel and then publishing a non-empty batch, even the very
      batch the bus already holds, opens the panel again and counts as a
      fresh delivery. */
  method CloseThenRepublish(panel: Panel, batch: seq<string>)
    requires panel.bus.Valid() && panel.bus.listener == panel
    requires Delivers(batch)
    modifies panel, panel.bus
    ensures panel.bus.last == batch
    ensures panel.bus.delivered == old(panel.bus.delivered) + [batch]
    ensures panel.showMessages
  {
    panel.OnClose();
    assert !panel.showMessages;
    panel.bus.ShowErrors(batch);
  }

  /** The initial empty batch is never delivered; the same non-empty batch
      published twice is delivered twice. */
  method PublishTwice(batch: seq<string>) returns (bus: Bus, panel: Panel)
    requires Delivers(batch)
    ensures bus.last == batch && bus.listener == panel
    ensures bus.delivered == [batch, batch]
    ensures panel.showMessages
  {
    bus := new Bus();
    panel := new Panel(bus);
    panel.NgOnInit();
    assert bus.delivered == [] && !panel.showMessages;
    bus.ShowErrors(batch);
    panel.OnClose();
    bus.ShowErrors(batch);
  }
}

/** Event translation: how one raw notification from the Flash side becomes an event
    and a change of the socket's readyState/protocol (`__handleEvent`), and how a
    whole batch is handled (the loop of `__onFlashEvent`). All of it is stated on
    values; `WebSocket.HandleEvent` and `Bridge.DeliverBatch` are proved against it. */
module Events {
  import opened Base
  import opened Listeners

  /** The readyState enumeration, with the numeric codes of the public constants. */
  datatype ReadyState = Connecting | Open | Closing | Closed {
    function Code(): (c: nat)
      ensures (c == 0 <==> this == Connecting) && (c == 1 <==> this == Open)
      ensures (c == 2 <==> this == Closing) && (c == 3 <==> this == Closed)
    {
      match this
      case Connecting => 0
      case Open => 1
      case Closing => 2
      case Closed => 3
    }
  }

  /** A raw record as returned by the Flash side's receiveEvents(). A field the record
      lacks is `None` (`wasClean` is then undefined); `kind` is the record's `type`. */
  datatype Notification = Notification(
    webSocketId: nat,
    kind: string,
    readyState: Option<ReadyState>,
    protocol: Option<string>,
    wasClean: Option<bool>,
    code: int,
    reason: string,
    message: string)

  /** The event objects the bridge builds and dispatches. */
  datatype Event =
    | OpenEvent
    | ErrorEvent
    | CloseEvent(wasClean: bool, code: int, reason: string)
    | MessageEvent(data: string)
  {
    /** The event's `type` property. */
    function Kind(): string
    {
      match this
      case OpenEvent => "open"
      case ErrorEvent => "error"
      case CloseEvent(_, _, _) => "close"
      case MessageEvent(_) => "message"
    }
  }

  /** One call of a listener or handler of socket `socketId` with `event`. */
  datatype Invocation = Invocation(socketId: nat, listener: Listener, event: Event)

  /** The observable state of one socket that event handling reads and writes. */
  datatype SocketView = SocketView(
    readyState: ReadyState,
    protocol: Option<string>,
    listeners: Registry,
    handlers: map<string, Listener>)

  /** The event built for notification `n`; `decode` stands for decodeURIComponent,
      which yields `None` where it would throw. An unknown type throws. */
  function Translate(n: Notification, decode: string -> Option<string>): (r: Result<Event>)
    ensures r.Return? ==> r.value.Kind() == n.kind
    ensures r.Throw? <==>
      (n.kind !in {"open", "error", "close", "message"} || (n.kind == "message" && decode(n.message).None?))
    ensures r.Return? && r.value.CloseEvent? ==>
      r.value.wasClean == (n.wasClean == Some(true)) && r.value.code == n.code && r.value.reason == n.reason
    ensures r.Return? && r.value.MessageEvent? ==> decode(n.message) == Some(r.value.data)
    ensures r.Throw? && n.kind == "message" ==> r.error == MalformedUri
  {
    if n.kind == "open" then Return(OpenEvent)
    else if n.kind == "error" then Return(ErrorEvent)
    else if n.kind == "close" then Return(CloseEvent(n.wasClean == Some(true), n.code, n.reason))
    else if n.kind == "message" then
      match decode(n.message)
      case Some(data) => Return(MessageEvent(data))
      case None => Throw(MalformedUri)
    else Throw(UnknownEventType(n.kind))
  }

  /** One call per callback in `ls`, in order, each with `e`. */
  function Invocations(id: nat, ls: seq<Listener>, e: Event): (r: seq<Invocation>)
    ensures |r| == |ls|
    ensures forall i :: 0 <= i < |ls| ==> r[i] == Invocation(id, ls[i], e)
  {
    if ls == [] then [] else Invocations(id, ls[..|ls| - 1], e) + [Invocation(id, ls[|ls| - 1], e)]
  }

  /** The view after the hint fields of `n` are copied: each one that is present
      overwrites the socket's field, whatever the current readyState. */
  function ApplyHints(v: SocketView, n: Notification): SocketView
  {
    v.(readyState := if n.readyState.Some? then n.readyState.value else v.readyState,
       protocol := if n.protocol.Some? then n.protocol else v.protocol)
  }

  /** What `__handleEvent` does with `n` on socket `id`: the new view, the calls made,
      and the exception thrown, if any. */
  datatype Handled = Handled(view: SocketView, fired: seq<Invocation>, error: Option<JsError>)

  function Handle(id: nat, v: SocketView, n: Notification, decode: string -> Option<string>): Handled
  {
    var v' := ApplyHints(v, n);
    match Translate(n, decode)
    case Throw(e) => Handled(v', [], Some(e))
    case Return(ev) => Handled(v', Invocations(id, Targets(v'.listeners, v'.handlers, ev.Kind()), ev), None)
  }

  /** `__handleEvent` copies each hint that is present (also when it goes on to throw) and
      leaves the listeners alone; it throws exactly when the event cannot be built, and
      then calls nothing; otherwise it calls exactly the dispatch targets of the
      notification's type, in order, each with the built event. */
  lemma HandleMeaning(id: nat, v: SocketView, n: Notification, decode: string -> Option<string>)
    ensures var h := Handle(id, v, n, decode);
      && h.view.listeners == v.listeners && h.view.handlers == v.handlers
      && h.view.readyState == (if n.readyState.Some? then n.readyState.value else v.readyState)
      && h.view.protocol == (if n.protocol.Some? then n.protocol else v.protocol)
      && (h.error.None? <==> Translate(n, decode).Return?)
      && (h.error.Some? ==> h.fired == [] && h.error == Some(Translate(n, decode).error))
      && (h.error.None? ==> |h.fired| == |Targets(v.listeners, v.handlers, n.kind)|)
      && (forall i :: 0 <= i < |h.fired| ==>
            h.fired[i] == Invocation(id, Targets(v.listeners, v.handlers, n.kind)[i], Translate(n, decode).value))
  {
  }

  /** The state of a batch part-way through: every socket's view, the calls made so far,
      and the exception that ended the batch, if one did. */
  datatype BatchState = BatchState(views: map<nat, SocketView>, fired: seq<Invocation>, stop: Option<JsError>)

  /** Handling one more notification of the batch: an id with no socket throws (the
      lookup yields undefined); otherwise the socket handles it. */
  function Step(r: BatchState, n: Notification, decode: string -> Option<string>): BatchState
  {
    if n.webSocketId !in r.views then r.(stop := Some(UnknownSocket(n.webSocketId)))
    else
      var h := Handle(n.webSocketId, r.views[n.webSocketId], n, decode);
      BatchState(r.views[n.webSocketId := h.view], r.fired + h.fired, h.error)
  }

  /** Handling a notification after calls `p` were already made appends to `p` what it
      would append on its own. */
  lemma StepAfterPrefix(r: BatchState, p: seq<Invocation>, n: Notification, decode: string -> Option<string>)
    requires r.stop.None?
    ensures var s := Step(BatchState(r.views, p + r.fired, None), n, decode);
      s.views == Step(r, n, decode).views && s.stop == Step(r, n, decode).stop
      && s.fired == p + Step(r, n, decode).fired
  {
  }

  /** The batch loop of `__onFlashEvent`: notifications are handled strictly in order
      until the first exception, which the surrounding try/catch swallows, abandoning the
      rest of the batch. */
  function RunBatch(views: map<nat, SocketView>, batch: seq<Notification>, decode: string -> Option<string>): BatchState
  {
    if batch == [] then BatchState(views, [], None)
    else
      var r := RunBatch(views, batch[..|batch| - 1], decode);
      if r.stop.Some? then r else Step(r, batch[|batch| - 1], decode)
  }

  /** The batch never adds or removes sockets. */
  lemma {:induction false} RunBatchKeys(views: map<nat, SocketView>, batch: seq<Notification>, decode: string -> Option<string>)
    ensures RunBatch(views, batch, decode).views.Keys == views.Keys
  {
    if batch != [] {
      RunBatchKeys(views, batch[..|batch| - 1], decode);
    }
  }

  /** Once a notification has thrown, nothing later in the batch has any effect. */
  lemma {:induction false} StoppedStaysStopped(views: map<nat, SocketView>, batch: seq<Notification>, i: nat, decode: string -> Option<string>)
    requires i <= |batch|
    requires RunBatch(views, batch[..i], decode).stop.Some?
    ensures RunBatch(views, batch, decode) == RunBatch(views, batch[..i], decode)
  {
    if i < |batch| {
      assert batch[..|batch| - 1][..i] == batch[..i];
      StoppedStaysStopped(views, batch[..|batch| - 1], i, decode);
    } else {
      assert batch[..i] == batch;
    }
  }

  /** A notification for an id with no registered socket ends the batch: no listener of
      any socket is called for it or for anything after it, and no socket changes. */
  lemma UnknownIdAbortsBatch(views: map<nat, SocketView>, batch: seq<Notification>, j: nat, decode: string -> Option<string>)
    requires j < |batch| && batch[j].webSocketId !in views
    requires RunBatch(views, batch[..j], decode).stop.None?
    ensures var done := RunBatch(views, batch[..j], decode);
      RunBatch(views, batch, decode) == done.(stop := Some(UnknownSocket(batch[j].webSocketId)))
  {
    RunBatchKeys(views, batch[..j], decode);
    assert batch[..j + 1][..j] == batch[..j];
    StoppedStaysStopped(views, batch, j + 1, decode);
  }

  /** Handling a batch in two stretches, the second starting from the sockets the first
      left, is handling their concatenation: the calls of the first stretch come first,
      then those of the second, and nothing is reordered or coalesced. */
  lemma {:induction false} RunBatchAppend(views: map<nat, SocketView>, a: seq<Notification>, b: seq<Notification>, decode: string -> Option<string>)
    requires RunBatch(views, a, decode).stop.None?
    ensures var ra := RunBatch(views, a, decode);
      var rb := RunBatch(ra.views, b, decode);
      RunBatch(views, a + b, decode) == BatchState(rb.views, ra.fired + rb.fired, rb.stop)
  {
    if b == [] {
      assert a + b == a;
    } else {
      var init, last := b[..|b| - 1], b[|b| - 1];
      assert (a + b)[..|a + b| - 1] == a + init && (a + b)[|a + b| - 1] == last;
      RunBatchAppend(views, a, init, decode);
      var ra := RunBatch(views, a, decode);
      var ri := RunBatch(ra.views, init, decode);
      if ri.stop.None? {
        StepAfterPrefix(ri, ra.fired, last, decode);
      }
    }
  }

  /** A batch that ran to its end names only registered sockets. */
  lemma CompletedBatchNamesRegistered(views: map<nat, SocketView>, batch: seq<Notification>, decode: string -> Option<string>)
    requires RunBatch(views, batch, decode).stop.None?
    ensures forall i :: 0 <= i < |batch| ==> batch[i].webSocketId in views
  {
    forall i | 0 <= i < |batch|
      ensures batch[i].webSocketId in views
    {
      if batch[i].webSocketId !in views {
        RunBatchKeys(views, batch[..i], decode);
        assert batch[..i + 1][..i] == batch[..i];
        assert RunBatch(views, batch[..i + 1], decode).stop.Some?;
        StoppedStaysStopped(views, batch, i + 1, decode);
        assert false;
      }
    }
  }

  /** A socket that no notification of the batch names keeps its view. */
  lemma {:induction false} UntouchedSocketKeepsView(views: map<nat, SocketView>, batch: seq<Notification>, id: nat, decode: string -> Option<string>)
    requires id in views
    requires forall i :: 0 <= i < |batch| ==> batch[i].webSocketId != id
    ensures id in RunBatch(views, batch, decode).views
    ensures RunBatch(views, batch, decode).views[id] == views[id]
  {
    RunBatchKeys(views, batch, decode);
    if batch != [] {
      var prefix := batch[..|batch| - 1];
      assert forall i :: 0 <= i < |prefix| ==> prefix[i] == batch[i];
      UntouchedSocketKeepsView(views, prefix, id, decode);
    }
  }

  /** Nothing stops a notification from moving a CLOSED socket to another state: the
      hint is copied unconditionally. */
  lemma ClosedIsNotTerminal(v: SocketView, decode: string -> Option<string>)
    requires v.readyState == Closed
    ensures var n := Notification(0, "open", Some(Open), None, None, 0, "", "");
      Handle(0, v, n, decode).view.readyState == Open && Handle(0, v, n, decode).error.None?
  {
  }
}

/** Client runs of the bridge, proved from the contracts of the classes alone: what
    callers of the JavaScript object can rely on. */
module Scenarios {
  import opened Base
  import opened Listeners
  import opened Events
  import opened FlashBridge

  function DecodeAll(s: string): Option<string>
  {
    Some(s)
  }

  function EncodeAll(s: string): Option<string>
  {
    Some(s)
  }

  /** Flash finishes loading: `__onFlashInitialized` sets its timer and the timer fires,
      so the configuration calls and then the queued tasks reach the Flash object; the
      other pending timers stay pending. */
  method StartFlash(br: Bridge)
    requires br.Valid()
    modifies br, br.transport, br.instances.Values`createTask
    ensures br.Valid() && br.flashReady && br.tasks == [] && br.timers == old(br.timers)
    ensures br.instances == old(br.instances)
    ensures br.transport.calls ==
      old(br.transport.calls) + [SetCallerUrl(br.callerUrl), SetDebug(br.debug)] + CallsOf(old(br.tasks))
    ensures forall ws :: ws in TaskSockets(old(br.tasks)) ==> ws.createTask == None
    ensures forall i :: i in br.instances && br.instances[i] !in TaskSockets(old(br.tasks)) ==>
      br.instances[i].createTask == old(br.instances[i].createTask)
  {
    var h := br.nextTimer;
    br.OnFlashInitialized();
    br.FireInitTimer(h);
  }

  /** close() before the constructor's timer fires cancels the create: the socket is
      CLOSED at once and, after Flash is initialized, no `create` has been made and no
      create task or create timer for it remains. */
  method CloseBeforeTimerFires(url: string) returns (ws: WebSocket)
    ensures ws.readyState == Closed && ws.createTask == None
    ensures ws.bridge.transport.calls == [SetCallerUrl("page"), SetDebug(false)]
    ensures ws.bridge.tasks == []
    ensures forall h :: h in ws.bridge.timers ==> ws.bridge.timers[h] != CreateTimer(ws)
  {
    var t := new Transport();
    var b := new Bridge(t, DecodeAll, EncodeAll, "page", false);
    ws := new WebSocket(b, url, NoProtocols, None, None, None);
    var _ := ws.Close();
    StartFlash(b);
  }

  /** A socket on a fresh bridge whose create timer fires before Flash is ready, and
      which is then closed: it is CLOSED, but its create task stays queued. */
  method QueueThenClose(br: Bridge, url: string) returns (ws: WebSocket)
    requires br.Valid() && !br.flashReady
    requires br.instances == map[] && br.tasks == [] && br.timers == map[]
    modifies br, br.transport
    ensures br.Valid() && !br.flashReady && br.timers == map[]
    ensures ws.bridge == br && br.Owns(ws)
    ensures ws.readyState == Closed && ws.createTask == None
    ensures br.tasks == [CreateTask(ws)]
    ensures br.transport.calls == old(br.transport.calls)
  {
    ws := new WebSocket(br, url, OneProtocol("chat"), None, None, None);
    assert br.timers == map[br.nextTimer - 1 := CreateTimer(ws)];
    br.FireCreateTimer(br.nextTimer - 1);
    assert br.tasks == [CreateTask(ws)] && br.timers == map[];
    var _ := ws.Close();
  }

  /** close() after the constructor's timer fired but before Flash is ready: the socket
      is CLOSED, yet the create task already queued is not withdrawn, so the flush still
      makes the `create` call for it. */
  method CloseAfterTimerBeforeFlash(url: string) returns (ws: WebSocket)
    ensures ws.readyState == Closed && ws.createTask == None
    ensures ws.bridge.transport.calls == [SetCallerUrl("page"), SetDebug(false), ws.CreateCall()]
  {
    var t := new Transport();
    var b := new Bridge(t, DecodeAll, EncodeAll, "page", false);
    ws := QueueThenClose(b, url);
    StartFlash(b);
    assert CallsOf([CreateTask(ws)]) == [ws.CreateCall()];
  }

  /** Two sockets constructed on a fresh bridge whose create timers fire, in order,
      before Flash is ready: both create tasks are queued, in that order, and nothing
      reaches the Flash object yet. */
  method QueueTwoSockets(br: Bridge) returns (a: WebSocket, b: WebSocket)
    requires br.Valid() && !br.flashReady
    requires br.instances == map[] && br.nextId == 0 && br.tasks == []
    requires br.timers == map[] && br.nextTimer == 1
    modifies br, br.transport
    ensures br.Valid() && !br.flashReady && br.timers == map[]
    ensures a.bridge == br && b.bridge == br && a.id == 0 && b.id == 1
    ensures br.tasks == [CreateTask(a), CreateTask(b)]
    ensures br.transport.calls == old(br.transport.calls)
  {
    a := new WebSocket(br, "ws://one", NoProtocols, None, None, None);
    b := new WebSocket(br, "ws://two", NoProtocols, None, None, None);
    assert br.timers == map[1 := CreateTimer(a), 2 := CreateTimer(b)];
    br.FireCreateTimer(1);
    assert br.tasks == [CreateTask(a)] && br.timers == map[2 := CreateTimer(b)];
    br.FireCreateTimer(2);
  }

  /** Sockets created before Flash is ready reach it in the order their timers fired,
      after the configuration calls. */
  method TwoSocketsQueuedInOrder() returns (a: WebSocket, b: WebSocket)
    ensures a.id == 0 && b.id == 1
    ensures a.bridge.transport.calls ==
      [SetCallerUrl("page"), SetDebug(false), a.CreateCall(), b.CreateCall()]
  {
    var t := new Transport();
    var br := new Bridge(t, DecodeAll, EncodeAll, "page", false);
    a, b := QueueTwoSockets(br);
    StartFlash(br);
    assert CallsOf([CreateTask(a), CreateTask(b)]) == [a.CreateCall(), b.CreateCall()];
  }

  /** Two close() calls in a row make at most one `close` call on the Flash object. */
  method CloseTwice(ws: WebSocket)
    requires ws.bridge.Valid() && ws.bridge.Owns(ws)
    modifies ws, ws.bridge, ws.bridge.transport
    ensures ws.bridge.transport.calls == old(ws.bridge.transport.calls)
         || ws.bridge.transport.calls == old(ws.bridge.transport.calls) + [Call.Close(ws.id)]
    ensures (ws.readyState == Closing || ws.readyState == Closed)
  {
    var _ := ws.Close();
    var _ := ws.Close();
  }

  /** send() on an open socket: an answer of -1 reports success and leaves
      bufferedAmount alone; an answer of 5 reports failure and adds 5 to it. Each call
      sends the encoded data once. */
  method SendAnswers(ws: WebSocket, data: string) returns (r1: Result<bool>, r2: Result<bool>)
    requires ws.readyState == Open && ws.bridge.flashReady && ws.bridge.encode(data).Some?
    modifies ws, ws.bridge.transport
    ensures r1 == Return(true) && r2 == Return(false)
    ensures ws.bufferedAmount == old(ws.bufferedAmount) + 5
    ensures ws.bridge.transport.calls == old(ws.bridge.transport.calls)
      + [Call.Send(ws.id, ws.bridge.encode(data).value), Call.Send(ws.id, ws.bridge.encode(data).value)]
  {
    r1 := ws.Send(data, -1);
    r2 := ws.Send(data, 5);
  }

  /** One notification for a socket that has a single listener for its type and no
      `on<type>` handler: that listener alone is called, with the translated event. */
  lemma SingleListenerStep(r: BatchState, n: Notification, l: Listener, e: Event)
    requires r.stop.None? && n.webSocketId in r.views
    requires r.views[n.webSocketId].handlers == map[]
    requires Registered(r.views[n.webSocketId].listeners, n.kind) == [l]
    requires Translate(n, DecodeAll) == Return(e)
    ensures Step(r, n, DecodeAll) == BatchState(
      r.views[n.webSocketId := ApplyHints(r.views[n.webSocketId], n)],
      r.fired + [Invocation(n.webSocketId, l, e)], None)
  {
    var v := ApplyHints(r.views[n.webSocketId], n);
    assert Targets(v.listeners, v.handlers, e.Kind()) == [l];
    assert Invocations(n.webSocketId, [l], e) == [Invocation(n.webSocketId, l, e)];
  }

  /** The batch [open, message "hi", close] for socket 1 drives it CONNECTING, OPEN,
      CLOSED and calls its listeners with exactly these three events, in this order. */
  lemma OpenMessageCloseBatch(v: SocketView, a: Listener, m: Listener, c: Listener)
    requires v.readyState == Connecting && v.handlers == map[]
    requires v.listeners == map["open" := [a], "message" := [m], "close" := [c]]
    ensures var batch := [
        Notification(1, "open", Some(Open), None, None, 0, "", ""),
        Notification(1, "message", None, None, None, 0, "", "hi"),
        Notification(1, "close", Some(Closed), None, Some(true), 1000, "", "")];
      var r := RunBatch(map[1 := v], batch, DecodeAll);
      && r.stop == None
      && 1 in RunBatch(map[1 := v], batch[..1], DecodeAll).views
      && RunBatch(map[1 := v], batch[..1], DecodeAll).views[1].readyState == Open
      && r.views[1].readyState == Closed
      && r.fired == [Invocation(1, a, OpenEvent), Invocation(1, m, MessageEvent("hi")),
                     Invocation(1, c, CloseEvent(true, 1000, ""))]
  {
    var n1 := Notification(1, "open", Some(Open), None, None, 0, "", "");
    var n2 := Notification(1, "message", None, None, None, 0, "", "hi");
    var n3 := Notification(1, "close", Some(Closed), None, Some(true), 1000, "", "");
    var views := map[1 := v];
    assert [n1][..0] == [] && [n1, n2][..1] == [n1] && [n1, n2, n3][..2] == [n1, n2];
    var r0 := RunBatch(views, [], DecodeAll);
    SingleListenerStep(r0, n1, a, OpenEvent);
    var r1 := RunBatch(views, [n1], DecodeAll);
    assert r1.views == map[1 := v.(readyState := Open)];
    SingleListenerStep(r1, n2, m, MessageEvent("hi"));
    var r2 := RunBatch(views, [n1, n2], DecodeAll);
    assert r2.views == r1.views;
    SingleListenerStep(r2, n3, c, CloseEvent(true, 1000, ""));
  }
}

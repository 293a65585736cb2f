/** The Flash-backed WebSocket object: the static bridge state (`WebSocket.__flash`,
    `__instances`, `__tasks`, `__nextId`) as the class `Bridge`, one socket as the
    class `WebSocket`, and the Flash object as `Transport`, which only records the
    calls made on it. Timers (`setTimeout`) are the explicit map `Bridge.timers`; a
    caller of this model fires any pending timer, in the order it chooses. */
module FlashBridge {
  import opened Base
  import opened Listeners
  import opened Events

  /** A call made on the Flash object. */
  datatype Call =
    | Create(id: nat, url: string, protocols: seq<string>, proxyHost: Option<string>, proxyPort: int, headers: Option<string>)
    | Send(id: nat, payload: string)
    | Close(id: nat)
    | LoadManualPolicyFile(url: string)
    | SetCallerUrl(url: string)
    | SetDebug(on: bool)
    | ReceiveEvents

  /** The `protocols` argument of the constructor: absent, one name, or an array. */
  datatype Protocols = NoProtocols | OneProtocol(name: string) | ProtocolList(names: seq<string>)

  /** The protocol list the socket keeps: a falsy argument (absent, or the empty string)
      becomes the empty list, a single name a one-element list. */
  function NormalizeProtocols(p: Protocols): seq<string>
  {
    match p
    case NoProtocols => []
    case OneProtocol(name) => if name == "" then [] else [name]
    case ProtocolList(names) => names
  }

  /** `s || null` for an optional string argument. */
  function OrNull(s: Option<string>): Option<string>
  {
    if s == Some("") then None else s
  }

  /** `p || 0` for an optional port argument. */
  function OrZero(p: Option<int>): int
  {
    if p.Some? then p.value else 0
  }

  /** An operation held until the Flash object is ready (an entry of `__tasks`). */
  datatype Task = CreateTask(ws: WebSocket) | PolicyTask(url: string)

  /** A pending setTimeout callback. */
  datatype Callback =
    | CreateTimer(ws: WebSocket)   // the constructor's: queue the create task
    | InitTimer                    // __onFlashInitialized's: take the Flash object, flush
    | EventsTimer                  // __onFlashEvent's: fetch and handle a batch

  /** The call a task makes on the Flash object when it runs. */
  function TaskCall(t: Task): Call
  {
    match t
    case CreateTask(ws) => ws.CreateCall()
    case PolicyTask(url) => LoadManualPolicyFile(url)
  }

  /** The calls made by running `ts` one after the other. */
  function CallsOf(ts: seq<Task>): (r: seq<Call>)
    ensures |r| == |ts|
    ensures forall i :: 0 <= i < |ts| ==> r[i] == TaskCall(ts[i])
  {
    if ts == [] then [] else CallsOf(ts[..|ts| - 1]) + [TaskCall(ts[|ts| - 1])]
  }

  /** The sockets whose create task is among `ts`. */
  function TaskSockets(ts: seq<Task>): set<WebSocket>
  {
    set t | t in ts && t.CreateTask? :: t.ws
  }

  /** The ids of the sockets whose create task is in `ts`, in queue order. */
  function QueuedCreateIds(ts: seq<Task>): seq<nat>
  {
    if ts == [] then []
    else QueuedCreateIds(ts[..|ts| - 1]) + (if ts[|ts| - 1].CreateTask? then [ts[|ts| - 1].ws.id] else [])
  }

  /** The ids named by the `create` calls in `calls`, in call order. */
  function CreatedIds(calls: seq<Call>): seq<nat>
  {
    if calls == [] then []
    else CreatedIds(calls[..|calls| - 1]) + (if calls[|calls| - 1].Create? then [calls[|calls| - 1].id] else [])
  }

  /** Flushing the queue makes the `create` calls in exactly the order in which the
      create tasks were queued. */
  lemma {:induction false} FlushKeepsCreateOrder(ts: seq<Task>)
    ensures CreatedIds(CallsOf(ts)) == QueuedCreateIds(ts)
  {
    if ts != [] {
      var init := ts[..|ts| - 1];
      FlushKeepsCreateOrder(init);
      assert CallsOf(ts)[..|ts| - 1] == CallsOf(init);
    }
  }

  /** The Flash object: the bridge needs only the log of the calls made on it. */
  class Transport {
    var calls: seq<Call>

    constructor ()
      ensures calls == []
    {
      calls := [];
    }

    method Invoke(c: Call)
      modifies this
      ensures calls == old(calls) + [c]
    {
      calls := calls + [c];
    }
  }

  /** The static state of the WebSocket constructor function, shared by all sockets. */
  class Bridge {
    const transport: Transport               // the Flash object, once found
    const decode: string -> Option<string>   // decodeURIComponent; None where it throws
    const encode: string -> Option<string>   // encodeURIComponent; None where it throws
    const callerUrl: string                  // location.href
    const debug: bool                        // !!window.WEB_SOCKET_DEBUG

    var flashReady: bool                     // `__flash` is no longer null
    var instances: map<nat, WebSocket>       // `__instances`
    var tasks: seq<Task>                     // `__tasks`
    var nextId: nat                          // `__nextId`
    var timers: map<nat, Callback>           // pending setTimeout callbacks by handle
    var nextTimer: nat                       // the handle the next setTimeout returns
    var fired: seq<Invocation>               // every listener call so far, in order

    /** `ws` is the socket registered under its own id. */
    ghost predicate Owns(ws: WebSocket)
      reads `instances
    {
      ws.id in instances && instances[ws.id] == ws
    }

    ghost predicate Valid()
      reads `instances, `nextId, `tasks, `timers, `nextTimer, `flashReady
    {
      && (forall i :: i in instances ==> instances[i].id == i && i < nextId && instances[i].bridge == this)
      && (forall k :: 0 <= k < |tasks| && tasks[k].CreateTask? ==> Owns(tasks[k].ws))
      && (forall h :: h in timers ==> 1 <= h < nextTimer && (timers[h].CreateTimer? ==> Owns(timers[h].ws)))
      && 1 <= nextTimer
      && (flashReady ==> tasks == [])
    }

    /** The state of every registered socket that event handling reads and writes. */
    ghost function Snapshot(): map<nat, SocketView>
      reads `instances, instances.Values
    {
      map i | i in instances :: instances[i].View()
    }

    constructor (transport: Transport, decode: string -> Option<string>, encode: string -> Option<string>,
                 callerUrl: string, debug: bool)
      ensures Valid()
      ensures this.transport == transport && this.decode == decode && this.encode == encode
      ensures this.callerUrl == callerUrl && this.debug == debug
      ensures !flashReady && instances == map[] && tasks == [] && nextId == 0
      ensures timers == map[] && nextTimer == 1 && fired == []
    {
      this.transport := transport;
      this.decode := decode;
      this.encode := encode;
      this.callerUrl := callerUrl;
      this.debug := debug;
      flashReady := false;
      instances := map[];
      tasks := [];
      nextId := 0;
      timers := map[];
      nextTimer := 1;
      fired := [];
    }

    /** setTimeout(cb, 0): the callback becomes pending under a fresh, truthy handle. */
    method Schedule(cb: Callback) returns (h: nat)
      modifies `timers, `nextTimer
      ensures timers == old(timers)[h := cb] && nextTimer == old(nextTimer) + 1
      ensures h == old(nextTimer)
    {
      h := nextTimer;
      timers := timers[h := cb];
      nextTimer := nextTimer + 1;
    }

    /** Runs task `t` against the Flash object. */
    method RunTask(t: Task)
      modifies transport, TaskSockets([t])`createTask
      ensures transport.calls == old(transport.calls) + [TaskCall(t)]
      ensures t.CreateTask? ==> t.ws.createTask == None
    {
      match t
      case CreateTask(ws) =>
        ws.createTask := None;
        transport.Invoke(ws.CreateCall());
      case PolicyTask(url) =>
        transport.Invoke(LoadManualPolicyFile(url));
    }

    /** `__addTask`: run `t` at once when the Flash object is there, else queue it. */
    method AddTask(t: Task)
      requires Valid() && (t.CreateTask? ==> Owns(t.ws))
      modifies `tasks, transport, TaskSockets([t])`createTask
      ensures Valid()
      ensures old(flashReady) ==>
        tasks == old(tasks) && transport.calls == old(transport.calls) + [TaskCall(t)]
        && (t.CreateTask? ==> t.ws.createTask == None)
      ensures !old(flashReady) ==>
        tasks == old(tasks) + [t] && transport.calls == old(transport.calls)
        && (t.CreateTask? ==> t.ws.createTask == old(t.ws.createTask))
    {
      if flashReady {
        RunTask(t);
      } else {
        tasks := tasks + [t];
      }
    }

    /** `loadFlashPolicyFile(url)`: a task asking the Flash object to load a policy file. */
    method LoadFlashPolicyFile(url: string)
      requires Valid()
      modifies `tasks, transport
      ensures Valid()
      ensures old(flashReady) ==>
        tasks == old(tasks) && transport.calls == old(transport.calls) + [LoadManualPolicyFile(url)]
      ensures !old(flashReady) ==>
        tasks == old(tasks) + [PolicyTask(url)] && transport.calls == old(transport.calls)
    {
      assert TaskSockets([PolicyTask(url)]) == {};
      AddTask(PolicyTask(url));
    }

    /** `__onFlashInitialized`: called by Flash once it is loaded; the real work is
        deferred to a timer. */
    method OnFlashInitialized()
      requires Valid()
      modifies `timers, `nextTimer
      ensures Valid()
      ensures timers == old(timers)[old(nextTimer) := InitTimer] && nextTimer == old(nextTimer) + 1
    {
      var _ := Schedule(InitTimer);
    }

    /** `__onFlashEvent`: called by Flash when notifications are available; the batch
        is fetched and handled by a timer. Returns true. */
    method OnFlashEvent() returns (r: bool)
      requires Valid()
      modifies `timers, `nextTimer
      ensures Valid() && r
      ensures timers == old(timers)[old(nextTimer) := EventsTimer] && nextTimer == old(nextTimer) + 1
    {
      var _ := Schedule(EventsTimer);
      r := true;
    }

    /** The constructor's timer fires: the create task goes through `__addTask`. The
        socket's `createTask` handle is cleared only if the task runs now. */
    method FireCreateTimer(h: nat)
      requires Valid() && h in timers && timers[h].CreateTimer?
      modifies `timers, `tasks, transport, instances.Values`createTask
      ensures Valid() && timers == old(timers) - {h}
      ensures var ws := old(timers[h].ws);
        && (old(flashReady) ==>
              tasks == old(tasks) && transport.calls == old(transport.calls) + [ws.CreateCall()]
              && ws.createTask == None)
        && (!old(flashReady) ==>
              tasks == old(tasks) + [CreateTask(ws)] && transport.calls == old(transport.calls)
              && ws.createTask == old(ws.createTask))
        && (forall i :: i in instances && instances[i] != ws ==> instances[i].createTask == old(instances[i].createTask))
    {
      var ws := timers[h].ws;
      timers := timers - {h};
      assert TaskSockets([CreateTask(ws)]) == {ws};
      AddTask(CreateTask(ws));
    }

    /** The flush loop of `__onFlashInitialized`: every queued task, in queue order. */
    method RunQueuedTasks()
      modifies transport, TaskSockets(tasks)`createTask
      ensures transport.calls == old(transport.calls) + CallsOf(tasks)
      ensures forall ws :: ws in TaskSockets(tasks) ==> ws.createTask == None
    {
      var i := 0;
      while i < |tasks|
        invariant 0 <= i <= |tasks|
        invariant transport.calls == old(transport.calls) + CallsOf(tasks[..i])
        invariant forall ws :: ws in TaskSockets(tasks[..i]) ==> ws.createTask == None
      {
        var t := tasks[i];
        assert TaskSockets([t]) <= TaskSockets(tasks);
        RunTask(t);
        assert tasks[..i + 1][..i] == tasks[..i];
        assert TaskSockets(tasks[..i + 1]) == TaskSockets(tasks[..i]) + TaskSockets([t]);
        i := i + 1;
      }
      assert tasks[..i] == tasks;
    }

    /** The timer set by `__onFlashInitialized` fires: the Flash object becomes
        available, is configured, and every queued task runs in insertion order; the
        queue is then emptied, and later tasks run at once. */
    method FireInitTimer(h: nat)
      requires Valid() && h in timers && timers[h] == InitTimer
      modifies this`flashReady, `timers, `tasks, transport, instances.Values`createTask
      ensures Valid() && flashReady && tasks == [] && timers == old(timers) - {h}
      ensures transport.calls ==
        old(transport.calls) + [SetCallerUrl(callerUrl), SetDebug(debug)] + CallsOf(old(tasks))
      ensures forall ws :: ws in TaskSockets(old(tasks)) ==> ws.createTask == None
      ensures forall i :: i in instances && instances[i] !in TaskSockets(old(tasks)) ==>
        instances[i].createTask == old(instances[i].createTask)
    {
      timers := timers - {h};
      flashReady := true;
      Configure();
      Flush();
    }

    /** The Flash object is told the page's URL and the debug flag. */
    method Configure()
      modifies transport
      ensures transport.calls == old(transport.calls) + [SetCallerUrl(callerUrl), SetDebug(debug)]
    {
      transport.Invoke(SetCallerUrl(callerUrl));
      transport.Invoke(SetDebug(debug));
    }

    /** The end of `__onFlashInitialized`'s callback: run the queue, then empty it. */
    method Flush()
      requires forall k :: 0 <= k < |tasks| && tasks[k].CreateTask? ==> Owns(tasks[k].ws)
      modifies `tasks, transport, instances.Values`createTask
      ensures tasks == [] && transport.calls == old(transport.calls) + CallsOf(old(tasks))
      ensures forall ws :: ws in TaskSockets(old(tasks)) ==> ws.createTask == None
      ensures forall i :: i in instances && instances[i] !in TaskSockets(old(tasks)) ==>
        instances[i].createTask == old(instances[i].createTask)
    {
      assert TaskSockets(tasks) <= instances.Values by {
        forall ws | ws in TaskSockets(tasks) ensures ws in instances.Values {
          assert Owns(ws);
        }
      }
      RunQueuedTasks();
      tasks := [];
    }

    /** One iteration of the batch loop: look the socket up by id (an unknown id throws)
        and let it handle `n`. */
    method DeliverOne(n: Notification) returns (err: Option<JsError>)
      requires Valid()
      modifies `fired, instances.Values`readyState, instances.Values`protocol
      ensures Valid()
      ensures BatchState(Snapshot(), fired, err) == Step(BatchState(old(Snapshot()), old(fired), None), n, decode)
    {
      if n.webSocketId !in instances {
        return Some(UnknownSocket(n.webSocketId));
      }
      err := DeliverTo(n.webSocketId, n);
    }

    /** The registered socket `id` handles `n`; no other socket changes. */
    method DeliverTo(id: nat, n: Notification) returns (err: Option<JsError>)
      requires Valid() && id in instances
      modifies `fired, instances.Values`readyState, instances.Values`protocol
      ensures var h := Handle(id, old(Snapshot())[id], n, decode);
        Snapshot() == old(Snapshot())[id := h.view] && fired == old(fired) + h.fired && err == h.error
    {
      var ws := instances[id];
      ghost var before := Snapshot();
      label L:
      err := ws.HandleEvent(n);
      ghost var after := before[id := ws.View()];
      forall j | j in instances
        ensures Snapshot()[j] == after[j]
      {
        if j != id {
          assert instances[j] != ws;
          assert instances[j].View() == old@L(instances[j].View());
        }
      }
      assert Snapshot().Keys == after.Keys;
    }

    /** The loop of `__onFlashEvent` over the fetched batch: notifications are handled in
        order until one throws. */
    method DeliverBatch(batch: seq<Notification>) returns (caught: Option<JsError>)
      requires Valid()
      modifies `fired, instances.Values`readyState, instances.Values`protocol
      ensures var r := RunBatch(old(Snapshot()), batch, decode);
        Snapshot() == r.views && fired == old(fired) + r.fired && caught == r.stop
    {
      ghost var start := Snapshot();
      var i := 0;
      caught := None;
      while i < |batch| && caught.None?
        invariant 0 <= i <= |batch|
        invariant var r := RunBatch(start, batch[..i], decode);
          Snapshot() == r.views && fired == old(fired) + r.fired && caught == r.stop
      {
        ghost var r := RunBatch(start, batch[..i], decode);
        assert batch[..i + 1][..i] == batch[..i];
        assert RunBatch(start, batch[..i + 1], decode) == Step(r, batch[i], decode);
        caught := DeliverOne(batch[i]);
        StepAfterPrefix(r, old(fired), batch[i], decode);
        i := i + 1;
      }
      if caught.Some? {
        StoppedStaysStopped(start, batch, i, decode);
      } else {
        assert batch[..i] == batch;
      }
    }

    /** The timer set by `__onFlashEvent` fires: receiveEvents() returns `batch`, which
        is handled in order; the first exception ends the batch and is caught (and
        logged). With no Flash object yet, the fetch itself throws. */
    method FireEventsTimer(h: nat, batch: seq<Notification>) returns (caught: Option<JsError>)
      requires Valid() && h in timers && timers[h] == EventsTimer
      modifies `timers, `fired, transport, instances.Values`readyState, instances.Values`protocol
      ensures Valid() && timers == old(timers) - {h}
      ensures !flashReady ==>
        caught == Some(NullFlash) && fired == old(fired) && transport.calls == old(transport.calls)
        && Snapshot() == old(Snapshot())
      ensures flashReady ==>
        var r := RunBatch(old(Snapshot()), batch, decode);
        && transport.calls == old(transport.calls) + [ReceiveEvents]
        && Snapshot() == r.views && fired == old(fired) + r.fired && caught == r.stop
    {
      timers := timers - {h};
      if !flashReady {
        return Some(NullFlash);
      }
      caught := ReceiveAndDeliver(batch);
    }

    /** The body of the try block: fetch the batch from the Flash object and handle it. */
    method ReceiveAndDeliver(batch: seq<Notification>) returns (caught: Option<JsError>)
      requires Valid()
      modifies `fired, transport, instances.Values`readyState, instances.Values`protocol
      ensures var r := RunBatch(old(Snapshot()), batch, decode);
        && transport.calls == old(transport.calls) + [ReceiveEvents]
        && Snapshot() == r.views && fired == old(fired) + r.fired && caught == r.stop
    {
      transport.Invoke(ReceiveEvents);
      caught := DeliverBatch(batch);
    }
  }

  /** One socket: the object application code holds. */
  class WebSocket {
    const bridge: Bridge
    const id: nat
    const url: string
    const protocols: seq<string>
    const proxyHost: Option<string>
    const proxyPort: Option<int>
    const headers: Option<string>

    var readyState: ReadyState
    var bufferedAmount: nat
    var protocol: Option<string>               // undefined until a hint sets it
    var events: Registry                       // `__events`
    var handlers: map<string, Listener>        // the `on<type>` properties that are set
    var createTask: Option<nat>                // `__createTask`: a timer handle, or null

    function View(): SocketView
      reads `readyState, `protocol, `events, `handlers
    {
      SocketView(readyState, protocol, events, handlers)
    }

    /** The `create` call the socket's create task makes. */
    function CreateCall(): Call
    {
      Create(id, url, protocols, OrNull(proxyHost), OrZero(proxyPort), OrNull(headers))
    }

    /** `new WebSocket(url, protocols, proxyHost, proxyPort, headers)`. */
    constructor (bridge: Bridge, url: string, protocols: Protocols,
                 proxyHost: Option<string>, proxyPort: Option<int>, headers: Option<string>)
      requires bridge.Valid()
      modifies bridge
      ensures bridge.Valid() && bridge.Owns(this)
      ensures this.bridge == bridge && id == old(bridge.nextId) && id !in old(bridge.instances)
      ensures bridge.nextId == old(bridge.nextId) + 1
      ensures bridge.instances == old(bridge.instances)[id := this]
      ensures readyState == Connecting && bufferedAmount == 0 && protocol == None
      ensures events == map[] && handlers == map[]
      ensures this.url == url && this.protocols == NormalizeProtocols(protocols)
      ensures this.proxyHost == proxyHost && this.proxyPort == proxyPort && this.headers == headers
      ensures createTask == Some(old(bridge.nextTimer))
      ensures bridge.timers == old(bridge.timers)[old(bridge.nextTimer) := CreateTimer(this)]
      ensures bridge.nextTimer == old(bridge.nextTimer) + 1
      ensures bridge.tasks == old(bridge.tasks) && bridge.flashReady == old(bridge.flashReady)
      ensures bridge.fired == old(bridge.fired)
    {
      this.bridge := bridge;
      id := bridge.nextId;
      this.url := url;
      this.protocols := NormalizeProtocols(protocols);
      this.proxyHost := proxyHost;
      this.proxyPort := proxyPort;
      this.headers := headers;
      readyState := Connecting;
      bufferedAmount := 0;
      protocol := None;
      events := map[];
      handlers := map[];
      new;
      bridge.nextId := bridge.nextId + 1;
      bridge.instances := bridge.instances[id := this];
      var h := bridge.Schedule(CreateTimer(this));
      createTask := Some(h);
    }

    /** `send(data)`; `answer` is what the Flash object's send returns. The member
        `__flash.send` is looked up before `encodeURIComponent(data)` is evaluated, so a
        null `__flash` throws first; an argument the encoder rejects throws before the
        call is made. */
    method Send(data: string, answer: int) returns (r: Result<bool>)
      modifies `bufferedAmount, bridge.transport
      ensures old(readyState) == Connecting ==>
        r == Throw(InvalidStateErr) && bufferedAmount == old(bufferedAmount)
        && bridge.transport.calls == old(bridge.transport.calls)
      ensures old(readyState) != Connecting && !bridge.flashReady ==>
        r == Throw(NullFlash) && bufferedAmount == old(bufferedAmount)
        && bridge.transport.calls == old(bridge.transport.calls)
      ensures old(readyState) != Connecting && bridge.flashReady && bridge.encode(data).None? ==>
        r == Throw(MalformedUri) && bufferedAmount == old(bufferedAmount)
        && bridge.transport.calls == old(bridge.transport.calls)
      ensures old(readyState) != Connecting && bridge.flashReady && bridge.encode(data).Some? ==>
        && bridge.transport.calls == old(bridge.transport.calls) + [Call.Send(id, bridge.encode(data).value)]
        && (answer < 0 ==> r == Return(true) && bufferedAmount == old(bufferedAmount))
        && (answer >= 0 ==> r == Return(false) && bufferedAmount == old(bufferedAmount) + answer)
    {
      if readyState == Connecting {
        return Throw(InvalidStateErr);
      }
      if !bridge.flashReady {
        return Throw(NullFlash);
      }
      var encoded := bridge.encode(data);
      if encoded.None? {
        return Throw(MalformedUri);
      }
      bridge.transport.Invoke(Call.Send(id, encoded.value));
      if answer < 0 {
        r := Return(true);
      } else {
        bufferedAmount := bufferedAmount + answer;
        r := Return(false);
      }
    }

    /** `close()`. A create task not yet run is cancelled with no call on the Flash
        object; a socket already closing or closed is left alone; otherwise the socket
        becomes CLOSING and the Flash object is asked to close it. */
    method Close() returns (err: Option<JsError>)
      requires bridge.Valid() && bridge.Owns(this)
      modifies `createTask, `readyState, bridge`timers, bridge.transport
      ensures bridge.Valid()
      ensures old(createTask).Some? ==>
        && createTask == None && readyState == Closed && err == None
        && bridge.timers == old(bridge.timers) - {old(createTask).value}
        && bridge.transport.calls == old(bridge.transport.calls)
      ensures old(createTask) == None && (old(readyState) == Closing || old(readyState) == Closed) ==>
        && readyState == old(readyState) && createTask == None && err == None
        && bridge.timers == old(bridge.timers) && bridge.transport.calls == old(bridge.transport.calls)
      ensures old(createTask) == None && (old(readyState) == Connecting || old(readyState) == Open) ==>
        && readyState == Closing && createTask == None && bridge.timers == old(bridge.timers)
        && (bridge.flashReady ==>
              err == None && bridge.transport.calls == old(bridge.transport.calls) + [Call.Close(id)])
        && (!bridge.flashReady ==>
              err == Some(NullFlash) && bridge.transport.calls == old(bridge.transport.calls))
    {
      if createTask.Some? {
        bridge.timers := bridge.timers - {createTask.value};
        createTask := None;
        readyState := Closed;
        return None;
      }
      if readyState == Closed || readyState == Closing {
        return None;
      }
      readyState := Closing;
      if !bridge.flashReady {
        return Some(NullFlash);
      }
      bridge.transport.Invoke(Call.Close(id));
      err := None;
    }

    /** `addEventListener(t, x)`; the capture flag is ignored. */
    method AddEventListener(t: string, x: Listener)
      modifies `events
      ensures events == AddListener(old(events), t, x)
    {
      if t !in events {
        events := events[t := []];
      }
      events := events[t := events[t] + [x]];
    }

    /** `removeEventListener(t, x)`: scans the list of `t` from the end and removes the
        first match it meets. */
    method RemoveEventListener(t: string, x: Listener)
      modifies `events
      ensures events == RemoveListener(old(events), t, x)
    {
      if t !in events {
        return;
      }
      var ls := events[t];
      var i := |ls| - 1;
      while i >= 0
        invariant -1 <= i < |ls|
        invariant forall j :: i < j < |ls| ==> ls[j] != x
        invariant events == old(events)
        decreases i + 1
      {
        if ls[i] == x {
          events := events[t := ls[..i] + ls[i + 1..]];
          return;
        }
        i := i - 1;
      }
    }

    /** Assigning `on<t>`: a callback, or a falsy value that clears the slot. */
    method SetHandler(t: string, x: Option<Listener>)
      modifies `handlers
      ensures handlers == if x.Some? then old(handlers)[t := x.value] else old(handlers) - {t}
    {
      if x.Some? {
        handlers := handlers[t := x.value];
      } else {
        handlers := handlers - {t};
      }
    }

    /** `dispatchEvent(e)`: every listener of `e`'s type in registration order, then the
        `on<type>` handler if one is set. */
    method DispatchEvent(e: Event)
      modifies bridge`fired
      ensures bridge.fired == old(bridge.fired) + Invocations(id, Targets(events, handlers, e.Kind()), e)
    {
      var ls := Registered(events, e.Kind());
      var i := 0;
      while i < |ls|
        invariant 0 <= i <= |ls|
        invariant bridge.fired == old(bridge.fired) + Invocations(id, ls[..i], e)
      {
        assert ls[..i + 1][..i] == ls[..i];
        bridge.fired := bridge.fired + [Invocation(id, ls[i], e)];
        i := i + 1;
      }
      assert ls[..i] == ls;
      if e.Kind() in handlers {
        var all := ls + [handlers[e.Kind()]];
        assert all[..|ls|] == ls;
        bridge.fired := bridge.fired + [Invocation(id, handlers[e.Kind()], e)];
      } else {
        assert Targets(events, handlers, e.Kind()) == ls;
      }
    }

    /** `__handleEvent(n)`: copy the hints, build the event, dispatch it. */
    method HandleEvent(n: Notification) returns (err: Option<JsError>)
      modifies `readyState, `protocol, bridge`fired
      ensures var h := Handle(id, old(View()), n, bridge.decode);
        View() == h.view && bridge.fired == old(bridge.fired) + h.fired && err == h.error
    {
      if n.readyState.Some? {
        readyState := n.readyState.value;
      }
      if n.protocol.Some? {
        protocol := n.protocol;
      }
      var e := Translate(n, bridge.decode);
      if e.Throw? {
        return Some(e.error);
      }
      DispatchEvent(e.value);
      err := None;
    }
  }
}

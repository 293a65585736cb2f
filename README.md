# Flash WebSocket bridge — a verified model

`chat/js/websocket.js` provides a `WebSocket` object for browsers without native
WebSockets. It forwards every socket operation to a Flash movie and turns the
notifications that Flash sends back into DOM-style events. This project models the
sequential bridge core of that file in Dafny and proves what its callers can rely on.

What the model covers:

- **Static bridge state.** The class `FlashBridge.Bridge` holds `WebSocket.__flash`
  (`flashReady`), `__instances`, `__tasks` and `__nextId`. It also holds two things the
  browser normally keeps:
  - the pending `setTimeout` callbacks, as the map `timers` from handle to callback;
  - `fired`, the log of every listener call.
- **Sockets.** The class `FlashBridge.WebSocket` holds one socket's fields:
  - `readyState`, `bufferedAmount` and `protocol`;
  - the `__events` lists;
  - the `on<type>` handler slots;
  - `__createTask`, the handle of the constructor's timer.
- **The Flash object.** `FlashBridge.Transport` is an append-only log of the calls made
  on it.
- **Timers.** Setting a timer adds an entry to `Bridge.timers`. Each `Fire…Timer` method
  runs one pending callback; the caller of the model chooses the order.
- **Flash-side answers.** Two inputs come from outside:
  - the value Flash's `send` returns is the `answer` parameter of `WebSocket.Send`;
  - the batch `receiveEvents()` returns is the `batch` parameter of
    `Bridge.FireEventsTimer`.
- **Listener-registry values.** `Listeners` states the registry as values:
  - `AddListener` and `RemoveListener` (last occurrence only) change it;
  - `Targets` gives the registered listeners in order, then the `on<type>` handler.
- **Event handling as values.** `Events` states `__handleEvent` as the value `Handle`.
  It states the batch loop of `__onFlashEvent` as `RunBatch`. `RunBatch` stops at the
  first exception, because the surrounding `try/catch` swallows it and ends the batch.
- **Proof structure.** The registry and event methods are proved against these functions:
  `AddEventListener`, `RemoveEventListener`, `DispatchEvent`, `HandleEvent`, and
  `DeliverOne`, `DeliverTo` and `DeliverBatch`, and through them `FireEventsTimer` and
  `ReceiveAndDeliver` (against `RunBatch`). `RunQueuedTasks`, `Flush` and
  `FireInitTimer` are proved against `CallsOf`. The properties are proved about the
  functions. The other methods that change state state their new state directly in
  their `ensures`:
  - `Send`, `Close` and `SetHandler`;
  - both constructors;
  - `Schedule`, `AddTask`, `RunTask` and `FireCreateTimer`;
  - `LoadFlashPolicyFile`, `OnFlashInitialized`, `OnFlashEvent` and `Configure`.

Behaviour the model keeps as the code has it. A tidier reading of the bridge would
say otherwise on several points; the model follows the code:

- A notification whose `webSocketId` has no socket makes `__instances[id]` undefined.
  The call `.__handleEvent` on it throws, which abandons the rest of the batch
  (`Events.UnknownIdAbortsBatch`).
- That notification is not skipped on its own: the notifications after it are lost too.
- A message whose payload `decodeURIComponent` rejects also throws and ends the batch.
- The `readyState` hint is copied whatever the current state, so a CLOSED socket can
  become OPEN again (`Events.ClosedIsNotTerminal`).
- `__createTask` is cleared only when the queued create task runs, not when the timer
  fires. So `close()` between the timer firing and Flash being ready does this:
  - it sets CLOSED;
  - it leaves the queued task in place;
  - the `create` call is made anyway (`Scenarios.CloseAfterTimerBeforeFlash`).

## Model

| member | source | states |
|---|---|---|
| Events.ReadyState.Code | chat/js/websocket.js:210-213 | CONNECTING, OPEN, CLOSING and CLOSED have exactly the codes 0, 1, 2 and 3, and no other state has any of them |
| Listeners.LastIndex | chat/js/websocket.js:125-130 | the position the backward scan stops at: the last occurrence of the listener, with no match after it; -1 exactly when the listener is absent |
| Listeners.RemoveLast | chat/js/websocket.js:122-131 | an absent listener leaves the list unchanged; otherwise the list gets one entry shorter |
| Listeners.RemoveLastCount | chat/js/websocket.js:126-127 | removal takes away exactly one registration of the listener and no other entry (multiset) |
| Listeners.AddListener | chat/js/websocket.js:107-112 | the type's list exists afterwards and gains the listener at its end; every other type's list is unchanged |
| Listeners.RemoveListener | chat/js/websocket.js:122-131 | the set of types is unchanged (an unknown type is a no-op, an emptied list stays); the type's list loses its last occurrence of the listener; other types are unchanged |
| Listeners.AddThenRemove | chat/js/websocket.js:107-131 | removing a listener just added restores every type's list |
| Listeners.RemoveLastShape | chat/js/websocket.js:125-130 | the entry removed is the last occurrence of the listener, none follows it; the entries before it stay in place and the later ones move up by one |
| Listeners.DispatchAfterAdd | chat/js/websocket.js:139-146 | a listener added last is called after the earlier ones of its type and before the `on<type>` handler; other types reach the same callbacks as before |
| Listeners.HandlerCalledLast | chat/js/websocket.js:144-145 | a set `on<type>` slot adds exactly one call, the last, after all registered listeners; a callback also registered with addEventListener for the type is called once more |
| Events.Translate | chat/js/websocket.js:161-174 | the event's type is the notification's; it throws exactly on an unknown type or an undecodable message; for close, wasClean is the truthiness of the field, and code and reason are copied; for message, the data is the decoded payload |
| Events.Invocations | chat/js/websocket.js:141-143 | one call per listener, in list order, each with the same event |
| Events.HandleMeaning | chat/js/websocket.js:152-178 | the hints present overwrite readyState/protocol (also when it throws); listeners are untouched; on an exception nothing is called; otherwise the calls are exactly the dispatch targets of the event's type, in order |
| Events.RunBatchKeys | chat/js/websocket.js:319-322 | handling a batch never adds or removes a socket |
| Events.StoppedStaysStopped | chat/js/websocket.js:317-325 | after the first exception, the rest of the batch has no effect |
| Events.UnknownIdAbortsBatch | chat/js/websocket.js:321 | a notification for an unregistered id ends the batch: nothing after it is handled and it changes nothing itself |
| Events.RunBatchAppend | chat/js/websocket.js:317-325 | handling a batch that the first part `a` does not end is handling `a` and then the rest `b` on the sockets `a` left: the calls of `a` come first, then those of `b`, and the exception and final states are those of `b` |
| Events.CompletedBatchNamesRegistered | chat/js/websocket.js:319-322 | a batch that runs to its end names only registered sockets |
| Events.UntouchedSocketKeepsView | chat/js/websocket.js:320-322 | a socket that no notification names keeps its state |
| Events.ClosedIsNotTerminal | chat/js/websocket.js:154-156 | an open notification moves a CLOSED socket to OPEN without an exception |
| FlashBridge.CallsOf | chat/js/websocket.js:305-307 | running the queue makes one call per task, in queue order |
| FlashBridge.FlushKeepsCreateOrder | chat/js/websocket.js:305-307 | the `create` calls of a flush name the sockets in the order their create tasks were queued |
| Events.StepAfterPrefix | chat/js/websocket.js:320-322 | handling a notification after earlier calls appends its own calls after them |
| FlashBridge.Bridge.constructor | chat/js/websocket.js:215-220 | initial static state: no Flash object, no sockets, no tasks, next id 0 |
| FlashBridge.Bridge.Schedule | chat/js/websocket.js:301 | setTimeout adds the callback under a fresh handle and changes nothing else |
| FlashBridge.Bridge.RunTask | chat/js/websocket.js:55-59 | a create task clears the socket's `__createTask` and makes its `create` call with an empty proxy host or headers sent as null and a missing port as 0; a policy task makes its `loadManualPolicyFile` call |
| FlashBridge.Bridge.AddTask | chat/js/websocket.js:339-345 | with the Flash object present the task runs at once and the queue is unchanged; otherwise it is appended to the queue and no call is made |
| FlashBridge.Bridge.LoadFlashPolicyFile | chat/js/websocket.js:226-230 | the policy-file request runs at once when Flash is ready, otherwise it is queued |
| FlashBridge.Bridge.OnFlashInitialized | chat/js/websocket.js:299-310 | only a timer is set; nothing runs yet |
| FlashBridge.Bridge.OnFlashEvent | chat/js/websocket.js:315-328 | only a timer is set, and true is returned |
| FlashBridge.Bridge.FireCreateTimer | chat/js/websocket.js:54-60 | the constructor's timer hands the create task to `__addTask`; `__createTask` is cleared only if the task runs now; other sockets keep theirs |
| FlashBridge.Bridge.RunQueuedTasks | chat/js/websocket.js:305-307 | the calls made are those of the queued tasks in queue order, and every queued socket's `__createTask` is cleared |
| FlashBridge.Bridge.FireInitTimer | chat/js/websocket.js:301-309 | Flash becomes ready; setCallerUrl, then setDebug, then every queued task in queue order; the queue ends empty; sockets not queued keep `__createTask` |
| FlashBridge.Bridge.Configure | chat/js/websocket.js:303-304 | exactly the calls setCallerUrl with the page URL and setDebug with the debug flag, in that order |
| FlashBridge.Bridge.Flush | chat/js/websocket.js:305-308 | the queued tasks' calls in queue order; every queued socket's `__createTask` is cleared, the others keep theirs; the queue ends empty |
| FlashBridge.Bridge.DeliverOne | chat/js/websocket.js:321 | one iteration of the batch loop is one `Step` of the batch function on the sockets' states: an unknown id throws and changes nothing |
| FlashBridge.Bridge.DeliverTo | chat/js/websocket.js:321 | the registered socket handles the notification as `Handle` says, and no other socket changes |
| FlashBridge.Bridge.DeliverBatch | chat/js/websocket.js:317-325 | the sockets' states, the listener calls and the caught exception are those of `RunBatch` on the batch |
| FlashBridge.Bridge.FireEventsTimer | chat/js/websocket.js:316-326 | without the Flash object the fetch throws and nothing changes; otherwise one receiveEvents call, then the batch as `RunBatch` handles it |
| FlashBridge.Bridge.ReceiveAndDeliver | chat/js/websocket.js:319-322 | one receiveEvents call, then the sockets' states, the listener calls and the exception caught are those of `RunBatch` on the batch |
| FlashBridge.WebSocket.constructor | chat/js/websocket.js:41-61 | the id is the old `__nextId`, unused so far, and the counter grows by one; the socket is registered; CONNECTING, bufferedAmount 0, no listeners; protocols normalised (falsy to `[]`, a string to a one-element list); a create timer is pending and its handle is `__createTask` |
| FlashBridge.WebSocket.Send | chat/js/websocket.js:68-80 | CONNECTING throws INVALID_STATE_ERR with no call; a null `__flash` throws with no call; data the encoder rejects throws URIError with no call and bufferedAmount unchanged; otherwise exactly one `send` of the encoded data; a negative answer returns true with bufferedAmount unchanged, an answer r >= 0 returns false and adds r |
| FlashBridge.WebSocket.Close | chat/js/websocket.js:85-97 | a set `__createTask` is cancelled, the socket becomes CLOSED and no call is made; CLOSING or CLOSED is a no-op; otherwise CLOSING and exactly one `close` for this id |
| FlashBridge.WebSocket.AddEventListener | chat/js/websocket.js:107-112 | the registry becomes `AddListener` of the old one |
| FlashBridge.WebSocket.RemoveEventListener | chat/js/websocket.js:122-131 | the backward scan with splice leaves the registry `RemoveListener` of the old one |
| FlashBridge.WebSocket.SetHandler | chat/js/websocket.js:144-145 | assigning `on<type>` sets the slot, and a falsy value clears it |
| FlashBridge.WebSocket.DispatchEvent | chat/js/websocket.js:139-146 | the calls appended are the type's listeners in registration order, then the `on<type>` handler if set |
| FlashBridge.WebSocket.HandleEvent | chat/js/websocket.js:152-178 | the socket's new state, the calls made and the exception are exactly those of `Handle` |
| Scenarios.StartFlash | chat/js/websocket.js:299-310 | Flash finishing its load, through `__onFlashInitialized` and its timer, makes the configuration calls and then the queued tasks' calls, and empties the queue; every other pending timer stays pending |
| Scenarios.CloseBeforeTimerFires | chat/js/websocket.js:85-90 | close() before the create timer fires leaves the socket CLOSED; once Flash is initialized no `create` has been made for it, and none can follow: no create task is queued and no create timer for it is pending |
| Scenarios.QueueThenClose | chat/js/websocket.js:85-90 | close() after the create timer fired but before Flash is ready sets CLOSED and clears `__createTask`, but leaves the create task queued |
| Scenarios.CloseAfterTimerBeforeFlash | chat/js/websocket.js:54-60 | close() after the create timer fired but before Flash is ready leaves it CLOSED, but the queued `create` is still made |
| Scenarios.QueueTwoSockets | chat/js/websocket.js:339-345 | two create timers firing before Flash is ready queue both create tasks, in firing order, with no call made |
| Scenarios.TwoSocketsQueuedInOrder | chat/js/websocket.js:299-310 | the flush makes the configuration calls first and then the two `create` calls in queue order |
| Scenarios.CloseTwice | chat/js/websocket.js:92-96 | two close() calls in a row make at most one `close` call |
| Scenarios.SendAnswers | chat/js/websocket.js:73-79 | on an open socket with encodable data, answers -1 then 5 return true then false; bufferedAmount grows by exactly 5; the calls made are two `send` calls of this socket's id with the encoded data |
| Scenarios.OpenMessageCloseBatch | chat/js/websocket.js:315-328 | the batch [open, message "hi", close] moves the socket to OPEN and then CLOSED, and calls the open, message and close listeners once each, in that order, with the decoded "hi" |

## Left out

- Browser detection, Flash-version detection and logger selection (chat/js/websocket.js:1-31) are environment probing and I/O.
- `__initialize` (chat/js/websocket.js:235-293) builds DOM elements, checks the SWF host with a regex and calls `swfobject.embedSWF`, a foreign library. It is not modelled.
- `__isFlashLite` and the auto-initialisation hook (chat/js/websocket.js:351-367) are environment probing.
- `__createSimpleEvent` and `__createMessageEvent` (chat/js/websocket.js:180-205) choose a browser-specific way to build an event object. Events are the datatype `Events.Event` instead.
- `encodeURIComponent` and `decodeURIComponent` are parameters of the bridge, `encode` and `decode`. Each returns None where the builtin throws URIError. No round trip between them is assumed or claimed.
- FlashBridge.WebSocket.Send: a Dafny string cannot hold a lone UTF-16 surrogate, so the input on which `encodeURIComponent` really throws is not representable. The throw path is modelled through `encode` returning None.
- FlashBridge.WebSocket.constructor: a truthy `protocols` argument that is not a string is the caller's own array. The create closure holds it by reference (chat/js/websocket.js:48-58). So a caller that changes the array after construction, before the create task runs, sends the changed list to Flash. The model copies the list as a value at construction, so the `create` call always carries the list given to the constructor. Array aliasing is not modelled.
- FlashBridge.WebSocket.AddEventListener: `type in this.__events` is also true for names that `{}` inherits, such as `"toString"`, `"constructor"` and `"__proto__"`. `push` on those throws TypeError. The registry is a map with no inherited keys, so for those names the model appends instead. The same inherited names reach `removeEventListener` and `dispatchEvent`, and they are not modelled there either.
- `setTimeout` and `clearTimeout` are the map `Bridge.timers`. Real timer scheduling is not modelled: the caller of the model chooses which pending callback fires next.
- What the Flash object does inside `create`, `send`, `close`, `receiveEvents`, `setCallerUrl`, `setDebug` and `loadManualPolicyFile` is outside this file. Only the calls are logged, and the results of `send` and `receiveEvents` are inputs.
- `document.getElementById` is assumed to find the Flash element. The case where it returns null is not modelled.
- `location.href` and `window.WEB_SOCKET_DEBUG` are the bridge constants `callerUrl` and `debug`.
- `__log` and `__error` (chat/js/websocket.js:331-337) only log. So does the `logger.error` in the catch of `__onFlashEvent`.
- Listeners are opaque identities, and a call is an entry in `Bridge.fired`. What a listener does when called is not modelled: its side effects, the exceptions it throws, and any re-entrant call into the socket.
- The `useCapture` argument is ignored by the code and is not a parameter.
- A `readyState` hint outside 0..3 is not representable: `readyState` is an enumeration.
- A close record without `code` or `reason` leaves `event.code` or `event.reason` undefined (chat/js/websocket.js:167-168). The model cannot represent that: `Notification.code` and `Notification.reason` are always present, an `int` and a `string`.
- The exception is modelled as a value of `JsError`, not as the message string the code throws.
- FlashBridge.FlushKeepsCreateOrder: states the order in which create tasks were queued, which is the order their timers fired. It is not stated as construction order, because the model lets pending timers fire in any order. `Scenarios.TwoSocketsQueuedInOrder` shows the case where the timers fire in the order they were set.

/** The listener registry of one socket, as values: a map from an event type to the
    ordered list of listeners registered for it (the `__events` object), and the
    `on<type>` handler slots. The methods of `WebSocket` that loop over these lists are
    proved against the functions here. */
module Listeners {
  import opened Base

  type Registry = map<string, seq<Listener>>

  /** The listeners registered for `t`; a type never registered has none. */
  function Registered(m: Registry, t: string): seq<Listener>
  {
    if t in m then m[t] else []
  }

  /** The position of the last occurrence of `x` in `s`, or -1 when there is none. */
  function LastIndex(s: seq<Listener>, x: Listener): (k: int)
    ensures -1 <= k < |s|
    ensures k >= 0 ==> s[k] == x
    ensures forall j :: k < j < |s| ==> s[j] != x
    ensures k == -1 <==> x !in s
  {
    if |s| == 0 then -1
    else if s[|s| - 1] == x then |s| - 1
    else LastIndex(s[..|s| - 1], x)
  }

  /** `s` without its last occurrence of `x`; the other entries keep their order. */
  function RemoveLast(s: seq<Listener>, x: Listener): (r: seq<Listener>)
    ensures x !in s ==> r == s
    ensures x in s ==> |r| == |s| - 1
  {
    var k := LastIndex(s, x);
    if k < 0 then s else s[..k] + s[k + 1..]
  }

  /** Removal loses exactly one registration of `x` and no other listener. */
  lemma RemoveLastCount(s: seq<Listener>, x: Listener)
    requires x in s
    ensures multiset(RemoveLast(s, x)) == multiset(s) - multiset{x}
  {
    var k := LastIndex(s, x);
    assert s == s[..k] + [s[k]] + s[k + 1..];
  }

  /** The registry after addEventListener(t, x): `x` is appended to the list of `t`,
      which is created when absent. */
  function AddListener(m: Registry, t: string, x: Listener): (m': Registry)
    ensures t in m'
    ensures Registered(m', t) == Registered(m, t) + [x]
    ensures forall u :: u != t ==> Registered(m', u) == Registered(m, u)
  {
    m[t := Registered(m, t) + [x]]
  }

  /** The registry after removeEventListener(t, x): nothing changes when `t` has no
      list; otherwise the last occurrence of `x` leaves it (the emptied list stays). */
  function RemoveListener(m: Registry, t: string, x: Listener): (m': Registry)
    ensures m'.Keys == m.Keys
    ensures Registered(m', t) == RemoveLast(Registered(m, t), x)
    ensures forall u :: u != t ==> Registered(m', u) == Registered(m, u)
  {
    if t !in m then m else m[t := RemoveLast(m[t], x)]
  }

  /** The callbacks dispatchEvent reaches for an event of type `t`, in call order: the
      registered listeners in registration order, then the `on<t>` handler if set. */
  function Targets(m: Registry, handlers: map<string, Listener>, t: string): seq<Listener>
  {
    Registered(m, t) + (if t in handlers then [handlers[t]] else [])
  }

  /** Removing a listener right after adding it restores every type's list. */
  lemma AddThenRemove(m: Registry, t: string, x: Listener)
    ensures forall u :: Registered(RemoveListener(AddListener(m, t, x), t, x), u) == Registered(m, u)
  {
    var s := Registered(m, t);
    assert LastIndex(s + [x], x) == |s|;
    assert (s + [x])[..|s|] == s;
  }

  /** removeEventListener takes out exactly the last registration of `x`: everything
      before it stays in place and everything after it moves up by one. */
  lemma RemoveLastShape(s: seq<Listener>, x: Listener)
    requires x in s
    ensures var k := LastIndex(s, x);
      && 0 <= k < |s| && s[k] == x && x !in s[k + 1..]
      && RemoveLast(s, x)[..k] == s[..k]
      && RemoveLast(s, x)[k..] == s[k + 1..]
  {
    var k := LastIndex(s, x);
    var r := RemoveLast(s, x);
    assert r == s[..k] + s[k + 1..];
    assert r[..k] == s[..k];
    assert r[k..] == s[k + 1..];
  }

  /** A listener added last is called after every earlier listener of its type and
      before the `on<t>` handler; other types are not affected. */
  lemma DispatchAfterAdd(m: Registry, handlers: map<string, Listener>, t: string, x: Listener)
    ensures var before := Registered(m, t);
      && Targets(AddListener(m, t, x), handlers, t)[..|before| + 1] == before + [x]
      && (t in handlers ==> Targets(AddListener(m, t, x), handlers, t) == before + [x, handlers[t]])
      && (forall u :: u != t ==> Targets(AddListener(m, t, x), handlers, u) == Targets(m, handlers, u))
  {
  }

  /** A set `on<t>` slot adds one call, the last, after every registered listener; a
      callback that is also registered for `t` is therefore called once more. */
  lemma HandlerCalledLast(m: Registry, handlers: map<string, Listener>, t: string)
    requires t in handlers
    ensures var r := Targets(m, handlers, t);
      |r| == |Registered(m, t)| + 1 && r[|r| - 1] == handlers[t] && r[..|r| - 1] == Registered(m, t)
  {
  }
}

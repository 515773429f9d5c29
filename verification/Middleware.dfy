/**
 Middleware composition (src/middleware.ts) and the retry layer (src/middleware/retry.ts).

 `composeExecution` and `composeEnqueue` share one dispatcher, guarded by the captured variable `index`;
 they differ in what `next` is passed, so both are the instance of one composition over an argument type
 `A` and a result type `V`. A layer that awaits its calls is modelled by its next action, as a function of
 its argument and of the outcomes of its `next` calls so far.
 */
module Middleware {
  import opened Prelude

  // ---- The ordered chain ----

  datatype Named<+T> = Named(name: string, fn: T)

  /** The position of the first middleware with this name, or -1. */
  function IndexOf<T>(chain: seq<Named<T>>, name: string): (r: int)
    ensures -1 <= r < |chain|
    ensures r >= 0 ==> chain[r].name == name && forall j | 0 <= j < r :: chain[j].name != name
    ensures r < 0 ==> forall j | 0 <= j < |chain| :: chain[j].name != name
  {
    if chain == [] then -1
    else if chain[0].name == name then 0
    else var r := IndexOf(chain[1..], name); if r < 0 then -1 else r + 1
  }

  function InsertAt<T>(chain: seq<T>, i: nat, m: T): seq<T>
    requires i <= |chain|
  {
    chain[..i] + [m] + chain[i..]
  }

  function Removed<T>(chain: seq<Named<T>>, name: string): seq<Named<T>> {
    var i := IndexOf(chain, name);
    if i < 0 then chain else chain[..i] + chain[i + 1..]
  }

  /** Entry i is the first one with this name. */
  predicate FirstMatch<T>(chain: seq<Named<T>>, name: string, i: nat) {
    i < |chain| && chain[i].name == name && forall j | 0 <= j < i :: chain[j].name != name
  }

  lemma {:induction false} FirstMatchIsUnique<T>(chain: seq<Named<T>>, name: string)
    ensures forall i: nat | FirstMatch(chain, name, i) :: IndexOf(chain, name) == i
  {
    forall i: nat | FirstMatch(chain, name, i)
      ensures IndexOf(chain, name) == i
    {
      assert !(IndexOf(chain, name) < i) && !(i < IndexOf(chain, name));
    }
  }

  class MiddlewareChain<T> {
    var chain: seq<Named<T>>

    constructor ()
      ensures chain == []
    {
      chain := [];
    }

    method Add(name: string, fn: T)
      modifies this
      ensures chain == old(chain) + [Named(name, fn)]
    {
      chain := chain + [Named(name, fn)];
    }

    method Prepend(name: string, fn: T)
      modifies this
      ensures chain == [Named(name, fn)] + old(chain)
    {
      chain := [Named(name, fn)] + chain;
    }

    method InsertBefore(existing: string, name: string, fn: T) returns (ok: bool)
      modifies this
      ensures ok == (exists m <- old(chain) :: m.name == existing)
      ensures !ok ==> chain == old(chain)
      ensures ok ==> chain == InsertAt(old(chain), IndexOf(old(chain), existing), Named(name, fn))
      ensures forall i: nat | FirstMatch(old(chain), existing, i) ::
                ok && chain == old(chain)[..i] + [Named(name, fn)] + old(chain)[i..]
    {
      var index := IndexOf(chain, existing);
      FirstMatchIsUnique(chain, existing);
      if index == -1 {
        return false;
      }
      chain := chain[..index] + [Named(name, fn)] + chain[index..];
      ok := true;
    }

    method InsertAfter(existing: string, name: string, fn: T) returns (ok: bool)
      modifies this
      ensures ok == (exists m <- old(chain) :: m.name == existing)
      ensures !ok ==> chain == old(chain)
      ensures ok ==> chain == InsertAt(old(chain), IndexOf(old(chain), existing) + 1, Named(name, fn))
      ensures forall i: nat | FirstMatch(old(chain), existing, i) ::
                ok && chain == old(chain)[..i + 1] + [Named(name, fn)] + old(chain)[i + 1..]
    {
      var index := IndexOf(chain, existing);
      FirstMatchIsUnique(chain, existing);
      if index == -1 {
        return false;
      }
      chain := chain[..index + 1] + [Named(name, fn)] + chain[index + 1..];
      ok := true;
    }

    method Remove(name: string)
      modifies this
      ensures chain == Removed(old(chain), name)
      ensures (forall m <- old(chain) :: m.name != name) ==> chain == old(chain)
      ensures forall i: nat | FirstMatch(old(chain), name, i) :: chain == old(chain)[..i] + old(chain)[i + 1..]
    {
      var index := IndexOf(chain, name);
      FirstMatchIsUnique(chain, name);
      if index != -1 {
        chain := chain[..index] + chain[index + 1..];
      }
    }
  }

  /** Removing a fresh name undoes its insertion, wherever it was inserted. */
  lemma {:induction false} RemoveUndoesInsert<T>(chain: seq<Named<T>>, i: nat, m: Named<T>)
    requires i <= |chain| && forall x <- chain :: x.name != m.name
    ensures Removed(InsertAt(chain, i, m), m.name) == chain
  {
    var longer := InsertAt(chain, i, m);
    assert longer[i] == m && longer[..i] == chain[..i] && longer[i + 1..] == chain[i..];
    forall j | 0 <= j < i
      ensures longer[j].name != m.name
    {
      assert longer[j] == chain[j] && chain[j] in chain;
    }
    assert FirstMatch(longer, m.name, i);
    FirstMatchIsUnique(longer, m.name);
    assert chain[..i] + chain[i..] == chain;
  }

  // ---- Layers and the guarded dispatcher ----

  /** `Pending` is a promise that never settles. */
  datatype Outcome<+V> = Returned(value: V) | Threw(error: string) | Pending

  datatype Action<+A, +V> = Return(value: V) | Throw(error: string) | CallNext(arg: A)

  type Layer<!A, !V> = (A, seq<Outcome<V>>) -> Action<A, V>

  type Handler<!A, !V> = A -> Outcome<V>

  datatype Event = Enter(layer: nat) | Exit(layer: nat) | Handled

  type Trace = seq<Event>

  const GUARD := "next() called multiple times"

  /** The value of `dispatch(i)` when the guard variable is `index`: outcome, new guard value, trace.
      A layer that makes `budget` calls without returning stays pending. */
  function DispatchFrom<A, V>(layers: seq<Layer<A, V>>, handler: Handler<A, V>, budget: nat, i: nat, index: int, a: A)
    : (r: (Outcome<V>, int, Trace))
    requires i <= |layers|
    ensures r.1 >= index && r.1 >= i
    decreases |layers| - i, budget + 1
  {
    if i <= index then (Threw(GUARD), index, [])
    else if i == |layers| then (handler(a), i, [Handled])
    else
      var (o, next, t) := RunLayer(layers, handler, budget, i, i, a, [], budget);
      (o, next, Bracket(i, o, t))
  }

  function RunLayer<A, V>(
    layers: seq<Layer<A, V>>, handler: Handler<A, V>, budget: nat, i: nat, index: int, a: A,
    past: seq<Outcome<V>>, n: nat)
    : (r: (Outcome<V>, int, Trace))
    requires i < |layers|
    ensures r.1 >= index
    decreases |layers| - i, n
  {
    if n == 0 then (Pending, index, []) else
      match layers[i](a, past)
      case Return(v) => (Returned(v), index, [])
      case Throw(e) => (Threw(e), index, [])
      case CallNext(b) =>
        var (o, next, t) := DispatchFrom(layers, handler, budget, i + 1, index, b);
        if o.Pending? then (Pending, next, t) else
          var (r, final, u) := RunLayer(layers, handler, budget, i, next, a, past + [o], n - 1);
          (r, final, t + u)
  }

  function Bracket<V>(i: nat, o: Outcome<V>, t: Trace): Trace {
    if o.Pending? then [Enter(i)] + t else [Enter(i)] + t + [Exit(i)]
  }

  /** One call of a composed function: the captured guard variable is a field. */
  class Composition<A, V> {
    const layers: seq<Layer<A, V>>
    const handler: Handler<A, V>
    const budget: nat
    var index: int

    constructor (layers: seq<Layer<A, V>>, handler: Handler<A, V>, budget: nat)
      ensures this.layers == layers && this.handler == handler && this.budget == budget && index == -1
    {
      this.layers, this.handler, this.budget, index := layers, handler, budget, -1;
    }

    /** Arbitrary callers of the closures `dispatch` hands out; `entered` is what gets past the guard. */
    method CallInAnyOrder(calls: seq<nat>) returns (entered: seq<nat>)
      requires index == -1
      modifies this
      ensures var g := Calls(|layers|, calls); index == g.index && entered == g.entered
    {
      entered := [];
      for k := 0 to |calls|
        invariant var g := Calls(|layers|, calls[..k]); index == g.index && entered == g.entered
      {
        assert Front(calls[..k + 1]) == calls[..k];
        var ok := Admit(calls[k]);
        if ok {
          entered := entered + [calls[k]];
        }
      }
      assert calls[..|calls|] == calls;
    }

    /** The guard at the head of `dispatch`. */
    method Admit(i: nat) returns (ok: bool)
      modifies this
      ensures ok == (i > old(index))
      ensures index == if ok then i else old(index)
    {
      if i <= index {
        return false;
      }
      index := i;
      ok := true;
    }

    method Dispatch(i: nat, a: A) returns (o: Outcome<V>, t: Trace)
      requires i <= |layers|
      modifies this
      ensures (o, index, t) == DispatchFrom(layers, handler, budget, i, old(index), a)
      decreases |layers| - i, 1
    {
      var ok := Admit(i);
      if !ok {
        return Threw(GUARD), [];
      }
      if i == |layers| {
        return handler(a), [Handled];
      }
      o, t := AwaitLayer(i, a, [], budget);
      t := Bracket(i, o, t);
    }

    /** The rest of layer i, which has seen `past` from its calls of `next`. */
    method AwaitLayer(i: nat, a: A, past: seq<Outcome<V>>, n: nat) returns (o: Outcome<V>, t: Trace)
      requires i < |layers|
      modifies this
      ensures (o, index, t) == RunLayer(layers, handler, budget, i, old(index), a, past, n)
      decreases |layers| - i, 0, n
    {
      if n == 0 {
        return Pending, [];
      }
      match layers[i](a, past) {
        case Return(v) =>
          return Returned(v), [];
        case Throw(e) =>
          return Threw(e), [];
        case CallNext(b) =>
          var o', u := Dispatch(i + 1, b);
          if o'.Pending? {
            return Pending, u;
          }
          o, t := AwaitLayer(i, a, past + [o'], n - 1);
          t := u + t;
      }
    }
  }

  // ---- The guard, for callers in any order ----

  /** The guard variable, the dispatch indices whose `next` closure somebody holds, and the indices
      admitted so far; index |layers| is the handler. */
  datatype Guard = Guard(index: int, handed: set<nat>, entered: seq<nat>)

  const UNCALLED := Guard(-1, {0}, [])

  /** Somebody calls the closure that dispatches `i`, at any time and any number of times. */
  function Call(layers: nat, g: Guard, i: nat): Guard {
    if i <= g.index then g
    else Guard(i, if i < layers then g.handed + {i + 1} else g.handed, g.entered + [i])
  }

  function Calls(layers: nat, calls: seq<nat>): Guard {
    if calls == [] then UNCALLED else Call(layers, Calls(layers, Front(calls)), Last(calls))
  }

  /** Only closures that have been handed out are called. */
  ghost predicate Possible(layers: nat, calls: seq<nat>) {
    calls == [] || (Possible(layers, Front(calls)) && Last(calls) in Calls(layers, Front(calls)).handed)
  }

  /** However `next` is called, concurrently, repeatedly or after returning, layers are entered at most once
      each and in order, the handler (index `layers`) after all of them; every other call is rejected. */
  lemma {:induction false} EnteredOnceInOrder(layers: nat, calls: seq<nat>)
    requires Possible(layers, calls)
    ensures var g := Calls(layers, calls);
            && g.entered == seq(g.index + 1, i => i)
            && g.index <= layers
            && (forall i: nat :: i in g.handed <==> i <= g.index + 1 && i <= layers)
            && (forall i: nat :: Call(layers, g, i) == g <==> i <= g.index)
  {
    if calls != [] {
      EnteredOnceInOrder(layers, Front(calls));
      var g, i := Calls(layers, Front(calls)), Last(calls);
      if i > g.index {
        assert i == g.index + 1;
        assert seq(i + 1, j => j) == seq(i, j => j) + [i];
      }
    }
  }

  // ---- Dispatch equals the fold of the layers around the handler ----

  type Stage<!A, !V> = A -> (Outcome<V>, Trace)

  /** A layer around an inner stage that it reaches only by its first `next`. */
  function Once<A, V>(
    layer: Layer<A, V>, inner: Stage<A, V>, a: A, past: seq<Outcome<V>>, used: bool, n: nat): (Outcome<V>, Trace)
    decreases n
  {
    if n == 0 then (Pending, []) else
      match layer(a, past)
      case Return(v) => (Returned(v), [])
      case Throw(e) => (Threw(e), [])
      case CallNext(b) =>
        var (o, t) := if used then (Threw(GUARD), []) else inner(b);
        if o.Pending? then (Pending, t) else
          var (r, u) := Once(layer, inner, a, past + [o], true, n - 1);
          (r, t + u)
  }

  function Wrap<A, V>(i: nat, layer: Layer<A, V>, inner: Stage<A, V>, budget: nat): Stage<A, V> {
    a => var (o, t) := Once(layer, inner, a, [], false, budget); (o, Bracket(i, o, t))
  }

  /** The right fold of layers i, i+1, ... around the handler. */
  function Fold<A, V>(layers: seq<Layer<A, V>>, handler: Handler<A, V>, budget: nat, i: nat): Stage<A, V>
    requires i <= |layers|
    decreases |layers| - i
  {
    if i == |layers| then a => (handler(a), [Handled])
    else Wrap(i, layers[i], Fold(layers, handler, budget, i + 1), budget)
  }

  lemma {:induction false} LayerIsOnce<A, V>(
    layers: seq<Layer<A, V>>, handler: Handler<A, V>, budget: nat, i: nat, index: int, a: A,
    past: seq<Outcome<V>>, n: nat)
    requires i < |layers| && index >= i
    ensures var g := RunLayer(layers, handler, budget, i, index, a, past, n);
            (g.0, g.2) == Once(layers[i], Fold(layers, handler, budget, i + 1), a, past, index > i, n)
    decreases |layers| - i, n
  {
    if n > 0 {
      var act := layers[i](a, past);
      if act.CallNext? {
        if index == i {
          DispatchIsFold(layers, handler, budget, i + 1, index, act.arg);
        }
        var d := DispatchFrom(layers, handler, budget, i + 1, index, act.arg);
        LayerIsOnce(layers, handler, budget, i, d.1, a, past + [d.0], n - 1);
      }
    }
  }

  /** Dispatch by a shared mutable index is the fold in which every layer reaches the next one at most
      once, for every layer, however often it calls `next`. */
  lemma {:induction false} DispatchIsFold<A, V>(
    layers: seq<Layer<A, V>>, handler: Handler<A, V>, budget: nat, i: nat, index: int, a: A)
    requires index < i <= |layers|
    ensures var g := DispatchFrom(layers, handler, budget, i, index, a);
            (g.0, g.2) == Fold(layers, handler, budget, i)(a)
    decreases |layers| - i, budget + 1
  {
    if i < |layers| {
      LayerIsOnce(layers, handler, budget, i, i, a, [], budget);
    }
  }

  // ---- Layers that call `next` at most once ----

  /** A layer around an inner stage that every `next` reaches. */
  function Every<A, V>(layer: Layer<A, V>, inner: Stage<A, V>, a: A, past: seq<Outcome<V>>, n: nat)
    : (Outcome<V>, Trace)
    decreases n
  {
    if n == 0 then (Pending, []) else
      match layer(a, past)
      case Return(v) => (Returned(v), [])
      case Throw(e) => (Threw(e), [])
      case CallNext(b) =>
        var (o, t) := inner(b);
        if o.Pending? then (Pending, t) else
          var (r, u) := Every(layer, inner, a, past + [o], n - 1);
          (r, t + u)
  }

  /** The plain onion: no guard anywhere. */
  function Onion<A, V>(layers: seq<Layer<A, V>>, handler: Handler<A, V>, budget: nat, i: nat): Stage<A, V>
    requires i <= |layers|
    decreases |layers| - i
  {
    if i == |layers| then a => (handler(a), [Handled]) else
      a =>
        var (o, t) := Every(layers[i], Onion(layers, handler, budget, i + 1), a, [], budget);
        (o, Bracket(i, o, t))
  }

  ghost predicate CallsNextAtMostOnce<A(!new), V(!new)>(layer: Layer<A, V>) {
    forall a: A, o: Outcome<V> | layer(a, []).CallNext? && !o.Pending? :: !layer(a, [o]).CallNext?
  }

  lemma {:induction false} OnceIsEvery<A(!new), V(!new)>(layer: Layer<A, V>, inner: Stage<A, V>, a: A, n: nat)
    requires CallsNextAtMostOnce(layer)
    ensures Once(layer, inner, a, [], false, n) == Every(layer, inner, a, [], n)
  {
    if n > 0 && layer(a, []).CallNext? {
      var o := inner(layer(a, []).arg).0;
      assert [] + [o] == [o];
    }
  }

  /** For layers that call and await `next` at most once, composition is the plain onion. */
  lemma {:induction false} FoldIsOnion<A(!new), V(!new)>(
    layers: seq<Layer<A, V>>, handler: Handler<A, V>, budget: nat, i: nat, a: A)
    requires i <= |layers| && forall layer <- layers :: CallsNextAtMostOnce(layer)
    ensures Fold(layers, handler, budget, i)(a) == Onion(layers, handler, budget, i)(a)
    decreases |layers| - i
  {
    if i < |layers| {
      var act := layers[i](a, []);
      OnceIsEvery(layers[i], Fold(layers, handler, budget, i + 1), a, budget);
      if act.CallNext? {
        FoldIsOnion(layers, handler, budget, i + 1, act.arg);
        SameOnFirst(layers[i], Fold(layers, handler, budget, i + 1), Onion(layers, handler, budget, i + 1), a, budget);
      }
    }
  }

  lemma {:induction false} SameOnFirst<A(!new), V(!new)>(
    layer: Layer<A, V>, inner: Stage<A, V>, inner': Stage<A, V>, a: A, n: nat)
    requires CallsNextAtMostOnce(layer)
    requires layer(a, []).CallNext? && inner(layer(a, []).arg) == inner'(layer(a, []).arg)
    ensures Every(layer, inner, a, [], n) == Every(layer, inner', a, [], n)
  {
    if n > 0 {
      var o := inner(layer(a, []).arg).0;
      assert [] + [o] == [o];
    }
  }

  /** And only for those: around a layer that may call `next` again, some handler runs twice in the onion. */
  lemma {:induction false} OnionNeedsOneCall<A(!new), V(!new)>(layer: Layer<A, V>)
    ensures CallsNextAtMostOnce(layer) <==>
            forall handler: Handler<A, V>, a: A, n: nat ::
              Fold([layer], handler, n, 0)(a) == Onion([layer], handler, n, 0)(a)
  {
    if CallsNextAtMostOnce(layer) {
      forall handler: Handler<A, V>, a: A, n: nat
        ensures Fold([layer], handler, n, 0)(a) == Onion([layer], handler, n, 0)(a)
      {
        FoldIsOnion([layer], handler, n, 0, a);
      }
    } else {
      var a: A, o: Outcome<V> :| layer(a, []).CallNext? && !o.Pending? && layer(a, [o]).CallNext?;
      var handler: Handler<A, V> := _ => o;
      HandledTwice(layer, handler, a, o);
      assert Fold([layer], handler, 2, 0)(a) != Onion([layer], handler, 2, 0)(a);
    }
  }

  lemma {:induction false} Innermost<A, V>(layers: seq<Layer<A, V>>, handler: Handler<A, V>, budget: nat, a: A)
    ensures Fold(layers, handler, budget, |layers|)(a) == (handler(a), [Handled])
    ensures Onion(layers, handler, budget, |layers|)(a) == (handler(a), [Handled])
  {
  }

  lemma {:induction false} HandledTwice<A(!new), V(!new)>(
    layer: Layer<A, V>, handler: Handler<A, V>, a: A, o: Outcome<V>)
    requires layer(a, []).CallNext? && !o.Pending? && layer(a, [o]).CallNext? && forall b :: handler(b) == o
    ensures Fold([layer], handler, 2, 0)(a).1 == [Enter(0), Handled]
    ensures Onion([layer], handler, 2, 0)(a).1 == [Enter(0), Handled, Handled]
  {
    var once, every := Fold([layer], handler, 2, 1), Onion([layer], handler, 2, 1);
    var b, c := layer(a, []).arg, layer(a, [o]).arg;
    assert [] + [o] == [o] && [layer][0] == layer;
    Innermost([layer], handler, 2, b);
    Innermost([layer], handler, 2, c);
    assert once(b) == every(b) == (o, [Handled]) && every(c) == (o, [Handled]);
    UsedIsSilent(layer, once, a, [o], 1);
    assert Once(layer, once, a, [], false, 2).1 == [Handled] + Once(layer, once, a, [o], true, 1).1;
    assert Every(layer, every, a, [o], 1).1 == [Handled] + Every(layer, every, a, [o] + [o], 0).1;
    assert Every(layer, every, a, [], 2).1 == [Handled] + Every(layer, every, a, [o], 1).1;
  }

  // ---- The trace is a nested bracket word ----

  /** Enter i .. m-1, the handler if it ran, Exit m-1 .. i. */
  function Nest(i: nat, m: nat, handled: bool): Trace
    requires i <= m
    decreases m - i
  {
    if i == m then (if handled then [Handled] else []) else [Enter(i)] + Nest(i + 1, m, handled) + [Exit(i)]
  }

  /** Whatever the layers do, a settled call leaves one nested bracket word over layers 0 .. m-1, around the
      handler only if every layer was entered; a pending one leaves a prefix of it. */
  lemma {:induction false} TraceIsNested<A, V>(
    layers: seq<Layer<A, V>>, handler: Handler<A, V>, budget: nat, i: nat, a: A) returns (m: nat, handled: bool)
    requires i <= |layers|
    ensures i <= m <= |layers| && (handled <==> m == |layers| && Handled in Fold(layers, handler, budget, i)(a).1)
    ensures var (o, t) := Fold(layers, handler, budget, i)(a);
            t <= Nest(i, m, handled) && (!o.Pending? ==> t == Nest(i, m, handled))
    decreases |layers| - i
  {
    if i == |layers| {
      return i, true;
    }
    var inner := Fold(layers, handler, budget, i + 1);
    var act := layers[i](a, []);
    OnceTrace(layers[i], inner, a, budget);
    var r := Once(layers[i], inner, a, [], false, budget);
    assert Fold(layers, handler, budget, i)(a) == (r.0, Bracket(i, r.0, r.1));
    if budget > 0 && act.CallNext? {
      m, handled := TraceIsNested(layers, handler, budget, i + 1, act.arg);
      NestOnce(i, m, handled, r.1);
    } else {
      m, handled := i + 1, false;
    }
  }

  lemma {:induction false} NestOnce(i: nat, m: nat, handled: bool, t: Trace)
    requires i < m && t <= Nest(i + 1, m, handled)
    ensures [Enter(i)] + t <= Nest(i, m, handled)
    ensures Handled in [Enter(i)] + t <==> Handled in t
    ensures Handled in [Enter(i)] + t + [Exit(i)] <==> Handled in t
    ensures t == Nest(i + 1, m, handled) ==> [Enter(i)] + t + [Exit(i)] == Nest(i, m, handled)
  {
  }

  lemma {:induction false} OnceTrace<A, V>(layer: Layer<A, V>, inner: Stage<A, V>, a: A, n: nat)
    ensures var r := Once(layer, inner, a, [], false, n);
            if n > 0 && layer(a, []).CallNext?
            then r.1 == inner(layer(a, []).arg).1 && (inner(layer(a, []).arg).0.Pending? ==> r.0.Pending?)
            else r.1 == []
  {
    if n > 0 && layer(a, []).CallNext? {
      UsedIsSilent(layer, inner, a, [] + [inner(layer(a, []).arg).0], n - 1);
    }
  }

  lemma {:induction false} UsedIsSilent<A, V>(
    layer: Layer<A, V>, inner: Stage<A, V>, a: A, past: seq<Outcome<V>>, n: nat)
    ensures Once(layer, inner, a, past, true, n).1 == []
    decreases n
  {
    if n > 0 && layer(a, past).CallNext? {
      UsedIsSilent(layer, inner, a, past + [Threw(GUARD)], n - 1);
    }
  }

  // ---- The bundled retry layer ----

  /** The retry loop as a layer. */
  function RetryLayer<A, V>(maxRetries: int): Layer<A, V> {
    (a: A, past: seq<Outcome<V>>) =>
      if past == [] then
        if maxRetries < 0 then Throw("undefined") else CallNext(a)
      else
        match Last(past)
        case Returned(v) => Return(v)
        case Threw(e) => if |past| > maxRetries then Throw(e) else CallNext(a)
        case Pending => CallNext(a)
  }

  function FirstOutcomes<V>(next: nat -> Outcome<V>, k: nat): seq<Outcome<V>> {
    seq(k, i requires 0 <= i < k => next(i))
  }

  /** The retry loop: attempt k awaits the k-th `next`, and the delays between attempts are left out. Its calls
      and its result are those of the layer. */
  method Retry<A, V>(maxRetries: int, next: nat -> Outcome<V>, ghost a: A) returns (r: Outcome<V>, calls: nat)
    ensures calls <= Max(0, maxRetries + 1)
    ensures calls == 0 <==> maxRetries < 0
    ensures calls == 0 ==> r == Threw("undefined")
    ensures calls > 0 ==> r == next(calls - 1)
    ensures forall k | 0 <= k < calls - 1 :: next(k).Threw?
    ensures 0 < calls <= maxRetries ==> !r.Threw?
    ensures forall k | 0 <= k < calls :: RetryLayer<A, V>(maxRetries)(a, FirstOutcomes(next, k)) == CallNext(a)
    ensures var last := RetryLayer<A, V>(maxRetries)(a, FirstOutcomes(next, calls));
            (r.Returned? ==> last == Return(r.value)) && (r.Threw? ==> last == Throw(r.error))
  {
    var lastError := "undefined";
    calls := 0;
    while calls <= maxRetries
      invariant 0 <= calls <= Max(0, maxRetries + 1)
      invariant forall k | 0 <= k < calls :: next(k).Threw?
      invariant forall k | 0 <= k < calls :: RetryLayer<A, V>(maxRetries)(a, FirstOutcomes(next, k)) == CallNext(a)
      invariant lastError == if calls == 0 then "undefined" else next(calls - 1).error
      decreases maxRetries - calls
    {
      var o := next(calls);
      calls := calls + 1;
      match o {
        case Threw(e) => lastError := e;
        case _ => return o, calls;
      }
    }
    r := Threw(lastError);
  }

  function Repeated(t: Trace, n: nat): Trace {
    if n == 0 then [] else t + Repeated(t, n - 1)
  }

  lemma {:induction false} RetryUsed<A, V>(
    maxRetries: nat, inner: Stage<A, V>, a: A, past: seq<Outcome<V>>, n: nat)
    requires 0 < |past| <= maxRetries + 1 && Last(past).Threw? && n >= maxRetries + 2 - |past|
    ensures Once(RetryLayer(maxRetries), inner, a, past, true, n)
         == (Threw(if |past| == maxRetries + 1 then Last(past).error else GUARD), [])
    decreases n
  {
    if |past| <= maxRetries {
      RetryUsed(maxRetries, inner, a, past + [Threw(GUARD)], n - 1);
      var r := Once(RetryLayer(maxRetries), inner, a, past + [Threw(GUARD)], true, n - 1);
      assert r.0 == Threw(GUARD) && [] + r.1 == [];
      assert Once(RetryLayer(maxRetries), inner, a, past, true, n) == (r.0, [] + r.1);
    }
  }

  lemma {:induction false} RetryRest<A, V>(
    maxRetries: nat, inner: Stage<A, V>, a: A, past: seq<Outcome<V>>, n: nat)
    requires |past| <= maxRetries + 1 && n >= maxRetries + 2 - |past| && inner(a).0.Threw?
    requires past != [] ==> Last(past) == inner(a).0
    ensures Every(RetryLayer(maxRetries), inner, a, past, n)
         == (inner(a).0, Repeated(inner(a).1, maxRetries + 1 - |past|))
    decreases n
  {
    if |past| <= maxRetries {
      RetryRest(maxRetries, inner, a, past + [inner(a).0], n - 1);
    }
  }

  /** In a composed chain the retry layer runs what is inside it exactly once, and if that throws and there
      is at least one retry, the call ends in the guard's error instead of the inner one. */
  lemma {:induction false} RetryInChainRetriesNothing<A, V>(
    layers: seq<Layer<A, V>>, handler: Handler<A, V>, budget: nat, i: nat, maxRetries: nat, a: A)
    requires i < |layers| && layers[i] == RetryLayer(maxRetries) && budget >= maxRetries + 2
    ensures var (o, t) := Fold(layers, handler, budget, i + 1)(a);
            var r := if o.Threw? && maxRetries >= 1 then Threw(GUARD) else o;
            Fold(layers, handler, budget, i)(a) == (r, Bracket(i, r, t))
  {
    RetryOnce(maxRetries, Fold(layers, handler, budget, i + 1), a, budget);
  }

  lemma {:induction false} RetryOnce<A, V>(maxRetries: nat, inner: Stage<A, V>, a: A, n: nat)
    requires n >= maxRetries + 2
    ensures var (o, t) := inner(a);
            Once(RetryLayer(maxRetries), inner, a, [], false, n)
              == (if o.Threw? && maxRetries >= 1 then Threw(GUARD) else o, t)
  {
    var (o, t) := inner(a);
    assert [] + [o] == [o] && t + [] == t;
    if o.Threw? {
      RetryUsed(maxRetries, inner, a, [o], n - 1);
    }
    if !o.Pending? {
      var r := Once(RetryLayer(maxRetries), inner, a, [o], true, n - 1);
      assert Once(RetryLayer(maxRetries), inner, a, [], false, n) == (r.0, t + r.1);
    }
  }

  /** Without the guard, the same layer would run a throwing inner stage maxRetries + 1 times. */
  lemma {:induction false} RetryAloneRetries<A, V>(inner: Stage<A, V>, maxRetries: nat, a: A)
    requires inner(a).0.Threw?
    ensures Every(RetryLayer(maxRetries), inner, a, [], maxRetries + 2)
         == (inner(a).0, Repeated(inner(a).1, maxRetries + 1))
  {
    RetryRest(maxRetries, inner, a, [], maxRetries + 2);
  }

  // ---- Enqueue: the job is threaded through, null drops it ----

  /** An enqueue middleware that passes a changed job on, or drops it, and passes the outcome back. */
  function Through<J>(f: J -> Option<J>): Layer<J, Option<J>> {
    (job: J, past: seq<Outcome<Option<J>>>) =>
      if past == [] then
        match f(job)
        case None => Return(None)
        case Some(changed) => CallNext(changed)
      else
        match Last(past)
        case Returned(v) => Return(v)
        case Threw(e) => Throw(e)
        case Pending => CallNext(job)
  }

  /** The job after the first transformations, or None once one of them drops it. */
  function Thread<J>(fs: seq<J -> Option<J>>, job: J): Option<J> {
    if fs == [] then Some(job) else
      match fs[0](job)
      case None => None
      case Some(changed) => Thread(fs[1..], changed)
  }

  lemma {:induction false} ThroughOnce<J>(f: J -> Option<J>, inner: Stage<J, Option<J>>, job: J, budget: nat)
    requires budget >= 2
    ensures Once(Through(f), inner, job, [], false, budget)
         == if f(job).None? then (Returned(None), []) else inner(f(job).value)
  {
    if f(job).Some? {
      var (o, t) := inner(f(job).value);
      assert [] + [o] == [o] && t + [] == t;
    }
  }

  /** Composed enqueue middleware hands the handler the fully threaded job, or drops it and never calls it. */
  lemma {:induction false} EnqueueThreads<J(!new)>(
    fs: seq<J -> Option<J>>, layers: seq<Layer<J, Option<J>>>, handler: Handler<J, Option<J>>, budget: nat,
    i: nat, job: J)
    requires budget >= 2 && i <= |fs| == |layers| && forall k | 0 <= k < |fs| :: layers[k] == Through(fs[k])
    ensures var (o, t) := Fold(layers, handler, budget, i)(job);
            match Thread(fs[i..], job)
            case None => o == Returned(None) && Handled !in t
            case Some(final) => o == handler(final) && Handled in t
    decreases |fs| - i
  {
    if i < |fs| {
      assert fs[i..][0] == fs[i] && fs[i..][1..] == fs[i + 1..];
      var inner := Fold(layers, handler, budget, i + 1);
      if fs[i](job).Some? {
        EnqueueThreads(fs, layers, handler, budget, i + 1, fs[i](job).value);
      }
      ThroughOnce(fs[i], inner, job, budget);
    }
  }
}

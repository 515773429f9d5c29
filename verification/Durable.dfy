/**
 Record and replay for durable job handlers (src/durable.ts).

 A handler is modelled by what it does next, as a function of the results it has seen so far: that is
 what "deterministic" means for a handler that awaits its operations one after another. The clock, the
 random source and the side effects are a `World`; whether a request reaches the checkpoint server is a
 `Net`. Both may answer differently at every step and in every attempt.
 */
module Durable {
  import opened Prelude

  // ---- Values and the replay log ----

  /** A JavaScript value as JSON sees it: `Lossy` values (a Date, a Map, NaN) come back as something else. */
  datatype Value = Json(text: string) | Lossy(text: string, parsed: string)

  /** JSON.parse(JSON.stringify(v)). */
  function RoundTrip(v: Value): Value {
    if v.Json? then v else Json(v.parsed)
  }

  const VOID := Json("undefined")

  datatype Kind = Time | Random | Call

  datatype Entry = Entry(seqNo: nat, kind: Kind, key: Option<string>, result: Value)

  type Log = seq<Entry>

  /** What reloading a posted log yields. */
  function Stringify(log: Log): Log {
    seq(|log|, i requires 0 <= i < |log| => log[i].(result := RoundTrip(log[i].result)))
  }

  // ---- Handlers and their environment ----

  datatype Outcome = Done(value: Value) | Threw(error: string)

  type History = seq<Outcome>

  datatype Op =
    | Now
    | RandomHex(bytes: nat)
    | SideEffect(key: string)
    | Checkpoint(step: int, state: Value)
    | Complete
    | Finish(result: Outcome)

  type Handler = History -> Op

  datatype World = World(
    clock: History -> string,
    entropy: (History, nat) -> string,
    effect: (History, string) -> Outcome)

  datatype Reply = Applied | AppliedButThrew(error: string) | Lost(error: string)

  type Net = History -> Reply

  predicate Recordable(op: Op) {
    op.Now? || op.RandomHex? || op.SideEffect?
  }

  /** What the outside world answers when an operation really happens. */
  function Draw(w: World, op: Op, past: History): Outcome
    requires Recordable(op)
  {
    match op
    case Now => Done(Json(w.clock(past)))
    case RandomHex(bytes) => Done(Json(w.entropy(past, bytes)))
    case SideEffect(key) => w.effect(past, key)
  }

  function KindOf(op: Op): Kind
    requires Recordable(op)
  {
    match op
    case Now => Time
    case RandomHex(_) => Random
    case SideEffect(_) => Call
  }

  function KeyOf(op: Op): Option<string>
    requires Recordable(op)
  {
    match op
    case Now => Some("now")
    case RandomHex(_) => None
    case SideEffect(key) => Some(key)
  }

  // ---- The context ----

  datatype Context = Context(entries: Log, cursor: nat, replaying: bool)

  datatype ResumeReply = Unreachable | NoLog | Parsed(entries: Option<Log>)

  function Load(reply: ResumeReply): Context {
    if reply.Parsed? && reply.entries.Some? && |reply.entries.value| > 0
    then Context(reply.entries.value, 0, true)
    else Context([], 0, false)
  }

  predicate Replaying(c: Context) {
    c.replaying && c.cursor < |c.entries|
  }

  predicate Matches(op: Op, e: Entry)
    requires Recordable(op)
  {
    && e.kind == KindOf(op)
    && (op.SideEffect? ==> op.key == "" || e.key == Some(op.key))
  }

  predicate Hit(c: Context, op: Op)
    requires Recordable(op)
  {
    Replaying(c) && Matches(op, c.entries[c.cursor])
  }

  function Recorded(log: Log, op: Op, v: Value): Log
    requires Recordable(op)
  {
    log + [Entry(|log|, KindOf(op), KeyOf(op), v)]
  }

  /** One recordable operation on the context, `drawn` being what the world answers if it is asked. */
  function Operate(c: Context, op: Op, drawn: Outcome): (Context, Outcome)
    requires Recordable(op)
  {
    if Hit(c, op) then
      (c.(cursor := c.cursor + 1, replaying := c.cursor + 1 < |c.entries|), Done(c.entries[c.cursor].result))
    else if drawn.Done? then
      (c.(entries := Recorded(c.entries, op, drawn.value), replaying := false), drawn)
    else
      (c.(replaying := false), drawn)
  }

  class DurableContext {
    var entries: Log
    var cursor: nat
    var replaying: bool

    function View(): Context
      reads this
    {
      Context(entries, cursor, replaying)
    }

    constructor Create(reply: ResumeReply)
      ensures View() == Load(reply)
      ensures cursor == 0
      ensures replaying <==> reply.Parsed? && reply.entries.Some? && reply.entries.value != []
      ensures entries == if replaying then reply.entries.value else []
    {
      entries, cursor, replaying := [], 0, false;
      if reply.Parsed? && reply.entries.Some? && |reply.entries.value| > 0 {
        entries := reply.entries.value;
        replaying := true;
      }
    }

    method CheckReplayDone()
      modifies this`replaying
      ensures replaying == (old(replaying) && cursor < |entries|)
    {
      if cursor >= |entries| {
        replaying := false;
      }
    }

    predicate IsReplaying()
      reads this
      ensures IsReplaying() <==> Replaying(View())
    {
      replaying && cursor < |entries|
    }

    method Now(clock: () -> string) returns (t: Value)
      modifies this
      ensures (View(), Done(t)) == Operate(old(View()), Op.Now, Done(Json(clock())))
      ensures if old(replaying && cursor < |entries| && entries[cursor].kind == Time) then
                && t == old(entries[cursor].result) && entries == old(entries) && cursor == old(cursor) + 1
                && (replaying <==> cursor < |entries|)
              else
                && t == Json(clock()) && entries == old(entries) + [Entry(|old(entries)|, Time, Some("now"), t)]
                && cursor == old(cursor) && !replaying
    {
      if replaying && cursor < |entries| {
        var entry := entries[cursor];
        if entry.kind == Time {
          cursor := cursor + 1;
          CheckReplayDone();
          return entry.result;
        }
      }
      t := Json(clock());
      entries := entries + [Entry(|entries|, Time, Some("now"), t)];
      replaying := false;
    }

    method Random(bytes: nat, entropy: nat -> string) returns (hex: Value)
      modifies this
      ensures (View(), Done(hex)) == Operate(old(View()), RandomHex(bytes), Done(Json(entropy(bytes))))
      ensures if old(replaying && cursor < |entries| && entries[cursor].kind == Kind.Random) then
                && hex == old(entries[cursor].result) && entries == old(entries) && cursor == old(cursor) + 1
                && (replaying <==> cursor < |entries|)
              else
                && hex == Json(entropy(bytes))
                && entries == old(entries) + [Entry(|old(entries)|, Kind.Random, None, hex)]
                && cursor == old(cursor) && !replaying
    {
      if replaying && cursor < |entries| {
        var entry := entries[cursor];
        if entry.kind == Kind.Random {
          cursor := cursor + 1;
          CheckReplayDone();
          return entry.result;
        }
      }
      hex := Json(entropy(bytes));
      entries := entries + [Entry(|entries|, Kind.Random, None, hex)];
      replaying := false;
    }

    method SideEffect(key: string, fn: () -> Outcome) returns (r: Outcome)
      modifies this
      ensures (View(), r) == Operate(old(View()), Op.SideEffect(key), fn())
      ensures if old(replaying && cursor < |entries| && entries[cursor].kind == Call
                     && (key == "" || entries[cursor].key == Some(key))) then
                && r == Done(old(entries[cursor].result)) && entries == old(entries) && cursor == old(cursor) + 1
                && (replaying <==> cursor < |entries|)
              else
                && r == fn() && cursor == old(cursor) && !replaying
                && entries == old(entries)
                     + if r.Done? then [Entry(|old(entries)|, Call, Some(key), r.value)] else []
    {
      if replaying && cursor < |entries| {
        var entry := entries[cursor];
        if entry.kind == Call && (key == "" || entry.key == Some(key)) {
          cursor := cursor + 1;
          CheckReplayDone();
          return Done(entry.result);
        }
      }
      replaying := false;
      r := fn();
      if r.Done? {
        entries := entries + [Entry(|entries|, Call, Some(key), r.value)];
      }
    }

    /** Posts the whole log, replayed or not; the context does not change. */
    method Checkpoint(store: Option<Log>, reply: Reply) returns (stored: Option<Log>, r: Outcome)
      ensures stored == if reply.Lost? then store else Some(Stringify(entries))
      ensures !reply.Lost? ==> stored.Some? && |stored.value| == |entries|
      ensures !reply.Lost? ==> forall i | 0 <= i < |entries| ::
                stored.value[i] == entries[i].(result := if entries[i].result.Json? then entries[i].result
                                                         else Json(entries[i].result.parsed))
      ensures r == Answer(reply)
      ensures if reply.Applied? then r == Done(VOID) else r == Threw(reply.error)
    {
      var replayLog := Stringify(entries);
      stored := if reply.Lost? then store else Some(replayLog);
      r := Answer(reply);
    }

    /** Deletes the checkpoint; the context does not change. */
    method Complete(store: Option<Log>, reply: Reply) returns (stored: Option<Log>, r: Outcome)
      ensures stored == if reply.Lost? then store else None
      ensures r == Answer(reply)
      ensures if reply.Applied? then r == Done(VOID) else r == Threw(reply.error)
    {
      stored := if reply.Lost? then store else None;
      r := Answer(reply);
    }
  }

  // ---- One attempt ----

  /** A recordable operation and how it ended. */
  datatype Act = Act(op: Op, result: Outcome)

  /** The recordable operations of a history, requests left out. */
  function Acts(h: Handler, past: History): (acts: seq<Act>)
    ensures |acts| <= |past|
  {
    if past == [] then [] else
      var acts, op := Acts(h, Front(past)), h(Front(past));
      if Recordable(op) then acts + [Act(op, Last(past))] else acts
  }

  function Results(acts: seq<Act>): History {
    seq(|acts|, i requires 0 <= i < |acts| => acts[i].result)
  }

  function Answer(reply: Reply): Outcome {
    if reply == Applied then Done(VOID) else Threw(reply.error)
  }

  /** `draws` lists the steps at which the world was asked. */
  datatype Attempt = Attempt(ctx: Context, store: Option<Log>, history: History, draws: seq<nat>)

  /** The world answers by the results so far: how a request went cannot change what a side effect does. */
  function Step(h: Handler, w: World, net: Net, s: Attempt): Attempt {
    var op := h(s.history);
    match op
    case Finish(_) => s
    case Checkpoint(_, _) =>
      var reply := net(s.history);
      s.(store := if reply.Lost? then s.store else Some(Stringify(s.ctx.entries)),
         history := s.history + [Answer(reply)])
    case Complete =>
      var reply := net(s.history);
      s.(store := if reply.Lost? then s.store else None, history := s.history + [Answer(reply)])
    case _ =>
      var (c, r) := Operate(s.ctx, op, Draw(w, op, Results(Acts(h, s.history))));
      s.(ctx := c, history := s.history + [r],
         draws := if Hit(s.ctx, op) then s.draws else s.draws + [|s.history|])
  }

  function Iterate<S>(f: S -> S, start: S, n: nat): S {
    if n == 0 then start else f(Iterate(f, start, n - 1))
  }

  /** What every step keeps, every run keeps. */
  lemma {:induction false} IterateKeeps<S(!new)>(f: S -> S, start: S, n: nat, p: S -> bool)
    requires p(start) && forall s {:trigger f(s)} :: p(s) ==> p(f(s))
    ensures p(Iterate(f, start, n))
  {
    if n > 0 {
      IterateKeeps(f, start, n - 1, p);
    }
  }

  /** What every pair of steps keeps, every pair of runs keeps. */
  lemma {:induction false} IteratesKeep<S(!new)>(f: S -> S, g: S -> S, s: S, t: S, n: nat, p: (S, S) -> bool)
    requires p(s, t) && forall x, y {:trigger f(x), g(y)} :: p(x, y) ==> p(f(x), g(y))
    ensures p(Iterate(f, s, n), Iterate(g, t, n))
  {
    if n > 0 {
      IteratesKeep(f, g, s, t, n - 1, p);
    }
  }

  /** The first `n` steps of an attempt; a crash is the end of the steps. */
  function Run(h: Handler, w: World, net: Net, s: Attempt, n: nat): Attempt {
    Iterate((t: Attempt) => Step(h, w, net, t), s, n)
  }

  function ReplyFrom(store: Option<Log>, reachable: bool): ResumeReply {
    if !reachable then Unreachable else if store.None? then NoLog else Parsed(store)
  }

  function Start(store: Option<Log>, reachable: bool): Attempt {
    Attempt(Load(ReplyFrom(store, reachable)), store, [], [])
  }

  /** The attempt carried out on a real context object. */
  method RunAttempt(h: Handler, w: World, net: Net, store: Option<Log>, reachable: bool, n: nat)
    returns (s: Attempt)
    ensures s == Run(h, w, net, Start(store, reachable), n)
  {
    var dc := new DurableContext.Create(ReplyFrom(store, reachable));
    var saved, history, draws := store, [], [];
    for i := 0 to n
      invariant Attempt(dc.View(), saved, history, draws) == Run(h, w, net, Start(store, reachable), i)
    {
      var op, results := h(history), Results(Acts(h, history));
      var r: Outcome;
      match op {
        case Finish(_) =>
        case Checkpoint(_, _) =>
          saved, r := dc.Checkpoint(saved, net(history));
          history := history + [r];
        case Complete =>
          saved, r := dc.Complete(saved, net(history));
          history := history + [r];
        case Now =>
          draws := if Hit(dc.View(), op) then draws else draws + [|history|];
          var t := dc.Now(() => w.clock(results));
          history := history + [Done(t)];
        case RandomHex(bytes) =>
          draws := if Hit(dc.View(), op) then draws else draws + [|history|];
          var hex := dc.Random(bytes, (b: nat) => w.entropy(results, b));
          history := history + [Done(hex)];
        case SideEffect(key) =>
          draws := if Hit(dc.View(), op) then draws else draws + [|history|];
          r := dc.SideEffect(key, () => w.effect(results, key));
          history := history + [r];
      }
    }
    s := Attempt(dc.View(), saved, history, draws);
  }

  // ---- What a history records ----

  function LogOfActs(acts: seq<Act>): Log {
    if acts == [] then [] else
      var log, a := LogOfActs(Front(acts)), Last(acts);
      if Recordable(a.op) && a.result.Done? then Recorded(log, a.op, a.result.value) else log
  }

  /** The log an attempt that started empty has written after `past`. */
  function LogOf(h: Handler, past: History): Log {
    LogOfActs(Acts(h, past))
  }

  /** `past` is a sequence of results the handler can have seen. */
  ghost predicate Genuine(h: Handler, past: History) {
    forall i | 0 <= i < |past| ::
      && !h(past[..i]).Finish?
      && (!Recordable(h(past[..i])) && past[i].Done? ==> past[i].value == VOID)
  }

  ghost predicate EndsWithRecord(h: Handler, past: History) {
    past == [] || (Recordable(h(Front(past))) && Last(past).Done?)
  }

  ghost predicate Survive(acts: seq<Act>) {
    forall a <- acts :: a.result.Done? ==> a.result.value.Json?
  }

  ghost predicate AllDone(acts: seq<Act>) {
    forall a <- acts :: a.result.Done?
  }

  /** Side effects return JSON-serializable values, as their documentation asks. */
  ghost predicate Serializable(w: World) {
    forall past: History, key :: w.effect(past, key).Done? ==> w.effect(past, key).value.Json?
  }

  lemma {:induction false} ActsNext(h: Handler, past: History, r: Outcome)
    ensures Acts(h, past + [r]) == Acts(h, past) + if Recordable(h(past)) then [Act(h(past), r)] else []
  {
    assert Front(past + [r]) == past;
  }

  lemma {:induction false} ActsPrefix(h: Handler, past: History, k: nat)
    requires k <= |past|
    ensures Acts(h, past[..k]) <= Acts(h, past)
  {
    if k == |past| {
      assert past[..k] == past;
    } else {
      ActsPrefix(h, Front(past), k);
      assert Front(past)[..k] == past[..k];
    }
  }

  /** Where in a history its k-th recordable operation stands. */
  lemma {:induction false} ActAt(h: Handler, past: History, k: nat) returns (i: nat)
    requires k < |Acts(h, past)|
    ensures i < |past| && Recordable(h(past[..i]))
    ensures Acts(h, past[..i]) == Acts(h, past)[..k] && Acts(h, past)[k] == Act(h(past[..i]), past[i])
  {
    if k < |Acts(h, Front(past))| {
      i := ActAt(h, Front(past), k);
      assert Front(past)[..i] == past[..i];
    } else {
      i := |past| - 1;
    }
  }

  lemma {:induction false} LogPrefix(acts: seq<Act>, k: nat)
    requires k <= |acts|
    ensures LogOfActs(acts[..k]) <= LogOfActs(acts)
  {
    if k == |acts| {
      assert acts[..k] == acts;
    } else {
      LogPrefix(Front(acts), k);
      assert Front(acts)[..k] == acts[..k];
    }
  }

  /** Entries are numbered by position and describe the operation that recorded them. */
  lemma {:induction false} LogIsNumbered(acts: seq<Act>, i: nat) returns (k: nat)
    requires i < |LogOfActs(acts)|
    ensures k < |acts| && Recordable(acts[k].op) && acts[k].result.Done? && |LogOfActs(acts[..k])| == i
    ensures var e := LogOfActs(acts)[i];
            e.seqNo == i && e.result == acts[k].result.value && Matches(acts[k].op, e)
  {
    if i < |LogOfActs(Front(acts))| {
      k := LogIsNumbered(Front(acts), i);
      assert Front(acts)[..k] == acts[..k];
    } else {
      k := |acts| - 1;
    }
  }

  lemma {:induction false} ActsAreRecordable(h: Handler, past: History)
    ensures forall a <- Acts(h, past) :: Recordable(a.op)
  {
    if past != [] {
      ActsAreRecordable(h, Front(past));
    }
  }

  lemma {:induction false} LogOfDoneActs(acts: seq<Act>)
    requires forall a <- acts :: Recordable(a.op) && a.result.Done?
    ensures |LogOfActs(acts)| == |acts|
    ensures forall k | 0 <= k < |acts| :: LogOfActs(acts)[k] == EntryOf(k, acts[k])
  {
    if acts != [] {
      LogOfDoneActs(Front(acts));
    }
  }

  /** Without a throw there is one entry for each operation. */
  lemma {:induction false} LogOfDone(h: Handler, past: History)
    requires AllDone(Acts(h, past))
    ensures |LogOf(h, past)| == |Acts(h, past)|
    ensures forall k | 0 <= k < |Acts(h, past)| ::
              Recordable(Acts(h, past)[k].op) && LogOf(h, past)[k] == EntryOf(k, Acts(h, past)[k])
  {
    ActsAreRecordable(h, past);
    LogOfDoneActs(Acts(h, past));
  }

  function EntryOf(k: nat, a: Act): Entry
    requires Recordable(a.op) && a.result.Done?
  {
    Entry(k, KindOf(a.op), KeyOf(a.op), a.result.value)
  }

  lemma {:induction false} LogOfNext(h: Handler, past: History, r: Outcome)
    ensures LogOf(h, past + [r])
         == if Recordable(h(past)) && r.Done? then Recorded(LogOf(h, past), h(past), r.value) else LogOf(h, past)
  {
    ActsNext(h, past, r);
    assert Front(Acts(h, past) + [Act(h(past), r)]) == Acts(h, past);
  }

  lemma {:induction false} LogSurvives(acts: seq<Act>)
    requires Survive(acts)
    ensures Stringify(LogOfActs(acts)) == LogOfActs(acts)
  {
    if acts != [] {
      LogSurvives(Front(acts));
    }
  }

  // ---- Resuming ----

  /** A history whose log can be replayed: every recordable operation succeeded, with a value that survives
      JSON. Requests may have failed. */
  ghost predicate Replayable(h: Handler, past: History) {
    Genuine(h, past) && AllDone(Acts(h, past)) && Survive(Acts(h, past))
  }

  /** Which operation is recorded next depends on the recorded results only, however requests went. A handler
      may retry requests, give up, or branch on them, as long as it records the same operations. */
  ghost predicate Blind(h: Handler) {
    forall p, q | Replayable(h, p) && Replayable(h, q) && Results(Acts(h, p)) == Results(Acts(h, q)) ::
      Recordable(h(p)) && Recordable(h(q)) ==> h(p) == h(q)
  }

  ghost predicate InReplay(h: Handler, past: History, s: Attempt) {
    && Acts(h, s.history) < Acts(h, past)
    && s.ctx == Context(LogOf(h, past), |Acts(h, s.history)|, true)
    && s.draws == []
  }

  ghost predicate Beyond(h: Handler, past: History, history: History, d: nat) {
    d < |history| && Acts(h, past) <= Acts(h, history[..d])
  }

  ghost predicate CaughtUp(h: Handler, past: History, s: Attempt) {
    && Acts(h, past) <= Acts(h, s.history)
    && s.ctx.entries == LogOf(h, s.history)
    && !s.ctx.replaying
    && forall d <- s.draws :: Beyond(h, past, s.history, d)
  }

  ghost predicate StoreExtends(log: Log, store: Option<Log>) {
    store.Some? ==> log <= store.value
  }

  ghost predicate Resuming(h: Handler, past: History, s: Attempt) {
    && (InReplay(h, past, s) || CaughtUp(h, past, s))
    && Genuine(h, s.history)
    && StoreExtends(LogOf(h, past), s.store)
  }

  lemma {:induction false} GenuinePrefix(h: Handler, past: History, k: nat)
    requires Genuine(h, past) && k <= |past|
    ensures Genuine(h, past[..k])
  {
    forall i | 0 <= i < k
      ensures past[..k][..i] == past[..i]
    {
    }
  }

  lemma {:induction false} GenuineGrows(h: Handler, past: History, r: Outcome)
    requires Genuine(h, past) && !h(past).Finish?
    requires !Recordable(h(past)) && r.Done? ==> r.value == VOID
    ensures Genuine(h, past + [r])
  {
    forall i | 0 <= i < |past + [r]|
      ensures (past + [r])[..i] == past[..i]
    {
    }
    assert past[..|past|] == past;
  }

  lemma {:induction false} GenuineStep(h: Handler, w: World, net: Net, s: Attempt)
    requires Genuine(h, s.history)
    ensures Genuine(h, Step(h, w, net, s).history)
  {
    if !h(s.history).Finish? {
      GenuineGrows(h, s.history, Last(Step(h, w, net, s).history));
    }
  }

  /** A replayed operation that is the logged one returns the logged result and asks nobody. */
  lemma {:induction false} SameOperationHits(h: Handler, w: World, net: Net, past: History, s: Attempt)
    requires Replayable(h, past) && InReplay(h, past, s)
    requires Recordable(h(s.history)) && h(s.history) == Acts(h, past)[|Acts(h, s.history)|].op
    ensures var t, k := Step(h, w, net, s), |Acts(h, s.history)|;
            && Hit(s.ctx, h(s.history))
            && t.history == s.history + [Acts(h, past)[k].result] && t.draws == []
            && t.ctx == s.ctx.(cursor := k + 1, replaying := k + 1 < |Acts(h, past)|)
  {
    LogOfDone(h, past);
  }

  /** During the replay a blind handler does the operations it did. */
  lemma {:induction false} SameOperation(h: Handler, past: History, now: History)
    requires Blind(h) && Replayable(h, past) && Genuine(h, now)
    requires Acts(h, now) < Acts(h, past) && Recordable(h(now))
    ensures h(now) == Acts(h, past)[|Acts(h, now)|].op
  {
    var i := ActAt(h, past, |Acts(h, now)|);
    assert Acts(h, past[..i]) == Acts(h, now);
    GenuinePrefix(h, past, i);
    assert Replayable(h, past[..i]) && Replayable(h, now);
  }

  /** During the replay every recordable operation hits its own entry. */
  lemma {:induction false} ReplayHit(h: Handler, w: World, net: Net, past: History, s: Attempt)
    requires Blind(h) && Replayable(h, past) && InReplay(h, past, s) && Genuine(h, s.history)
    requires Recordable(h(s.history))
    ensures var t, k := Step(h, w, net, s), |Acts(h, s.history)|;
            && Hit(s.ctx, h(s.history))
            && Acts(h, past)[k] == Act(h(s.history), Last(t.history))
            && t.history == s.history + [Last(t.history)] && t.draws == []
            && t.ctx == s.ctx.(cursor := k + 1, replaying := k + 1 < |Acts(h, past)|)
  {
    SameOperation(h, past, s.history);
    SameOperationHits(h, w, net, past, s);
  }

  /** The attempt after a replayed operation. */
  lemma {:induction false} ReplayMoves(h: Handler, past: History, s: Attempt, r: Outcome, t: Attempt)
    requires Replayable(h, past) && InReplay(h, past, s) && Recordable(h(s.history))
    requires Acts(h, past)[|Acts(h, s.history)|] == Act(h(s.history), r) && t.history == s.history + [r]
    requires var k := |Acts(h, s.history)|;
             t.ctx == s.ctx.(cursor := k + 1, replaying := k + 1 < |Acts(h, past)|) && t.draws == []
    ensures InReplay(h, past, t) || CaughtUp(h, past, t)
  {
    var acts, k := Acts(h, past), |Acts(h, s.history)|;
    ActsNext(h, s.history, r);
    assert Acts(h, t.history) == acts[..k + 1];
    if k + 1 == |acts| {
      assert acts[..k + 1] == acts;
    }
  }

  lemma {:induction false} ReplayAdvances(h: Handler, w: World, net: Net, past: History, s: Attempt)
    requires Blind(h) && Replayable(h, past) && InReplay(h, past, s) && Genuine(h, s.history)
    ensures InReplay(h, past, Step(h, w, net, s)) || CaughtUp(h, past, Step(h, w, net, s))
  {
    var t := Step(h, w, net, s);
    if Recordable(h(s.history)) {
      ReplayHit(h, w, net, past, s);
      ReplayMoves(h, past, s, Last(t.history), t);
    } else if !h(s.history).Finish? {
      ActsNext(h, s.history, Last(t.history));
      assert t.history == s.history + [Last(t.history)] && t.ctx == s.ctx && t.draws == [];
    }
  }

  lemma {:induction false} StillBeyond(h: Handler, past: History, history: History, r: Outcome, d: nat)
    requires Beyond(h, past, history, d)
    ensures Beyond(h, past, history + [r], d)
  {
    assert (history + [r])[..d] == history[..d];
  }

  lemma {:induction false} CaughtUpStep(h: Handler, w: World, net: Net, past: History, s: Attempt)
    requires CaughtUp(h, past, s)
    ensures CaughtUp(h, past, Step(h, w, net, s))
  {
    var t := Step(h, w, net, s);
    if !h(s.history).Finish? {
      var r := Last(t.history);
      assert t.history == s.history + [r];
      ActsNext(h, s.history, r);
      assert Front(Acts(h, s.history) + [Act(h(s.history), r)]) == Acts(h, s.history);
      forall d <- t.draws
        ensures Beyond(h, past, t.history, d)
      {
        if d in s.draws {
          StillBeyond(h, past, s.history, r, d);
        } else {
          assert t.history[..|s.history|] == s.history;
        }
      }
    }
  }

  lemma {:induction false} StoreStep(h: Handler, w: World, net: Net, past: History, s: Attempt)
    requires Replayable(h, past) && Resuming(h, past, s)
    ensures StoreExtends(LogOf(h, past), Step(h, w, net, s).store)
  {
    LogSurvives(Acts(h, past));
    if CaughtUp(h, past, s) {
      LogExtends(Acts(h, past), Acts(h, s.history));
    }
  }

  lemma {:induction false} LogExtends(few: seq<Act>, many: seq<Act>)
    requires few <= many
    ensures LogOfActs(few) <= LogOfActs(many)
  {
    assert many[..|few|] == few;
    LogPrefix(many, |few|);
  }

  lemma {:induction false} ResumingStep(h: Handler, w: World, net: Net, past: History, s: Attempt)
    requires Blind(h) && Replayable(h, past) && Resuming(h, past, s)
    ensures Resuming(h, past, Step(h, w, net, s))
  {
    GenuineStep(h, w, net, s);
    StoreStep(h, w, net, past, s);
    if CaughtUp(h, past, s) {
      CaughtUpStep(h, w, net, past, s);
    } else {
      ReplayAdvances(h, w, net, past, s);
    }
  }

  /** A loaded log is replayed to its end before anything new happens, whatever the world and the
      checkpoint server answer. */
  lemma {:induction false} ResumingRun(h: Handler, w: World, net: Net, past: History, s: Attempt, n: nat)
    requires Blind(h) && Replayable(h, past) && Resuming(h, past, s)
    ensures Resuming(h, past, Run(h, w, net, s, n))
  {
    forall t | Resuming(h, past, t)
      ensures Resuming(h, past, Step(h, w, net, t))
    {
      ResumingStep(h, w, net, past, t);
    }
    IterateKeeps((t: Attempt) => Step(h, w, net, t), s, n, (t: Attempt) => Resuming(h, past, t));
  }

  function Resumed(h: Handler, w: World, net: Net, past: History, n: nat): Attempt {
    Run(h, w, net, Start(Some(LogOf(h, past)), true), n)
  }

  lemma {:induction false} StartResumes(h: Handler, past: History)
    requires Replayable(h, past)
    ensures Resuming(h, past, Start(Some(LogOf(h, past)), true))
  {
    LogOfDone(h, past);
  }

  /** One performed what the other did, as far as both got. */
  ghost predicate Comparable(a: seq<Act>, b: seq<Act>) {
    a <= b || b <= a
  }

  /** A resumed attempt does the logged operations with the logged results; none is carried out again, and
      every later log extends the loaded one. */
  lemma {:induction false} LoggedNeverReexecuted(h: Handler, w: World, net: Net, past: History, n: nat)
    requires Blind(h) && Replayable(h, past)
    ensures var log, s := LogOf(h, past), Resumed(h, w, net, past, n);
            && log <= s.ctx.entries
            && StoreExtends(log, s.store)
            && (forall d <- s.draws :: d < |s.history| && log <= LogOf(h, s.history[..d]))
            && (Replaying(s.ctx) <==> |Acts(h, s.history)| < |Acts(h, past)|)
            && Comparable(Acts(h, s.history), Acts(h, past))
  {
    var s := Resumed(h, w, net, past, n);
    StartResumes(h, past);
    ResumingRun(h, w, net, past, Start(Some(LogOf(h, past)), true), n);
    LogOfDone(h, past);
    if CaughtUp(h, past, s) {
      LogExtends(Acts(h, past), Acts(h, s.history));
      forall d <- s.draws
        ensures d < |s.history| && LogOf(h, past) <= LogOf(h, s.history[..d])
      {
        assert Beyond(h, past, s.history, d);
        LogExtends(Acts(h, past), Acts(h, s.history[..d]));
      }
    }
  }

  lemma {:induction false} ResultsPrefix(acts: seq<Act>, k: nat)
    requires k <= |acts|
    ensures Results(acts[..k]) <= Results(acts)
    ensures k < |acts| ==> Results(acts)[k] == acts[k].result
  {
  }

  lemma {:induction false} ResultAt(h: Handler, past: History, i: nat)
    requires i < |past| && Recordable(h(past[..i]))
    ensures |Acts(h, past[..i])| < |Acts(h, past)|
    ensures Results(Acts(h, past))[|Acts(h, past[..i])|] == past[i]
  {
    assert past[..i + 1] == past[..i] + [past[i]];
    ActsNext(h, past[..i], past[i]);
    ActsPrefix(h, past, i + 1);
    ResultsPrefix(Acts(h, past), |Acts(h, past[..i])|);
  }

  // ---- Any handler, any log ----

  /** `r` is what the world answers. */
  ghost predicate Answered(w: World, op: Op, results: History, r: Outcome) {
    match op
    case Now => r == Done(Json(w.clock(results)))
    case RandomHex(bytes) => r == Done(Json(w.entropy(results, bytes)))
    case SideEffect(key) => r == w.effect(results, key)
    case _ => false
  }

  ghost predicate IsLogged(op: Op, e: Entry) {
    match op
    case Now => e.kind == Time
    case RandomHex(_) => e.kind == Kind.Random
    case SideEffect(key) => e.kind == Call && (key == "" || e.key == Some(key))
    case _ => false
  }

  /** Of the recordable operations of an attempt, the first `hits` got the entries of the log, in order, and all
      others asked the world. */
  ghost predicate HitOrDrawn(h: Handler, w: World, log: Log, hits: nat, s: Attempt, i: nat)
    requires i < |s.history|
  {
    var past, k := s.history[..i], |Acts(h, s.history[..i])|;
    if k < hits then k < |log| && IsLogged(h(past), log[k]) && s.history[i] == Done(log[k].result) && i !in s.draws
    else Answered(w, h(past), Results(Acts(h, past)), s.history[i]) && i in s.draws
  }

  ghost predicate HitsThenDraws(h: Handler, w: World, log: Log, s: Attempt) {
    && s.ctx.cursor <= |Acts(h, s.history)| && s.ctx.cursor <= |log| && log <= s.ctx.entries
    && (s.draws != [] ==> !s.ctx.replaying)
    && (s.ctx.replaying ==> s.ctx.cursor == |Acts(h, s.history)| && s.ctx.entries == log)
    && (forall d <- s.draws :: d < |s.history| && Recordable(h(s.history[..d])))
    && (forall i | 0 <= i < |s.history| && Recordable(h(s.history[..i])) :: HitOrDrawn(h, w, log, s.ctx.cursor, s, i))
  }

  lemma {:induction false} StillHitOrDrawn(
    h: Handler, w: World, log: Log, s: Attempt, t: Attempt, r: Outcome, i: nat)
    requires HitsThenDraws(h, w, log, s) && i < |s.history| && Recordable(h(s.history[..i]))
    requires t.history == s.history + [r] && s.draws <= t.draws && (forall d <- t.draws :: d in s.draws || d > i)
    requires s.ctx.cursor <= t.ctx.cursor && (t.ctx.cursor > s.ctx.cursor ==> s.ctx.replaying)
    ensures HitOrDrawn(h, w, log, t.ctx.cursor, t, i)
  {
    assert t.history[..i] == s.history[..i] && t.history[i] == s.history[i];
    ResultAt(h, s.history, i);
    assert HitOrDrawn(h, w, log, s.ctx.cursor, s, i);
  }

  lemma {:induction false} NextHitOrDrawn(h: Handler, w: World, net: Net, log: Log, s: Attempt)
    requires HitsThenDraws(h, w, log, s) && Recordable(h(s.history))
    ensures var t := Step(h, w, net, s);
            && |t.history| == |s.history| + 1 && t.history[..|s.history|] == s.history
            && HitOrDrawn(h, w, log, t.ctx.cursor, t, |s.history|)
            && s.ctx.cursor <= t.ctx.cursor <= |Acts(h, s.history)| + 1 && t.ctx.cursor <= |log|
            && (t.ctx.cursor > s.ctx.cursor ==> s.ctx.replaying)
            && (t.draws == s.draws || (t.draws == s.draws + [|s.history|] && !t.ctx.replaying))
            && (t.ctx.replaying ==> t.ctx.cursor == |Acts(h, s.history)| + 1 && t.ctx.entries == log && s.draws == [])
            && log <= t.ctx.entries
  {
  }

  lemma {:induction false} HitsThenDrawsStep(h: Handler, w: World, net: Net, log: Log, s: Attempt)
    requires HitsThenDraws(h, w, log, s)
    ensures HitsThenDraws(h, w, log, Step(h, w, net, s))
  {
    var t := Step(h, w, net, s);
    if !h(s.history).Finish? {
      var r := Last(t.history);
      assert t.history == s.history + [r];
      ActsNext(h, s.history, r);
      if Recordable(h(s.history)) {
        NextHitOrDrawn(h, w, net, log, s);
      }
      forall d <- t.draws
        ensures d < |t.history| && Recordable(h(t.history[..d]))
      {
        assert t.history[..d] == if d in s.draws then s.history[..d] else s.history;
      }
      forall i | 0 <= i < |t.history| && Recordable(h(t.history[..i]))
        ensures HitOrDrawn(h, w, log, t.ctx.cursor, t, i)
      {
        if i < |s.history| {
          assert t.history[..i] == s.history[..i];
          StillHitOrDrawn(h, w, log, s, t, r, i);
        } else {
          assert t.history[..i] == s.history;
        }
      }
    }
  }

  lemma {:induction false} HitsThenDrawsRun(h: Handler, w: World, net: Net, log: Log, s: Attempt, n: nat)
    requires HitsThenDraws(h, w, log, s)
    ensures HitsThenDraws(h, w, log, Run(h, w, net, s, n))
  {
    forall t | HitsThenDraws(h, w, log, t)
      ensures HitsThenDraws(h, w, log, Step(h, w, net, t))
    {
      HitsThenDrawsStep(h, w, net, log, t);
    }
    IterateKeeps((t: Attempt) => Step(h, w, net, t), s, n, (t: Attempt) => HitsThenDraws(h, w, log, t));
  }

  lemma {:induction false} DrawnAfterDraw(h: Handler, w: World, log: Log, s: Attempt, d: nat, i: nat)
    requires HitsThenDraws(h, w, log, s) && d in s.draws && d <= i < |s.history| && Recordable(h(s.history[..i]))
    ensures i in s.draws && Answered(w, h(s.history[..i]), Results(Acts(h, s.history[..i])), s.history[i])
  {
    assert HitOrDrawn(h, w, log, s.ctx.cursor, s, d) && HitOrDrawn(h, w, log, s.ctx.cursor, s, i);
    assert s.history[..i][..d] == s.history[..d];
    ActsPrefix(h, s.history[..i], d);
  }

  function Loaded(store: Option<Log>, reachable: bool): Log {
    if reachable && store.Some? then store.value else []
  }

  /** Every attempt, of any handler on any loaded log, first gets entries of the log, in order, and after the
      first operation that matches no entry asks the world for everything: nothing is replayed any more. */
  lemma {:induction false} HitsComeFirst(h: Handler, w: World, net: Net, store: Option<Log>, reachable: bool, n: nat)
    ensures var s := Run(h, w, net, Start(store, reachable), n);
            && HitsThenDraws(h, w, Loaded(store, reachable), s)
            && (s.draws != [] ==> !s.ctx.replaying)
            && forall d, i | d in s.draws && d <= i < |s.history| && Recordable(h(s.history[..i])) ::
                 i in s.draws && Answered(w, h(s.history[..i]), Results(Acts(h, s.history[..i])), s.history[i])
  {
    var s := Run(h, w, net, Start(store, reachable), n);
    HitsThenDrawsRun(h, w, net, Loaded(store, reachable), Start(store, reachable), n);
    forall d, i | d in s.draws && d <= i < |s.history| && Recordable(h(s.history[..i]))
      ensures i in s.draws && Answered(w, h(s.history[..i]), Results(Acts(h, s.history[..i])), s.history[i])
    {
      DrawnAfterDraw(h, w, Loaded(store, reachable), s, d, i);
    }
  }

  // ---- Exactly the blind handlers ----

  /** A server that lets requests go as they went in `q`. */
  function Following(q: History): Net {
    (past: History) => if |past| < |q| && q[|past|].Threw? then Lost(q[|past|].error) else Applied
  }

  const NOWHERE := World(past => "", (past, bytes) => "", (past, key) => Threw("down"))

  /** Replay of the log of `past` along `q`, which has performed the first operations of `past`. */
  lemma {:induction false} ReplaysAlong(h: Handler, past: History, q: History, k: nat)
    requires Replayable(h, past) && Genuine(h, q) && Acts(h, q) < Acts(h, past) && k <= |q|
    ensures var s := Resumed(h, NOWHERE, Following(q), past, k); s.history == q[..k] && InReplay(h, past, s)
  {
    ActsPrefix(h, q, k);
    if k == 0 {
      LogOfDone(h, past);
    } else {
      ReplaysAlong(h, past, q, k - 1);
      ReplaysStep(h, past, q, k - 1, Resumed(h, NOWHERE, Following(q), past, k - 1));
    }
  }

  lemma {:induction false} ReplaysStep(h: Handler, past: History, q: History, k: nat, s: Attempt)
    requires Replayable(h, past) && Genuine(h, q) && Acts(h, q) < Acts(h, past) && k < |q|
    requires s.history == q[..k] && InReplay(h, past, s)
    ensures var t := Step(h, NOWHERE, Following(q), s); t.history == q[..k + 1] && InReplay(h, past, t)
  {
    assert q[..k + 1] == q[..k] + [q[k]];
    ActsNext(h, q[..k], q[k]);
    ActsPrefix(h, q, k + 1);
    if Recordable(h(q[..k])) {
      assert Acts(h, past)[|Acts(h, q[..k])|] == Act(h(q[..k]), q[k]);
      SameOperationHits(h, NOWHERE, Following(q), past, s);
    }
  }

  /** Two histories with the same recorded results but different operations part somewhere. */
  lemma {:induction false} PartingPoint(h: Handler, p: History, q: History) returns (p': History, q': History)
    requires Replayable(h, p) && Replayable(h, q)
    requires Results(Acts(h, p)) == Results(Acts(h, q)) && Acts(h, p) != Acts(h, q)
    ensures Replayable(h, p') && Replayable(h, q') && Acts(h, p') == Acts(h, q')
    ensures Recordable(h(p')) && Recordable(h(q')) && h(p') != h(q')
    decreases |p| + |q|
  {
    ReplayableFront(h, p);
    ReplayableFront(h, q);
    if !Recordable(h(Front(p))) {
      p', q' := PartingPoint(h, Front(p), q);
    } else if !Recordable(h(Front(q))) {
      p', q' := PartingPoint(h, p, Front(q));
    } else {
      assert Front(Acts(h, p)) == Acts(h, Front(p)) && Front(Acts(h, q)) == Acts(h, Front(q));
      SameResults(Acts(h, p), Acts(h, q));
      if Acts(h, Front(p)) == Acts(h, Front(q)) {
        p', q' := Front(p), Front(q);
      } else {
        p', q' := PartingPoint(h, Front(p), Front(q));
      }
    }
  }

  lemma {:induction false} SameResults(a: seq<Act>, b: seq<Act>)
    requires Results(a) == Results(b) && a != [] && b != []
    ensures Results(Front(a)) == Results(Front(b)) && Last(a).result == Last(b).result
  {
    assert Results(Front(a)) == Front(Results(a)) && Results(Front(b)) == Front(Results(b));
    assert Last(Results(a)) == Last(a).result && Last(Results(b)) == Last(b).result;
  }

  lemma {:induction false} ReplayableFront(h: Handler, past: History)
    requires Replayable(h, past) && past != []
    ensures Replayable(h, Front(past)) && Acts(h, Front(past)) <= Acts(h, past)
  {
    GenuinePrefix(h, past, |past| - 1);
  }

  /** After parting, the resumed attempt does another operation than the logged one. */
  lemma {:induction false} PartingShows(h: Handler, p: History, q: History)
    requires Replayable(h, p) && Replayable(h, q) && Acts(h, p) == Acts(h, q)
    requires Recordable(h(p)) && Recordable(h(q)) && h(p) != h(q)
    ensures exists net, past, n :: Replayable(h, past)
              && !Comparable(Acts(h, Resumed(h, NOWHERE, net, past, n).history), Acts(h, past))
  {
    var r := Done(VOID);
    var past, net := p + [r], Following(q);
    GenuineGrows(h, p, r);
    ActsNext(h, p, r);
    assert Replayable(h, past);
    ReplaysAlong(h, past, q, |q|);
    assert q[..|q|] == q;
    var s, t := Resumed(h, NOWHERE, net, past, |q|), Resumed(h, NOWHERE, net, past, |q| + 1);
    assert t == Step(h, NOWHERE, net, s) && t.history == q + [Last(t.history)];
    ActsNext(h, q, Last(t.history));
    assert Acts(h, t.history)[|Acts(h, q)|].op == h(q) != h(p) == Acts(h, past)[|Acts(h, q)|].op;
  }

  /** Replay is right for a handler, in every world, for every server and every log, exactly when it is
      blind. */
  lemma {:induction false} ReplayIsRightIffBlind(h: Handler)
    ensures Blind(h) <==>
              forall w: World, net: Net, past: History, n: nat | Replayable(h, past) ::
                Comparable(Acts(h, Resumed(h, w, net, past, n).history), Acts(h, past))
  {
    if Blind(h) {
      forall w: World, net: Net, past: History, n: nat | Replayable(h, past)
        ensures Comparable(Acts(h, Resumed(h, w, net, past, n).history), Acts(h, past))
      {
        LoggedNeverReexecuted(h, w, net, past, n);
      }
    } else {
      var p, q :| Replayable(h, p) && Replayable(h, q) && Results(Acts(h, p)) == Results(Acts(h, q))
        && Recordable(h(p)) && Recordable(h(q)) && h(p) != h(q);
      if Acts(h, p) != Acts(h, q) {
        p, q := PartingPoint(h, p, q);
      }
      PartingShows(h, p, q);
    }
  }

  // ---- Which handlers are blind ----

  /** `past` as if every request had succeeded. */
  function Seen(h: Handler, past: History): (seen: History)
    ensures |seen| == |past|
  {
    if past == [] then [] else
      Seen(h, Front(past)) + [if Recordable(h(Front(past))) then Last(past) else Done(VOID)]
  }

  /** How a request went decides at most whether the handler ends. */
  ghost predicate Tolerant(h: Handler) {
    forall past :: Genuine(h, past) && !h(past).Finish? ==> h(past) == h(Seen(h, past))
  }

  /** A handler that lets the failure of a request end the attempt. */
  ghost predicate StopsOnFailedRequest(h: Handler) {
    forall past: History, i | 0 <= i < |past| && past[i].Threw? && !Recordable(h(past[..i])) :: h(past).Finish?
  }

  lemma {:induction false} StoppingIsTolerant(h: Handler)
    requires StopsOnFailedRequest(h)
    ensures Tolerant(h)
  {
    forall past | Genuine(h, past) && !h(past).Finish?
      ensures h(past) == h(Seen(h, past))
    {
      NothingFailed(h, past);
    }
  }

  lemma {:induction false} NothingFailed(h: Handler, past: History)
    requires Genuine(h, past)
    requires forall i | 0 <= i < |past| && past[i].Threw? :: Recordable(h(past[..i]))
    ensures Seen(h, past) == past
  {
    if past != [] {
      GenuinePrefix(h, past, |past| - 1);
      forall i | 0 <= i < |Front(past)|
        ensures Front(past)[..i] == past[..i]
      {
      }
      NothingFailed(h, Front(past));
    }
  }

  lemma {:induction false} SameNext(h: Handler, p: History, q: History, k: nat)
    requires Tolerant(h) && Genuine(h, p) && Genuine(h, q) && k < |p| && k < |q|
    requires Seen(h, p[..k]) == Seen(h, q[..k])
    ensures h(p[..k]) == h(q[..k])
  {
    GenuinePrefix(h, p, k);
    GenuinePrefix(h, q, k);
  }

  lemma {:induction false} SameSeen(h: Handler, p: History, q: History, k: nat)
    requires Tolerant(h) && Genuine(h, p) && Genuine(h, q) && Results(Acts(h, p)) == Results(Acts(h, q))
    requires k <= |p| && k <= |q|
    ensures Seen(h, p[..k]) == Seen(h, q[..k]) && |Acts(h, p[..k])| == |Acts(h, q[..k])|
  {
    if k > 0 {
      SameSeen(h, p, q, k - 1);
      SameNext(h, p, q, k - 1);
      SameSeenNext(h, p, q, k - 1);
    }
  }

  lemma {:induction false} SameSeenNext(h: Handler, p: History, q: History, k: nat)
    requires Results(Acts(h, p)) == Results(Acts(h, q)) && k < |p| && k < |q|
    requires Seen(h, p[..k]) == Seen(h, q[..k]) && |Acts(h, p[..k])| == |Acts(h, q[..k])|
    requires h(p[..k]) == h(q[..k])
    ensures Seen(h, p[..k + 1]) == Seen(h, q[..k + 1]) && |Acts(h, p[..k + 1])| == |Acts(h, q[..k + 1])|
  {
    if Recordable(h(p[..k])) {
      ResultAt(h, p, k);
      ResultAt(h, q, k);
    }
    SeenNext(h, p[..k], p[k], q[..k], q[k]);
    assert p[..k + 1] == p[..k] + [p[k]] && q[..k + 1] == q[..k] + [q[k]];
  }

  lemma {:induction false} SeenNext(h: Handler, a: History, x: Outcome, b: History, y: Outcome)
    requires Seen(h, a) == Seen(h, b) && |Acts(h, a)| == |Acts(h, b)|
    requires h(a) == h(b) && (Recordable(h(a)) ==> x == y)
    ensures Seen(h, a + [x]) == Seen(h, b + [y]) && |Acts(h, a + [x])| == |Acts(h, b + [y])|
  {
    assert Front(a + [x]) == a && Front(b + [y]) == b;
  }

  lemma {:induction false} SameLength(h: Handler, p: History, q: History)
    requires Tolerant(h) && Genuine(h, p) && Genuine(h, q) && Results(Acts(h, p)) == Results(Acts(h, q))
    requires Recordable(h(p)) && |p| <= |q|
    ensures |p| == |q| && Seen(h, p) == Seen(h, q)
  {
    var n := |p|;
    SameSeen(h, p, q, n);
    assert p[..n] == p;
    assert |Acts(h, q)| == |Acts(h, p)|;
    GenuinePrefix(h, q, n);
    if n < |q| {
      ResultAt(h, q, n);
      assert false;
    }
    assert q[..n] == q;
  }

  lemma {:induction false} TolerantIsBlind(h: Handler)
    requires Tolerant(h)
    ensures Blind(h)
  {
    forall p, q | Replayable(h, p) && Replayable(h, q) && Results(Acts(h, p)) == Results(Acts(h, q))
      && Recordable(h(p)) && Recordable(h(q))
      ensures h(p) == h(q)
    {
      if |p| <= |q| {
        SameLength(h, p, q);
      } else {
        SameLength(h, q, p);
      }
    }
  }

  /** A handler that records one operation first and another one after it, whatever it requests. */
  lemma {:induction false} FirstThenIsBlind(h: Handler, first: Op, second: Op)
    requires Recordable(first) && h([]) == first
    requires forall past :: past != [] && Recordable(h(past)) ==> h(past) == second
    ensures Blind(h)
  {
    forall p, q | Replayable(h, p) && Replayable(h, q) && Results(Acts(h, p)) == Results(Acts(h, q))
      && Recordable(h(p)) && Recordable(h(q))
      ensures h(p) == h(q)
    {
      assert |Acts(h, p)| == |Acts(h, q)|;
      FirstIsRecorded(h, p);
      FirstIsRecorded(h, q);
    }
  }

  lemma {:induction false} FirstIsRecorded(h: Handler, past: History)
    requires Recordable(h([]))
    ensures past == [] <==> Acts(h, past) == []
  {
    if past != [] {
      assert past[..0] == [];
      ResultAt(h, past, 0);
    }
  }

  /** Retries a failed checkpoint once, and calls complete() only after a checkpoint that succeeded. */
  const PERSISTENT: Handler := (past: History) =>
    if past == [] then SideEffect("fetch")
    else if past[0].Threw? then Finish(past[0])
    else if |past| == 1 || (|past| == 2 && past[1].Threw?) then Checkpoint(1, VOID)
    else
      var tries := if past[1].Threw? then 2 else 1;
      if |past| == 1 + tries then SideEffect("store")
      else if |past| == 2 + tries && Last(past).Done? && past[tries].Done? then Complete
      else Finish(Last(past))

  /** Goes on after a failed checkpoint as if it had succeeded. */
  const BEST_EFFORT: Handler := (past: History) =>
    if past == [] then SideEffect("fetch")
    else if past[0].Threw? then Finish(past[0])
    else if |past| == 1 then Checkpoint(1, VOID)
    else if |past| == 2 then SideEffect("store")
    else if |past| == 3 && past[2].Done? then Complete
    else Finish(Done(VOID))

  /** It is covered, although it is not even tolerant. */
  lemma {:induction false} RetryingRequestsQualifies()
    ensures Blind(PERSISTENT) && CheckpointsReplayable(PERSISTENT) && !Tolerant(PERSISTENT)
  {
    FirstThenIsBlind(PERSISTENT, SideEffect("fetch"), SideEffect("store"));
    PersistentIsNotTolerant();
    assert StopsOnThrow(PERSISTENT) by {
      forall past: History, i | 0 <= i < |past| && past[i].Threw? && Recordable(PERSISTENT(past[..i]))
        ensures PERSISTENT(past).Finish?
      {
        PersistentStops(past, i);
      }
    }
    StoppingIsReplayable(PERSISTENT);
  }

  /** It is covered, and goes on after a failed checkpoint. */
  lemma {:induction false} BestEffortQualifies()
    ensures Blind(BEST_EFFORT) && CheckpointsReplayable(BEST_EFFORT)
    ensures BEST_EFFORT([Done(Json("1")), Threw("503")]) == SideEffect("store")
  {
    FirstThenIsBlind(BEST_EFFORT, SideEffect("fetch"), SideEffect("store"));
    assert StopsOnThrow(BEST_EFFORT) by {
      forall past: History, i | 0 <= i < |past| && past[i].Threw? && Recordable(BEST_EFFORT(past[..i]))
        ensures BEST_EFFORT(past).Finish?
      {
        BestEffortStops(past, i);
      }
    }
    StoppingIsReplayable(BEST_EFFORT);
  }

  lemma {:induction false} PersistentIsNotTolerant()
    ensures !Tolerant(PERSISTENT)
  {
    var past := [Done(VOID), Threw("503")];
    assert past[..0] == [] && past[..1] == [Done(VOID)];
    assert Genuine(PERSISTENT, past);
    assert Front(past) == [Done(VOID)] && Front([Done(VOID)]) == [];
    assert Seen(PERSISTENT, [Done(VOID)]) == [Done(VOID)];
    assert Seen(PERSISTENT, past) == [Done(VOID), Done(VOID)];
    assert PERSISTENT(past).Checkpoint? && PERSISTENT([Done(VOID), Done(VOID)]).SideEffect?;
  }

  lemma {:induction false} PersistentStops(past: History, i: nat)
    requires i < |past| && past[i].Threw? && Recordable(PERSISTENT(past[..i]))
    ensures PERSISTENT(past).Finish?
  {
    if i > 0 {
      assert past[..i][1] == past[1] && past[..i][0] == past[0];
    }
  }

  lemma {:induction false} BestEffortStops(past: History, i: nat)
    requires i < |past| && past[i].Threw? && Recordable(BEST_EFFORT(past[..i]))
    ensures BEST_EFFORT(past).Finish?
  {
    assert i == 0 || i == 2;
  }

  /** Records a report only when the checkpoint failed. */
  const FICKLE: Handler := (past: History) =>
    if past == [] then Checkpoint(0, VOID)
    else if |past| == 1 && past[0].Threw? then SideEffect("report")
    else if |past| == (if past[0].Threw? then 2 else 1) then SideEffect("charge")
    else Finish(Done(VOID))

  const RELIABLE: Net := past => Applied

  const REPORTED: History := [Threw("503"), Done(Json("1")), Done(Json("2"))]

  lemma {:induction false} FickleActs()
    ensures Genuine(FICKLE, REPORTED)
    ensures Acts(FICKLE, REPORTED) == [Act(SideEffect("report"), REPORTED[1]), Act(SideEffect("charge"), REPORTED[2])]
  {
    var past := REPORTED;
    var p1, p2 := [past[0]], [past[0], past[1]];
    assert past[..0] == [] && past[..1] == p1 && past[..2] == p2;
    assert past == p2 + [past[2]] && p2 == p1 + [past[1]] && p1 == [] + [past[0]];
    ActsNext(FICKLE, [], past[0]);
    ActsNext(FICKLE, p1, past[1]);
    ActsNext(FICKLE, p2, past[2]);
  }

  lemma {:induction false} FickleCheckpoints(w: World)
    ensures var s := Resumed(FICKLE, w, RELIABLE, REPORTED, 1);
            s.history == [Done(VOID)] && s.ctx == Context(LogOf(FICKLE, REPORTED), 0, true) && s.draws == []
  {
    FickleActs();
    LogOfDone(FICKLE, REPORTED);
    assert Resumed(FICKLE, w, RELIABLE, REPORTED, 0) == Start(Some(LogOf(FICKLE, REPORTED)), true);
  }

  /** Resumed when the checkpoint succeeds, it carries out the logged charge again. */
  lemma {:induction false} FickleChargesTwice(w: World)
    ensures Replayable(FICKLE, REPORTED)
    ensures exists e <- LogOf(FICKLE, REPORTED) :: e.kind == Call && e.key == Some("charge")
    ensures var s := Resumed(FICKLE, w, RELIABLE, REPORTED, 2);
            s.draws == [1] && [Done(VOID)] < s.history && FICKLE([Done(VOID)]) == SideEffect("charge")
  {
    var s1, s2 := Resumed(FICKLE, w, RELIABLE, REPORTED, 1), Resumed(FICKLE, w, RELIABLE, REPORTED, 2);
    FickleActs();
    LogOfDone(FICKLE, REPORTED);
    FickleCheckpoints(w);
    assert LogOf(FICKLE, REPORTED)[1] == EntryOf(1, Act(SideEffect("charge"), REPORTED[2]));
    assert s2 == Step(FICKLE, w, RELIABLE, s1) && !Hit(s1.ctx, SideEffect("charge"));
  }

  lemma {:induction false} FickleIsNotBlind()
    ensures !Blind(FICKLE)
  {
    var p, q := [Threw("503")], [Done(VOID)];
    assert p[..0] == [] && q[..0] == [] && Front(p) == [] && Front(q) == [];
    assert Acts(FICKLE, p) == Acts(FICKLE, q) == [];
    assert Replayable(FICKLE, p) && Replayable(FICKLE, q);
    assert FICKLE(p) == SideEffect("report") && FICKLE(q) == SideEffect("charge");
  }

  // ---- A resumed attempt equals an uninterrupted one ----

  ghost predicate Drawn(worlds: seq<World>, acts: seq<Act>, a: Act) {
    Recordable(a.op) && exists w <- worlds :: a.result == Draw(w, a.op, Results(acts))
  }

  /** Every result was drawn from one of `worlds`, at the same point of the handler. */
  ghost predicate DrawnFrom(worlds: seq<World>, acts: seq<Act>) {
    acts == [] || (DrawnFrom(worlds, Front(acts)) && Drawn(worlds, Front(acts), Last(acts)))
  }

  lemma {:induction false} DrawnPrefix(worlds: seq<World>, acts: seq<Act>, k: nat)
    requires DrawnFrom(worlds, acts) && k <= |acts|
    ensures DrawnFrom(worlds, acts[..k])
    ensures k < |acts| ==> Drawn(worlds, acts[..k], acts[k])
  {
    if k == |acts| {
      assert acts[..k] == acts;
    } else if k == |acts| - 1 {
      assert acts[..k] == Front(acts);
    } else {
      DrawnPrefix(worlds, Front(acts), k);
      assert Front(acts)[..k] == acts[..k];
    }
  }

  /** `w` answers like `v` from `acts` on. */
  ghost predicate AgreeAfter(acts: seq<Act>, v: World, w: World) {
    forall later: History, op | Results(acts) <= later && Recordable(op) :: Draw(v, op, later) == Draw(w, op, later)
  }

  ghost predicate InStep(h: Handler, past: History, r: Attempt, u: Attempt) {
    Resuming(h, past, r) && CaughtUp(h, [], u) && r.history == u.history
  }

  lemma {:induction false} SameNextResult(
    h: Handler, v: World, w: World, net: Net, past: History, r: Attempt, u: Attempt)
    requires Blind(h) && Replayable(h, past)
    requires DrawnFrom([v], Acts(h, past)) && AgreeAfter(Acts(h, past), v, w)
    requires InStep(h, past, r, u)
    ensures Step(h, w, net, r).history == Step(h, v, net, u).history
  {
    var op, acts := h(r.history), Acts(h, r.history);
    if Recordable(op) {
      assert Step(h, v, net, u).history == r.history + [Draw(v, op, Results(acts))];
      if CaughtUp(h, past, r) {
        assert acts[..|Acts(h, past)|] == Acts(h, past);
        ResultsPrefix(acts, |Acts(h, past)|);
        assert Step(h, w, net, r).history == r.history + [Draw(w, op, Results(acts))];
      } else {
        ReplayHit(h, w, net, past, r);
        assert Acts(h, past)[..|acts|] == acts;
        DrawnPrefix([v], Acts(h, past), |acts|);
      }
    }
  }

  lemma {:induction false} StayInStep(
    h: Handler, v: World, w: World, net: Net, past: History, r: Attempt, u: Attempt)
    requires Blind(h) && Replayable(h, past)
    requires DrawnFrom([v], Acts(h, past)) && AgreeAfter(Acts(h, past), v, w)
    requires InStep(h, past, r, u)
    ensures InStep(h, past, Step(h, w, net, r), Step(h, v, net, u))
  {
    SameNextResult(h, v, w, net, past, r, u);
    ResumingStep(h, w, net, past, r);
    CaughtUpStep(h, v, net, [], u);
  }

  lemma {:induction false} SameHistories(
    h: Handler, v: World, w: World, net: Net, past: History, r: Attempt, u: Attempt, n: nat)
    requires Blind(h) && Replayable(h, past)
    requires DrawnFrom([v], Acts(h, past)) && AgreeAfter(Acts(h, past), v, w)
    requires InStep(h, past, r, u)
    ensures InStep(h, past, Run(h, w, net, r, n), Run(h, v, net, u, n))
  {
    forall r', u' | InStep(h, past, r', u')
      ensures InStep(h, past, Step(h, w, net, r'), Step(h, v, net, u'))
    {
      StayInStep(h, v, w, net, past, r', u');
    }
    IteratesKeep((t: Attempt) => Step(h, w, net, t), (t: Attempt) => Step(h, v, net, t), r, u, n,
                 (r': Attempt, u': Attempt) => InStep(h, past, r', u'));
  }

  /** The handler sees what it would have seen in one uninterrupted attempt in the world `v` that
      answered the logged operations and agrees with the present world afterwards; requests that failed
      when the log was written may succeed now, and the other way round. */
  lemma {:induction false} ResumedEqualsUninterrupted(
    h: Handler, v: World, w: World, net: Net, past: History, n: nat)
    requires Blind(h) && Replayable(h, past)
    requires DrawnFrom([v], Acts(h, past)) && AgreeAfter(Acts(h, past), v, w)
    ensures var r, u := Resumed(h, w, net, past, n), Run(h, v, net, Start(None, true), n);
            && r.history == u.history
            && (|Acts(h, past)| <= |Acts(h, r.history)| ==> r.ctx.entries == u.ctx.entries)
  {
    StartResumes(h, past);
    SameHistories(h, v, w, net, past, Start(Some(LogOf(h, past)), true), Start(None, true), n);
  }

  // ---- Any number of attempts ----

  /** A store that some replayable history explains. */
  ghost predicate Explains(h: Handler, worlds: seq<World>, past: History, log: Log) {
    Replayable(h, past) && DrawnFrom(worlds, Acts(h, past)) && log == LogOf(h, past)
  }

  ghost predicate Coherent(h: Handler, worlds: seq<World>, store: Option<Log>) {
    store.Some? ==> exists past :: Explains(h, worlds, past, store.value)
  }

  /** No operation threw before one that was recorded. */
  ghost predicate NoThrowBeforeRecord(acts: seq<Act>) {
    forall i, j | 0 <= i < j < |acts| && acts[j].result.Done? :: acts[i].result.Done?
  }

  /** Whatever the handler checkpoints, no side effect threw before its last recorded result. */
  ghost predicate CheckpointsReplayable(h: Handler) {
    forall past :: Genuine(h, past) && h(past).Checkpoint? ==> NoThrowBeforeRecord(Acts(h, past))
  }

  /** A handler that lets a throwing side effect end the attempt. */
  ghost predicate StopsOnThrow(h: Handler) {
    forall past: History, i | 0 <= i < |past| && past[i].Threw? && Recordable(h(past[..i])) :: h(past).Finish?
  }

  lemma {:induction false} StoppingIsReplayable(h: Handler)
    requires StopsOnThrow(h)
    ensures CheckpointsReplayable(h)
  {
    forall past, k | Genuine(h, past) && h(past).Checkpoint? && 0 <= k < |Acts(h, past)|
      ensures Acts(h, past)[k].result.Done?
    {
      var i := ActAt(h, past, k);
    }
  }

  /** The history cut after its last recorded operation. */
  function Core(h: Handler, past: History): History {
    if past == [] || (Recordable(h(Front(past))) && Last(past).Done?) then past else Core(h, Front(past))
  }

  lemma {:induction false} CorePrefix(h: Handler, past: History)
    ensures Core(h, past) <= past && Acts(h, Core(h, past)) <= Acts(h, past)
    ensures EndsWithRecord(h, Core(h, past)) && LogOf(h, Core(h, past)) == LogOf(h, past)
  {
    if past == [] || (Recordable(h(Front(past))) && Last(past).Done?) {
    } else {
      CorePrefix(h, Front(past));
      LogOfNext(h, Front(past), Last(past));
      assert past == Front(past) + [Last(past)];
    }
  }

  lemma {:induction false} CoreIsDone(h: Handler, past: History)
    requires NoThrowBeforeRecord(Acts(h, past))
    ensures AllDone(Acts(h, Core(h, past)))
  {
    CorePrefix(h, past);
    var core := Core(h, past);
    if core != [] {
      assert Last(Acts(h, core)).result.Done?;
      assert Acts(h, core)[|Acts(h, core)| - 1] == Acts(h, past)[|Acts(h, core)| - 1];
    }
  }

  /** What holds of an attempt that loaded a coherent store, on top of `Resuming`. */
  ghost predicate Sound(h: Handler, worlds: seq<World>, past: History, s: Attempt) {
    && Replayable(h, past) && DrawnFrom(worlds, Acts(h, past)) && Resuming(h, past, s)
    && Survive(Acts(h, s.history)) && DrawnFrom(worlds, Acts(h, s.history))
    && Coherent(h, worlds, s.store)
  }

  lemma {:induction false} CheckpointIsCoherent(h: Handler, worlds: seq<World>, past: History, s: Attempt)
    requires Sound(h, worlds, past, s) && NoThrowBeforeRecord(Acts(h, s.history))
    ensures Coherent(h, worlds, Some(Stringify(s.ctx.entries)))
  {
    if CaughtUp(h, past, s) {
      var core := Core(h, s.history);
      CorePrefix(h, s.history);
      CoreIsDone(h, s.history);
      LogSurvives(Acts(h, s.history));
      GenuinePrefix(h, s.history, |core|);
      assert s.history[..|core|] == core;
      DrawnPrefix(worlds, Acts(h, s.history), |Acts(h, core)|);
      assert Acts(h, s.history)[..|Acts(h, core)|] == Acts(h, core);
      assert Explains(h, worlds, core, Stringify(s.ctx.entries));
    } else {
      LogSurvives(Acts(h, past));
      assert Explains(h, worlds, past, Stringify(s.ctx.entries));
    }
  }

  /** The next recordable result survives JSON and was drawn from the same worlds. */
  lemma {:induction false} NextActIsSound(
    h: Handler, worlds: seq<World>, w: World, net: Net, past: History, s: Attempt)
    requires Blind(h) && Serializable(w) && w in worlds && Sound(h, worlds, past, s) && Recordable(h(s.history))
    ensures var t := Step(h, w, net, s);
            Survive(Acts(h, t.history)) && DrawnFrom(worlds, Acts(h, t.history))
  {
    var t, acts, k := Step(h, w, net, s), Acts(h, s.history), |Acts(h, s.history)|;
    var a := Act(h(s.history), Last(t.history));
    assert t.history == s.history + [Last(t.history)];
    ActsNext(h, s.history, Last(t.history));
    assert Front(acts + [a]) == acts;
    if CaughtUp(h, past, s) {
      assert a.result == Draw(w, a.op, Results(acts));
    } else {
      ReplayHit(h, w, net, past, s);
      assert Acts(h, past)[..k] == acts;
      DrawnPrefix(worlds, Acts(h, past), k);
    }
  }

  lemma {:induction false} StoreStaysCoherentInStep(
    h: Handler, worlds: seq<World>, w: World, net: Net, past: History, s: Attempt)
    requires CheckpointsReplayable(h) && Sound(h, worlds, past, s)
    ensures Coherent(h, worlds, Step(h, w, net, s).store)
  {
    if h(s.history).Checkpoint? {
      CheckpointIsCoherent(h, worlds, past, s);
    }
  }

  lemma {:induction false} SoundStep(
    h: Handler, worlds: seq<World>, w: World, net: Net, past: History, s: Attempt)
    requires Blind(h) && CheckpointsReplayable(h)
    requires Serializable(w) && w in worlds && Sound(h, worlds, past, s)
    ensures Sound(h, worlds, past, Step(h, w, net, s))
  {
    ResumingStep(h, w, net, past, s);
    StoreStaysCoherentInStep(h, worlds, w, net, past, s);
    if Recordable(h(s.history)) {
      NextActIsSound(h, worlds, w, net, past, s);
    } else if !h(s.history).Finish? {
      ActsNext(h, s.history, Last(Step(h, w, net, s).history));
    }
  }

  lemma {:induction false} SoundRun(
    h: Handler, worlds: seq<World>, w: World, net: Net, past: History, s: Attempt, n: nat)
    requires Blind(h) && CheckpointsReplayable(h)
    requires Serializable(w) && w in worlds && Sound(h, worlds, past, s)
    ensures Sound(h, worlds, past, Run(h, w, net, s, n))
  {
    forall t | Sound(h, worlds, past, t)
      ensures Sound(h, worlds, past, Step(h, w, net, t))
    {
      SoundStep(h, worlds, w, net, past, t);
    }
    IterateKeeps((t: Attempt) => Step(h, w, net, t), s, n, (t: Attempt) => Sound(h, worlds, past, t));
  }

  /** One attempt as the environment shapes it; it crashes after `steps` steps. */
  datatype Env = Env(world: World, net: Net, reachable: bool, steps: nat)

  /** The store after a sequence of attempts that begins with none saved. */
  function After(h: Handler, envs: seq<Env>): Option<Log> {
    if envs == [] then None else
      var e := Last(envs);
      Run(h, e.world, e.net, Start(After(h, Front(envs)), e.reachable), e.steps).store
  }

  function Worlds(envs: seq<Env>): seq<World> {
    seq(|envs|, i requires 0 <= i < |envs| => envs[i].world)
  }

  lemma {:induction false} MoreWorlds(few: seq<World>, many: seq<World>, acts: seq<Act>)
    requires few <= many && DrawnFrom(few, acts)
    ensures DrawnFrom(many, acts)
  {
    if acts != [] {
      MoreWorlds(few, many, Front(acts));
      var w :| w in few && Last(acts).result == Draw(w, Last(acts).op, Results(Front(acts)));
      assert w in many;
    }
  }

  lemma {:induction false} StillCoherent(h: Handler, few: seq<World>, many: seq<World>, store: Option<Log>)
    requires few <= many && Coherent(h, few, store)
    ensures Coherent(h, many, store)
  {
    if store.Some? {
      var past :| Explains(h, few, past, store.value);
      MoreWorlds(few, many, Acts(h, past));
      assert Explains(h, many, past, store.value);
    }
  }

  /** Whatever is saved after any attempts is the log of a history drawn from their worlds. */
  lemma {:induction false} StoreStaysCoherent(h: Handler, envs: seq<Env>)
    requires Blind(h) && CheckpointsReplayable(h) && forall e <- envs :: Serializable(e.world)
    ensures Coherent(h, Worlds(envs), After(h, envs))
  {
    if envs != [] {
      var e, store := Last(envs), After(h, Front(envs));
      StoreStaysCoherent(h, Front(envs));
      StillCoherent(h, Worlds(Front(envs)), Worlds(envs), store);
      var past := LoadedPast(h, Worlds(envs), store, e.reachable);
      assert e.world == Worlds(envs)[|envs| - 1];
      SoundRun(h, Worlds(envs), e.world, e.net, past, Start(store, e.reachable), e.steps);
    }
  }

  lemma {:induction false} LoadedPast(h: Handler, worlds: seq<World>, store: Option<Log>, reachable: bool)
    returns (past: History)
    requires Coherent(h, worlds, store)
    ensures Sound(h, worlds, past, Start(store, reachable))
    ensures LogOf(h, past) == if reachable && store.Some? then store.value else []
  {
    past := [];
    if reachable && store.Some? {
      past :| Explains(h, worlds, past, store.value);
    }
    StartResumes(h, past);
  }

  /** Under one fixed world, the last of any number of crashed and resumed attempts sees exactly what a
      single uninterrupted attempt would have seen. */
  lemma {:induction false} CrashesAreInvisible(h: Handler, w: World, envs: seq<Env>, last: Env)
    requires Blind(h) && CheckpointsReplayable(h)
    requires Serializable(w) && last.world == w && forall e <- envs :: e.world == w
    ensures Run(h, w, last.net, Start(After(h, envs), last.reachable), last.steps).history
         == Run(h, w, last.net, Start(None, true), last.steps).history
  {
    var store := After(h, envs);
    StoreStaysCoherent(h, envs);
    var past := LoadedPast(h, Worlds(envs), store, last.reachable);
    var s := Start(store, last.reachable);
    assert s.ctx == Start(Some(LogOf(h, past)), true).ctx;
    StoreIsNotRead(h, w, last.net, s, Start(Some(LogOf(h, past)), true), last.steps);
    OneWorld(Worlds(envs), w, Acts(h, past));
    ResumedEqualsUninterrupted(h, w, w, last.net, past, last.steps);
  }

  lemma {:induction false} OneWorld(worlds: seq<World>, w: World, acts: seq<Act>)
    requires DrawnFrom(worlds, acts) && forall v <- worlds :: v == w
    ensures DrawnFrom([w], acts)
  {
    if acts != [] {
      OneWorld(worlds, w, Front(acts));
      assert w in [w];
    }
  }

  lemma {:induction false} StepDoesNotRead(h: Handler, w: World, net: Net, s: Attempt, t: Attempt)
    requires s.(store := None) == t.(store := None)
    ensures Step(h, w, net, s).(store := None) == Step(h, w, net, t).(store := None)
  {
  }

  lemma {:induction false} StoreIsNotRead(h: Handler, w: World, net: Net, s: Attempt, t: Attempt, n: nat)
    requires s.(store := None) == t.(store := None)
    ensures Run(h, w, net, s, n).(store := None) == Run(h, w, net, t, n).(store := None)
  {
    if n > 0 {
      StoreIsNotRead(h, w, net, s, t, n - 1);
      StepDoesNotRead(h, w, net, Run(h, w, net, s, n - 1), Run(h, w, net, t, n - 1));
    }
  }

  /** When the saved log cannot be loaded, the attempt is a first attempt over again. */
  lemma {:induction false} LoadFailureStartsOver(h: Handler, w: World, net: Net, store: Option<Log>, n: nat)
    ensures Run(h, w, net, Start(store, false), n).(store := None)
         == Run(h, w, net, Start(None, true), n).(store := None)
  {
    StoreIsNotRead(h, w, net, Start(store, false), Start(None, true), n);
  }

  /** In any worlds: an attempt that loads what earlier attempts saved asks the world only for operations
      beyond that log, and saves nothing that does not extend it. */
  lemma {:induction false} CheckpointedNeverReexecuted(h: Handler, envs: seq<Env>, last: Env)
    requires Blind(h) && CheckpointsReplayable(h) && forall e <- envs :: Serializable(e.world)
    requires last.reachable && After(h, envs).Some?
    ensures var log := After(h, envs).value;
            var s := Run(h, last.world, last.net, Start(Some(log), true), last.steps);
            && log <= s.ctx.entries
            && StoreExtends(log, s.store)
            && forall d <- s.draws :: d < |s.history| && log <= LogOf(h, s.history[..d])
  {
    StoreStaysCoherent(h, envs);
    var past := LoadedPast(h, Worlds(envs), After(h, envs), true);
    LoggedNeverReexecuted(h, last.world, last.net, past, last.steps);
  }

  // ---- Handlers that catch ----

  /** Replay position `s.history` of the reloaded log of `past`. */
  ghost predicate AtEntry(h: Handler, past: History, s: Attempt) {
    && s.history <= past && s.draws == []
    && s.ctx == Context(Stringify(LogOf(h, past)), |LogOf(h, s.history)|, s.history != past)
  }

  /** The result after `k` others can be replayed: a recorded value survives JSON, and a request goes as it
      went. */
  predicate CleanAt(h: Handler, net: Net, past: History, k: nat)
    requires k < |past|
  {
    if Recordable(h(past[..k])) then past[k].Done? && past[k].value.Json? else past[k] == Answer(net(past[..k]))
  }

  predicate Clean(h: Handler, net: Net, past: History) {
    forall k | 0 <= k < |past| :: CleanAt(h, net, past, k)
  }

  lemma {:induction false} LogOfPrefix(h: Handler, past: History, k: nat)
    requires k <= |past|
    ensures LogOf(h, past[..k]) <= LogOf(h, past)
    ensures k < |past| && EndsWithRecord(h, past) ==> |LogOf(h, past[..k])| < |LogOf(h, past)|
  {
    ActsPrefix(h, past, k);
    LogExtends(Acts(h, past[..k]), Acts(h, past));
    if k < |past| {
      ActsPrefix(h, Front(past), k);
      assert Front(past)[..k] == past[..k] && past == Front(past) + [Last(past)];
      LogExtends(Acts(h, past[..k]), Acts(h, Front(past)));
      LogOfNext(h, Front(past), Last(past));
    }
  }

  lemma {:induction false} LogAtEntry(h: Handler, past: History, k: nat)
    requires EndsWithRecord(h, past) && k < |past|
    ensures LogOf(h, past[..k]) <= LogOf(h, past[..k + 1]) <= LogOf(h, past)
    ensures |LogOf(h, past[..k])| < |LogOf(h, past)|
    ensures k + 1 < |past| <==> |LogOf(h, past[..k + 1])| < |LogOf(h, past)|
    ensures var op, log := h(past[..k]), LogOf(h, past[..k]);
            LogOf(h, past[..k + 1])
              == if Recordable(op) && past[k].Done? then Recorded(log, op, past[k].value) else log
  {
    assert past[..k + 1] == past[..k] + [past[k]];
    LogOfNext(h, past[..k], past[k]);
    LogOfPrefix(h, past, k);
    LogOfPrefix(h, past, k + 1);
    if k + 1 == |past| {
      assert past[..k + 1] == past;
    }
  }

  lemma {:induction false} FaithfulRecord(h: Handler, w: World, net: Net, past: History, s: Attempt)
    requires EndsWithRecord(h, past) && AtEntry(h, past, s) && s.history != past && Recordable(h(s.history))
    ensures var t, k := Step(h, w, net, s), |s.history|;
            && (t.history == s.history + [past[k]] && t.draws == [] <==> past[k].Done? && past[k].value.Json?)
            && (past[k].Done? ==>
                  t.ctx == s.ctx.(cursor := |LogOf(h, past[..k + 1])|, replaying := k + 1 < |past|))
  {
    var t, k, c := Step(h, w, net, s), |s.history|, s.ctx.cursor;
    assert past[..k] == s.history;
    LogAtEntry(h, past, k);
    if past[k].Done? {
      assert LogOf(h, past)[c] == LogOf(h, past[..k + 1])[c];
      assert s.ctx.entries[c].result == RoundTrip(past[k].value);
      assert t.history[k] == Done(RoundTrip(past[k].value)) && t.draws == [];
    } else {
      assert t.draws == [] ==> t.history[k].Done?;
    }
  }

  lemma {:induction false} FaithfulStep(h: Handler, w: World, net: Net, past: History, s: Attempt)
    requires Genuine(h, past) && EndsWithRecord(h, past)
    requires AtEntry(h, past, s) && s.history != past
    ensures var t, k := Step(h, w, net, s), |s.history|;
            && (t.history == s.history + [past[k]] && t.draws == [] <==> CleanAt(h, net, past, k))
            && (CleanAt(h, net, past, k) ==> AtEntry(h, past, t))
  {
    var k := |s.history|;
    assert past[..k] == s.history && past[..k + 1] == s.history + [past[k]];
    LogAtEntry(h, past, k);
    if Recordable(h(s.history)) {
      FaithfulRecord(h, w, net, past, s);
    }
  }

  ghost predicate Faithful(past: History, s: Attempt) {
    s.history == past && s.draws == []
  }

  lemma {:induction false} UnfaithfulStays(h: Handler, w: World, net: Net, past: History, s: Attempt)
    requires past != [] && |s.history| < |past| && !Faithful(Front(past), s)
    ensures !Faithful(past, Step(h, w, net, s))
  {
    var t := Step(h, w, net, s);
    assert t.history == s.history || Front(t.history) == s.history;
    assert s.draws <= t.draws;
  }

  lemma {:induction false} CleanPrefix(h: Handler, net: Net, past: History, k: nat)
    requires k <= |past|
    ensures Clean(h, net, past[..k]) <==> forall i | 0 <= i < k :: CleanAt(h, net, past, i)
  {
    forall i | 0 <= i < k
      ensures CleanAt(h, net, past[..k], i) <==> CleanAt(h, net, past, i)
    {
      assert past[..k][..i] == past[..i];
    }
  }

  lemma {:induction false} CleanNext(h: Handler, net: Net, past: History, k: nat)
    requires k < |past|
    ensures Clean(h, net, past[..k + 1]) <==> Clean(h, net, past[..k]) && CleanAt(h, net, past, k)
  {
    CleanPrefix(h, net, past, k);
    CleanPrefix(h, net, past, k + 1);
  }

  ghost predicate TracksUpTo(h: Handler, net: Net, past: History, s: Attempt, k: nat)
    requires k <= |past|
  {
    && |s.history| <= k
    && (Faithful(past[..k], s) <==> Clean(h, net, past[..k]))
    && (Faithful(past[..k], s) ==> AtEntry(h, past, s))
  }

  lemma {:induction false} TracksNext(h: Handler, w: World, net: Net, past: History, s: Attempt, k: nat)
    requires Genuine(h, past) && EndsWithRecord(h, past) && k < |past| && TracksUpTo(h, net, past, s, k)
    ensures TracksUpTo(h, net, past, Step(h, w, net, s), k + 1)
  {
    CleanNext(h, net, past, k);
    assert past[..k + 1] == past[..k] + [past[k]] && Front(past[..k + 1]) == past[..k];
    if Faithful(past[..k], s) {
      FaithfulStep(h, w, net, past, s);
    } else {
      UnfaithfulStays(h, w, net, past[..k + 1], s);
    }
  }

  lemma {:induction false} TracksRun(h: Handler, w: World, net: Net, past: History, s: Attempt, k: nat)
    requires Genuine(h, past) && EndsWithRecord(h, past) && k <= |past| && TracksUpTo(h, net, past, s, 0)
    ensures TracksUpTo(h, net, past, Run(h, w, net, s, k), k)
  {
    if k > 0 {
      TracksRun(h, w, net, past, s, k - 1);
      var t := Run(h, w, net, s, k - 1);
      TracksNext(h, w, net, past, t, k - 1);
      assert Run(h, w, net, s, k) == Step(h, w, net, t);
    }
  }

  /** For any handler and any checkpoint server, the log of a history replays that history without asking
      the world exactly when no recordable operation before its last recorded result threw, every recorded
      value survives JSON, and every request goes as it went. */
  lemma {:induction false} ReplayIsFaithfulIff(h: Handler, w: World, net: Net, past: History)
    requires Genuine(h, past) && EndsWithRecord(h, past)
    ensures var s := Run(h, w, net, Start(Some(Stringify(LogOf(h, past))), true), |past|);
            Faithful(past, s) <==> Clean(h, net, past)
  {
    LogOfPrefix(h, past, 0);
    TracksRun(h, w, net, past, Start(Some(Stringify(LogOf(h, past))), true), |past|);
    assert past[..|past|] == past;
  }

  /** A handler that calls a side effect, retries it once if it threw, and then checkpoints. */
  const RETRYING: Handler := (past: History) =>
    if past == [] || (|past| == 1 && past[0].Threw?) then SideEffect("charge")
    else Checkpoint(1, VOID)

  /** Its second attempt is handed the retry's result as the first call's. */
  lemma CaughtThrowIsNotReplayed(w: World, net: Net)
    ensures var past := [Threw("timeout"), Done(Json("1"))];
            Genuine(RETRYING, past) && EndsWithRecord(RETRYING, past)
            && !Faithful(past, Run(RETRYING, w, net, Start(Some(Stringify(LogOf(RETRYING, past))), true), 2))
  {
    var past := [Threw("timeout"), Done(Json("1"))];
    assert past[..0] == [] && past[..1] == [past[0]];
    ReplayIsFaithfulIff(RETRYING, w, net, past);
    assert !CleanAt(RETRYING, net, past, 0);
  }
}

/**
 Workflow definitions and their wire format (src/workflow.ts).
 */
module Workflow {
  import opened Prelude

  /** A JSON value that is not an array, as text. */
  type Json = string

  datatype Args = Absent | One(value: Json) | Many(values: seq<Json>)

  /** `others` stands for the enqueue options the wire format of a step does not carry. */
  datatype Options = Options(
    queue: Option<string>, retry: Option<Json>, timeout: Option<real>, tags: Option<seq<string>>,
    others: map<string, Json>)

  datatype Job = Job(kind: string, args: Args, options: Option<Options>)

  datatype Callbacks = Callbacks(onComplete: Option<Job>, onSuccess: Option<Job>, onFailure: Option<Job>)

  datatype Step =
    | Single(job: Job)
    | Chain(name: Option<string>, steps: seq<Step>)
    | Group(name: Option<string>, jobs: seq<Step>)
    | Batch(name: Option<string>, jobs: seq<Step>, callbacks: Callbacks)

  datatype Wire =
    | Text(text: string)
    | Raw(json: Json)
    | Number(n: real)
    | List(items: seq<Wire>)
    | Record(fields: map<string, Wire>)

  // ---- To the wire ----

  function NormalizeStepArgs(args: Args): seq<Json> {
    match args
    case Absent => []
    case One(value) => [value]
    case Many(values) => values
  }

  function RawList(values: seq<Json>): Wire {
    List(seq(|values|, i requires 0 <= i < |values| => Raw(values[i])))
  }

  function TextList(values: seq<string>): Wire {
    List(seq(|values|, i requires 0 <= i < |values| => Text(values[i])))
  }

  function Put(fields: map<string, Wire>, key: string, value: Option<Wire>): map<string, Wire> {
    if value.Some? then fields[key := value.value] else fields
  }

  function Truthy(s: Option<string>): Option<Wire> {
    if s.Some? && s.value != "" then Some(Text(s.value)) else None
  }

  function WireOptions(o: Options): map<string, Wire> {
    var queue := Truthy(o.queue);
    var retry := if o.retry.Some? then Some(Raw(o.retry.value)) else None;
    var timeout := if o.timeout.Some? && o.timeout.value != 0.0 then Some(Number(o.timeout.value)) else None;
    var tags := if o.tags.Some? then Some(TextList(o.tags.value)) else None;
    Put(Put(Put(Put(map[], "queue", queue), "retry", retry), "timeout_ms", timeout), "tags", tags)
  }

  function WireJob(job: Job): Wire {
    var fields := map["type" := Text(job.kind), "args" := RawList(NormalizeStepArgs(job.args))];
    var opts := if job.options.Some? then WireOptions(job.options.value) else map[];
    Record(Put(fields, "options", if |opts| > 0 then Some(Record(opts)) else None))
  }

  function WireCallback(job: Option<Job>): Option<Wire> {
    if job.Some? then Some(WireJob(job.value)) else None
  }

  function WireCallbacks(c: Callbacks): Wire {
    Record(Put(Put(Put(map[], "on_complete", WireCallback(c.onComplete)), "on_success", WireCallback(c.onSuccess)),
               "on_failure", WireCallback(c.onFailure)))
  }

  function ToWire(s: Step): Wire
    decreases s
  {
    match s
    case Single(job) => WireJob(job)
    case Chain(name, steps) =>
      Record(Put(map["type" := Text("chain")], "name", Truthy(name))["steps" := List(ToWireAll(steps))])
    case Group(name, jobs) =>
      Record(Put(map["type" := Text("group")], "name", Truthy(name))["jobs" := List(ToWireAll(jobs))])
    case Batch(name, jobs, callbacks) =>
      Record(Put(map["type" := Text("batch")], "name", Truthy(name))
             ["jobs" := List(ToWireAll(jobs))]["callbacks" := WireCallbacks(callbacks)])
  }

  function ToWireAll(steps: seq<Step>): (items: seq<Wire>)
    ensures |items| == |steps|
    decreases steps
  {
    if steps == [] then [] else [ToWire(steps[0])] + ToWireAll(steps[1..])
  }

  /** The object's own keys, as the `in` operator sees them. */
  function Keys(s: Step): set<string> {
    match s
    case Single(job) =>
      {"type"} + (if job.args.Absent? then {} else {"args"}) + (if job.options.None? then {} else {"options"})
    case Chain(name, _) => {"type", "steps"} + (if name.None? then {} else {"name"})
    case Group(name, _) => {"type", "jobs"} + (if name.None? then {} else {"name"})
    case Batch(name, _, _) => {"type", "jobs", "callbacks"} + (if name.None? then {} else {"name"})
  }

  /** The object's `type` field: a job's is the user's choice. */
  function TypeField(s: Step): string {
    match s
    case Single(job) => job.kind
    case Chain(_, _) => "chain"
    case Group(_, _) => "group"
    case Batch(_, _, _) => "batch"
  }

  /** `toWireStep` tells workflows from jobs by their keys. */
  method ToWireStep(s: Step) returns (wire: Wire)
    ensures wire == ToWire(s)
    decreases s, 1
  {
    if "steps" in Keys(s) || "jobs" in Keys(s) || "callbacks" in Keys(s) {
      wire := ToWireWorkflow(s);
    } else {
      wire := WireJob(s.job);
    }
  }

  /** `toWireWorkflow`, filling its record field by field and switching on the type. */
  method ToWireWorkflow(s: Step) returns (wire: Wire)
    requires !s.Single?
    ensures wire == ToWire(s)
    ensures wire.Record? && "type" in wire.fields
    ensures s.Chain? ==> "steps" in wire.fields && wire.fields["type"] == Text("chain")
    ensures s.Group? ==> "jobs" in wire.fields && wire.fields["type"] == Text("group")
    ensures s.Batch? ==>
              "jobs" in wire.fields && "callbacks" in wire.fields && wire.fields["type"] == Text("batch")
    decreases s, 0
  {
    var fields := map["type" := Text(TypeField(s))];
    if s.name.Some? && s.name.value != "" {
      fields := fields["name" := Text(s.name.value)];
    }
    if TypeField(s) == "chain" {
      var items := ToWireSteps(s.steps);
      fields := fields["steps" := List(items)];
    } else if TypeField(s) == "group" {
      var items := ToWireSteps(s.jobs);
      fields := fields["jobs" := List(items)];
    } else {
      var items := ToWireSteps(s.jobs);
      fields := fields["jobs" := List(items)];
      fields := fields["callbacks" := WireCallbacks(s.callbacks)];
    }
    wire := Record(fields);
  }

  /** steps.map(toWireStep). */
  method ToWireSteps(steps: seq<Step>) returns (items: seq<Wire>)
    ensures items == ToWireAll(steps)
    decreases steps
  {
    items := [];
    for i := 0 to |steps|
      invariant items == ToWireAll(steps[..i])
    {
      var item := ToWireStep(steps[i]);
      ToWireAllConcat(steps[..i], [steps[i]]);
      assert steps[..i + 1] == steps[..i] + [steps[i]];
      items := items + [item];
    }
    assert steps[..|steps|] == steps;
  }

  lemma {:induction false} ToWireAllConcat(a: seq<Step>, b: seq<Step>)
    ensures ToWireAll(a + b) == ToWireAll(a) + ToWireAll(b)
  {
    if a == [] {
      assert a + b == b;
    } else {
      ToWireAllConcat(a[1..], b);
      assert (a + b)[1..] == a[1..] + b;
    }
  }

  // ---- What a wire record holds, field by field ----

  ghost predicate OptionsOnWire(o: Options, f: map<string, Wire>) {
    && f.Keys <= {"queue", "retry", "timeout_ms", "tags"}
    && ("queue" in f <==> o.queue.Some? && o.queue.value != "")
    && ("queue" in f ==> f["queue"] == Text(o.queue.value))
    && ("retry" in f <==> o.retry.Some?)
    && ("retry" in f ==> f["retry"] == Raw(o.retry.value))
    && ("timeout_ms" in f <==> o.timeout.Some? && o.timeout.value != 0.0)
    && ("timeout_ms" in f ==> f["timeout_ms"] == Number(o.timeout.value))
    && ("tags" in f <==> o.tags.Some?)
    && ("tags" in f ==> f["tags"].List? && |f["tags"].items| == |o.tags.value|
                        && forall i | 0 <= i < |o.tags.value| :: f["tags"].items[i] == Text(o.tags.value[i]))
  }

  ghost predicate ArgsOnWire(args: Args, items: seq<Wire>) {
    match args
    case Absent => items == []
    case One(value) => items == [Raw(value)]
    case Many(values) => |items| == |values| && forall i | 0 <= i < |values| :: items[i] == Raw(values[i])
  }

  ghost predicate JobOnWire(job: Job, w: Wire) {
    && w.Record?
    && {"type", "args"} <= w.fields.Keys <= {"type", "args", "options"}
    && w.fields["type"] == Text(job.kind)
    && w.fields["args"].List? && ArgsOnWire(job.args, w.fields["args"].items)
    && (if "options" in w.fields
        then && job.options.Some? && w.fields["options"].Record? && w.fields["options"].fields != map[]
             && OptionsOnWire(job.options.value, w.fields["options"].fields)
        else job.options.Some? ==> OptionsOnWire(job.options.value, map[]))
  }

  ghost predicate CallbackOnWire(job: Option<Job>, w: Option<Wire>) {
    if job.Some? then w.Some? && JobOnWire(job.value, w.value) else w.None?
  }

  ghost predicate CallbacksOnWire(c: Callbacks, w: Wire) {
    && w.Record?
    && w.fields.Keys <= {"on_complete", "on_success", "on_failure"}
    && CallbackOnWire(c.onComplete, Get(w.fields, "on_complete"))
    && CallbackOnWire(c.onSuccess, Get(w.fields, "on_success"))
    && CallbackOnWire(c.onFailure, Get(w.fields, "on_failure"))
  }

  ghost predicate HeadOnWire(kind: string, name: Option<string>, keys: set<string>, f: map<string, Wire>) {
    && f.Keys == {"type"} + (if name.Some? && name.value != "" then {"name"} else {}) + keys
    && f["type"] == Text(kind)
    && (name.Some? && name.value != "" ==> f["name"] == Text(name.value))
  }

  /** Every field a step's wire record has, and no other. */
  ghost predicate OnWire(s: Step, w: Wire)
    decreases s, 0
  {
    match s
    case Single(job) => JobOnWire(job, w)
    case Chain(name, steps) =>
      && w.Record? && HeadOnWire("chain", name, {"steps"}, w.fields)
      && w.fields["steps"].List? && AllOnWire(steps, w.fields["steps"].items)
    case Group(name, jobs) =>
      && w.Record? && HeadOnWire("group", name, {"jobs"}, w.fields)
      && w.fields["jobs"].List? && AllOnWire(jobs, w.fields["jobs"].items)
    case Batch(name, jobs, callbacks) =>
      && w.Record? && HeadOnWire("batch", name, {"jobs", "callbacks"}, w.fields)
      && w.fields["jobs"].List? && AllOnWire(jobs, w.fields["jobs"].items)
      && CallbacksOnWire(callbacks, w.fields["callbacks"])
  }

  ghost predicate AllOnWire(steps: seq<Step>, items: seq<Wire>)
    decreases steps, 0
  {
    |steps| == |items| && forall i | 0 <= i < |steps| :: OnWire(steps[i], items[i])
  }

  lemma {:induction false} OptionsAreExact(o: Options, f: map<string, Wire>)
    ensures OptionsOnWire(o, f) <==> f == WireOptions(o)
  {
    var g := WireOptions(o);
    if OptionsOnWire(o, f) {
      if o.tags.Some? {
        assert f["tags"].items == TextList(o.tags.value).items;
      }
      assert f.Keys == g.Keys;
    }
  }

  lemma {:induction false} ArgsAreExact(args: Args, items: seq<Wire>)
    ensures ArgsOnWire(args, items) <==> items == RawList(NormalizeStepArgs(args)).items
  {
  }

  lemma {:induction false} JobIsExact(job: Job, w: Wire)
    ensures JobOnWire(job, w) <==> w == WireJob(job)
  {
    var g := WireJob(job).fields;
    ArgsAreExact(job.args, g["args"].items);
    if w.Record? && "args" in w.fields && w.fields["args"].List? {
      ArgsAreExact(job.args, w.fields["args"].items);
    }
    if job.options.Some? {
      OptionsAreExact(job.options.value, WireOptions(job.options.value));
      OptionsAreExact(job.options.value, map[]);
      if w.Record? && "options" in w.fields && w.fields["options"].Record? {
        OptionsAreExact(job.options.value, w.fields["options"].fields);
      }
    }
    if JobOnWire(job, w) {
      assert w.fields.Keys == g.Keys;
      assert w.fields == g;
    }
  }

  lemma {:induction false} CallbacksAreExact(c: Callbacks, w: Wire)
    ensures CallbacksOnWire(c, w) <==> w == WireCallbacks(c)
  {
    var g := WireCallbacks(c).fields;
    CallbackFields(c);
    if w.Record? {
      var f := w.fields;
      CallbackIsExact(c.onComplete, Get(f, "on_complete"));
      CallbackIsExact(c.onSuccess, Get(f, "on_success"));
      CallbackIsExact(c.onFailure, Get(f, "on_failure"));
      if CallbacksOnWire(c, w) {
        SameFields(f, g, {"on_complete", "on_success", "on_failure"});
      }
    }
  }

  lemma {:induction false} CallbackIsExact(job: Option<Job>, w: Option<Wire>)
    ensures CallbackOnWire(job, w) <==> w == WireCallback(job)
  {
    if job.Some? && w.Some? {
      JobIsExact(job.value, w.value);
    }
  }

  lemma {:induction false} CallbackFields(c: Callbacks)
    ensures var f := WireCallbacks(c).fields;
            && f.Keys <= {"on_complete", "on_success", "on_failure"}
            && Get(f, "on_complete") == WireCallback(c.onComplete)
            && Get(f, "on_success") == WireCallback(c.onSuccess)
            && Get(f, "on_failure") == WireCallback(c.onFailure)
  {
  }

  lemma {:induction false} SameFields(f: map<string, Wire>, g: map<string, Wire>, keys: set<string>)
    requires f.Keys <= keys && g.Keys <= keys && forall k <- keys :: Get(f, k) == Get(g, k)
    ensures f == g
  {
    assert f.Keys == g.Keys by {
      forall k | k in f.Keys || k in g.Keys
        ensures k in f.Keys && k in g.Keys
      {
        assert Get(f, k) == Get(g, k);
      }
    }
    forall k | k in f
      ensures f[k] == g[k]
    {
      assert Get(f, k) == Get(g, k);
    }
  }

  lemma {:induction false} HeadFixesRest(
    kind: string, name: Option<string>, keys: set<string>, f: map<string, Wire>, g: map<string, Wire>)
    requires HeadOnWire(kind, name, keys, f) && HeadOnWire(kind, name, keys, g)
    requires "type" !in keys && "name" !in keys && forall k <- keys :: f[k] == g[k]
    ensures f == g
  {
    assert f.Keys == g.Keys;
  }

  /** The wire form of a step is the one record that holds these fields. */
  lemma {:induction false} WireIsExact(s: Step, w: Wire)
    ensures OnWire(s, w) <==> w == ToWire(s)
    decreases s, 1
  {
    match s
    case Single(job) => JobIsExact(job, w);
    case Chain(_, _) => ChainIsExact(s, w);
    case Group(_, _) => GroupIsExact(s, w);
    case Batch(_, _, _) => BatchIsExact(s, w);
  }

  lemma {:induction false} ChainIsExact(s: Step, w: Wire)
    requires s.Chain?
    ensures OnWire(s, w) <==> w == ToWire(s)
    decreases s, 0
  {
    var g := ToWire(s).fields;
    assert HeadOnWire("chain", s.name, {"steps"}, g);
    WireAllIsExact(s.steps, ToWireAll(s.steps));
    if OnWire(s, w) {
      WireAllIsExact(s.steps, w.fields["steps"].items);
      HeadFixesRest("chain", s.name, {"steps"}, w.fields, g);
    }
  }

  lemma {:induction false} GroupIsExact(s: Step, w: Wire)
    requires s.Group?
    ensures OnWire(s, w) <==> w == ToWire(s)
    decreases s, 0
  {
    var g := ToWire(s).fields;
    assert HeadOnWire("group", s.name, {"jobs"}, g);
    WireAllIsExact(s.jobs, ToWireAll(s.jobs));
    if OnWire(s, w) {
      WireAllIsExact(s.jobs, w.fields["jobs"].items);
      HeadFixesRest("group", s.name, {"jobs"}, w.fields, g);
    }
  }

  lemma {:induction false} BatchIsExact(s: Step, w: Wire)
    requires s.Batch?
    ensures OnWire(s, w) <==> w == ToWire(s)
    decreases s, 0
  {
    var g := ToWire(s).fields;
    assert HeadOnWire("batch", s.name, {"jobs", "callbacks"}, g);
    WireAllIsExact(s.jobs, ToWireAll(s.jobs));
    CallbacksAreExact(s.callbacks, WireCallbacks(s.callbacks));
    if OnWire(s, w) {
      WireAllIsExact(s.jobs, w.fields["jobs"].items);
      CallbacksAreExact(s.callbacks, w.fields["callbacks"]);
      HeadFixesRest("batch", s.name, {"jobs", "callbacks"}, w.fields, g);
    }
  }

  lemma {:induction false} WireAllIsExact(steps: seq<Step>, items: seq<Wire>)
    ensures AllOnWire(steps, items) <==> items == ToWireAll(steps)
    decreases steps, 2
  {
    if |steps| == |items| {
      forall i | 0 <= i < |steps|
        ensures OnWire(steps[i], items[i]) <==> items[i] == ToWireAll(steps)[i]
      {
        ToWireAllAt(steps, i);
        WireIsExact(steps[i], items[i]);
      }
    }
  }

  lemma {:induction false} ToWireAllAt(steps: seq<Step>, i: nat)
    requires i < |steps|
    ensures ToWireAll(steps)[i] == ToWire(steps[i])
  {
    if i > 0 {
      ToWireAllAt(steps[1..], i - 1);
    }
  }

  // ---- The type of a wire record ----

  /** Told by the wire alone: a record with steps is typed chain, one with callbacks batch, one with jobs only
      group, and any other has a text for its type; and so for the records inside. */
  ghost predicate Typed(w: Wire)
    decreases w
  {
    && w.Record? && "type" in w.fields && w.fields["type"].Text?
    && ("steps" in w.fields ==>
          && w.fields["type"].text == "chain" && "jobs" !in w.fields && "callbacks" !in w.fields
          && w.fields["steps"].List?
          && forall i | 0 <= i < |w.fields["steps"].items| :: Typed(w.fields["steps"].items[i]))
    && ("jobs" in w.fields ==>
          && w.fields["type"].text == (if "callbacks" in w.fields then "batch" else "group")
          && w.fields["jobs"].List?
          && forall i | 0 <= i < |w.fields["jobs"].items| :: Typed(w.fields["jobs"].items[i]))
    && ("callbacks" in w.fields ==>
          && "jobs" in w.fields && w.fields["callbacks"].Record?
          && forall k | k in w.fields["callbacks"].fields :: Typed(w.fields["callbacks"].fields[k]))
  }

  lemma {:induction false} JobIsTyped(job: Job)
    ensures var w := WireJob(job);
            && Typed(w) && w.fields["type"] == Text(job.kind)
            && "steps" !in w.fields && "jobs" !in w.fields && "callbacks" !in w.fields
  {
  }

  lemma {:induction false} AllAreTyped(steps: seq<Step>)
    ensures forall i | 0 <= i < |steps| :: Typed(ToWireAll(steps)[i])
    decreases steps, 1
  {
    forall i | 0 <= i < |steps|
      ensures Typed(ToWireAll(steps)[i])
    {
      ToWireAllAt(steps, i);
      WireIsTyped(steps[i]);
    }
  }

  /** At every nesting the type of a workflow's record agrees with its structure, and a job's own kind stays its
      type, whatever it is. */
  lemma {:induction false} WireIsTyped(s: Step)
    ensures Typed(ToWire(s))
    ensures var f := ToWire(s).fields;
            if "steps" in f || "jobs" in f || "callbacks" in f then !s.Single?
            else s.Single? && f["type"] == Text(s.job.kind)
    decreases s, 0
  {
    match s
    case Single(job) => JobIsTyped(job);
    case Chain(_, steps) => AllAreTyped(steps);
    case Group(_, jobs) => AllAreTyped(jobs);
    case Batch(_, jobs, c) =>
      AllAreTyped(jobs);
      forall job | Some(job) == c.onComplete || Some(job) == c.onSuccess || Some(job) == c.onFailure
        ensures Typed(WireJob(job))
      {
        JobIsTyped(job);
      }
      var f := WireCallbacks(c).fields;
      forall k | k in f
        ensures Typed(f[k])
      {
      }
  }

  // ---- Back from the wire, by structure ----

  function Get(fields: map<string, Wire>, key: string): Option<Wire> {
    if key in fields then Some(fields[key]) else None
  }

  function RawItems(items: seq<Wire>): Option<seq<Json>> {
    if forall i | 0 <= i < |items| :: items[i].Raw?
    then Some(seq(|items|, i requires 0 <= i < |items| && items[i].Raw? => items[i].json))
    else None
  }

  function TextItems(items: seq<Wire>): Option<seq<string>> {
    if forall i | 0 <= i < |items| :: items[i].Text?
    then Some(seq(|items|, i requires 0 <= i < |items| && items[i].Text? => items[i].text))
    else None
  }

  function DecodeText(w: Option<Wire>): Option<string> {
    if w.Some? && w.value.Text? then Some(w.value.text) else None
  }

  function DecodeOptions(w: Option<Wire>): Option<Options> {
    if w.None? || !w.value.Record? then None else
      var f := w.value.fields;
      var retry, timeout, tags := Get(f, "retry"), Get(f, "timeout_ms"), Get(f, "tags");
      Some(Options(
        DecodeText(Get(f, "queue")),
        if retry.Some? && retry.value.Raw? then Some(retry.value.json) else None,
        if timeout.Some? && timeout.value.Number? then Some(timeout.value.n) else None,
        if tags.Some? && tags.value.List? then TextItems(tags.value.items) else None,
        map[]))
  }

  function DecodeJob(w: Wire): Option<Job> {
    if !w.Record? then None else
      var kind, args := DecodeText(Get(w.fields, "type")), Get(w.fields, "args");
      if kind.None? || args.None? || !args.value.List? then None else
        match RawItems(args.value.items)
        case None => None
        case Some(values) => Some(Job(kind.value, Many(values), DecodeOptions(Get(w.fields, "options"))))
  }

  function DecodeCallback(w: Option<Wire>): Option<Job> {
    if w.None? then None else DecodeJob(w.value)
  }

  function DecodeCallbacks(w: Wire): Callbacks {
    if !w.Record? then Callbacks(None, None, None) else
      Callbacks(DecodeCallback(Get(w.fields, "on_complete")), DecodeCallback(Get(w.fields, "on_success")),
                DecodeCallback(Get(w.fields, "on_failure")))
  }

  /** A record with steps is a chain, with callbacks a batch, with jobs a group, and otherwise a job, whatever
      its type says. */
  function Decode(w: Wire): Option<Step>
    decreases w
  {
    if !w.Record? then None else
      var f, name := w.fields, DecodeText(Get(w.fields, "name"));
      if "steps" in f && f["steps"].List? then
        match DecodeAll(f["steps"].items) {
          case None => None
          case Some(steps) => Some(Chain(name, steps))
        }
      else if "jobs" in f && f["jobs"].List? then
        match DecodeAll(f["jobs"].items) {
          case None => None
          case Some(jobs) =>
            if "callbacks" in f then Some(Batch(name, jobs, DecodeCallbacks(f["callbacks"])))
            else Some(Group(name, jobs))
        }
      else
        match DecodeJob(w)
        case None => None
        case Some(job) => Some(Single(job))
  }

  function DecodeAll(items: seq<Wire>): Option<seq<Step>>
    decreases items
  {
    if items == [] then Some([]) else
      match (Decode(items[0]), DecodeAll(items[1..]))
      case (Some(first), Some(rest)) => Some([first] + rest)
      case _ => None
  }

  // ---- What the wire keeps ----

  function NonEmpty(s: Option<string>): Option<string> {
    if s == Some("") then None else s
  }

  function NormalOptions(o: Option<Options>): Option<Options> {
    if o.None? then None else
      var n := Options(NonEmpty(o.value.queue), o.value.retry,
                       if o.value.timeout == Some(0.0) then None else o.value.timeout, o.value.tags, map[]);
      if n == Options(None, None, None, None, map[]) then None else Some(n)
  }

  /** Arguments as a list, falsy and unsupported options dropped. */
  function NormalJob(job: Job): Job {
    var args := match job.args { case Absent => [] case One(value) => [value] case Many(values) => values };
    Job(job.kind, Many(args), NormalOptions(job.options))
  }

  function NormalCallback(job: Option<Job>): Option<Job> {
    if job.Some? then Some(NormalJob(job.value)) else None
  }

  function Normal(s: Step): Step
    decreases s
  {
    match s
    case Single(job) => Single(NormalJob(job))
    case Chain(name, steps) => Chain(NonEmpty(name), NormalAll(steps))
    case Group(name, jobs) => Group(NonEmpty(name), NormalAll(jobs))
    case Batch(name, jobs, c) =>
      Batch(NonEmpty(name), NormalAll(jobs),
            Callbacks(NormalCallback(c.onComplete), NormalCallback(c.onSuccess), NormalCallback(c.onFailure)))
  }

  function NormalAll(steps: seq<Step>): (r: seq<Step>)
    ensures |r| == |steps|
    decreases steps
  {
    if steps == [] then [] else [Normal(steps[0])] + NormalAll(steps[1..])
  }

  lemma {:induction false} OptionsRoundTrip(o: Options)
    ensures var f := WireOptions(o);
            (if |f| > 0 then DecodeOptions(Some(Record(f))) else None) == NormalOptions(Some(o))
  {
    var f := WireOptions(o);
    assert |f| == 0 ==> f == map[];
    if o.tags.Some? {
      assert TextItems(TextList(o.tags.value).items).value == o.tags.value;
    }
    assert |f| > 0 <==> "queue" in f || "retry" in f || "timeout_ms" in f || "tags" in f;
  }

  lemma {:induction false} JobRoundTrip(job: Job)
    ensures DecodeJob(WireJob(job)) == Some(NormalJob(job))
    ensures var f := WireJob(job).fields; "steps" !in f && "jobs" !in f && "callbacks" !in f
  {
    var values := NormalizeStepArgs(job.args);
    assert RawItems(RawList(values).items).value == values;
    if job.options.Some? {
      OptionsRoundTrip(job.options.value);
    }
  }

  lemma {:induction false} CallbacksRoundTrip(c: Callbacks)
    ensures DecodeCallbacks(WireCallbacks(c))
         == Callbacks(NormalCallback(c.onComplete), NormalCallback(c.onSuccess), NormalCallback(c.onFailure))
  {
    forall job | Some(job) == c.onComplete || Some(job) == c.onSuccess || Some(job) == c.onFailure
      ensures DecodeJob(WireJob(job)) == Some(NormalJob(job))
    {
      JobRoundTrip(job);
    }
  }

  lemma {:induction false} NameRoundTrip(kind: string, name: Option<string>)
    ensures var f := Put(map["type" := Text(kind)], "name", Truthy(name));
            DecodeText(Get(f, "name")) == NonEmpty(name) && f.Keys <= {"type", "name"}
  {
  }

  /** Decoding the wire form by structure gives the definition up to normalization: same nesting, same order,
      same jobs, whatever a job's type is called. */
  lemma {:induction false} WireRoundTrip(s: Step)
    ensures Decode(ToWire(s)) == Some(Normal(s))
    decreases s
  {
    match s
    case Single(job) => JobRoundTrip(job);
    case Chain(name, steps) =>
      NameRoundTrip("chain", name);
      WireAllRoundTrip(steps);
    case Group(name, jobs) =>
      NameRoundTrip("group", name);
      WireAllRoundTrip(jobs);
    case Batch(name, jobs, callbacks) =>
      NameRoundTrip("batch", name);
      WireAllRoundTrip(jobs);
      CallbacksRoundTrip(callbacks);
  }

  lemma {:induction false} WireAllRoundTrip(steps: seq<Step>)
    ensures DecodeAll(ToWireAll(steps)) == Some(NormalAll(steps))
    decreases steps
  {
    if steps != [] {
      WireRoundTrip(steps[0]);
      WireAllRoundTrip(steps[1..]);
      assert ToWireAll(steps)[1..] == ToWireAll(steps[1..]);
    }
  }

  lemma {:induction false} NormalOptionsSameWire(o: Options)
    ensures var n := NormalOptions(Some(o));
            if n.Some? then WireOptions(n.value) == WireOptions(o) else WireOptions(o) == map[]
  {
  }

  lemma {:induction false} NormalJobSameWire(job: Job)
    ensures WireJob(NormalJob(job)) == WireJob(job)
  {
    if job.options.Some? {
      NormalOptionsSameWire(job.options.value);
    }
  }

  lemma {:induction false} NormalSameWire(s: Step)
    ensures ToWire(Normal(s)) == ToWire(s)
    decreases s
  {
    match s
    case Single(job) => NormalJobSameWire(job);
    case Chain(_, steps) => NormalAllSameWire(steps);
    case Group(_, jobs) => NormalAllSameWire(jobs);
    case Batch(_, jobs, c) =>
      NormalAllSameWire(jobs);
      NormalCallbackSameWire(c.onComplete);
      NormalCallbackSameWire(c.onSuccess);
      NormalCallbackSameWire(c.onFailure);
  }

  lemma {:induction false} NormalCallbackSameWire(job: Option<Job>)
    ensures WireCallback(NormalCallback(job)) == WireCallback(job)
  {
    if job.Some? {
      NormalJobSameWire(job.value);
    }
  }

  lemma {:induction false} NormalAllSameWire(steps: seq<Step>)
    ensures ToWireAll(NormalAll(steps)) == ToWireAll(steps)
    decreases steps
  {
    if steps != [] {
      NormalSameWire(steps[0]);
      NormalAllSameWire(steps[1..]);
      assert NormalAll(steps)[1..] == NormalAll(steps[1..]);
    }
  }

  /** Two definitions have the same wire form exactly when they have the same normal form. */
  lemma {:induction false} SameWireIffSameNormal(s: Step, t: Step)
    ensures ToWire(s) == ToWire(t) <==> Normal(s) == Normal(t)
  {
    WireRoundTrip(s);
    WireRoundTrip(t);
    NormalSameWire(s);
    NormalSameWire(t);
  }

  // ---- The jobs of a definition, in order ----

  function Optional(job: Option<Job>): seq<Job> {
    if job.Some? then [job.value] else []
  }

  function JobsOf(s: Step): seq<Job>
    decreases s
  {
    match s
    case Single(job) => [job]
    case Chain(_, steps) => JobsOfAll(steps)
    case Group(_, jobs) => JobsOfAll(jobs)
    case Batch(_, jobs, c) =>
      JobsOfAll(jobs) + (Optional(c.onComplete) + (Optional(c.onSuccess) + Optional(c.onFailure)))
  }

  function JobsOfAll(steps: seq<Step>): seq<Job>
    decreases steps
  {
    if steps == [] then [] else JobsOf(steps[0]) + JobsOfAll(steps[1..])
  }

  function NormalJobs(jobs: seq<Job>): seq<Job> {
    seq(|jobs|, i requires 0 <= i < |jobs| => NormalJob(jobs[i]))
  }

  lemma {:induction false} NormalJobsConcat(a: seq<Job>, b: seq<Job>)
    ensures NormalJobs(a + b) == NormalJobs(a) + NormalJobs(b)
  {
  }

  lemma {:induction false} JobsOfNormal(s: Step)
    ensures JobsOf(Normal(s)) == NormalJobs(JobsOf(s))
    decreases s
  {
    match s
    case Single(job) =>
    case Chain(_, steps) => JobsOfNormalAll(steps);
    case Group(_, jobs) => JobsOfNormalAll(jobs);
    case Batch(_, jobs, c) =>
      JobsOfNormalAll(jobs);
      var x, y, z := Optional(c.onComplete), Optional(c.onSuccess), Optional(c.onFailure);
      NormalJobsConcat(y, z);
      NormalJobsConcat(x, y + z);
      NormalJobsConcat(JobsOfAll(jobs), x + (y + z));
      OptionalNormal(c.onComplete);
      OptionalNormal(c.onSuccess);
      OptionalNormal(c.onFailure);
  }

  lemma {:induction false} OptionalNormal(job: Option<Job>)
    ensures Optional(NormalCallback(job)) == NormalJobs(Optional(job))
  {
  }

  lemma {:induction false} JobsOfNormalAll(steps: seq<Step>)
    ensures JobsOfAll(NormalAll(steps)) == NormalJobs(JobsOfAll(steps))
    decreases steps
  {
    if steps != [] {
      JobsOfNormal(steps[0]);
      JobsOfNormalAll(steps[1..]);
      NormalJobsConcat(JobsOf(steps[0]), JobsOfAll(steps[1..]));
      assert NormalAll(steps)[1..] == NormalAll(steps[1..]);
    }
  }

  /** The wire form carries every job of the definition once and in order. */
  lemma {:induction false} WireKeepsJobs(s: Step)
    ensures Decode(ToWire(s)).Some?
    ensures JobsOf(Decode(ToWire(s)).value) == NormalJobs(JobsOf(s))
  {
    WireRoundTrip(s);
    JobsOfNormal(s);
  }
}

/** `update_backend` of aisle/_source.py: the settings given on a command
    line are applied to the backend one after the other, in the order model,
    seed, temperature, reproducible, and every applied setting leaves one log
    entry. The run is stated first as a fold of the setters over a settings
    value and then as a method on the `Backend` and `Logs` objects. */
module Source {
  import opened PyValues
  import opened General
  import opened Backends
  import opened Logging

  /** A value an option holds when it is not None. Python's None is written
      only as the absent option, so `is not None` is `Some?`. */
  type Given = v: PyValue | !v.PyNone? witness PyInt(0)

  /** The parsed arguments `update_backend` reads; None where the option was
      not given. */
  datatype PanelArgs = PanelArgs(model: Option<string>, seed: Option<Given>,
                                 temperature: Option<Given>, reproducible: Option<Given>)

  /** One setter call. */
  datatype Request =
    | SetModel(name: string)
    | SetSeed(seed: PyValue)
    | SetTemperature(temperature: PyValue)
    | SetReproducible(reproducible: PyValue)

  /** The position of a setter in the fixed order of `update_backend`. */
  function Rank(q: Request): nat {
    match q
    case SetModel(_) => 0
    case SetSeed(_) => 1
    case SetTemperature(_) => 2
    case SetReproducible(_) => 3
  }

  /** `if args.model:` — a model name is applied only when it is given and not empty. */
  predicate ModelGiven(a: PanelArgs) {
    a.model.Some? && a.model.value != ""
  }

  /** The call of `update_backend`'s first `if`: the model, when it is a
      non-empty name. */
  function ModelGroup(a: PanelArgs): seq<Request> {
    if ModelGiven(a) then [SetModel(a.model.value)] else []
  }

  /** The calls of the other three `if`s: each setting whenever it is not
      None. */
  function SeedGroup(a: PanelArgs): seq<Request> {
    if a.seed.Some? then [SetSeed(a.seed.value)] else []
  }

  function TemperatureGroup(a: PanelArgs): seq<Request> {
    if a.temperature.Some? then [SetTemperature(a.temperature.value)] else []
  }

  function ReproducibleGroup(a: PanelArgs): seq<Request> {
    if a.reproducible.Some? then [SetReproducible(a.reproducible.value)] else []
  }

  /** The setter calls `update_backend(args, ...)` makes, in the order it makes
      them. */
  function Requests(a: PanelArgs): seq<Request> {
    ModelGroup(a) + SeedGroup(a) + TemperatureGroup(a) + ReproducibleGroup(a)
  }

  /** The calls come in the order model, seed, temperature, reproducible,
      each at most once; the model is applied when it is a non-empty name and
      each other setting whenever it is not None (so a seed of 0 is applied);
      and nothing else is applied. */
  lemma {:induction false} RequestsFromArgs(a: PanelArgs)
    ensures var qs := Requests(a);
      forall i, j :: 0 <= i < j < |qs| ==> Rank(qs[i]) < Rank(qs[j])
    ensures ModelGiven(a) ==> SetModel(a.model.value) in Requests(a)
    ensures a.seed.Some? ==> SetSeed(a.seed.value) in Requests(a)
    ensures a.temperature.Some? ==> SetTemperature(a.temperature.value) in Requests(a)
    ensures a.reproducible.Some? ==> SetReproducible(a.reproducible.value) in Requests(a)
    ensures forall q :: q in Requests(a) ==>
      match q
      case SetModel(m) => a.model == Some(m) && m != ""
      case SetSeed(v) => a.seed == Some(v)
      case SetTemperature(v) => a.temperature == Some(v)
      case SetReproducible(v) => a.reproducible == Some(v)
  {
  }

  /** The setter a request calls; `reply` is what the model listing returns
      when `update_model` asks for it. */
  function Setter(s: Settings, q: Request, reply: TagsReply): Update {
    match q
    case SetModel(m) => ModelUpdate(s, m, reply)
    case SetSeed(v) => SeedUpdate(s, v)
    case SetTemperature(v) => TemperatureUpdate(s, v)
    case SetReproducible(v) => ReproducibleUpdate(s, v)
  }

  /** `logs.info(message) if success else logs.error(message)`. */
  function LogNote(u: Update): (n: Note)
    ensures n.message == u.note
    ensures n.level == 'I' <==> u.ok
    ensures n.level == 'E' <==> !u.ok
  {
    Note(if u.ok then 'I' else 'E', u.note)
  }

  /** The settings after a run of setter calls and the log calls it made. */
  datatype Outcome = Outcome(after: Settings, notes: seq<Note>)

  /** One more setter call and its log call. */
  function Next(o: Outcome, q: Request, reply: TagsReply): (r: Outcome)
    ensures r.notes == o.notes + [LogNote(Setter(o.after, q, reply))]
    ensures r.after == Setter(o.after, q, reply).after
  {
    var u := Setter(o.after, q, reply);
    Outcome(u.after, o.notes + [LogNote(u)])
  }

  /** The setter calls of `qs` applied in order, starting from `s`. */
  function ApplyAll(s: Settings, qs: seq<Request>, reply: TagsReply): (o: Outcome)
    ensures |o.notes| == |qs|
    decreases |qs|
  {
    if qs == [] then Outcome(s, [])
    else Next(ApplyAll(s, qs[..|qs| - 1], reply), qs[|qs| - 1], reply)
  }

  /** A run extended by a group of at most one request. */
  function Grouped(o: Outcome, g: seq<Request>, reply: TagsReply): Outcome
    requires |g| <= 1
  {
    if g == [] then o else Next(o, g[0], reply)
  }

  /** What `update_backend(args, backend, logs)` does to the settings and the
      log: its four `if`s one after the other. */
  function UpdateBackendRun(s: Settings, a: PanelArgs, reply: TagsReply): Outcome {
    Grouped(Grouped(Grouped(Grouped(Outcome(s, []), ModelGroup(a), reply), SeedGroup(a), reply),
                    TemperatureGroup(a), reply), ReproducibleGroup(a), reply)
  }

  /** Whether a setter call succeeds, and the message it returns, depend on
      the value passed and the model listing only, not on the settings held. */
  lemma {:induction false} VerdictIgnoresSettings(s1: Settings, s2: Settings, q: Request, reply: TagsReply)
    ensures LogNote(Setter(s1, q, reply)) == LogNote(Setter(s2, q, reply))
  {
  }

  /** The i-th log entry of a run is the verdict of the i-th setter call:
      info with its message when it succeeds, error otherwise. */
  lemma {:induction false} NotesOfRun(s: Settings, qs: seq<Request>, reply: TagsReply)
    ensures forall i :: 0 <= i < |qs| ==> ApplyAll(s, qs, reply).notes[i] == LogNote(Setter(s, qs[i], reply))
    decreases |qs|
  {
    if qs != [] {
      var init := qs[..|qs| - 1];
      NotesOfRun(s, init, reply);
      var before := ApplyAll(s, init, reply);
      VerdictIgnoresSettings(before.after, s, qs[|qs| - 1], reply);
      forall i | 0 <= i < |qs|
        ensures ApplyAll(s, qs, reply).notes[i] == LogNote(Setter(s, qs[i], reply))
      {
        if i < |qs| - 1 {
          assert init[i] == qs[i];
        }
      }
    }
  }

  /** A setter call changes no field but its own. */
  lemma {:induction false} SetterKeepsOthers(s: Settings, q: Request, reply: TagsReply)
    ensures var t := Setter(s, q, reply).after;
      (!q.SetModel? ==> t.model == s.model) && (!q.SetSeed? ==> t.seed == s.seed) &&
      (!q.SetTemperature? ==> t.temperature == s.temperature) &&
      (!q.SetReproducible? ==> t.reproducible == s.reproducible)
  {
  }

  /** A run changes no field that none of its requests sets; `url` and
      `stream` are constants of the backend and never change at all. */
  lemma {:induction false} UntouchedFields(s: Settings, qs: seq<Request>, reply: TagsReply)
    ensures var t := ApplyAll(s, qs, reply).after;
      ((forall q :: q in qs ==> !q.SetModel?) ==> t.model == s.model) &&
      ((forall q :: q in qs ==> !q.SetSeed?) ==> t.seed == s.seed) &&
      ((forall q :: q in qs ==> !q.SetTemperature?) ==> t.temperature == s.temperature) &&
      ((forall q :: q in qs ==> !q.SetReproducible?) ==> t.reproducible == s.reproducible)
    decreases |qs|
  {
    if qs != [] {
      var init, last := qs[..|qs| - 1], qs[|qs| - 1];
      UntouchedFields(s, init, reply);
      var before := ApplyAll(s, init, reply);
      SetterKeepsOthers(before.after, last, reply);
      assert ApplyAll(s, qs, reply).after == Setter(before.after, last, reply).after;
      assert last in qs;
      forall q | q in init ensures q in qs {
      }
    }
  }

  /** A run from a valid settings value ends in a valid one. */
  lemma {:induction false} RunKeepsValid(s: Settings, qs: seq<Request>, reply: TagsReply)
    requires Valid(s)
    ensures Valid(ApplyAll(s, qs, reply).after)
    decreases |qs|
  {
    if qs != [] {
      RunKeepsValid(s, qs[..|qs| - 1], reply);
    }
  }

  /** After `update_backend` the model is the given name when that name is
      non-empty and listed, and the old model otherwise. */
  lemma {:induction false} FinalModel(s: Settings, a: PanelArgs, reply: TagsReply)
    ensures var t := UpdateBackendRun(s, a, reply).after;
      (ModelGiven(a) && reply.Tags? && a.model.value in GetModelList(reply).names ==> t.model == a.model.value) &&
      (!(ModelGiven(a) && reply.Tags? && a.model.value in GetModelList(reply).names) ==> t.model == s.model)
  {
    GroupsFieldByField(s, ModelGroup(a), SeedGroup(a), TemperatureGroup(a), ReproducibleGroup(a), reply);
  }

  /** After `update_backend` the seed is the given value when it is an `int`
      (a seed of 0 included), and the old seed otherwise. */
  lemma {:induction false} FinalSeed(s: Settings, a: PanelArgs, reply: TagsReply)
    ensures var t := UpdateBackendRun(s, a, reply).after;
      (a.seed.Some? && IsInt(a.seed.value) ==> t.seed == a.seed.value) &&
      (!(a.seed.Some? && IsInt(a.seed.value)) ==> t.seed == s.seed)
  {
    GroupsFieldByField(s, ModelGroup(a), SeedGroup(a), TemperatureGroup(a), ReproducibleGroup(a), reply);
  }

  /** After `update_backend` the temperature is the given float clamped to
      [0, 1], and the old temperature when none or a non-float was given. */
  lemma {:induction false} FinalTemperature(s: Settings, a: PanelArgs, reply: TagsReply)
    ensures var t := UpdateBackendRun(s, a, reply).after;
      (a.temperature.Some? && a.temperature.value.PyFloat? ==> t.temperature == Clamp(a.temperature.value.f)) &&
      (!(a.temperature.Some? && a.temperature.value.PyFloat?) ==> t.temperature == s.temperature)
  {
    GroupsFieldByField(s, ModelGroup(a), SeedGroup(a), TemperatureGroup(a), ReproducibleGroup(a), reply);
  }

  /** After `update_backend` the reproducibility switch is the given `bool`,
      and the old switch when none or a non-bool was given. */
  lemma {:induction false} FinalReproducible(s: Settings, a: PanelArgs, reply: TagsReply)
    ensures var t := UpdateBackendRun(s, a, reply).after;
      (a.reproducible.Some? && a.reproducible.value.PyBool? ==> t.reproducible == a.reproducible.value.b) &&
      (!(a.reproducible.Some? && a.reproducible.value.PyBool?) ==> t.reproducible == s.reproducible)
  {
    GroupsFieldByField(s, ModelGroup(a), SeedGroup(a), TemperatureGroup(a), ReproducibleGroup(a), reply);
  }

  /** Appending one request to a run applies its setter to the settings
      the run ended with and appends its log note. */
  lemma {:induction false} ApplySnoc(s: Settings, qs: seq<Request>, q: Request, reply: TagsReply)
    ensures ApplyAll(s, qs + [q], reply) == Next(ApplyAll(s, qs, reply), q, reply)
  {
    assert (qs + [q])[..|qs|] == qs;
  }

  lemma {:induction false} GroupStep(s: Settings, qs: seq<Request>, g: seq<Request>, reply: TagsReply)
    requires |g| <= 1
    ensures ApplyAll(s, qs + g, reply) == Grouped(ApplyAll(s, qs, reply), g, reply)
  {
    if g == [] {
      assert qs + g == qs;
    } else {
      assert g == [g[0]];
      ApplySnoc(s, qs, g[0], reply);
    }
  }

  /** A run of four groups of at most one request each is the four groups
      applied one after the other. */
  lemma {:induction false} RunOfGroups(s: Settings, m: seq<Request>, sd: seq<Request>, tp: seq<Request>, rp: seq<Request>, reply: TagsReply)
    requires |m| <= 1 && |sd| <= 1 && |tp| <= 1 && |rp| <= 1
    ensures ApplyAll(s, m + sd + tp + rp, reply) ==
      Grouped(Grouped(Grouped(Grouped(Outcome(s, []), m, reply), sd, reply), tp, reply), rp, reply)
  {
    assert [] + m == m;
    GroupStep(s, [], m, reply);
    GroupStep(s, m, sd, reply);
    GroupStep(s, m + sd, tp, reply);
    GroupStep(s, m + sd + tp, rp, reply);
  }

  /** `update_backend` is the setter calls of `Requests(a)` applied in order. */
  lemma {:induction false} RunIsFold(s: Settings, a: PanelArgs, reply: TagsReply)
    ensures UpdateBackendRun(s, a, reply) == ApplyAll(s, Requests(a), reply)
  {
    RunOfGroups(s, ModelGroup(a), SeedGroup(a), TemperatureGroup(a), ReproducibleGroup(a), reply);
  }

  /** The four groups in the order model, seed, temperature, reproducible:
      each field ends as its own group's setter leaves it. */
  lemma {:induction false} GroupsFieldByField(s: Settings, m: seq<Request>, sd: seq<Request>, tp: seq<Request>, rp: seq<Request>, reply: TagsReply)
    requires m == [] || (|m| == 1 && m[0].SetModel?)
    requires sd == [] || (|sd| == 1 && sd[0].SetSeed?)
    requires tp == [] || (|tp| == 1 && tp[0].SetTemperature?)
    requires rp == [] || (|rp| == 1 && rp[0].SetReproducible?)
    ensures var t := Grouped(Grouped(Grouped(Grouped(Outcome(s, []), m, reply), sd, reply), tp, reply), rp, reply).after;
      (m != [] && reply.Tags? && m[0].name in GetModelList(reply).names ==> t.model == m[0].name) &&
      (!(m != [] && reply.Tags? && m[0].name in GetModelList(reply).names) ==> t.model == s.model)
    ensures var t := Grouped(Grouped(Grouped(Grouped(Outcome(s, []), m, reply), sd, reply), tp, reply), rp, reply).after;
      (sd != [] && IsInt(sd[0].seed) ==> t.seed == sd[0].seed) &&
      (!(sd != [] && IsInt(sd[0].seed)) ==> t.seed == s.seed)
    ensures var t := Grouped(Grouped(Grouped(Grouped(Outcome(s, []), m, reply), sd, reply), tp, reply), rp, reply).after;
      (tp != [] && tp[0].temperature.PyFloat? ==> t.temperature == Clamp(tp[0].temperature.f)) &&
      (!(tp != [] && tp[0].temperature.PyFloat?) ==> t.temperature == s.temperature)
    ensures var t := Grouped(Grouped(Grouped(Grouped(Outcome(s, []), m, reply), sd, reply), tp, reply), rp, reply).after;
      (rp != [] && rp[0].reproducible.PyBool? ==> t.reproducible == rp[0].reproducible.b) &&
      (!(rp != [] && rp[0].reproducible.PyBool?) ==> t.reproducible == s.reproducible)
  {
    var o1 := Grouped(Outcome(s, []), m, reply);
    var o2 := Grouped(o1, sd, reply);
    var o3 := Grouped(o2, tp, reply);
    var o4 := Grouped(o3, rp, reply);
    if m != [] {
      SetterKeepsOthers(s, m[0], reply);
    }
    if sd != [] {
      SetterKeepsOthers(o1.after, sd[0], reply);
    }
    if tp != [] {
      SetterKeepsOthers(o2.after, tp[0], reply);
    }
    if rp != [] {
      SetterKeepsOthers(o3.after, rp[0], reply);
    }
  }

  /** Calls the backend's setter for one request. */
  method CallSetter(backend: Backend, q: Request, reply: TagsReply) returns (ok: bool, message: string)
    modifies backend
    ensures Update(ok, message, backend.Current()) == Setter(old(backend.Current()), q, reply)
  {
    match q
    case SetModel(m) => ok, message := backend.UpdateModel(m, reply);
    case SetSeed(v) => ok, message := backend.UpdateSeed(v);
    case SetTemperature(v) => ok, message := backend.UpdateTemperature(v);
    case SetReproducible(v) => ok, message := backend.UpdateReproducible(v);
  }

  /** `logs.info(message) if success else logs.error(message)` at clock reading `now`. */
  method Record(logs: Logs, ok: bool, message: string, now: Instant)
    modifies logs
    ensures logs.entries == old(logs.entries) + [LogEntry(if ok then 'I' else 'E', GenerateTimestamp(now), message)]
  {
    if ok {
      logs.Info(message, now);
    } else {
      var _ := logs.Error(message, now);
    }
  }

  /** The backend holds the settings of the run so far, and the log holds
      the `e0` entries it started with followed by the run's notes, entry
      `k` stamped with `clock(k)`. */
  ghost predicate Reached(backend: Backend, logs: Logs, e0: seq<LogEntry>, o: Outcome, clock: nat -> Instant)
    reads backend, logs
  {
    backend.Current() == o.after && logs.entries == e0 + Stamped(o.notes, Timestamps(clock), |e0|)
  }

  /** One setter call followed by its log call; the log entry is stamped
      with the clock reading taken when it is written. */
  method Step(backend: Backend, logs: Logs, q: Request, reply: TagsReply, clock: nat -> Instant,
              ghost e0: seq<LogEntry>, ghost o: Outcome)
    requires Reached(backend, logs, e0, o, clock)
    modifies backend, logs
    ensures Reached(backend, logs, e0, Grouped(o, [q], reply), clock)
  {
    var ok, message := CallSetter(backend, q, reply);
    assert |logs.entries| == |e0| + |o.notes|;
    var now := clock(|logs.entries|);
    StampNext(e0, o.notes, LogNote(Setter(o.after, q, reply)), clock, now);
    Record(logs, ok, message, now);
  }

  /** `update_backend(args, backend, logs)`, with `reply` the outcome of the
      model listing and `clock(k)` the clock reading when log entry `k` is
      written. */
  method UpdateBackend(args: PanelArgs, backend: Backend, logs: Logs, reply: TagsReply, clock: nat -> Instant)
    modifies backend, logs
    ensures Reached(backend, logs, old(logs.entries), UpdateBackendRun(old(backend.Current()), args, reply), clock)
  {
    ghost var e0 := logs.entries;
    ghost var o := Outcome(backend.Current(), []);
    assert Stamped([], Timestamps(clock), |e0|) == [];
    if args.model.Some? && args.model.value != "" {
      Step(backend, logs, SetModel(args.model.value), reply, clock, e0, o);
    }
    o := Grouped(o, ModelGroup(args), reply);
    if args.seed.Some? {
      Step(backend, logs, SetSeed(args.seed.value), reply, clock, e0, o);
    }
    o := Grouped(o, SeedGroup(args), reply);
    if args.temperature.Some? {
      Step(backend, logs, SetTemperature(args.temperature.value), reply, clock, e0, o);
    }
    o := Grouped(o, TemperatureGroup(args), reply);
    if args.reproducible.Some? {
      Step(backend, logs, SetReproducible(args.reproducible.value), reply, clock, e0, o);
    }
    o := Grouped(o, ReproducibleGroup(args), reply);
  }
}

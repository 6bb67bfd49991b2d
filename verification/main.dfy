/** The two notebook commands of aisle/_main.py, taking their already parsed
    arguments: `%%ai` sends a cell to the model and shows the reply, and
    `%panel` applies new settings to the backend. Each command is stated
    first as a function of the session state and its inputs, and then as a
    method on the module-level `Backend`, `Logs` and `Messages` objects. */
module Commands {
  import opened PyValues
  import opened General
  import opened Backends
  import opened Logging
  import opened Chat
  import opened Source

  // ---------------------------------------------------------------------
  // %%ai
  // ---------------------------------------------------------------------

  /** The parsed options of `%%ai`: `--image` (None when absent), `--format`
      ("markdown" unless given) and the `--clear` switch. */
  datatype AiArgs = AiArgs(image: Option<string>, format: string, clear: bool)

  const ClearedNote: string := "Cleared session memory."
  const DisplayedNote: string := "AI response display completed."

  function SendingNote(model: string): string {
    "Sending session request to " + model + "."
  }

  /** The `image_path` argument `assemble` receives. */
  function ImagePath(image: Option<string>): PyValue {
    if image.Some? then PyStr(image.value) else PyNone
  }

  /** The conversation after the optional clear, and the notes logged so far. */
  function Prepared(c: Conversation, args: AiArgs): (r: (Conversation, seq<Note>))
    ensures args.clear ==> r == (Cleared(c), [Note('I', ClearedNote)])
    ensures !args.clear ==> r == (c, [])
  {
    if args.clear then (Cleared(c), [Note('I', ClearedNote)]) else (c, [])
  }

  /** The conversation, the log notes and what is put on screen after one `%%ai`. */
  datatype AiRun = AiRun(after: Conversation, notes: seq<Note>, display: Display)

  /** `ai(line, cell)` on conversation `c` with backend settings `s`: the file
      system `fs` answers the image lookup, `server` the chat request, and
      `clock(start + k)` is the clock reading when the k-th log entry of the
      command is written; the reply is shown at the reading of the entry
      that follows it. */
  function AiFlow(c: Conversation, s: Settings, args: AiArgs, cell: string, fs: string -> FileState,
                  server: ChatRequest -> ChatReply, clock: nat -> Instant, start: nat): AiRun
  {
    var (c1, n1) := Prepared(c, args);
    var a := Assembled(c1, cell, ImagePath(args.image), fs);
    if !a.ok then AiRun(c1, n1 + [Note('E', a.note)], NoDisplay)
    else SendFlow(a.after, n1 + [Note('I', a.note)], s, args.format == "raw", server, clock, start)
  }

  /** The part of `ai` after a successful `assemble`, with `notes` logged so
      far: the request is announced and sent, and the reply is shown when
      it holds a message. */
  function SendFlow(c: Conversation, notes: seq<Note>, s: Settings, raw: bool,
                    server: ChatRequest -> ChatReply, clock: nat -> Instant, start: nat): AiRun
  {
    var n2 := notes + [Note('I', SendingNote(s.model))];
    var l := Launched(c, server(Payload(s, c.history)));
    if !l.ok then AiRun(l.after, n2 + [Note('E', l.note)], NoDisplay)
    else
      var n3 := n2 + [Note('I', l.note)];
      AiRun(l.after, n3 + [Note('I', DisplayedNote)], Shown(l.after, raw, clock(start + |notes| + 2)))
  }

  /** With `--clear` the session is cleared and logged first, so the new user
      turn is the first entry of the fresh history. */
  lemma {:induction false} AiClearsFirst(c: Conversation, s: Settings, args: AiArgs, cell: string, fs: string -> FileState,
                                         server: ChatRequest -> ChatReply, clock: nat -> Instant, start: nat)
    requires args.clear
    ensures var r := AiFlow(c, s, args, cell, fs, server, clock, start);
      |r.notes| >= 2 && r.notes[0] == Note('I', ClearedNote) && r.after.session == c.session + 1
    ensures var r := AiFlow(c, s, args, cell, fs, server, clock, start);
      var u := UserEntry(cell, ImagePath(args.image), fs);
      u.Ok? ==> |r.after.history| >= 1 && r.after.history[0] == u.value
  {
  }

  /** When the cell cannot be assembled (a bad image), an error is logged and
      the command stops: nothing is sent, so any server gives the same run,
      nothing is shown, and the conversation is the one after the optional
      clear. */
  lemma {:induction false} AiStopsOnAssembleError(c: Conversation, s: Settings, args: AiArgs, cell: string, fs: string -> FileState,
                                                  server1: ChatRequest -> ChatReply, server2: ChatRequest -> ChatReply,
                                                  clock: nat -> Instant, start: nat)
    requires UserEntry(cell, ImagePath(args.image), fs).Err?
    ensures var r := AiFlow(c, s, args, cell, fs, server1, clock, start);
      r == AiFlow(c, s, args, cell, fs, server2, clock, start) &&
      r.display == NoDisplay && r.after == Prepared(c, args).0 &&
      r.notes == Prepared(c, args).1 + [Note('E', UserEntry(cell, ImagePath(args.image), fs).message)]
  {
  }

  /** When the request fails or the reply holds no message, an error is logged
      and nothing is shown, but the user turn stays in the history. */
  lemma {:induction false} AiKeepsUserTurnOnLaunchError(c: Conversation, s: Settings, args: AiArgs, cell: string, fs: string -> FileState,
                                                        server: ChatRequest -> ChatReply, clock: nat -> Instant, start: nat)
    requires UserEntry(cell, ImagePath(args.image), fs).Ok?
    requires var c1 := Prepared(c, args).0;
      var history := c1.history + [UserEntry(cell, ImagePath(args.image), fs).value];
      !server(Payload(s, history)).Answer? || server(Payload(s, history)).message.None?
    ensures var r := AiFlow(c, s, args, cell, fs, server, clock, start);
      var c1 := Prepared(c, args).0;
      r.display == NoDisplay &&
      r.after.history == c1.history + [UserEntry(cell, ImagePath(args.image), fs).value] &&
      r.after.users == c1.users + 1 && r.after.ais == c1.ais &&
      |r.notes| >= 1 && r.notes[|r.notes| - 1].level == 'E'
  {
  }

  /** On success the reply's content is shown, raw exactly when the format
      is "raw" and styled under the new session label otherwise, and the
      last log entry reports the display. */
  lemma {:induction false} AiShowsReply(c: Conversation, s: Settings, args: AiArgs, cell: string, fs: string -> FileState,
                                        server: ChatRequest -> ChatReply, clock: nat -> Instant, start: nat)
    requires UserEntry(cell, ImagePath(args.image), fs).Ok?
    requires var c1 := Prepared(c, args).0;
      var history := c1.history + [UserEntry(cell, ImagePath(args.image), fs).value];
      server(Payload(s, history)).Answer? && server(Payload(s, history)).message.Some?
    ensures var r := AiFlow(c, s, args, cell, fs, server, clock, start);
      var c1 := Prepared(c, args).0;
      var history := c1.history + [UserEntry(cell, ImagePath(args.image), fs).value];
      var reply := server(Payload(s, history)).message.value;
      r.after.history == history + [reply] && r.after.ais == c1.ais + 1 &&
      (args.format == "raw" ==> r.display == RawText(reply.content)) &&
      (args.format != "raw" ==> r.display.Styled? && r.display.content == reply.content) &&
      |r.notes| == |Prepared(c, args).1| + 4 && r.notes[|r.notes| - 1] == Note('I', DisplayedNote)
  {
  }

  /** `%%ai` keeps the history length equal to the user count plus the AI
      count, whichever way it ends. */
  lemma {:induction false} AiKeepsConsistent(c: Conversation, s: Settings, args: AiArgs, cell: string, fs: string -> FileState,
                                             server: ChatRequest -> ChatReply, clock: nat -> Instant, start: nat)
    requires Consistent(c)
    ensures Consistent(AiFlow(c, s, args, cell, fs, server, clock, start).after)
  {
  }

  /** `logs.info(message)` at the clock reading of the next entry. */
  method LogInfo(logs: Logs, message: string, clock: nat -> Instant, ghost e0: seq<LogEntry>, ghost notes: seq<Note>)
    requires Logged(logs, e0, notes, clock)
    modifies logs
    ensures Logged(logs, e0, notes + [Note('I', message)], clock)
  {
    assert |logs.entries| == |e0| + |notes|;
    var now := clock(|logs.entries|);
    StampNext(e0, notes, Note('I', message), clock, now);
    logs.Info(message, now);
  }

  /** `logs.error(message)` at the clock reading of the next entry. */
  method LogError(logs: Logs, message: string, clock: nat -> Instant, ghost e0: seq<LogEntry>, ghost notes: seq<Note>)
    requires Logged(logs, e0, notes, clock)
    modifies logs
    ensures Logged(logs, e0, notes + [Note('E', message)], clock)
  {
    assert |logs.entries| == |e0| + |notes|;
    var now := clock(|logs.entries|);
    StampNext(e0, notes, Note('E', message), clock, now);
    var _ := logs.Error(message, now);
  }

  /** `ai(line, cell)` on the module-level objects; returns what is shown. */
  method Ai(args: AiArgs, cell: string, backend: Backend, logs: Logs, messages: Messages,
            fs: string -> FileState, server: ChatRequest -> ChatReply, clock: nat -> Instant) returns (display: Display)
    requires messages.Valid()
    modifies logs, messages
    ensures messages.Valid()
    ensures var r := AiFlow(old(messages.State()), backend.Current(), args, cell, fs, server, clock, |old(logs.entries)|);
      messages.State() == r.after && display == r.display && Logged(logs, old(logs.entries), r.notes, clock)
  {
    ghost var e0 := logs.entries;
    ghost var notes: seq<Note> := [];
    assert Stamped([], Timestamps(clock), |e0|) == [];
    if args.clear {
      messages.Clear();
      LogInfo(logs, "Cleared session memory.", clock, e0, notes);
      notes := notes + [Note('I', ClearedNote)];
    }
    var ok, message := messages.Assemble(cell, ImagePath(args.image), fs);
    if ok {
      LogInfo(logs, message, clock, e0, notes);
      notes := notes + [Note('I', message)];
    } else {
      LogError(logs, message, clock, e0, notes);
      return NoDisplay;
    }
    display := Send(backend, logs, messages, args.format == "raw", server, clock, e0, notes);
  }

  /** The steps of `ai` after a successful `assemble`. */
  method Send(backend: Backend, logs: Logs, messages: Messages, raw: bool, server: ChatRequest -> ChatReply,
              clock: nat -> Instant, ghost e0: seq<LogEntry>, ghost notes: seq<Note>) returns (display: Display)
    requires messages.Valid() && Logged(logs, e0, notes, clock)
    modifies logs, messages
    ensures messages.Valid()
    ensures var r := SendFlow(old(messages.State()), notes, backend.Current(), raw, server, clock, |e0|);
      messages.State() == r.after && display == r.display && Logged(logs, e0, r.notes, clock)
  {
    ghost var c := messages.State();
    var ok, message := Dispatch(backend, logs, messages, server, clock, e0, notes);
    ghost var sent := notes + [Note('I', SendingNote(backend.model))];
    if ok {
      LogInfo(logs, message, clock, e0, sent);
    } else {
      LogError(logs, message, clock, e0, sent);
      return NoDisplay;
    }
    ghost var received := sent + [Note('I', message)];
    assert clock(|e0| + |received|) == clock(|e0| + |notes| + 2);
    display := ShowReply(logs, messages, raw, clock, e0, received);
  }

  /** The request is announced in the log and then sent. */
  method Dispatch(backend: Backend, logs: Logs, messages: Messages, server: ChatRequest -> ChatReply,
                  clock: nat -> Instant, ghost e0: seq<LogEntry>, ghost notes: seq<Note>) returns (ok: bool, message: string)
    requires messages.Valid() && Logged(logs, e0, notes, clock)
    modifies logs, messages
    ensures messages.Valid()
    ensures Logged(logs, e0, notes + [Note('I', SendingNote(backend.model))], clock)
    ensures Step(ok, message, messages.State()) == Launched(old(messages.State()), server(Payload(backend.Current(), old(messages.history))))
  {
    LogInfo(logs, SendingNote(backend.model), clock, e0, notes);
    ok, message := messages.Launch(backend, server);
  }

  /** `messages.show(raw)` at the clock reading of the next log entry, then
      the log entry reporting the display. */
  method ShowReply(logs: Logs, messages: Messages, raw: bool, clock: nat -> Instant,
                   ghost e0: seq<LogEntry>, ghost notes: seq<Note>) returns (display: Display)
    requires Logged(logs, e0, notes, clock)
    modifies logs
    ensures display == Shown(messages.State(), raw, clock(|e0| + |notes|))
    ensures Logged(logs, e0, notes + [Note('I', DisplayedNote)], clock)
  {
    assert |logs.entries| == |e0| + |notes|;
    var now := clock(|logs.entries|);
    assert now == clock(|e0| + |notes|);
    display := messages.Show(raw, now);
    ghost var st := messages.State();
    LogInfo(logs, "AI response display completed.", clock, e0, notes);
    assert messages.State() == st;
  }

  // ---------------------------------------------------------------------
  // %panel
  // ---------------------------------------------------------------------

  /** The values `argparse` hands to `panel`: `--model` as given, `--seed`
      through `int`, `--temperature` through `float`, and `--reproducible`
      as the raw string that `bool` is applied to; None where absent. */
  datatype PanelLine = PanelLine(model: Option<string>, seed: Option<int>, temperature: Option<Float>,
                                 reproducible: Option<string>)

  /** The typed arguments: `bool(text)` is true for every non-empty string. */
  function ParsePanelArgs(p: PanelLine): (a: PanelArgs)
    ensures a.model == p.model
    ensures a.seed.Some? <==> p.seed.Some?
    ensures p.seed.Some? ==> a.seed.value == PyInt(p.seed.value)
    ensures a.temperature.Some? <==> p.temperature.Some?
    ensures p.temperature.Some? ==> a.temperature.value == PyFloat(p.temperature.value)
    ensures a.reproducible.Some? <==> p.reproducible.Some?
    ensures p.reproducible.Some? ==> a.reproducible.value == PyBool(p.reproducible.value != "")
  {
    PanelArgs(p.model,
              if p.seed.Some? then Some(PyInt(p.seed.value)) else None,
              if p.temperature.Some? then Some(PyFloat(p.temperature.value)) else None,
              if p.reproducible.Some? then Some(PyBool(p.reproducible.value != "")) else None)
  }

  /** `any(par is not None for par in [...])`. */
  predicate AnyGiven(a: PanelArgs) {
    a.model.Some? || a.seed.Some? || a.temperature.Some? || a.reproducible.Some?
  }

  /** The guarded `update_backend` call of `panel(line)`. */
  function PanelUpdate(s: Settings, a: PanelArgs, reply: TagsReply): Outcome {
    if AnyGiven(a) then UpdateBackendRun(s, a, reply) else Outcome(s, [])
  }

  /** What building the settings tab writes to the log: its model drop-down
      asks for the model list again, and a failed listing is logged as an
      error with the listing's message. */
  function SettingsTabNotes(listing: TagsReply): seq<Note> {
    match GetModelList(listing)
    case Unavailable(message) => [Note('E', message)]
    case Listed(_) => []
  }

  /** What `panel(line)` does to the settings and the log: the guarded
      update, then the settings tab's own listing. `reply` answers the
      listing of `update_model`, `listing` the one of the drop-down. */
  function PanelRun(s: Settings, a: PanelArgs, reply: TagsReply, listing: TagsReply): Outcome {
    var o := PanelUpdate(s, a, reply);
    Outcome(o.after, o.notes + SettingsTabNotes(listing))
  }

  /** The settings tab never changes the settings, and it adds to the log
      exactly one error entry, carrying the listing's failure message, when
      its listing fails, and nothing otherwise; so even with no option given
      `%panel` can log an error. */
  lemma {:induction false} PanelLogsListingFailure(s: Settings, a: PanelArgs, reply: TagsReply, listing: TagsReply)
    ensures PanelRun(s, a, reply, listing).after == PanelUpdate(s, a, reply).after
    ensures listing.Tags? ==> PanelRun(s, a, reply, listing).notes == PanelUpdate(s, a, reply).notes
    ensures !listing.Tags? ==>
      PanelRun(s, a, reply, listing).notes == PanelUpdate(s, a, reply).notes + [Note('E', GetModelList(listing).message)]
    ensures !AnyGiven(a) ==> PanelRun(s, a, reply, listing) == Outcome(s, SettingsTabNotes(listing))
  {
  }

  /** The guard before `update_backend` changes nothing: with no option
      given, `update_backend` would make no call and log nothing. */
  lemma {:induction false} PanelGuardRedundant(s: Settings, a: PanelArgs, reply: TagsReply)
    ensures PanelUpdate(s, a, reply) == UpdateBackendRun(s, a, reply)
    ensures !AnyGiven(a) ==> PanelUpdate(s, a, reply) == Outcome(s, [])
  {
  }

  /** `--reproducible False` switches reproducibility on, since `bool("False")`
      is true; only an empty string switches it off. */
  lemma {:induction false} ReproducibleFalseTurnsOn(s: Settings, reply: TagsReply)
    ensures PanelUpdate(s, ParsePanelArgs(PanelLine(None, None, None, Some("False"))), reply).after.reproducible
    ensures !PanelUpdate(s, ParsePanelArgs(PanelLine(None, None, None, Some(""))), reply).after.reproducible
  {
    FinalReproducible(s, ParsePanelArgs(PanelLine(None, None, None, Some("False"))), reply);
    FinalReproducible(s, ParsePanelArgs(PanelLine(None, None, None, Some(""))), reply);
  }

  /** The parsed seed, temperature and switch are of the types their setters
      ask for, so each given one is stored (the temperature clamped); only
      the model can be refused. */
  lemma {:induction false} PanelTypedValuesApplied(s: Settings, p: PanelLine, reply: TagsReply)
    ensures var t := PanelUpdate(s, ParsePanelArgs(p), reply).after;
      t.seed == (if p.seed.Some? then PyInt(p.seed.value) else s.seed) &&
      t.temperature == (if p.temperature.Some? then Clamp(p.temperature.value) else s.temperature) &&
      t.reproducible == (if p.reproducible.Some? then p.reproducible.value != "" else s.reproducible)
  {
    var a := ParsePanelArgs(p);
    PanelGuardRedundant(s, a, reply);
    FinalSeed(s, a, reply);
    FinalTemperature(s, a, reply);
    FinalReproducible(s, a, reply);
  }

  /** The settings tab's model drop-down: `get_model_list` once more, and
      `logs.error` with its message when it fails. */
  method ListForSettingsTab(logs: Logs, listing: TagsReply, clock: nat -> Instant,
                            ghost e0: seq<LogEntry>, ghost notes: seq<Note>)
    requires Logged(logs, e0, notes, clock)
    modifies logs
    ensures Logged(logs, e0, notes + SettingsTabNotes(listing), clock)
  {
    var models := GetModelList(listing);
    if models.Unavailable? {
      LogError(logs, models.message, clock, e0, notes);
    } else {
      assert notes + SettingsTabNotes(listing) == notes;
    }
  }

  /** The guarded call: `update_backend` runs when at least one option is
      given. */
  method UpdateIfAnyGiven(args: PanelArgs, backend: Backend, logs: Logs, reply: TagsReply, clock: nat -> Instant)
    modifies backend, logs
    ensures Reached(backend, logs, old(logs.entries), PanelUpdate(old(backend.Current()), args, reply), clock)
  {
    if args.model.Some? || args.seed.Some? || args.temperature.Some? || args.reproducible.Some? {
      UpdateBackend(args, backend, logs, reply, clock);
    } else {
      assert Stamped([], Timestamps(clock), |logs.entries|) == [];
    }
  }

  /** `panel(line)`: the guarded `update_backend`, then the settings tab's
      model drop-down lists the models again and logs a failed listing. */
  method Panel(p: PanelLine, backend: Backend, logs: Logs, reply: TagsReply, listing: TagsReply, clock: nat -> Instant)
    modifies backend, logs
    ensures Reached(backend, logs, old(logs.entries), PanelRun(old(backend.Current()), ParsePanelArgs(p), reply, listing), clock)
  {
    ghost var o := PanelUpdate(backend.Current(), ParsePanelArgs(p), reply);
    var args := ParsePanelArgs(p);
    UpdateIfAnyGiven(args, backend, logs, reply, clock);
    ListForSettingsTab(logs, listing, clock, old(logs.entries), o.notes);
  }
}

/** The backend settings of aisle/_backend.py: model, seed, temperature and
    reproducibility, with the fixed API address and streaming flag. The
    setters are stated first as functions on a settings value and then as
    the methods of the `Backend` object, which update its fields in place. */
module Backends {
  import opened PyStrings
  import opened PyValues
  import opened General

  /** The API address; no setter changes it. */
  const Url: string := "http://example.com/aisle/"

  /** Streaming output is off; no setter changes it. */
  const Stream: bool := false

  /** The four settings a user can change. */
  datatype Settings = Settings(model: string, seed: PyValue, temperature: Float, reproducible: bool)

  const DefaultTemperature: Float := Finite(0.4, "0.4")

  /** The class-level defaults. */
  const Defaults: Settings := Settings("model:default", PyInt(0), DefaultTemperature, false)

  /** What every reachable settings value satisfies: the seed passed the
      `int` check and the temperature lies in [0, 1]. */
  predicate Valid(s: Settings) {
    IsInt(s.seed) && s.temperature.Finite? && 0.0 <= s.temperature.value <= 1.0
  }

  /** The `(success, message)` pair of a setter and the settings after it. */
  datatype Update = Update(ok: bool, note: string, after: Settings)

  /** `update_model(new_model)` given the reply of the model listing: the
      model changes only to a listed name; a failed listing or an unknown
      name leaves everything as it was. */
  function ModelUpdate(s: Settings, newModel: string, reply: TagsReply): (u: Update)
    ensures u.after == s.(model := u.after.model)
    ensures u.ok <==> reply.Tags? && newModel in GetModelList(reply).names
    ensures u.after.model == if u.ok then newModel else s.model
    ensures !reply.Tags? ==> u.note == GetModelList(reply).message
    ensures Valid(s) ==> Valid(u.after)
  {
    var listing := GetModelList(reply);
    if listing.Unavailable? then Update(false, listing.message, s)
    else if newModel in listing.names then Update(true, "Changed backend model to " + newModel + ".", s.(model := newModel))
    else Update(false, "Model " + newModel + " is invalid, update failed.", s)
  }

  /** `update_seed(new_seed)`: accepted exactly when the value is an `int`
      (a `bool` included); only the seed changes. */
  function SeedUpdate(s: Settings, newSeed: PyValue): (u: Update)
    ensures u.after == s.(seed := u.after.seed)
    ensures u.ok <==> IsInt(newSeed)
    ensures u.after.seed == if u.ok then newSeed else s.seed
    ensures Valid(s) ==> Valid(u.after)
  {
    if !IsInt(newSeed) then Update(false, "Seed " + Str(newSeed) + " type error, must be an integer (int).", s)
    else Update(true, "Seed is now set to " + Str(newSeed) + ".", s.(seed := newSeed))
  }

  /** `update_reproducible(new_reproducible)`: accepted exactly when the value
      is a `bool`; only the switch changes. */
  function ReproducibleUpdate(s: Settings, newReproducible: PyValue): (u: Update)
    ensures u.after == s.(reproducible := u.after.reproducible)
    ensures u.ok <==> newReproducible.PyBool?
    ensures u.after.reproducible == if u.ok then newReproducible.b else s.reproducible
    ensures Valid(s) ==> Valid(u.after)
  {
    if !newReproducible.PyBool? then
      Update(false, "Reproducibility " + Str(newReproducible) + " type error, must be boolean (bool).", s)
    else
      var on := newReproducible.b;
      Update(true, "Conversation reproducibility has been set to " + (if on then "enabled" else "disabled") + ".",
             s.(reproducible := on))
  }

  /** `update_temperature(new_temperature)`: accepted exactly when the value
      is a `float` (an `int` is refused); the stored temperature is the value
      clamped to [0, 1], and only the temperature changes. */
  function TemperatureUpdate(s: Settings, newTemperature: PyValue): (u: Update)
    ensures u.after == s.(temperature := u.after.temperature)
    ensures u.ok <==> newTemperature.PyFloat?
    ensures u.ok ==> u.after.temperature == Clamp(newTemperature.f)
    ensures u.ok ==> u.after.temperature.Finite? && 0.0 <= u.after.temperature.value <= 1.0
    ensures !u.ok ==> u.after == s
    ensures Valid(s) ==> Valid(u.after)
  {
    if !newTemperature.PyFloat? then
      Update(false, "Temperature " + Str(newTemperature) + " type error, must be a float.", s)
    else
      var value := Clamp(newTemperature.f);
      Update(true, "Temperature is now set to " + FloatRepr(value) + ".", s.(temperature := value))
  }

  /** The rows `show` collects: a blank header, the separator, then model,
      temperature, reproducibility and seed. */
  function SheetRows(s: Settings): (rows: seq<string>)
    ensures |rows| == 6
  {
    ["| | |", "|-|-|",
     "|**model**|" + s.model + "|",
     "|**temperature**|" + FloatRepr(s.temperature) + "|",
     "|**reproducible**|" + BoolText(s.reproducible) + "|",
     "|**seed**|" + Str(s.seed) + "|"]
  }

  /** The Markdown table `show` displays: the rows joined by "\n ". */
  function Sheet(s: Settings): string {
    Join(SheetRows(s), "\n ")
  }

  /** When the model name and the temperature text hold no newline, the table
      shows one row per line, in the order of `SheetRows`, each row after the
      first behind one space. */
  lemma {:induction false} SheetLines(s: Settings)
    requires Valid(s)
    requires '\n' !in s.model && '\n' !in FloatRepr(s.temperature)
    ensures var lines := SplitOn(Sheet(s), '\n');
      |lines| == 6 && lines[0] == SheetRows(s)[0] &&
      forall i :: 1 <= i < 6 ==> lines[i] == " " + SheetRows(s)[i]
  {
    var rows := SheetRows(s);
    assert '\n' !in Str(s.seed);
    assert '\n' !in BoolText(s.reproducible);
    forall i | 0 <= i < |rows| ensures '\n' !in rows[i] {
    }
    JoinedRowsSplit("", rows);
    assert "" + Join(rows, "\n ") == Sheet(s);
    assert "" + rows[0] == rows[0];
  }

  /** The backend object: its four settable fields and the two fixed ones. */
  class Backend {
    const url: string := Url
    const stream: bool := Stream
    var model: string
    var seed: PyValue
    var temperature: Float
    var reproducible: bool

    /** The settings the object currently holds. */
    function Current(): Settings
      reads this
    {
      Settings(model, seed, temperature, reproducible)
    }

    constructor ()
      ensures Current() == Defaults && Valid(Current())
      ensures url == "http://example.com/aisle/" && !stream
    {
      model := "model:default";
      seed := PyInt(0);
      temperature := DefaultTemperature;
      reproducible := false;
    }

    method UpdateModel(newModel: string, reply: TagsReply) returns (ok: bool, note: string)
      modifies this
      ensures Update(ok, note, Current()) == ModelUpdate(old(Current()), newModel, reply)
    {
      var listing := GetModelList(reply);
      if !listing.Listed? {
        return false, listing.message;
      }
      if newModel in listing.names {
        model := newModel;
        return true, "Changed backend model to " + model + ".";
      }
      return false, "Model " + newModel + " is invalid, update failed.";
    }

    method UpdateSeed(newSeed: PyValue) returns (ok: bool, note: string)
      modifies this
      ensures Update(ok, note, Current()) == SeedUpdate(old(Current()), newSeed)
    {
      if !IsInt(newSeed) {
        return false, "Seed " + Str(newSeed) + " type error, must be an integer (int).";
      }
      seed := newSeed;
      return true, "Seed is now set to " + Str(seed) + ".";
    }

    method UpdateReproducible(newReproducible: PyValue) returns (ok: bool, note: string)
      modifies this
      ensures Update(ok, note, Current()) == ReproducibleUpdate(old(Current()), newReproducible)
    {
      if !newReproducible.PyBool? {
        return false, "Reproducibility " + Str(newReproducible) + " type error, must be boolean (bool).";
      }
      reproducible := newReproducible.b;
      return true, "Conversation reproducibility has been set to " + (if reproducible then "enabled" else "disabled") + ".";
    }

    method UpdateTemperature(newTemperature: PyValue) returns (ok: bool, note: string)
      modifies this
      ensures Update(ok, note, Current()) == TemperatureUpdate(old(Current()), newTemperature)
    {
      if !newTemperature.PyFloat? {
        return false, "Temperature " + Str(newTemperature) + " type error, must be a float.";
      }
      var value := Max(Zero, Min(newTemperature.f, One));
      temperature := value;
      return true, "Temperature is now set to " + FloatRepr(temperature) + ".";
    }

    /** `show()`: the settings table, built row by row and joined. */
    method Show() returns (sheet: string)
      ensures sheet == Sheet(Current())
    {
      var chars: seq<string> := [];
      chars := chars + ["| | |"];
      chars := chars + ["|-|-|"];
      chars := chars + ["|**model**|" + model + "|"];
      chars := chars + ["|**temperature**|" + FloatRepr(temperature) + "|"];
      chars := chars + ["|**reproducible**|" + BoolText(reproducible) + "|"];
      chars := chars + ["|**seed**|" + Str(seed) + "|"];
      assert chars == SheetRows(Current());
      sheet := Join(chars, "\n ");
    }
  }
}

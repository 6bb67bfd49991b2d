/** The helpers of aisle/_general.py with their I/O made explicit: the UTC
    timestamp (the clock reading is an input), the model-name list (the reply
    of the backend's tag listing is an input) and the image check and
    encoding chain (the file system is an input). */
module General {
  import opened PyStrings
  import opened PyValues

  // ---------------------------------------------------------------------
  // generate_timestamp
  // ---------------------------------------------------------------------

  /** A reading of the UTC clock, field by field as `datetime` holds it. */
  datatype Instant = Instant(year: nat, month: nat, day: nat, hour: nat, minute: nat, second: nat, microsecond: nat)

  /** The ranges `datetime` guarantees for its fields. */
  predicate ValidInstant(t: Instant) {
    1 <= t.year <= 9999 && 1 <= t.month <= 12 && 1 <= t.day <= 31 &&
    t.hour < 24 && t.minute < 60 && t.second < 60 && t.microsecond < 1000000
  }

  /** `%Y-%m-%d %H:%M:%S`. */
  function DateTimeText(t: Instant): string {
    Pad(t.year, 4) + "-" + Pad(t.month, 2) + "-" + Pad(t.day, 2) + " " +
    Pad(t.hour, 2) + ":" + Pad(t.minute, 2) + ":" + Pad(t.second, 2)
  }

  /** `strftime("%Y-%m-%d %H:%M:%S.%f")`: `%f` is six digits of microseconds. */
  function Strftime(t: Instant): string {
    DateTimeText(t) + "." + Pad(t.microsecond, 6)
  }

  /** `s[:-3]`: the prefix of `s` that leaves out its last three
      characters, empty when there are fewer. */
  function DropLast3(s: string): (r: string)
    ensures r <= s
    ensures |r| == if |s| >= 3 then |s| - 3 else 0
  {
    if |s| >= 3 then s[..|s| - 3] else ""
  }

  /** `generate_timestamp()` at clock reading `t`: the date and time to the
      millisecond, then " UTC". */
  function GenerateTimestamp(t: Instant): string {
    DateTimeText(t) + "." + Pad(t.microsecond / 1000, 3) + " UTC"
  }

  /** The timestamp is the `strftime` text with its last three characters
      (the sub-millisecond digits of `%f`) cut off and " UTC" appended; it
      is 27 characters long. */
  lemma {:induction false} TimestampShape(t: Instant)
    ensures GenerateTimestamp(t) == DropLast3(Strftime(t)) + " UTC"
    ensures |GenerateTimestamp(t)| == 27
  {
    var n := t.microsecond;
    assert n / 10 / 10 / 10 == n / 1000;
    var six := Pad(n, 6);
    var low := [DigitChar(n / 100 % 10), DigitChar(n / 10 % 10), DigitChar(n % 10)];
    assert six == Pad(n / 1000, 3) + low by {
      assert Pad(n, 6) == Pad(n / 10, 5) + [DigitChar(n % 10)];
      assert Pad(n / 10, 5) == Pad(n / 10 / 10, 4) + [DigitChar(n / 10 % 10)];
      assert n / 10 / 10 == n / 100;
      assert Pad(n / 100, 4) == Pad(n / 100 / 10, 3) + [DigitChar(n / 100 % 10)];
      assert n / 100 / 10 == n / 1000;
    }
    var s := Strftime(t);
    assert s == DateTimeText(t) + "." + Pad(n / 1000, 3) + low;
    assert s[..|s| - 3] == DateTimeText(t) + "." + Pad(n / 1000, 3);
  }

  /** For a valid clock reading, characters 20 to 22 of the timestamp read
      back as the milliseconds of the reading. */
  lemma {:induction false} TimestampMilliseconds(t: Instant)
    requires ValidInstant(t)
    ensures ParseDecimal(GenerateTimestamp(t)[20..23]) == t.microsecond / 1000
  {
    TimestampShape(t);
    var ms := Pad(t.microsecond / 1000, 3);
    assert GenerateTimestamp(t)[20..23] == ms;
    PadRoundTrip(t.microsecond / 1000, 3);
  }

  // ---------------------------------------------------------------------
  // get_model_list
  // ---------------------------------------------------------------------

  /** One item of the `models` array of the tag listing. */
  datatype ModelEntry = ModelEntry(name: string)

  /** What the GET of `<url>api/tags` produced: a requests exception
      (connection, timeout, HTTP status, and with requests 2.27 or later a
      body that is not JSON), a `ValueError` that is not a requests
      exception, or a JSON object that may or may not hold a `models` key. */
  datatype TagsReply =
    | RequestFailed(detail: string)
    | ParseFailed(detail: string)
    | Tags(models: Option<seq<ModelEntry>>)

  /** The `(success, names-or-message)` pair returned by `get_model_list`. */
  datatype ModelListing = Listed(names: seq<string>) | Unavailable(message: string)

  /** `get_model_list(url)` given the reply of the listing request: the
      `name` of every entry under `models`, in order, with a missing key read
      as an empty list; errors become a failure message instead of raising. */
  function GetModelList(reply: TagsReply): (r: ModelListing)
    ensures r.Listed? <==> reply.Tags?
    ensures reply.Tags? && reply.models.None? ==> r.names == []
    ensures reply.Tags? && reply.models.Some? ==>
      |r.names| == |reply.models.value| &&
      forall i :: 0 <= i < |r.names| ==> r.names[i] == reply.models.value[i].name
    ensures reply.RequestFailed? ==> r.message == "Error occurred while accessing model list: " + reply.detail
    ensures reply.ParseFailed? ==> r.message == "Error occurred while parsing model list: " + reply.detail
  {
    match reply
    case RequestFailed(e) => Unavailable("Error occurred while accessing model list: " + e)
    case ParseFailed(e) => Unavailable("Error occurred while parsing model list: " + e)
    case Tags(models) =>
      var items := if models.Some? then models.value else [];
      Listed(seq(|items|, i requires 0 <= i < |items| => items[i].name))
  }

  /** A model name is offered exactly when some listed entry carries it. */
  lemma {:induction false} ListedNames(entries: seq<ModelEntry>, name: string)
    ensures name in GetModelList(Tags(Some(entries))).names <==> exists i :: 0 <= i < |entries| && entries[i].name == name
  {
    var names := GetModelList(Tags(Some(entries))).names;
    if name in names {
      var i :| 0 <= i < |names| && names[i] == name;
      assert entries[i].name == name;
    }
    if exists i :: 0 <= i < |entries| && entries[i].name == name {
      var i :| 0 <= i < |entries| && entries[i].name == name;
      assert names[i] == name;
    }
  }

  // ---------------------------------------------------------------------
  // image2base64
  // ---------------------------------------------------------------------

  const ValidExtensions: seq<string> := [".jpg", ".jpeg", ".png"]

  /** `path.lower().endswith(('.jpg', '.jpeg', '.png'))`. */
  predicate HasImageExtension(path: string) {
    EndsWithAny(Lower(path), ValidExtensions)
  }

  /** What the file system holds at a path: no regular file, a file whose
      opening or reading fails, or a file whose bytes have the given base64
      encoding. */
  datatype FileState = Missing | Unreadable(detail: string) | Encoded(base64: string)

  const InvalidPathMessage: string := "The specified image path is invalid."

  function BadFormatMessage(path: string): string {
    "The file '" + path + "' is not a valid image format. Supported formats are: " + Join(ValidExtensions, ", ") + "."
  }

  function NotFoundMessage(path: string): string {
    "Image file '" + path + "' not found."
  }

  function OpenErrorMessage(detail: string): string {
    "Error occurred while opening the file: " + detail
  }

  /** `image2base64(path)` against the file system `fs`. The checks run in the
      order path, extension, existence, read; a path that fails one of the
      first two is rejected whatever the file system holds. */
  function Image2Base64(path: PyValue, fs: string -> FileState): (r: Result<string>)
    ensures r.Ok? <==> path.PyStr? && !IsBlank(path.s) && HasImageExtension(path.s) && fs(path.s).Encoded?
    ensures r.Ok? ==> r.value == fs(path.s).base64
    ensures !path.PyStr? || IsBlank(path.s) ==> r == Err(InvalidPathMessage)
    ensures path.PyStr? && !IsBlank(path.s) && !HasImageExtension(path.s) ==> r == Err(BadFormatMessage(path.s))
    ensures path.PyStr? && !IsBlank(path.s) && HasImageExtension(path.s) && fs(path.s) == Missing ==>
      r == Err(NotFoundMessage(path.s))
    ensures path.PyStr? && !IsBlank(path.s) && HasImageExtension(path.s) && fs(path.s).Unreadable? ==>
      r == Err(OpenErrorMessage(fs(path.s).detail))
  {
    if !path.PyStr? then Err(InvalidPathMessage)
    else
      StripEmptyIffBlank(path.s);
      if Strip(path.s) == "" then Err(InvalidPathMessage)
      else if !HasImageExtension(path.s) then Err(BadFormatMessage(path.s))
      else
        match fs(path.s)
        case Missing => Err(NotFoundMessage(path.s))
        case Unreadable(e) => Err(OpenErrorMessage(e))
        case Encoded(code) => Ok(code)
  }

  /** A path rejected by the path or the extension check gets the same
      answer under every file system: no file is looked at. */
  lemma {:induction false} ChecksPrecedeFileAccess(path: PyValue, fs1: string -> FileState, fs2: string -> FileState)
    requires !path.PyStr? || IsBlank(path.s) || !HasImageExtension(path.s)
    ensures Image2Base64(path, fs1).Err?
    ensures Image2Base64(path, fs1) == Image2Base64(path, fs2)
  {
  }

  /** The extension check ignores case: "cat.JPG" and "x.Jpeg" pass. */
  lemma {:induction false} ExtensionIgnoresCase()
    ensures HasImageExtension("cat.JPG") && HasImageExtension("x.Jpeg")
  {
    assert Lower("cat.JPG")[3..] == ".jpg";
    assert EndsWith(Lower("cat.JPG"), ValidExtensions[0]);
    assert Lower("x.Jpeg")[1..] == ".jpeg";
    assert EndsWith(Lower("x.Jpeg"), ValidExtensions[1]);
  }

  /** Every accepted suffix has at least four characters and ends in 'g', so
      a shorter name, or one whose last character is not 'g' or 'G', is
      refused. */
  lemma {:induction false} SuffixEndsInG(path: string)
    requires |path| < 4 || LowerChar(path[|path| - 1]) != 'g'
    ensures !HasImageExtension(path)
  {
    var low := Lower(path);
    forall i | 0 <= i < |ValidExtensions| ensures !EndsWith(low, ValidExtensions[i]) {
      var e := ValidExtensions[i];
      assert |e| >= 4 && e[|e| - 1] == 'g';
      if |e| <= |low| {
        assert low[|low| - |e|..][|e| - 1] == low[|low| - 1] == LowerChar(path[|path| - 1]);
      }
    }
  }

  /** The extension check ignores case, for every path: a path passes
      exactly when its lower-cased form does. */
  lemma {:induction false} ExtensionCaseInsensitive(path: string)
    ensures HasImageExtension(path) <==> HasImageExtension(Lower(path))
  {
    LowerIdempotent(path);
  }

  /** The extension check looks only at the last four or five characters of
      the name, whatever their case. */
  lemma {:induction false} ExtensionBySuffix(path: string)
    ensures HasImageExtension(path) <==>
      (|path| >= 4 && Lower(path[|path| - 4..]) in {".jpg", ".png"}) ||
      (|path| >= 5 && Lower(path[|path| - 5..]) == ".jpeg")
  {
    var low := Lower(path);
    if |path| >= 4 {
      LowerSuffix(path, |path| - 4);
      assert EndsWith(low, ".jpg") <==> Lower(path[|path| - 4..]) == ".jpg";
      assert EndsWith(low, ".png") <==> Lower(path[|path| - 4..]) == ".png";
    }
    if |path| >= 5 {
      LowerSuffix(path, |path| - 5);
      assert EndsWith(low, ".jpeg") <==> Lower(path[|path| - 5..]) == ".jpeg";
    }
    assert HasImageExtension(path) <==> EndsWith(low, ".jpg") || EndsWith(low, ".jpeg") || EndsWith(low, ".png") by {
      assert ValidExtensions[0] == ".jpg" && ValidExtensions[1] == ".jpeg" && ValidExtensions[2] == ".png";
    }
  }

  /** Only the end of the name counts and the dot is part of the suffix:
      "cat.gif", "cat.png.zip" and a bare "png" fail the check. */
  lemma {:induction false} ExtensionNeedsSuffix()
    ensures !HasImageExtension("cat.gif") && !HasImageExtension("cat.png.zip") && !HasImageExtension("png")
  {
    SuffixEndsInG("cat.gif");
    SuffixEndsInG("cat.png.zip");
    SuffixEndsInG("png");
  }
}

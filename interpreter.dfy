/**
  `hyprlib::interpreter`: turning one line read from Hyprland's event socket,
  `TAG>>PAYLOAD`, into an `Event`.
 */
module Interpreter {
  import opened RustStr
  import opened Events
  import opened Catalog
  import opened Agreement

  /** `EventInterpretError`, displayed as "Failed to interpret event: " followed by its message. */
  datatype EventInterpretError = InterpretationError(message: string)

  /** The message `interpret` reports for a line without the delimiter. */
  function InvalidFormatMessage(raw: string): string
  {
    "Invalid event format: " + raw
  }

  /** The outcome `interpret` has for a line cut into `eventType` and `data`: `Ok(Event::from(..))`. */
  function Interpreted(eventType: string, data: string): Outcome<Result<Event, EventInterpretError>>
  {
    var e :- From(eventType, data);
    Returns(Ok(e))
  }

  /** `Interpreter { raw }`: a borrowed line, read and never changed. */
  datatype Interpreter = Interpreter(raw: string)
  {
    /**
      `Interpreter::interpret`: the line is cut at the first ">>"; without one
      it is an `InterpretationError`, otherwise the tag and the payload go to
      `Event::from`, whose panics pass through.
     */
    function Interpret(): (r: Outcome<Result<Event, EventInterpretError>>)
      ensures r.Returns? && r.value.Err? ==> r.value.error == InterpretationError(InvalidFormatMessage(raw))
      ensures r.Panics? ==> Contains(raw, ">>")
    {
      match SplitOnce(raw, ">>")
      case None => Returns(Err(InterpretationError(InvalidFormatMessage(raw))))
      case Some((eventType, data)) => Interpreted(eventType, data)
    }
  }

  /** `Interpreter::new` */
  function New(raw: string): (i: Interpreter)
    ensures i.raw == raw
  {
    Interpreter(raw)
  }

  // ---------------------------------------------------------------------------
  // How a line is cut
  // ---------------------------------------------------------------------------

  /** A line is rejected, with the line in the message, exactly when it has no ">>". */
  lemma NoDelimiter(raw: string)
    ensures New(raw).Interpret() == Returns(Err(InterpretationError(InvalidFormatMessage(raw)))) <==> !Contains(raw, ">>")
  {
    if Contains(raw, ">>") {
      var (eventType, data) := SplitOnce(raw, ">>").value;
      match From(eventType, data)
      case Returns(_) =>
      case Panics(_) =>
    }
  }

  /**
    A line is cut at its first ">>": whenever `raw` is `eventType`, ">>",
    `data` and no ">>" starts inside `eventType`, the line means what
    `Event::from(eventType, data)` means, and the interpreter adds no failure
    of its own.
   */
  lemma CutAtFirstDelimiter(raw: string, eventType: string, data: string)
    requires raw == eventType + ">>" + data
    requires forall j: nat :: j < |eventType| ==> !OccursAt(raw, ">>", j)
    ensures New(raw).Interpret() == Interpreted(eventType, data)
  {
    SplitOnceIff(raw, ">>", eventType, data);
  }

  /** Every line with a ">>" has a first one: its tag has no ">>" and the rest is the payload. */
  lemma FirstDelimiter(raw: string) returns (eventType: string, data: string)
    requires Contains(raw, ">>")
    ensures raw == eventType + ">>" + data && !Contains(eventType, ">>")
    ensures forall j: nat :: j < |eventType| ==> !OccursAt(raw, ">>", j)
    ensures New(raw).Interpret() == Interpreted(eventType, data)
  {
    eventType, data := SplitOnce(raw, ">>").value.0, SplitOnce(raw, ">>").value.1;
  }

  /**
    A tag without '>' is cut off whole, and everything after its ">>",
    further ">>" included, is the payload.
   */
  lemma TaggedLine(eventType: string, data: string)
    requires '>' !in eventType
    ensures New(eventType + ">>" + data).Interpret() == Interpreted(eventType, data)
  {
    SplitOnceAt(eventType, ">>", data);
  }

  // ---------------------------------------------------------------------------
  // Examples
  // ---------------------------------------------------------------------------

  /** A `workspace` line names the workspace with everything after the first ">>", further ">>" included. */
  lemma WorkspaceLine(name: string)
    ensures New("workspace" + ">>" + name).Interpret() == Returns(Ok(Event.Workspace(Workspace.Workspace(name))))
  {
    TaggedLine("workspace", name);
    WorkspaceDispatch(name);
  }

  /** A line without '>' is rejected with an error, not a panic. */
  lemma LineWithoutDelimiter(raw: string)
    requires '>' !in raw
    ensures New(raw).Interpret() == Returns(Err(InterpretationError("Invalid event format: " + raw)))
  {
    FirstCharAbsent(raw, ">>");
    NoDelimiter(raw);
  }

  /** A `movewindow` payload without a comma makes the decoder panic through the interpreter. */
  lemma MoveWindowWithoutComma(data: string)
    requires ',' !in data
    ensures New("movewindow" + ">>" + data).Interpret() == Panics(UnwrapNone)
  {
    TaggedLine("movewindow", data);
    MoveWindowDispatch(data);
    SplitFirstCommaSpec(data);
  }

  /** A line with a tag the catalog does not list reads as `ConfigReloaded`. */
  lemma UnknownTagLine(eventType: string, data: string)
    requires '>' !in eventType && DescriptorOf(eventType).None?
    ensures New(eventType + ">>" + data).Interpret() == Returns(Ok(ConfigReloaded))
  {
    TaggedLine(eventType, data);
    FromFollowsCatalog(eventType, data);
  }

  // ---------------------------------------------------------------------------
  // Lines Hyprland writes
  // ---------------------------------------------------------------------------

  /** The line Hyprland writes for an event. */
  function Line(e: Event): string
  {
    TagOf(e) + ">>" + Payload(e)
  }

  /** The line written for a wire-safe event is interpreted as that event. */
  lemma LineRoundTrip(e: Event)
    requires WireSafe(e)
    ensures New(Line(e)).Interpret() == Returns(Ok(e))
  {
    TagWithoutDelimiter(e);
    TaggedLine(TagOf(e), Payload(e));
    RoundTrip(e);
  }

  /**
    Every event a line is interpreted as is wire-safe, and the line written
    for it is interpreted as the same event: `Line` is a normal form.
   */
  lemma InterpretedLineIsNormal(raw: string)
    requires New(raw).Interpret().Returns? && New(raw).Interpret().value.Ok?
    ensures WireSafe(New(raw).Interpret().value.value)
    ensures New(Line(New(raw).Interpret().value.value)).Interpret() == New(raw).Interpret()
  {
    var (eventType, data) := SplitOnce(raw, ">>").value;
    DecodedRoundTrip(eventType, data);
    LineRoundTrip(New(raw).Interpret().value.value);
  }
}

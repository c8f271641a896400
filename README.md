# Hyprland event decoding, in Dafny

This project models the decoding layer of `hyprlib`, a client library for the
Hyprland compositor. Hyprland writes one line per event on its event socket,
`TAG>>PAYLOAD`. `Interpreter::interpret` cuts the line at its first `>>` and
hands the tag and payload to `Event::from`. `Event::from` matches the tag
exactly and calls the `parse` decoder of the matching record.

All of this code is pure, so the model is datatypes, functions and lemmas.

## How the model is built

- `RustStr` (`rust_str.dfy`) holds the Rust standard-library string
  operations the decoders use, each with a specification:
  - `str::find`, `str::split_once`, `str::split` with its inverse `Join`;
  - `u32`/`u8` parsing: optional `+`, decimal digits, leading zeros allowed,
    range checked against `u32::MAX` = 4294967295 and `u8::MAX` = 255.
- `Events` (`events.dfy`) has one datatype per record, the 34-variant `Event`,
  one `Parse<Record>` function per `parse` implementation, and `From` for
  `Event::from`.
  - A Rust panic is a value: `Outcome<T>` is `Returns(value)` or
    `Panics(reason)`.
  - The panic reasons are:
    - `UnwrapNone`: `unwrap` of a missing comma;
    - `UnwrapParseError(kind)`: `unwrap` of a failed number parse, with the
      `ParseIntError` kind it reports (`Empty`, `InvalidDigit` or `PosOverflow`);
    - `InvalidData(message)`: the explicit `panic!` with
      "[Name::parse()]: Invalid data: " followed by the payload.
- `Catalog` (`catalog.dfy`) describes each tag as data: the record name, how
  the payload is cut and the type of each field. Over that table it defines
  two things:
  - a generic decoder, `Decode`;
  - its inverse, the wire encoder `Payload`.
- `Agreement` (`agreement.dfy`) proves that the hand-written `From` and every
  `parse` do exactly what the table says, panics included.
  - From that, it proves that every wire-safe event decodes back to itself. An
    event is wire-safe when no field that `split(',')` cuts holds a comma, and
    the first field of a `split_once` record holds none either.
- `Interpreter` (`interpreter.dfy`) models `EventInterpretError`,
  `Interpreter::new` and `Interpreter::interpret`, and proves how a line is
  cut.
- `Properties` (`properties.dfy`) states, family by family, what `Event::from`
  promises.

## What the code does that a reader might not expect

- An unrecognised tag, including the empty tag, decodes to `ConfigReloaded`
  (`hyprlib/src/events/mod.rs:78-81`). There is no separate "unknown" event.
- A payload with a missing comma, a wrong field count or a bad number makes
  the decoder panic. No recoverable error is returned.
  - `movewindow>>addressonly` therefore panics (`Interpreter.MoveWindowWithoutComma`).
  - `interpret` itself fails only on a line without `>>`.
  - A comma inside an `openwindow` title, a `movewindowv2` workspace name or a
    `monitoraddedv2` description changes the field count, so the decoder
    panics (`hyprlib/src/events/mod.rs:292-294`, `hyprlib/src/events/mod.rs:557-559`, `hyprlib/src/events/mod.rs:638-640`).
- The enum has 34 variants: 33 records plus `ConfigReloaded`.
- The screencast owner is a `u8` (`hyprlib/src/events/mod.rs:819`), so its range ends at 255. Every
  other number is a `u32`.

## Model

| member | source | states |
|---|---|---|
| RustStr.Find | hyprlib/src/events/mod.rs:131 | finds a pattern exactly when it occurs, at its first occurrence |
| RustStr.SplitOnce | hyprlib/src/interpreter/mod.rs:21 | `None` exactly when the pattern is absent; otherwise the parts joined with the pattern give the input back, and the pattern starts nowhere inside the first part, so the cut is at the leftmost occurrence |
| RustStr.SplitOnceIff | hyprlib/src/interpreter/mod.rs:21 | `split_once` returns `(a, b)` if and only if the input is `a`, the pattern, `b` and the pattern starts nowhere inside `a` |
| RustStr.SplitOnceAt | hyprlib/src/events/mod.rs:131 | a prefix that does not contain the pattern's first character is cut off exactly, whatever follows |
| RustStr.SplitCount | hyprlib/src/events/mod.rs:292 | `split` gives one more piece than the input has separators |
| RustStr.SplitPieces | hyprlib/src/events/mod.rs:292 | no piece of `split` contains the separator |
| RustStr.SplitSpec | hyprlib/src/events/mod.rs:292-293 | `split` gives one more piece than there are separators, and no piece contains a separator |
| RustStr.JoinSplit | hyprlib/src/events/mod.rs:292 | joining the pieces of `split` gives the input back |
| RustStr.SplitJoin | hyprlib/src/events/mod.rs:292 | splitting pieces without separators, joined with the separator, gives the pieces back |
| RustStr.ParseUInt | hyprlib/src/events/mod.rs:133 | a parsed number is at most the type's maximum |
| RustStr.DecimalValueSpec | hyprlib/src/events/mod.rs:133 | a digit string parses exactly when it is non-empty and all digits, to its decimal value |
| RustStr.ToDecimalValue | hyprlib/src/events/mod.rs:133 | the decimal rendering of a number is a digit string whose value is the number |
| RustStr.ParseUIntDecimal | hyprlib/src/events/mod.rs:133 | an optional `+`, any leading zeros and the decimal digits of `n` parse to `n` exactly when `n` is at most the maximum |
| RustStr.ParseUIntShape | hyprlib/src/events/mod.rs:133 | every text that parses has that shape: the inputs `ParseUIntDecimal` covers are all of them |
| RustStr.FromStrRadix | hyprlib/src/events/mod.rs:133 | the digit-by-digit scan of `parse::<uN>()` succeeds exactly when `ParseUInt` does, with the same value; on failure it reports `Empty` for "", `PosOverflow` when the leading digits already exceed the maximum, and `InvalidDigit` otherwise |
| RustStr.AccumulateSpec | hyprlib/src/events/mod.rs:133 | the digit loop stops at the first overflow of the leading digits, otherwise at the first non-digit, and otherwise returns the value of all the digits |
| Events.SplitFirstComma | hyprlib/src/events/mod.rs:131 | the only panic of `split_once(",").unwrap()` is `UnwrapNone` |
| Events.SplitFirstCommaSpec | hyprlib/src/events/mod.rs:131 | panics exactly when there is no comma; otherwise the first part has no comma and the parts rejoined with a comma are the payload |
| Events.SplitExact | hyprlib/src/events/mod.rs:292-295 | a result has the demanded count; a panic carries "[Name::parse()]: Invalid data: " and the payload |
| Events.SplitExactSpec | hyprlib/src/events/mod.rs:292-295 | succeeds exactly when the payload has one comma fewer than the count; the pieces have no comma and join back to the payload |
| Catalog.DescriptorOf | hyprlib/src/events/mod.rs:43-77 | every listed tag has a well-formed descriptor: a whole payload has at most one field, a `split_once` two, a counted `split` at least two |
| Catalog.TagWithoutDelimiter | hyprlib/src/events/mod.rs:43-77 | no tag contains `>`, so a tag is never cut inside itself |
| Catalog.Pieces | hyprlib/src/events/mod.rs:129-137 | a cut payload has one text per field |
| Catalog.PiecesJoinBack | hyprlib/src/events/mod.rs:290-304 | the texts a payload is cut into, joined with commas, are the payload |
| Catalog.DecodeField | hyprlib/src/events/mod.rs:133 | a field panics exactly when it is a `u32` or `u8` that does not parse in its range, and the panic carries the `ParseIntError` kind of the text |
| Catalog.DecodeFields | hyprlib/src/events/mod.rs:298 | decoding the texts only ever panics with a number parse error |
| Catalog.DecodeFieldText | hyprlib/src/events/mod.rs:133 | the text written for a value that fits its type decodes to that value |
| Catalog.DecodeFieldsTexts | hyprlib/src/events/mod.rs:296-303 | the texts of values that fit their types decode to those values |
| Catalog.PiecesJoin | hyprlib/src/events/mod.rs:290-304 | separable texts joined with commas are cut back into the same texts |
| Catalog.DecodeEncoded | hyprlib/src/events/mod.rs:290-304 | the table-driven decoder inverts the encoder on values that fit and texts that can be cut apart |
| Catalog.DecodeFieldShape | hyprlib/src/events/mod.rs:133 | a decoded field fits its type, and writing it back introduces no comma that was not there |
| Catalog.DecodeFieldsPointwise | hyprlib/src/events/mod.rs:296-303 | decoding the texts succeeds exactly when each text decodes, field by field |
| Catalog.DecodedFits | hyprlib/src/events/mod.rs:290-304 | whatever the decoder returns fits the field types and writes back to separable texts |
| Agreement.FromFollowsCatalog | hyprlib/src/events/mod.rs:41-83 | `Event::from` gives `ConfigReloaded` for every unlisted tag, and for a listed tag returns the tag's own variant with the fields the catalog reads, or panics exactly when and why the catalog decoder panics |
| Agreement.WorkspaceFields | hyprlib/src/events/mod.rs:104-110 | `Workspace::parse` agrees with the catalog: the whole payload is the one text field and never panics |
| Agreement.WorkspaceV2Fields | hyprlib/src/events/mod.rs:129-137 | `WorkspaceV2::parse` agrees with the catalog: the payload is cut at its first comma into (`u32`, text), later commas staying in the second field; panics `UnwrapNone` without a comma, `UnwrapParseError` on a number out of range or not decimal |
| Agreement.FocusedMonFields | hyprlib/src/events/mod.rs:154-162 | `FocusedMon::parse` agrees with the catalog: the payload is cut at its first comma into (text, text), later commas staying in the second field; panics `UnwrapNone` without a comma |
| Agreement.ActiveWindowFields | hyprlib/src/events/mod.rs:179-187 | `ActiveWindow::parse` agrees with the catalog: the payload is cut at its first comma into (text, text), later commas staying in the second field; panics `UnwrapNone` without a comma |
| Agreement.ActiveWindowV2Fields | hyprlib/src/events/mod.rs:202-208 | `ActiveWindowV2::parse` agrees with the catalog: the whole payload is the one text field and never panics |
| Agreement.MoveWorkspaceFields | hyprlib/src/events/mod.rs:413-426 | `MoveWorkspace::parse` agrees with the catalog: the payload is split at every comma into exactly 2 fields (text, text); panics with "[MoveWorkspace::parse()]: Invalid data: " and the payload on any other count |
| Agreement.MoveWorkspaceV2Fields | hyprlib/src/events/mod.rs:445-459 | `MoveWorkspaceV2::parse` agrees with the catalog: the payload is split at every comma into exactly 3 fields (`u32`, text, text); panics with "[MoveWorkspaceV2::parse()]: Invalid data: " and the payload on any other count, `UnwrapParseError` on a bad number |
| Agreement.FullscreenFields | hyprlib/src/events/mod.rs:223-229 | `Fullscreen::parse` agrees with the catalog: the whole payload is the one flag field (true exactly for "1") and never panics |
| Agreement.MonitorRemovedFields | hyprlib/src/events/mod.rs:244-250 | `MonitorRemoved::parse` agrees with the catalog: the whole payload is the one text field and never panics |
| Agreement.MonitorAddedFields | hyprlib/src/events/mod.rs:265-271 | `MonitorAdded::parse` agrees with the catalog: the whole payload is the one text field and never panics |
| Agreement.MonitorAddedV2Fields | hyprlib/src/events/mod.rs:290-304 | `MonitorAddedV2::parse` agrees with the catalog: the payload is split at every comma into exactly 3 fields (`u32`, text, text); panics with "[MonitorAddedV2::parse()]: Invalid data: " and the payload on any other count, `UnwrapParseError` on a bad number |
| Agreement.CreateWorkspaceFields | hyprlib/src/events/mod.rs:319-325 | `CreateWorkspace::parse` agrees with the catalog: the whole payload is the one text field and never panics |
| Agreement.CreateWorkspaceV2Fields | hyprlib/src/events/mod.rs:342-350 | `CreateWorkspaceV2::parse` agrees with the catalog: the payload is cut at its first comma into (`u32`, text), later commas staying in the second field; panics `UnwrapNone` without a comma, `UnwrapParseError` on a number out of range or not decimal |
| Agreement.DestroyWorkspaceFields | hyprlib/src/events/mod.rs:365-371 | `DestroyWorkspace::parse` agrees with the catalog: the whole payload is the one text field and never panics |
| Agreement.DestroyWorkspaceV2Fields | hyprlib/src/events/mod.rs:388-396 | `DestroyWorkspaceV2::parse` agrees with the catalog: the payload is cut at its first comma into (`u32`, text), later commas staying in the second field; panics `UnwrapNone` without a comma, `UnwrapParseError` on a number out of range or not decimal |
| Agreement.RenameWorkspaceFields | hyprlib/src/events/mod.rs:476-484 | `RenameWorkspace::parse` agrees with the catalog: the payload is cut at its first comma into (`u32`, text), later commas staying in the second field; panics `UnwrapNone` without a comma, `UnwrapParseError` on a number out of range or not decimal |
| Agreement.ActiveSpecialFields | hyprlib/src/events/mod.rs:501-509 | `ActiveSpecial::parse` agrees with the catalog: the payload is cut at its first comma into (text, text), later commas staying in the second field; panics `UnwrapNone` without a comma |
| Agreement.ActiveLayoutFields | hyprlib/src/events/mod.rs:526-534 | `ActiveLayout::parse` agrees with the catalog: the payload is cut at its first comma into (text, text), later commas staying in the second field; panics `UnwrapNone` without a comma |
| Agreement.OpenWindowFields | hyprlib/src/events/mod.rs:555-571 | `OpenWindow::parse` agrees with the catalog: the payload is split at every comma into exactly 4 fields (text, text, text, text); panics with "[OpenWindow::parse()]: Invalid data: " and the payload on any other count |
| Agreement.CloseWindowFields | hyprlib/src/events/mod.rs:586-592 | `CloseWindow::parse` agrees with the catalog: the whole payload is the one text field and never panics |
| Agreement.MoveWindowFields | hyprlib/src/events/mod.rs:609-617 | `MoveWindow::parse` agrees with the catalog: the payload is cut at its first comma into (text, text), later commas staying in the second field; panics `UnwrapNone` without a comma |
| Agreement.MoveWindowV2Fields | hyprlib/src/events/mod.rs:636-650 | `MoveWindowV2::parse` agrees with the catalog: the payload is split at every comma into exactly 3 fields (text, `u32`, text); panics with "[MoveWindowV2::parse()]: Invalid data: " and the payload on any other count, `UnwrapParseError` on a bad number |
| Agreement.OpenLayerFields | hyprlib/src/events/mod.rs:686-692 | `OpenLayer::parse` agrees with the catalog: the whole payload is the one text field and never panics |
| Agreement.CloseLayerFields | hyprlib/src/events/mod.rs:707-713 | `CloseLayer::parse` agrees with the catalog: the whole payload is the one text field and never panics |
| Agreement.SubmapFields | hyprlib/src/events/mod.rs:728-734 | `Submap::parse` agrees with the catalog: the whole payload is the one text field and never panics |
| Agreement.ChangeFloatingModeFields | hyprlib/src/events/mod.rs:751-759 | `ChangeFloatingMode::parse` agrees with the catalog: the payload is cut at its first comma into (text, flag), later commas staying in the second field; panics `UnwrapNone` without a comma |
| Agreement.UrgentFields | hyprlib/src/events/mod.rs:774-780 | `Urgent::parse` agrees with the catalog: the whole payload is the one text field and never panics |
| Agreement.MinimizeFields | hyprlib/src/events/mod.rs:797-805 | `Minimize::parse` agrees with the catalog: the payload is cut at its first comma into (text, flag), later commas staying in the second field; panics `UnwrapNone` without a comma |
| Agreement.ScreencastFields | hyprlib/src/events/mod.rs:822-830 | `Screencast::parse` agrees with the catalog: the payload is cut at its first comma into (flag, `u8`), later commas staying in the second field; panics `UnwrapNone` without a comma, `UnwrapParseError` on a number out of range or not decimal |
| Agreement.WindowTitleFields | hyprlib/src/events/mod.rs:665-671 | `WindowTitle::parse` agrees with the catalog: the whole payload is the one text field and never panics |
| Agreement.IgnoreGroupLockFields | hyprlib/src/events/mod.rs:845-849 | `IgnoreGroupLock::parse` agrees with the catalog: the whole payload is the one flag field (true exactly for "1") and never panics |
| Agreement.LockGroupsFields | hyprlib/src/events/mod.rs:864-868 | `LockGroups::parse` agrees with the catalog: the whole payload is the one flag field (true exactly for "1") and never panics |
| Agreement.PinFields | hyprlib/src/events/mod.rs:885-893 | `Pin::parse` agrees with the catalog: the payload is cut at its first comma into (text, flag), later commas staying in the second field; panics `UnwrapNone` without a comma |
| Agreement.AgreesSafe | hyprlib/src/events/mod.rs:41-83 | an event decoded under a listed tag is wire-safe |
| Agreement.RoundTrip | hyprlib/src/events/mod.rs:41-83 | every wire-safe event, written as its tag and payload, is decoded by `Event::from` to itself |
| Agreement.DecodedRoundTrip | hyprlib/src/events/mod.rs:41-83 | every event `Event::from` returns is wire-safe, and writing it out and decoding again gives the same outcome |
| Interpreter.Interpreter.Interpret | hyprlib/src/interpreter/mod.rs:20-26 | the only error is `InterpretationError` with "Invalid event format: " and the line, and a panic needs a `>>` in the line |
| Interpreter.New | hyprlib/src/interpreter/mod.rs:16-18 | the interpreter holds the line it was made with |
| Interpreter.NoDelimiter | hyprlib/src/interpreter/mod.rs:21-23 | a line is rejected with the line in the message if and only if it has no `>>` |
| Interpreter.CutAtFirstDelimiter | hyprlib/src/interpreter/mod.rs:21-25 | a line made of a tag, `>>` and a payload, with no `>>` inside the tag, means `Ok(Event::from(tag, payload))`, panics included; the interpreter adds no failure of its own |
| Interpreter.FirstDelimiter | hyprlib/src/interpreter/mod.rs:21 | every line with a `>>` is cut at its leftmost one: no `>>` starts inside the tag, and the rest is the payload |
| Interpreter.TaggedLine | hyprlib/src/interpreter/mod.rs:21-25 | a tag without `>` is cut off whole, and further `>>` stay in the payload |
| Interpreter.WorkspaceLine | hyprlib/src/events/mod.rs:104-110 | a `workspace` line names the workspace with everything after the first `>>` |
| Interpreter.LineWithoutDelimiter | hyprlib/src/interpreter/mod.rs:21-23 | a line without `>` is an error, not a panic |
| Interpreter.MoveWindowWithoutComma | hyprlib/src/events/mod.rs:609-617 | a `movewindow` line whose payload has no comma panics with `UnwrapNone` through the interpreter |
| Interpreter.UnknownTagLine | hyprlib/src/events/mod.rs:78-81 | a line with an unlisted tag is read as `ConfigReloaded` |
| Interpreter.LineRoundTrip | hyprlib/src/interpreter/mod.rs:20-26 | the line written for a wire-safe event is interpreted as that event |
| Interpreter.InterpretedLineIsNormal | hyprlib/src/interpreter/mod.rs:20-26 | every event a line is interpreted as is wire-safe, and its written line is interpreted as the same event |
| Properties.TextPayloadVerbatim | hyprlib/src/events/mod.rs:104-110 | a tag with one text field never panics and keeps the whole payload verbatim |
| Properties.FlagPayload | hyprlib/src/events/mod.rs:223-229 | a tag with one flag field never panics and reads true exactly when the payload is "1" |
| Properties.FirstCommaPanic | hyprlib/src/events/mod.rs:129-137 | a `split_once` tag panics with `UnwrapNone` exactly when the payload has no comma; any later panic is a number parse error |
| Properties.FieldCountPanic | hyprlib/src/events/mod.rs:290-304 | a counted-`split` tag panics with the "Invalid data" message exactly when the comma count is wrong; any later panic is a number parse error |
| Properties.TextRecordVerbatim | hyprlib/src/events/mod.rs:413-426 | an all-text record decodes exactly when the payload can be cut, and writes the payload it read back unchanged |
| Properties.LeadingIdRange | hyprlib/src/events/mod.rs:129-137 | a leading workspace id is accepted exactly in the range of `u32` |
| Properties.TrailingOwnerRange | hyprlib/src/events/mod.rs:817-830 | the screencast owner is accepted exactly in the range of `u8` |
| Properties.ConfigReloadedIgnoresPayload | hyprlib/src/events/mod.rs:76 | `configreloaded` gives `ConfigReloaded` whatever the payload |

## Left out

- `Listener::listen` (`hyprlib/src/lib.rs:45-79`) is not part of this model. It is the asynchronous socket loop, which is I/O.
- `Hyprland::default` and `get_socket_path` are not part of this model. They read environment variables and build socket paths.
- The dispatcher socket and the `hyprctl` binary are not part of this model. They do I/O outside the decoding core.
- The `warn!` log line for an unhandled tag (`hyprlib/src/events/mod.rs:79`) is not modelled. It is a side effect, and the result is modelled.
- Strings are modelled as `seq<char>`. The Rust code indexes UTF-8 bytes, but it only cuts at the ASCII `,` and `>>`, so the pieces are the same.
- The display text of `EventInterpretError` is not part of any contract. This is the "Failed to interpret event: " prefix (`hyprlib/src/interpreter/mod.rs:7`).
- The wording of the standard library's `unwrap` panic messages is not modelled. Only the kind of panic is kept, together with the `ParseIntError` kind for a failed number.
- The borrowed lifetime of `Interpreter::raw` is not modelled. The model holds the line by value.
- The doc comments at `hyprlib/src/events/mod.rs:122` and `hyprlib/src/events/mod.rs:196` name other tags than the ones `Event::from` matches. The model uses the tags in the `match`.

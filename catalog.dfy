/**
  The event tag catalog as data: for every wire tag, the record's name, how the
  payload is cut into field texts and the type of each field. A generic,
  table-driven decoder over this catalog is the reference the hand-written
  dispatch `Events.From` is proved against, and the wire encoder `Payload` is
  its inverse.
 */
module Catalog {
  import opened RustStr
  import opened Events

  /** The types a payload field is decoded to. */
  datatype FieldType = Text | UInt32 | UInt8 | Flag

  /** How a payload is cut into field texts. */
  datatype Layout =
    | Whole           // no split: the payload is the one field (or is ignored)
    | AtFirstComma    // `split_once(",")`: two fields, commas after the first stay in the second
    | CommaSeparated  // `split(',')` with an exact field count

  datatype Descriptor = Descriptor(name: string, layout: Layout, fields: seq<FieldType>)
  {
    predicate Valid()
    {
      && (layout == Whole ==> |fields| <= 1)
      && (layout == AtFirstComma ==> |fields| == 2)
      && (layout == CommaSeparated ==> |fields| >= 2)
    }
  }

  /** A decoded field, whatever its type. */
  datatype FieldValue = TextValue(text: string) | NumberValue(number: nat) | FlagValue(flag: bool)

  /** The catalog: the tags `Event::from` recognises, in the order it tests them, each with its descriptor. */
  function DescriptorOf(tag: string): (d: Option<Descriptor>)
    ensures d.Some? ==> d.value.Valid()
  {
    match tag
    case "workspace" => Some(Descriptor("Workspace", Whole, [Text]))
    case "workspacev2" => Some(Descriptor("WorkspaceV2", AtFirstComma, [UInt32, Text]))
    case "focusedmon" => Some(Descriptor("FocusedMon", AtFirstComma, [Text, Text]))
    case "activewindow" => Some(Descriptor("ActiveWindow", AtFirstComma, [Text, Text]))
    case "activewindowv2" => Some(Descriptor("ActiveWindowV2", Whole, [Text]))
    case "moveworkspace" => Some(Descriptor("MoveWorkspace", CommaSeparated, [Text, Text]))
    case "moveworkspacev2" => Some(Descriptor("MoveWorkspaceV2", CommaSeparated, [UInt32, Text, Text]))
    case "fullscreen" => Some(Descriptor("Fullscreen", Whole, [Flag]))
    case "monitorremoved" => Some(Descriptor("MonitorRemoved", Whole, [Text]))
    case "monitoradded" => Some(Descriptor("MonitorAdded", Whole, [Text]))
    case "monitoraddedv2" => Some(Descriptor("MonitorAddedV2", CommaSeparated, [UInt32, Text, Text]))
    case "createworkspace" => Some(Descriptor("CreateWorkspace", Whole, [Text]))
    case "createworkspacev2" => Some(Descriptor("CreateWorkspaceV2", AtFirstComma, [UInt32, Text]))
    case "destroyworkspace" => Some(Descriptor("DestroyWorkspace", Whole, [Text]))
    case "destroyworkspacev2" => Some(Descriptor("DestroyWorkspaceV2", AtFirstComma, [UInt32, Text]))
    case "renameworkspace" => Some(Descriptor("RenameWorkspace", AtFirstComma, [UInt32, Text]))
    case "activespecial" => Some(Descriptor("ActiveSpecial", AtFirstComma, [Text, Text]))
    case "activelayout" => Some(Descriptor("ActiveLayout", AtFirstComma, [Text, Text]))
    case "openwindow" => Some(Descriptor("OpenWindow", CommaSeparated, [Text, Text, Text, Text]))
    case "closewindow" => Some(Descriptor("CloseWindow", Whole, [Text]))
    case "movewindow" => Some(Descriptor("MoveWindow", AtFirstComma, [Text, Text]))
    case "movewindowv2" => Some(Descriptor("MoveWindowV2", CommaSeparated, [Text, UInt32, Text]))
    case "openlayer" => Some(Descriptor("OpenLayer", Whole, [Text]))
    case "closelayer" => Some(Descriptor("CloseLayer", Whole, [Text]))
    case "submap" => Some(Descriptor("Submap", Whole, [Text]))
    case "changefloatingmode" => Some(Descriptor("ChangeFloatingMode", AtFirstComma, [Text, Flag]))
    case "urgent" => Some(Descriptor("Urgent", Whole, [Text]))
    case "minimize" => Some(Descriptor("Minimize", AtFirstComma, [Text, Flag]))
    case "screencast" => Some(Descriptor("Screencast", AtFirstComma, [Flag, UInt8]))
    case "windowtitle" => Some(Descriptor("WindowTitle", Whole, [Text]))
    case "ignoregrouplock" => Some(Descriptor("IgnoreGroupLock", Whole, [Flag]))
    case "lockgroups" => Some(Descriptor("LockGroups", Whole, [Flag]))
    case "configreloaded" => Some(Descriptor("ConfigReloaded", Whole, []))
    case "pin" => Some(Descriptor("Pin", AtFirstComma, [Text, Flag]))
    case _ => None
  }

  /** The wire tag of an event's variant. */
  function TagOf(e: Event): string
  {
    match e
    case Workspace(_) => "workspace"
    case WorkspaceV2(_) => "workspacev2"
    case FocusedMon(_) => "focusedmon"
    case ActiveWindow(_) => "activewindow"
    case ActiveWindowV2(_) => "activewindowv2"
    case Fullscreen(_) => "fullscreen"
    case MonitorRemoved(_) => "monitorremoved"
    case MonitorAdded(_) => "monitoradded"
    case MonitorAddedV2(_) => "monitoraddedv2"
    case CreateWorkspace(_) => "createworkspace"
    case CreateWorkspaceV2(_) => "createworkspacev2"
    case DestroyWorkspace(_) => "destroyworkspace"
    case DestroyWorkspaceV2(_) => "destroyworkspacev2"
    case MoveWorkspace(_) => "moveworkspace"
    case MoveWorkspaceV2(_) => "moveworkspacev2"
    case RenameWorkspace(_) => "renameworkspace"
    case ActiveSpecial(_) => "activespecial"
    case ActiveLayout(_) => "activelayout"
    case OpenWindow(_) => "openwindow"
    case CloseWindow(_) => "closewindow"
    case MoveWindow(_) => "movewindow"
    case MoveWindowV2(_) => "movewindowv2"
    case OpenLayer(_) => "openlayer"
    case CloseLayer(_) => "closelayer"
    case Submap(_) => "submap"
    case ChangeFloatingMode(_) => "changefloatingmode"
    case Urgent(_) => "urgent"
    case Minimize(_) => "minimize"
    case Screencast(_) => "screencast"
    case WindowTitle(_) => "windowtitle"
    case IgnoreGroupLock(_) => "ignoregrouplock"
    case LockGroups(_) => "lockgroups"
    case ConfigReloaded => "configreloaded"
    case Pin(_) => "pin"
  }

  /** No tag contains '>', the first character of the line delimiter ">>". */
  lemma TagWithoutDelimiter(e: Event)
    ensures '>' !in TagOf(e)
  {
    if e.Workspace? || e.WorkspaceV2? || e.CreateWorkspace? || e.CreateWorkspaceV2?
         || e.DestroyWorkspace? {
      WorkspaceTags(e);
    } else if e.DestroyWorkspaceV2? || e.MoveWorkspace? || e.MoveWorkspaceV2?
         || e.RenameWorkspace? {
      WorkspaceChangeTags(e);
    } else if e.FocusedMon? || e.MonitorRemoved? || e.MonitorAdded? || e.MonitorAddedV2? {
      MonitorTags(e);
    } else if e.ActiveSpecial? || e.ActiveLayout? || e.Submap? || e.ConfigReloaded? {
      SpecialTags(e);
    } else if e.ActiveWindow? || e.ActiveWindowV2? || e.OpenWindow? || e.CloseWindow?
         || e.MoveWindow? {
      WindowTags(e);
    } else if e.MoveWindowV2? || e.WindowTitle? || e.Urgent? || e.Minimize? {
      WindowChangeTags(e);
    } else if e.Fullscreen? || e.OpenLayer? || e.CloseLayer? || e.ChangeFloatingMode? {
      LayerTags(e);
    } else {
      StateTags(e);
    }
  }

  lemma WorkspaceTags(e: Event)
    requires e.Workspace? || e.WorkspaceV2? || e.CreateWorkspace? || e.CreateWorkspaceV2?
          || e.DestroyWorkspace?
    ensures '>' !in TagOf(e)
  {
  }

  lemma WorkspaceChangeTags(e: Event)
    requires e.DestroyWorkspaceV2? || e.MoveWorkspace? || e.MoveWorkspaceV2?
          || e.RenameWorkspace?
    ensures '>' !in TagOf(e)
  {
  }

  lemma MonitorTags(e: Event)
    requires e.FocusedMon? || e.MonitorRemoved? || e.MonitorAdded? || e.MonitorAddedV2?
    ensures '>' !in TagOf(e)
  {
  }

  lemma SpecialTags(e: Event)
    requires e.ActiveSpecial? || e.ActiveLayout? || e.Submap? || e.ConfigReloaded?
    ensures '>' !in TagOf(e)
  {
  }

  lemma WindowTags(e: Event)
    requires e.ActiveWindow? || e.ActiveWindowV2? || e.OpenWindow? || e.CloseWindow?
          || e.MoveWindow?
    ensures '>' !in TagOf(e)
  {
  }

  lemma WindowChangeTags(e: Event)
    requires e.MoveWindowV2? || e.WindowTitle? || e.Urgent? || e.Minimize?
    ensures '>' !in TagOf(e)
  {
  }

  lemma LayerTags(e: Event)
    requires e.Fullscreen? || e.OpenLayer? || e.CloseLayer? || e.ChangeFloatingMode?
    ensures '>' !in TagOf(e)
  {
  }

  lemma StateTags(e: Event)
    requires e.Screencast? || e.IgnoreGroupLock? || e.LockGroups? || e.Pin?
    ensures '>' !in TagOf(e)
  {
  }

  /** An event's fields, in wire order. */
  function FieldsOf(e: Event): seq<FieldValue>
  {
    match e
    case Workspace(p) => [TextValue(p.workspaceName)]
    case WorkspaceV2(p) => [NumberValue(p.workspaceId), TextValue(p.workspaceName)]
    case FocusedMon(p) => [TextValue(p.monitorName), TextValue(p.workspaceName)]
    case ActiveWindow(p) => [TextValue(p.windowClass), TextValue(p.windowTitle)]
    case ActiveWindowV2(p) => [TextValue(p.windowAddress)]
    case Fullscreen(p) => [FlagValue(p.enterFullscreen)]
    case MonitorRemoved(p) => [TextValue(p.monitorName)]
    case MonitorAdded(p) => [TextValue(p.monitorName)]
    case MonitorAddedV2(p) => [NumberValue(p.monitorId), TextValue(p.monitorName), TextValue(p.monitorDescription)]
    case CreateWorkspace(p) => [TextValue(p.workspaceName)]
    case CreateWorkspaceV2(p) => [NumberValue(p.workspaceId), TextValue(p.workspaceName)]
    case DestroyWorkspace(p) => [TextValue(p.workspaceName)]
    case DestroyWorkspaceV2(p) => [NumberValue(p.workspaceId), TextValue(p.workspaceName)]
    case MoveWorkspace(p) => [TextValue(p.workspaceName), TextValue(p.monitorName)]
    case MoveWorkspaceV2(p) => [NumberValue(p.workspaceId), TextValue(p.workspaceName), TextValue(p.monitorName)]
    case RenameWorkspace(p) => [NumberValue(p.workspaceId), TextValue(p.newName)]
    case ActiveSpecial(p) => [TextValue(p.workspaceName), TextValue(p.monitorName)]
    case ActiveLayout(p) => [TextValue(p.keyboardName), TextValue(p.layoutName)]
    case OpenWindow(p) => [TextValue(p.windowAddress), TextValue(p.workspaceName), TextValue(p.windowClass), TextValue(p.windowTitle)]
    case CloseWindow(p) => [TextValue(p.windowAddress)]
    case MoveWindow(p) => [TextValue(p.windowAddress), TextValue(p.workspaceName)]
    case MoveWindowV2(p) => [TextValue(p.windowAddress), NumberValue(p.workspaceId), TextValue(p.workspaceName)]
    case OpenLayer(p) => [TextValue(p.namespace)]
    case CloseLayer(p) => [TextValue(p.namespace)]
    case Submap(p) => [TextValue(p.submapName)]
    case ChangeFloatingMode(p) => [TextValue(p.windowAddress), FlagValue(p.floating)]
    case Urgent(p) => [TextValue(p.windowAddress)]
    case Minimize(p) => [TextValue(p.windowAddress), FlagValue(p.minimized)]
    case Screencast(p) => [FlagValue(p.state), NumberValue(p.owner)]
    case WindowTitle(p) => [TextValue(p.windowAddress)]
    case IgnoreGroupLock(p) => [FlagValue(p.state)]
    case LockGroups(p) => [FlagValue(p.state)]
    case ConfigReloaded => []
    case Pin(p) => [TextValue(p.windowAddress), FlagValue(p.pinState)]
  }

  // ---------------------------------------------------------------------------
  // The table-driven decoder
  // ---------------------------------------------------------------------------

  /** The field texts of a payload, or the panic the source raises when they cannot be found. */
  function Pieces(d: Descriptor, data: string): (r: Outcome<seq<string>>)
    requires d.Valid()
    ensures r.Returns? ==> |r.value| == |d.fields|
  {
    match d.layout
    case Whole => Returns(if d.fields == [] then [] else [data])
    case AtFirstComma => var pair :- SplitFirstComma(data); Returns([pair.0, pair.1])
    case CommaSeparated => SplitExact(d.name, data, |d.fields|)
  }

  /** Decoding one field text: text verbatim, numbers by `parse().unwrap()`, flags by the truthy-"1" rule. */
  function DecodeField(t: FieldType, text: string): (r: Outcome<FieldValue>)
    ensures r.Panics? <==> (t == UInt32 && ParseUInt(text, U32_MAX).None?) || (t == UInt8 && ParseUInt(text, U8_MAX).None?)
    ensures r.Panics? ==> r.reason == UnwrapParseError(ParseIntErrorOf(text, if t == UInt8 then U8_MAX else U32_MAX))
  {
    match t
    case Text => Returns(TextValue(text))
    case UInt32 => var n :- UnwrapU32(text); Returns(NumberValue(n))
    case UInt8 => var n :- UnwrapU8(text); Returns(NumberValue(n))
    case Flag => Returns(FlagValue(IsOne(text)))
  }

  /** Decoding the field texts left to right; the first failing field decides the panic. */
  function DecodeFields(types: seq<FieldType>, texts: seq<string>): (r: Outcome<seq<FieldValue>>)
    requires |types| == |texts|
    ensures r.Returns? ==> |r.value| == |types|
    ensures r.Panics? ==> r.reason.UnwrapParseError?
  {
    if types == [] then Returns([])
    else
      var v :- DecodeField(types[0], texts[0]);
      var vs :- DecodeFields(types[1..], texts[1..]);
      Returns([v] + vs)
  }

  /** The fields a descriptor reads from a payload. */
  function Decode(d: Descriptor, data: string): Outcome<seq<FieldValue>>
    requires d.Valid()
  {
    var texts :- Pieces(d, data);
    DecodeFields(d.fields, texts)
  }

  /** Cutting a payload into field texts loses nothing: joined with commas they give it back. */
  lemma PiecesJoinBack(d: Descriptor, data: string)
    requires d.Valid() && d.fields != [] && Pieces(d, data).Returns?
    ensures Join(Pieces(d, data).value, ",") == data
  {
    match d.layout
    case Whole =>
    case AtFirstComma =>
      SplitFirstCommaSpec(data);
      var texts := Pieces(d, data).value;
      assert texts[1..] == [texts[1]];
    case CommaSeparated =>
      SplitExactSpec(d.name, data, |d.fields|);
  }

  // ---------------------------------------------------------------------------
  // The wire encoder
  // ---------------------------------------------------------------------------

  /** How a field is written on the wire: text verbatim, numbers in decimal, flags as "1" / "0". */
  function FieldText(v: FieldValue): string
  {
    match v
    case TextValue(t) => t
    case NumberValue(n) => ToDecimal(n)
    case FlagValue(b) => if b then "1" else "0"
  }

  function Texts(vs: seq<FieldValue>): (texts: seq<string>)
    ensures |texts| == |vs|
    ensures forall k :: 0 <= k < |vs| ==> texts[k] == FieldText(vs[k])
  {
    if vs == [] then [] else [FieldText(vs[0])] + Texts(vs[1..])
  }

  /** The payload Hyprland writes for an event: its fields joined with commas. */
  function Payload(e: Event): string
  {
    Join(Texts(FieldsOf(e)), ",")
  }

  /** A value fits a field type: the right kind, and numbers in range of their Rust type. */
  predicate FitsType(t: FieldType, v: FieldValue)
  {
    match t
    case Text => v.TextValue?
    case UInt32 => v.NumberValue? && v.number <= U32_MAX
    case UInt8 => v.NumberValue? && v.number <= U8_MAX
    case Flag => v.FlagValue?
  }

  predicate FitTypes(types: seq<FieldType>, vs: seq<FieldValue>)
  {
    |types| == |vs| && forall k :: 0 <= k < |vs| ==> FitsType(types[k], vs[k])
  }

  /**
    The field texts can be cut apart again: under `split_once` the first text
    has no comma, under `split` none has.
   */
  predicate Separable(layout: Layout, texts: seq<string>)
  {
    match layout
    case Whole => true
    case AtFirstComma => |texts| > 0 && ',' !in texts[0]
    case CommaSeparated => forall k :: 0 <= k < |texts| ==> ',' !in texts[k]
  }

  /** An event whose payload decodes back to it. */
  predicate WireSafe(e: Event)
  {
    match DescriptorOf(TagOf(e))
    case None => false
    case Some(d) => Separable(d.layout, Texts(FieldsOf(e)))
  }

  // ---------------------------------------------------------------------------
  // The hand-written dispatch implements the catalog
  // ---------------------------------------------------------------------------

  /** Decoding one to four field texts, field by field. */
  lemma DecodeOne(t0: FieldType, x0: string)
    ensures DecodeFields([t0], [x0]) == var v0 :- DecodeField(t0, x0); Returns([v0])
  {
    assert [t0][1..] == [] && [x0][1..] == [];
    match DecodeField(t0, x0)
    case Panics(_) =>
    case Returns(v0) => assert [v0] + [] == [v0];
  }

  lemma DecodeTwo(t0: FieldType, t1: FieldType, x0: string, x1: string)
    ensures DecodeFields([t0, t1], [x0, x1]) ==
              var v0 :- DecodeField(t0, x0); var v1 :- DecodeField(t1, x1); Returns([v0, v1])
  {
    assert [t0, t1][1..] == [t1] && [x0, x1][1..] == [x1];
    DecodeOne(t1, x1);
    match DecodeField(t0, x0)
    case Panics(_) =>
    case Returns(v0) =>
      match DecodeField(t1, x1)
      case Panics(_) =>
      case Returns(v1) => assert [v0] + [v1] == [v0, v1];
  }

  lemma DecodeThree(t0: FieldType, t1: FieldType, t2: FieldType, x0: string, x1: string, x2: string)
    ensures DecodeFields([t0, t1, t2], [x0, x1, x2]) ==
              var v0 :- DecodeField(t0, x0); var v1 :- DecodeField(t1, x1); var v2 :- DecodeField(t2, x2);
              Returns([v0, v1, v2])
  {
    assert [t0, t1, t2][1..] == [t1, t2] && [x0, x1, x2][1..] == [x1, x2];
    DecodeTwo(t1, t2, x1, x2);
    match DecodeField(t0, x0)
    case Panics(_) =>
    case Returns(v0) =>
      match DecodeFields([t1, t2], [x1, x2])
      case Panics(_) =>
      case Returns(vs) => assert [v0] + vs == [v0, vs[0], vs[1]];
  }

  lemma DecodeFour(t0: FieldType, t1: FieldType, t2: FieldType, t3: FieldType,
                   x0: string, x1: string, x2: string, x3: string)
    ensures DecodeFields([t0, t1, t2, t3], [x0, x1, x2, x3]) ==
              var v0 :- DecodeField(t0, x0); var v1 :- DecodeField(t1, x1); var v2 :- DecodeField(t2, x2);
              var v3 :- DecodeField(t3, x3);
              Returns([v0, v1, v2, v3])
  {
    assert [t0, t1, t2, t3][1..] == [t1, t2, t3] && [x0, x1, x2, x3][1..] == [x1, x2, x3];
    DecodeThree(t1, t2, t3, x1, x2, x3);
    match DecodeField(t0, x0)
    case Panics(_) =>
    case Returns(v0) =>
      match DecodeFields([t1, t2, t3], [x1, x2, x3])
      case Panics(_) =>
      case Returns(vs) => assert [v0] + vs == [v0, vs[0], vs[1], vs[2]];
  }

  // ---------------------------------------------------------------------------
  // The encoder and the table-driven decoder are inverse
  // ---------------------------------------------------------------------------

  /** A field written by the encoder decodes to the same value when it fits the field's type. */
  lemma DecodeFieldText(t: FieldType, v: FieldValue)
    requires FitsType(t, v)
    ensures DecodeField(t, FieldText(v)) == Returns(v)
  {
    match t
    case Text =>
    case UInt32 =>
      ParseUIntDecimal(false, 0, v.number, U32_MAX);
      assert Sign(false) + Zeros(0) + ToDecimal(v.number) == FieldText(v);
    case UInt8 =>
      ParseUIntDecimal(false, 0, v.number, U8_MAX);
      assert Sign(false) + Zeros(0) + ToDecimal(v.number) == FieldText(v);
    case Flag =>
  }

  /** Field texts written by the encoder decode, left to right, to the values they came from. */
  lemma {:induction false} DecodeFieldsTexts(types: seq<FieldType>, vs: seq<FieldValue>)
    requires FitTypes(types, vs)
    ensures DecodeFields(types, Texts(vs)) == Returns(vs)
    decreases |vs|
  {
    if vs != [] {
      DecodeFieldText(types[0], vs[0]);
      assert FitTypes(types[1..], vs[1..]) by {
        assert forall k :: 1 <= k < |vs| ==> FitsType(types[k], vs[k]);
      }
      DecodeFieldsTexts(types[1..], vs[1..]);
      assert Texts(vs)[1..] == Texts(vs[1..]);
      assert [vs[0]] + vs[1..] == vs;
    }
  }

  /** Separable texts joined with commas are cut back into the same texts. */
  lemma PiecesJoin(d: Descriptor, texts: seq<string>)
    requires d.Valid() && |texts| == |d.fields| && Separable(d.layout, texts)
    ensures Pieces(d, Join(texts, ",")) == Returns(texts)
  {
    match d.layout
    case Whole =>
      if texts != [] {
        assert texts == [texts[0]];
      }
    case AtFirstComma =>
      assert Join(texts, ",") == texts[0] + "," + texts[1] by {
        assert texts[1..] == [texts[1]];
      }
      SplitOnceAt(texts[0], ",", texts[1]);
      assert texts == [texts[0], texts[1]];
    case CommaSeparated =>
      SplitJoin(texts, ',');
  }

  /** The payload the encoder writes for fitting, separable fields decodes to those fields. */
  lemma DecodeEncoded(d: Descriptor, vs: seq<FieldValue>)
    requires d.Valid() && FitTypes(d.fields, vs) && Separable(d.layout, Texts(vs))
    ensures Decode(d, Join(Texts(vs), ",")) == Returns(vs)
  {
    PiecesJoin(d, Texts(vs));
    DecodeFieldsTexts(d.fields, vs);
  }

  // ---------------------------------------------------------------------------
  // What the table-driven decoder returns
  // ---------------------------------------------------------------------------

  /** A decoded field fits its type, and its wire text has a comma only if the field text had one. */
  lemma DecodeFieldShape(t: FieldType, text: string)
    requires DecodeField(t, text).Returns?
    ensures FitsType(t, DecodeField(t, text).value)
    ensures ',' in FieldText(DecodeField(t, text).value) ==> ',' in text
  {
    match t
    case Text =>
    case UInt32 =>
      ToDecimalValue(DecodeField(t, text).value.number);
    case UInt8 =>
      ToDecimalValue(DecodeField(t, text).value.number);
    case Flag =>
  }

  /** Decoding field texts succeeds exactly when every field decodes, each to its own value. */
  lemma {:induction false} DecodeFieldsPointwise(types: seq<FieldType>, texts: seq<string>)
    requires |types| == |texts|
    ensures DecodeFields(types, texts).Returns? <==>
              forall k :: 0 <= k < |types| ==> DecodeField(types[k], texts[k]).Returns?
    ensures DecodeFields(types, texts).Returns? ==>
              forall k :: 0 <= k < |types| ==>
                DecodeFields(types, texts).value[k] == DecodeField(types[k], texts[k]).value
    decreases |types|
  {
    if types != [] {
      DecodeFieldsPointwise(types[1..], texts[1..]);
      assert forall k :: 1 <= k < |types| ==> types[1..][k - 1] == types[k] && texts[1..][k - 1] == texts[k];
    }
  }

  /**
    Whatever the decoder returns fits the descriptor's types and is separable
    when written back, so the encoder can reproduce it.
   */
  lemma DecodedFits(d: Descriptor, data: string)
    requires d.Valid() && Decode(d, data).Returns?
    ensures FitTypes(d.fields, Decode(d, data).value)
    ensures Separable(d.layout, Texts(Decode(d, data).value))
  {
    var texts := Pieces(d, data).value;
    var vs := Decode(d, data).value;
    DecodeFieldsPointwise(d.fields, texts);
    forall k | 0 <= k < |vs|
      ensures FitsType(d.fields[k], vs[k])
      ensures ',' in FieldText(vs[k]) ==> ',' in texts[k]
    {
      DecodeFieldShape(d.fields[k], texts[k]);
    }
    match d.layout
    case Whole =>
    case AtFirstComma =>
      SplitFirstCommaSpec(data);
    case CommaSeparated =>
      SplitExactSpec(d.name, data, |d.fields|);
  }
}

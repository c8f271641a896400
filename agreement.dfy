/**
  The hand-written dispatch `Event::from` implements the catalog: for every
  tag and payload it does what the table-driven decoder does.
 */
module Agreement {
  import opened RustStr
  import opened Events
  import opened Catalog

  /**
    Outcome `o` of decoding `data` under `tag` agrees with descriptor `d`: it
    is an event of the tag's own variant whose fields are the ones `d` reads,
    or a panic exactly when, and for the same reason as, the table-driven
    decoder panics.
   */
  predicate Agrees(tag: string, d: Descriptor, data: string, o: Outcome<Event>)
    requires d.Valid()
  {
    match o
    case Returns(e) => TagOf(e) == tag && Decode(d, data) == Returns(FieldsOf(e))
    case Panics(p) => Decode(d, data) == Panics(p)
  }

  /**
    `Event::from` follows the catalog: an unknown tag gives `ConfigReloaded`,
    a known tag agrees with its descriptor.
   */
  lemma FromFollowsCatalog(tag: string, data: string)
    ensures DescriptorOf(tag).None? ==> From(tag, data) == Returns(ConfigReloaded)
    ensures DescriptorOf(tag).Some? ==> Agrees(tag, DescriptorOf(tag).value, data, From(tag, data))
  {
    match tag
    case "workspace" => WorkspaceFields(data); WorkspaceDispatch(data);
    case "workspacev2" => WorkspaceV2Fields(data); WorkspaceV2Dispatch(data);
    case "focusedmon" => FocusedMonFields(data); FocusedMonDispatch(data);
    case "activewindow" => ActiveWindowFields(data); ActiveWindowDispatch(data);
    case "activewindowv2" => ActiveWindowV2Fields(data); ActiveWindowV2Dispatch(data);
    case "moveworkspace" => MoveWorkspaceFields(data); MoveWorkspaceDispatch(data);
    case "moveworkspacev2" => MoveWorkspaceV2Fields(data); MoveWorkspaceV2Dispatch(data);
    case "fullscreen" => FullscreenFields(data); FullscreenDispatch(data);
    case "monitorremoved" => MonitorRemovedFields(data); MonitorRemovedDispatch(data);
    case "monitoradded" => MonitorAddedFields(data); MonitorAddedDispatch(data);
    case "monitoraddedv2" => MonitorAddedV2Fields(data); MonitorAddedV2Dispatch(data);
    case "createworkspace" => CreateWorkspaceFields(data); CreateWorkspaceDispatch(data);
    case "createworkspacev2" => CreateWorkspaceV2Fields(data); CreateWorkspaceV2Dispatch(data);
    case "destroyworkspace" => DestroyWorkspaceFields(data); DestroyWorkspaceDispatch(data);
    case "destroyworkspacev2" => DestroyWorkspaceV2Fields(data); DestroyWorkspaceV2Dispatch(data);
    case "renameworkspace" => RenameWorkspaceFields(data); RenameWorkspaceDispatch(data);
    case "activespecial" => ActiveSpecialFields(data); ActiveSpecialDispatch(data);
    case "activelayout" => ActiveLayoutFields(data); ActiveLayoutDispatch(data);
    case "openwindow" => OpenWindowFields(data); OpenWindowDispatch(data);
    case "closewindow" => CloseWindowFields(data); CloseWindowDispatch(data);
    case "movewindow" => MoveWindowFields(data); MoveWindowDispatch(data);
    case "movewindowv2" => MoveWindowV2Fields(data); MoveWindowV2Dispatch(data);
    case "openlayer" => OpenLayerFields(data); OpenLayerDispatch(data);
    case "closelayer" => CloseLayerFields(data); CloseLayerDispatch(data);
    case "submap" => SubmapFields(data); SubmapDispatch(data);
    case "changefloatingmode" => ChangeFloatingModeFields(data); ChangeFloatingModeDispatch(data);
    case "urgent" => UrgentFields(data); UrgentDispatch(data);
    case "minimize" => MinimizeFields(data); MinimizeDispatch(data);
    case "screencast" => ScreencastFields(data); ScreencastDispatch(data);
    case "windowtitle" => WindowTitleFields(data); WindowTitleDispatch(data);
    case "ignoregrouplock" => IgnoreGroupLockFields(data); IgnoreGroupLockDispatch(data);
    case "lockgroups" => LockGroupsFields(data); LockGroupsDispatch(data);
    case "configreloaded" =>
    case "pin" => PinFields(data); PinDispatch(data);
    case _ =>
  }

  // Each record decoder reads the fields its descriptor reads.

  lemma WorkspaceFields(data: string)
    ensures Agrees("workspace", Descriptor("Workspace", Whole, [Text]), data,
              match ParseWorkspace(data)
              case Returns(p) => Returns(Event.Workspace(p))
              case Panics(r) => Panics(r))
  {
    var d := Descriptor("Workspace", Whole, [Text]);
    DecodeOne(Text, data);
    assert Decode(d, data) == Returns([TextValue(data)]);
  }

  lemma WorkspaceV2Fields(data: string)
    ensures Agrees("workspacev2", Descriptor("WorkspaceV2", AtFirstComma, [UInt32, Text]), data,
              match ParseWorkspaceV2(data)
              case Returns(p) => Returns(Event.WorkspaceV2(p))
              case Panics(r) => Panics(r))
  {
    var d := Descriptor("WorkspaceV2", AtFirstComma, [UInt32, Text]);
    match SplitFirstComma(data)
    case Panics(r) =>
      assert Decode(d, data) == Panics(r);
    case Returns(pair) =>
      DecodeTwo(UInt32, Text, pair.0, pair.1);
      match UnwrapU32(pair.0)
      case Panics(r) =>
        assert Decode(d, data) == Panics(r);
      case Returns(n0) =>
        assert Decode(d, data) == Returns([NumberValue(n0), TextValue(pair.1)]);
  }

  lemma FocusedMonFields(data: string)
    ensures Agrees("focusedmon", Descriptor("FocusedMon", AtFirstComma, [Text, Text]), data,
              match ParseFocusedMon(data)
              case Returns(p) => Returns(Event.FocusedMon(p))
              case Panics(r) => Panics(r))
  {
    var d := Descriptor("FocusedMon", AtFirstComma, [Text, Text]);
    match SplitFirstComma(data)
    case Panics(r) =>
      assert Decode(d, data) == Panics(r);
    case Returns(pair) =>
      DecodeTwo(Text, Text, pair.0, pair.1);
      assert Decode(d, data) == Returns([TextValue(pair.0), TextValue(pair.1)]);
  }

  lemma ActiveWindowFields(data: string)
    ensures Agrees("activewindow", Descriptor("ActiveWindow", AtFirstComma, [Text, Text]), data,
              match ParseActiveWindow(data)
              case Returns(p) => Returns(Event.ActiveWindow(p))
              case Panics(r) => Panics(r))
  {
    var d := Descriptor("ActiveWindow", AtFirstComma, [Text, Text]);
    match SplitFirstComma(data)
    case Panics(r) =>
      assert Decode(d, data) == Panics(r);
    case Returns(pair) =>
      DecodeTwo(Text, Text, pair.0, pair.1);
      assert Decode(d, data) == Returns([TextValue(pair.0), TextValue(pair.1)]);
  }

  lemma ActiveWindowV2Fields(data: string)
    ensures Agrees("activewindowv2", Descriptor("ActiveWindowV2", Whole, [Text]), data,
              match ParseActiveWindowV2(data)
              case Returns(p) => Returns(Event.ActiveWindowV2(p))
              case Panics(r) => Panics(r))
  {
    var d := Descriptor("ActiveWindowV2", Whole, [Text]);
    DecodeOne(Text, data);
    assert Decode(d, data) == Returns([TextValue(data)]);
  }

  lemma MoveWorkspaceFields(data: string)
    ensures Agrees("moveworkspace", Descriptor("MoveWorkspace", CommaSeparated, [Text, Text]), data,
              match ParseMoveWorkspace(data)
              case Returns(p) => Returns(Event.MoveWorkspace(p))
              case Panics(r) => Panics(r))
  {
    var d := Descriptor("MoveWorkspace", CommaSeparated, [Text, Text]);
    match SplitExact("MoveWorkspace", data, 2)
    case Panics(r) =>
      assert Decode(d, data) == Panics(r);
    case Returns(p) =>
      assert p == [p[0], p[1]];
      DecodeTwo(Text, Text, p[0], p[1]);
      assert Decode(d, data) == Returns([TextValue(p[0]), TextValue(p[1])]);
  }

  lemma MoveWorkspaceV2Fields(data: string)
    ensures Agrees("moveworkspacev2", Descriptor("MoveWorkspaceV2", CommaSeparated, [UInt32, Text, Text]), data,
              match ParseMoveWorkspaceV2(data)
              case Returns(p) => Returns(Event.MoveWorkspaceV2(p))
              case Panics(r) => Panics(r))
  {
    var d := Descriptor("MoveWorkspaceV2", CommaSeparated, [UInt32, Text, Text]);
    match SplitExact("MoveWorkspaceV2", data, 3)
    case Panics(r) =>
      assert Decode(d, data) == Panics(r);
    case Returns(p) =>
      assert p == [p[0], p[1], p[2]];
      DecodeThree(UInt32, Text, Text, p[0], p[1], p[2]);
      match UnwrapU32(p[0])
      case Panics(r) =>
        assert Decode(d, data) == Panics(r);
      case Returns(n0) =>
        assert Decode(d, data) == Returns([NumberValue(n0), TextValue(p[1]), TextValue(p[2])]);
  }

  lemma FullscreenFields(data: string)
    ensures Agrees("fullscreen", Descriptor("Fullscreen", Whole, [Flag]), data,
              match ParseFullscreen(data)
              case Returns(p) => Returns(Event.Fullscreen(p))
              case Panics(r) => Panics(r))
  {
    var d := Descriptor("Fullscreen", Whole, [Flag]);
    DecodeOne(Flag, data);
    assert Decode(d, data) == Returns([FlagValue(IsOne(data))]);
  }

  lemma MonitorRemovedFields(data: string)
    ensures Agrees("monitorremoved", Descriptor("MonitorRemoved", Whole, [Text]), data,
              match ParseMonitorRemoved(data)
              case Returns(p) => Returns(Event.MonitorRemoved(p))
              case Panics(r) => Panics(r))
  {
    var d := Descriptor("MonitorRemoved", Whole, [Text]);
    DecodeOne(Text, data);
    assert Decode(d, data) == Returns([TextValue(data)]);
  }

  lemma MonitorAddedFields(data: string)
    ensures Agrees("monitoradded", Descriptor("MonitorAdded", Whole, [Text]), data,
              match ParseMonitorAdded(data)
              case Returns(p) => Returns(Event.MonitorAdded(p))
              case Panics(r) => Panics(r))
  {
    var d := Descriptor("MonitorAdded", Whole, [Text]);
    DecodeOne(Text, data);
    assert Decode(d, data) == Returns([TextValue(data)]);
  }

  lemma MonitorAddedV2Fields(data: string)
    ensures Agrees("monitoraddedv2", Descriptor("MonitorAddedV2", CommaSeparated, [UInt32, Text, Text]), data,
              match ParseMonitorAddedV2(data)
              case Returns(p) => Returns(Event.MonitorAddedV2(p))
              case Panics(r) => Panics(r))
  {
    var d := Descriptor("MonitorAddedV2", CommaSeparated, [UInt32, Text, Text]);
    match SplitExact("MonitorAddedV2", data, 3)
    case Panics(r) =>
      assert Decode(d, data) == Panics(r);
    case Returns(p) =>
      assert p == [p[0], p[1], p[2]];
      DecodeThree(UInt32, Text, Text, p[0], p[1], p[2]);
      match UnwrapU32(p[0])
      case Panics(r) =>
        assert Decode(d, data) == Panics(r);
      case Returns(n0) =>
        assert Decode(d, data) == Returns([NumberValue(n0), TextValue(p[1]), TextValue(p[2])]);
  }

  lemma CreateWorkspaceFields(data: string)
    ensures Agrees("createworkspace", Descriptor("CreateWorkspace", Whole, [Text]), data,
              match ParseCreateWorkspace(data)
              case Returns(p) => Returns(Event.CreateWorkspace(p))
              case Panics(r) => Panics(r))
  {
    var d := Descriptor("CreateWorkspace", Whole, [Text]);
    DecodeOne(Text, data);
    assert Decode(d, data) == Returns([TextValue(data)]);
  }

  lemma CreateWorkspaceV2Fields(data: string)
    ensures Agrees("createworkspacev2", Descriptor("CreateWorkspaceV2", AtFirstComma, [UInt32, Text]), data,
              match ParseCreateWorkspaceV2(data)
              case Returns(p) => Returns(Event.CreateWorkspaceV2(p))
              case Panics(r) => Panics(r))
  {
    var d := Descriptor("CreateWorkspaceV2", AtFirstComma, [UInt32, Text]);
    match SplitFirstComma(data)
    case Panics(r) =>
      assert Decode(d, data) == Panics(r);
    case Returns(pair) =>
      DecodeTwo(UInt32, Text, pair.0, pair.1);
      match UnwrapU32(pair.0)
      case Panics(r) =>
        assert Decode(d, data) == Panics(r);
      case Returns(n0) =>
        assert Decode(d, data) == Returns([NumberValue(n0), TextValue(pair.1)]);
  }

  lemma DestroyWorkspaceFields(data: string)
    ensures Agrees("destroyworkspace", Descriptor("DestroyWorkspace", Whole, [Text]), data,
              match ParseDestroyWorkspace(data)
              case Returns(p) => Returns(Event.DestroyWorkspace(p))
              case Panics(r) => Panics(r))
  {
    var d := Descriptor("DestroyWorkspace", Whole, [Text]);
    DecodeOne(Text, data);
    assert Decode(d, data) == Returns([TextValue(data)]);
  }

  lemma DestroyWorkspaceV2Fields(data: string)
    ensures Agrees("destroyworkspacev2", Descriptor("DestroyWorkspaceV2", AtFirstComma, [UInt32, Text]), data,
              match ParseDestroyWorkspaceV2(data)
              case Returns(p) => Returns(Event.DestroyWorkspaceV2(p))
              case Panics(r) => Panics(r))
  {
    var d := Descriptor("DestroyWorkspaceV2", AtFirstComma, [UInt32, Text]);
    match SplitFirstComma(data)
    case Panics(r) =>
      assert Decode(d, data) == Panics(r);
    case Returns(pair) =>
      DecodeTwo(UInt32, Text, pair.0, pair.1);
      match UnwrapU32(pair.0)
      case Panics(r) =>
        assert Decode(d, data) == Panics(r);
      case Returns(n0) =>
        assert Decode(d, data) == Returns([NumberValue(n0), TextValue(pair.1)]);
  }

  lemma RenameWorkspaceFields(data: string)
    ensures Agrees("renameworkspace", Descriptor("RenameWorkspace", AtFirstComma, [UInt32, Text]), data,
              match ParseRenameWorkspace(data)
              case Returns(p) => Returns(Event.RenameWorkspace(p))
              case Panics(r) => Panics(r))
  {
    var d := Descriptor("RenameWorkspace", AtFirstComma, [UInt32, Text]);
    match SplitFirstComma(data)
    case Panics(r) =>
      assert Decode(d, data) == Panics(r);
    case Returns(pair) =>
      DecodeTwo(UInt32, Text, pair.0, pair.1);
      match UnwrapU32(pair.0)
      case Panics(r) =>
        assert Decode(d, data) == Panics(r);
      case Returns(n0) =>
        assert Decode(d, data) == Returns([NumberValue(n0), TextValue(pair.1)]);
  }

  lemma ActiveSpecialFields(data: string)
    ensures Agrees("activespecial", Descriptor("ActiveSpecial", AtFirstComma, [Text, Text]), data,
              match ParseActiveSpecial(data)
              case Returns(p) => Returns(Event.ActiveSpecial(p))
              case Panics(r) => Panics(r))
  {
    var d := Descriptor("ActiveSpecial", AtFirstComma, [Text, Text]);
    match SplitFirstComma(data)
    case Panics(r) =>
      assert Decode(d, data) == Panics(r);
    case Returns(pair) =>
      DecodeTwo(Text, Text, pair.0, pair.1);
      assert Decode(d, data) == Returns([TextValue(pair.0), TextValue(pair.1)]);
  }

  lemma ActiveLayoutFields(data: string)
    ensures Agrees("activelayout", Descriptor("ActiveLayout", AtFirstComma, [Text, Text]), data,
              match ParseActiveLayout(data)
              case Returns(p) => Returns(Event.ActiveLayout(p))
              case Panics(r) => Panics(r))
  {
    var d := Descriptor("ActiveLayout", AtFirstComma, [Text, Text]);
    match SplitFirstComma(data)
    case Panics(r) =>
      assert Decode(d, data) == Panics(r);
    case Returns(pair) =>
      DecodeTwo(Text, Text, pair.0, pair.1);
      assert Decode(d, data) == Returns([TextValue(pair.0), TextValue(pair.1)]);
  }

  lemma OpenWindowFields(data: string)
    ensures Agrees("openwindow", Descriptor("OpenWindow", CommaSeparated, [Text, Text, Text, Text]), data,
              match ParseOpenWindow(data)
              case Returns(p) => Returns(Event.OpenWindow(p))
              case Panics(r) => Panics(r))
  {
    var d := Descriptor("OpenWindow", CommaSeparated, [Text, Text, Text, Text]);
    match SplitExact("OpenWindow", data, 4)
    case Panics(r) =>
      assert Decode(d, data) == Panics(r);
    case Returns(p) =>
      assert p == [p[0], p[1], p[2], p[3]];
      DecodeFour(Text, Text, Text, Text, p[0], p[1], p[2], p[3]);
      assert Decode(d, data) == Returns([TextValue(p[0]), TextValue(p[1]), TextValue(p[2]), TextValue(p[3])]);
  }

  lemma CloseWindowFields(data: string)
    ensures Agrees("closewindow", Descriptor("CloseWindow", Whole, [Text]), data,
              match ParseCloseWindow(data)
              case Returns(p) => Returns(Event.CloseWindow(p))
              case Panics(r) => Panics(r))
  {
    var d := Descriptor("CloseWindow", Whole, [Text]);
    DecodeOne(Text, data);
    assert Decode(d, data) == Returns([TextValue(data)]);
  }

  lemma MoveWindowFields(data: string)
    ensures Agrees("movewindow", Descriptor("MoveWindow", AtFirstComma, [Text, Text]), data,
              match ParseMoveWindow(data)
              case Returns(p) => Returns(Event.MoveWindow(p))
              case Panics(r) => Panics(r))
  {
    var d := Descriptor("MoveWindow", AtFirstComma, [Text, Text]);
    match SplitFirstComma(data)
    case Panics(r) =>
      assert Decode(d, data) == Panics(r);
    case Returns(pair) =>
      DecodeTwo(Text, Text, pair.0, pair.1);
      assert Decode(d, data) == Returns([TextValue(pair.0), TextValue(pair.1)]);
  }

  lemma MoveWindowV2Fields(data: string)
    ensures Agrees("movewindowv2", Descriptor("MoveWindowV2", CommaSeparated, [Text, UInt32, Text]), data,
              match ParseMoveWindowV2(data)
              case Returns(p) => Returns(Event.MoveWindowV2(p))
              case Panics(r) => Panics(r))
  {
    var d := Descriptor("MoveWindowV2", CommaSeparated, [Text, UInt32, Text]);
    match SplitExact("MoveWindowV2", data, 3)
    case Panics(r) =>
      assert Decode(d, data) == Panics(r);
    case Returns(p) =>
      assert p == [p[0], p[1], p[2]];
      DecodeThree(Text, UInt32, Text, p[0], p[1], p[2]);
      match UnwrapU32(p[1])
      case Panics(r) =>
        assert Decode(d, data) == Panics(r);
      case Returns(n1) =>
        assert Decode(d, data) == Returns([TextValue(p[0]), NumberValue(n1), TextValue(p[2])]);
  }

  lemma OpenLayerFields(data: string)
    ensures Agrees("openlayer", Descriptor("OpenLayer", Whole, [Text]), data,
              match ParseOpenLayer(data)
              case Returns(p) => Returns(Event.OpenLayer(p))
              case Panics(r) => Panics(r))
  {
    var d := Descriptor("OpenLayer", Whole, [Text]);
    DecodeOne(Text, data);
    assert Decode(d, data) == Returns([TextValue(data)]);
  }

  lemma CloseLayerFields(data: string)
    ensures Agrees("closelayer", Descriptor("CloseLayer", Whole, [Text]), data,
              match ParseCloseLayer(data)
              case Returns(p) => Returns(Event.CloseLayer(p))
              case Panics(r) => Panics(r))
  {
    var d := Descriptor("CloseLayer", Whole, [Text]);
    DecodeOne(Text, data);
    assert Decode(d, data) == Returns([TextValue(data)]);
  }

  lemma SubmapFields(data: string)
    ensures Agrees("submap", Descriptor("Submap", Whole, [Text]), data,
              match ParseSubmap(data)
              case Returns(p) => Returns(Event.Submap(p))
              case Panics(r) => Panics(r))
  {
    var d := Descriptor("Submap", Whole, [Text]);
    DecodeOne(Text, data);
    assert Decode(d, data) == Returns([TextValue(data)]);
  }

  lemma ChangeFloatingModeFields(data: string)
    ensures Agrees("changefloatingmode", Descriptor("ChangeFloatingMode", AtFirstComma, [Text, Flag]), data,
              match ParseChangeFloatingMode(data)
              case Returns(p) => Returns(Event.ChangeFloatingMode(p))
              case Panics(r) => Panics(r))
  {
    var d := Descriptor("ChangeFloatingMode", AtFirstComma, [Text, Flag]);
    match SplitFirstComma(data)
    case Panics(r) =>
      assert Decode(d, data) == Panics(r);
    case Returns(pair) =>
      DecodeTwo(Text, Flag, pair.0, pair.1);
      assert Decode(d, data) == Returns([TextValue(pair.0), FlagValue(IsOne(pair.1))]);
  }

  lemma UrgentFields(data: string)
    ensures Agrees("urgent", Descriptor("Urgent", Whole, [Text]), data,
              match ParseUrgent(data)
              case Returns(p) => Returns(Event.Urgent(p))
              case Panics(r) => Panics(r))
  {
    var d := Descriptor("Urgent", Whole, [Text]);
    DecodeOne(Text, data);
    assert Decode(d, data) == Returns([TextValue(data)]);
  }

  lemma MinimizeFields(data: string)
    ensures Agrees("minimize", Descriptor("Minimize", AtFirstComma, [Text, Flag]), data,
              match ParseMinimize(data)
              case Returns(p) => Returns(Event.Minimize(p))
              case Panics(r) => Panics(r))
  {
    var d := Descriptor("Minimize", AtFirstComma, [Text, Flag]);
    match SplitFirstComma(data)
    case Panics(r) =>
      assert Decode(d, data) == Panics(r);
    case Returns(pair) =>
      DecodeTwo(Text, Flag, pair.0, pair.1);
      assert Decode(d, data) == Returns([TextValue(pair.0), FlagValue(IsOne(pair.1))]);
  }

  lemma ScreencastFields(data: string)
    ensures Agrees("screencast", Descriptor("Screencast", AtFirstComma, [Flag, UInt8]), data,
              match ParseScreencast(data)
              case Returns(p) => Returns(Event.Screencast(p))
              case Panics(r) => Panics(r))
  {
    var d := Descriptor("Screencast", AtFirstComma, [Flag, UInt8]);
    match SplitFirstComma(data)
    case Panics(r) =>
      assert Decode(d, data) == Panics(r);
    case Returns(pair) =>
      DecodeTwo(Flag, UInt8, pair.0, pair.1);
      match UnwrapU8(pair.1)
      case Panics(r) =>
        assert Decode(d, data) == Panics(r);
      case Returns(n1) =>
        assert Decode(d, data) == Returns([FlagValue(IsOne(pair.0)), NumberValue(n1)]);
  }

  lemma WindowTitleFields(data: string)
    ensures Agrees("windowtitle", Descriptor("WindowTitle", Whole, [Text]), data,
              match ParseWindowTitle(data)
              case Returns(p) => Returns(Event.WindowTitle(p))
              case Panics(r) => Panics(r))
  {
    var d := Descriptor("WindowTitle", Whole, [Text]);
    DecodeOne(Text, data);
    assert Decode(d, data) == Returns([TextValue(data)]);
  }

  lemma IgnoreGroupLockFields(data: string)
    ensures Agrees("ignoregrouplock", Descriptor("IgnoreGroupLock", Whole, [Flag]), data,
              match ParseIgnoreGroupLock(data)
              case Returns(p) => Returns(Event.IgnoreGroupLock(p))
              case Panics(r) => Panics(r))
  {
    var d := Descriptor("IgnoreGroupLock", Whole, [Flag]);
    DecodeOne(Flag, data);
    assert Decode(d, data) == Returns([FlagValue(IsOne(data))]);
  }

  lemma LockGroupsFields(data: string)
    ensures Agrees("lockgroups", Descriptor("LockGroups", Whole, [Flag]), data,
              match ParseLockGroups(data)
              case Returns(p) => Returns(Event.LockGroups(p))
              case Panics(r) => Panics(r))
  {
    var d := Descriptor("LockGroups", Whole, [Flag]);
    DecodeOne(Flag, data);
    assert Decode(d, data) == Returns([FlagValue(IsOne(data))]);
  }

  lemma PinFields(data: string)
    ensures Agrees("pin", Descriptor("Pin", AtFirstComma, [Text, Flag]), data,
              match ParsePin(data)
              case Returns(p) => Returns(Event.Pin(p))
              case Panics(r) => Panics(r))
  {
    var d := Descriptor("Pin", AtFirstComma, [Text, Flag]);
    match SplitFirstComma(data)
    case Panics(r) =>
      assert Decode(d, data) == Panics(r);
    case Returns(pair) =>
      DecodeTwo(Text, Flag, pair.0, pair.1);
      assert Decode(d, data) == Returns([TextValue(pair.0), FlagValue(IsOne(pair.1))]);
  }

  // `Event::from` hands each known tag to its own record decoder.

  lemma WorkspaceDispatch(data: string)
    ensures From("workspace", data) ==
              match ParseWorkspace(data)
              case Returns(p) => Returns(Event.Workspace(p))
              case Panics(r) => Panics(r)
  {
  }

  lemma WorkspaceV2Dispatch(data: string)
    ensures From("workspacev2", data) ==
              match ParseWorkspaceV2(data)
              case Returns(p) => Returns(Event.WorkspaceV2(p))
              case Panics(r) => Panics(r)
  {
  }

  lemma FocusedMonDispatch(data: string)
    ensures From("focusedmon", data) ==
              match ParseFocusedMon(data)
              case Returns(p) => Returns(Event.FocusedMon(p))
              case Panics(r) => Panics(r)
  {
  }

  lemma ActiveWindowDispatch(data: string)
    ensures From("activewindow", data) ==
              match ParseActiveWindow(data)
              case Returns(p) => Returns(Event.ActiveWindow(p))
              case Panics(r) => Panics(r)
  {
  }

  lemma ActiveWindowV2Dispatch(data: string)
    ensures From("activewindowv2", data) ==
              match ParseActiveWindowV2(data)
              case Returns(p) => Returns(Event.ActiveWindowV2(p))
              case Panics(r) => Panics(r)
  {
  }

  lemma MoveWorkspaceDispatch(data: string)
    ensures From("moveworkspace", data) ==
              match ParseMoveWorkspace(data)
              case Returns(p) => Returns(Event.MoveWorkspace(p))
              case Panics(r) => Panics(r)
  {
  }

  lemma MoveWorkspaceV2Dispatch(data: string)
    ensures From("moveworkspacev2", data) ==
              match ParseMoveWorkspaceV2(data)
              case Returns(p) => Returns(Event.MoveWorkspaceV2(p))
              case Panics(r) => Panics(r)
  {
  }

  lemma FullscreenDispatch(data: string)
    ensures From("fullscreen", data) ==
              match ParseFullscreen(data)
              case Returns(p) => Returns(Event.Fullscreen(p))
              case Panics(r) => Panics(r)
  {
  }

  lemma MonitorRemovedDispatch(data: string)
    ensures From("monitorremoved", data) ==
              match ParseMonitorRemoved(data)
              case Returns(p) => Returns(Event.MonitorRemoved(p))
              case Panics(r) => Panics(r)
  {
  }

  lemma MonitorAddedDispatch(data: string)
    ensures From("monitoradded", data) ==
              match ParseMonitorAdded(data)
              case Returns(p) => Returns(Event.MonitorAdded(p))
              case Panics(r) => Panics(r)
  {
  }

  lemma MonitorAddedV2Dispatch(data: string)
    ensures From("monitoraddedv2", data) ==
              match ParseMonitorAddedV2(data)
              case Returns(p) => Returns(Event.MonitorAddedV2(p))
              case Panics(r) => Panics(r)
  {
  }

  lemma CreateWorkspaceDispatch(data: string)
    ensures From("createworkspace", data) ==
              match ParseCreateWorkspace(data)
              case Returns(p) => Returns(Event.CreateWorkspace(p))
              case Panics(r) => Panics(r)
  {
  }

  lemma CreateWorkspaceV2Dispatch(data: string)
    ensures From("createworkspacev2", data) ==
              match ParseCreateWorkspaceV2(data)
              case Returns(p) => Returns(Event.CreateWorkspaceV2(p))
              case Panics(r) => Panics(r)
  {
  }

  lemma DestroyWorkspaceDispatch(data: string)
    ensures From("destroyworkspace", data) ==
              match ParseDestroyWorkspace(data)
              case Returns(p) => Returns(Event.DestroyWorkspace(p))
              case Panics(r) => Panics(r)
  {
  }

  lemma DestroyWorkspaceV2Dispatch(data: string)
    ensures From("destroyworkspacev2", data) ==
              match ParseDestroyWorkspaceV2(data)
              case Returns(p) => Returns(Event.DestroyWorkspaceV2(p))
              case Panics(r) => Panics(r)
  {
  }

  lemma RenameWorkspaceDispatch(data: string)
    ensures From("renameworkspace", data) ==
              match ParseRenameWorkspace(data)
              case Returns(p) => Returns(Event.RenameWorkspace(p))
              case Panics(r) => Panics(r)
  {
  }

  lemma ActiveSpecialDispatch(data: string)
    ensures From("activespecial", data) ==
              match ParseActiveSpecial(data)
              case Returns(p) => Returns(Event.ActiveSpecial(p))
              case Panics(r) => Panics(r)
  {
  }

  lemma ActiveLayoutDispatch(data: string)
    ensures From("activelayout", data) ==
              match ParseActiveLayout(data)
              case Returns(p) => Returns(Event.ActiveLayout(p))
              case Panics(r) => Panics(r)
  {
  }

  lemma OpenWindowDispatch(data: string)
    ensures From("openwindow", data) ==
              match ParseOpenWindow(data)
              case Returns(p) => Returns(Event.OpenWindow(p))
              case Panics(r) => Panics(r)
  {
  }

  lemma CloseWindowDispatch(data: string)
    ensures From("closewindow", data) ==
              match ParseCloseWindow(data)
              case Returns(p) => Returns(Event.CloseWindow(p))
              case Panics(r) => Panics(r)
  {
  }

  lemma MoveWindowDispatch(data: string)
    ensures From("movewindow", data) ==
              match ParseMoveWindow(data)
              case Returns(p) => Returns(Event.MoveWindow(p))
              case Panics(r) => Panics(r)
  {
  }

  lemma MoveWindowV2Dispatch(data: string)
    ensures From("movewindowv2", data) ==
              match ParseMoveWindowV2(data)
              case Returns(p) => Returns(Event.MoveWindowV2(p))
              case Panics(r) => Panics(r)
  {
  }

  lemma OpenLayerDispatch(data: string)
    ensures From("openlayer", data) ==
              match ParseOpenLayer(data)
              case Returns(p) => Returns(Event.OpenLayer(p))
              case Panics(r) => Panics(r)
  {
  }

  lemma CloseLayerDispatch(data: string)
    ensures From("closelayer", data) ==
              match ParseCloseLayer(data)
              case Returns(p) => Returns(Event.CloseLayer(p))
              case Panics(r) => Panics(r)
  {
  }

  lemma SubmapDispatch(data: string)
    ensures From("submap", data) ==
              match ParseSubmap(data)
              case Returns(p) => Returns(Event.Submap(p))
              case Panics(r) => Panics(r)
  {
  }

  lemma ChangeFloatingModeDispatch(data: string)
    ensures From("changefloatingmode", data) ==
              match ParseChangeFloatingMode(data)
              case Returns(p) => Returns(Event.ChangeFloatingMode(p))
              case Panics(r) => Panics(r)
  {
  }

  lemma UrgentDispatch(data: string)
    ensures From("urgent", data) ==
              match ParseUrgent(data)
              case Returns(p) => Returns(Event.Urgent(p))
              case Panics(r) => Panics(r)
  {
  }

  lemma MinimizeDispatch(data: string)
    ensures From("minimize", data) ==
              match ParseMinimize(data)
              case Returns(p) => Returns(Event.Minimize(p))
              case Panics(r) => Panics(r)
  {
  }

  lemma ScreencastDispatch(data: string)
    ensures From("screencast", data) ==
              match ParseScreencast(data)
              case Returns(p) => Returns(Event.Screencast(p))
              case Panics(r) => Panics(r)
  {
    match ParseScreencast(data)
    case Returns(p) =>
    case Panics(r) =>
  }

  lemma WindowTitleDispatch(data: string)
    ensures From("windowtitle", data) ==
              match ParseWindowTitle(data)
              case Returns(p) => Returns(Event.WindowTitle(p))
              case Panics(r) => Panics(r)
  {
  }

  lemma IgnoreGroupLockDispatch(data: string)
    ensures From("ignoregrouplock", data) ==
              match ParseIgnoreGroupLock(data)
              case Returns(p) => Returns(Event.IgnoreGroupLock(p))
              case Panics(r) => Panics(r)
  {
  }

  lemma LockGroupsDispatch(data: string)
    ensures From("lockgroups", data) ==
              match ParseLockGroups(data)
              case Returns(p) => Returns(Event.LockGroups(p))
              case Panics(r) => Panics(r)
  {
  }

  lemma PinDispatch(data: string)
    ensures From("pin", data) ==
              match ParsePin(data)
              case Returns(p) => Returns(Event.Pin(p))
              case Panics(r) => Panics(r)
  {
  }

  // ---------------------------------------------------------------------------
  // Round trip: the payload Hyprland writes for an event decodes to that event
  // ---------------------------------------------------------------------------

  /**
    Whatever `Event::from` returns is wire-safe, so writing it back and decoding
    again gives the same event: the encoder's payload is a normal form.
   */
  lemma DecodedRoundTrip(tag: string, data: string)
    requires From(tag, data).Returns?
    ensures WireSafe(From(tag, data).value)
    ensures From(TagOf(From(tag, data).value), Payload(From(tag, data).value)) == From(tag, data)
  {
    FromFollowsCatalog(tag, data);
    var e := From(tag, data).value;
    if DescriptorOf(tag).None? {
      ConfigReloadedSafe();
    } else {
      AgreesSafe(tag, DescriptorOf(tag).value, data, e);
    }
    RoundTrip(e);
  }

  /** An event that agrees with its tag's descriptor on some payload is wire-safe. */
  lemma AgreesSafe(tag: string, d: Descriptor, data: string, e: Event)
    requires DescriptorOf(tag) == Some(d) && Agrees(tag, d, data, Returns(e))
    ensures WireSafe(e)
  {
    DecodedFits(d, data);
  }

  /** `ConfigReloaded` has no fields, so nothing in it can be misread. */
  lemma ConfigReloadedSafe()
    ensures WireSafe(ConfigReloaded)
  {
    assert DescriptorOf("configreloaded") == Some(Descriptor("ConfigReloaded", Whole, []));
  }

  /** A wire-safe event's texts are separable under the layout its tag is listed with. */
  lemma SafeLayout(e: Event, layout: Layout)
    requires WireSafe(e)
    requires DescriptorOf(TagOf(e)).Some? ==> DescriptorOf(TagOf(e)).value.layout == layout
    ensures Separable(layout, Texts(FieldsOf(e)))
  {
  }

  /**
    Every wire-safe event survives encoding and decoding: `Event::from` applied
    to its tag and the payload written for it returns the event itself.
   */
  lemma RoundTrip(e: Event)
    requires WireSafe(e)
    ensures From(TagOf(e), Payload(e)) == Returns(e)
  {
    match e
    case Workspace(p) => WorkspaceEncoded(p); WorkspaceParsed(p, Payload(e));
    case WorkspaceV2(p) => WorkspaceV2Safe(p); WorkspaceV2Encoded(p); WorkspaceV2Parsed(p, Payload(e));
    case FocusedMon(p) => FocusedMonSafe(p); FocusedMonEncoded(p); FocusedMonParsed(p, Payload(e));
    case ActiveWindow(p) => ActiveWindowSafe(p); ActiveWindowEncoded(p); ActiveWindowParsed(p, Payload(e));
    case ActiveWindowV2(p) => ActiveWindowV2Encoded(p); ActiveWindowV2Parsed(p, Payload(e));
    case MoveWorkspace(p) => MoveWorkspaceSafe(p); MoveWorkspaceEncoded(p); MoveWorkspaceParsed(p, Payload(e));
    case MoveWorkspaceV2(p) => MoveWorkspaceV2Safe(p); MoveWorkspaceV2Encoded(p); MoveWorkspaceV2Parsed(p, Payload(e));
    case Fullscreen(p) => FullscreenEncoded(p); FullscreenParsed(p, Payload(e));
    case MonitorRemoved(p) => MonitorRemovedEncoded(p); MonitorRemovedParsed(p, Payload(e));
    case MonitorAdded(p) => MonitorAddedEncoded(p); MonitorAddedParsed(p, Payload(e));
    case MonitorAddedV2(p) => MonitorAddedV2Safe(p); MonitorAddedV2Encoded(p); MonitorAddedV2Parsed(p, Payload(e));
    case CreateWorkspace(p) => CreateWorkspaceEncoded(p); CreateWorkspaceParsed(p, Payload(e));
    case CreateWorkspaceV2(p) => CreateWorkspaceV2Safe(p); CreateWorkspaceV2Encoded(p); CreateWorkspaceV2Parsed(p, Payload(e));
    case DestroyWorkspace(p) => DestroyWorkspaceEncoded(p); DestroyWorkspaceParsed(p, Payload(e));
    case DestroyWorkspaceV2(p) => DestroyWorkspaceV2Safe(p); DestroyWorkspaceV2Encoded(p); DestroyWorkspaceV2Parsed(p, Payload(e));
    case RenameWorkspace(p) => RenameWorkspaceSafe(p); RenameWorkspaceEncoded(p); RenameWorkspaceParsed(p, Payload(e));
    case ActiveSpecial(p) => ActiveSpecialSafe(p); ActiveSpecialEncoded(p); ActiveSpecialParsed(p, Payload(e));
    case ActiveLayout(p) => ActiveLayoutSafe(p); ActiveLayoutEncoded(p); ActiveLayoutParsed(p, Payload(e));
    case OpenWindow(p) => OpenWindowSafe(p); OpenWindowEncoded(p); OpenWindowParsed(p, Payload(e));
    case CloseWindow(p) => CloseWindowEncoded(p); CloseWindowParsed(p, Payload(e));
    case MoveWindow(p) => MoveWindowSafe(p); MoveWindowEncoded(p); MoveWindowParsed(p, Payload(e));
    case MoveWindowV2(p) => MoveWindowV2Safe(p); MoveWindowV2Encoded(p); MoveWindowV2Parsed(p, Payload(e));
    case OpenLayer(p) => OpenLayerEncoded(p); OpenLayerParsed(p, Payload(e));
    case CloseLayer(p) => CloseLayerEncoded(p); CloseLayerParsed(p, Payload(e));
    case Submap(p) => SubmapEncoded(p); SubmapParsed(p, Payload(e));
    case ChangeFloatingMode(p) => ChangeFloatingModeSafe(p); ChangeFloatingModeEncoded(p); ChangeFloatingModeParsed(p, Payload(e));
    case Urgent(p) => UrgentEncoded(p); UrgentParsed(p, Payload(e));
    case Minimize(p) => MinimizeSafe(p); MinimizeEncoded(p); MinimizeParsed(p, Payload(e));
    case Screencast(p) => ScreencastSafe(p); ScreencastEncoded(p); ScreencastParsed(p, Payload(e));
    case WindowTitle(p) => WindowTitleEncoded(p); WindowTitleParsed(p, Payload(e));
    case IgnoreGroupLock(p) => IgnoreGroupLockEncoded(p); IgnoreGroupLockParsed(p, Payload(e));
    case LockGroups(p) => LockGroupsEncoded(p); LockGroupsParsed(p, Payload(e));
    case ConfigReloaded => ConfigReloadedRoundTrip();
    case Pin(p) => PinSafe(p); PinEncoded(p); PinParsed(p, Payload(e));
  }

  lemma ConfigReloadedRoundTrip()
    ensures From("configreloaded", Payload(ConfigReloaded)) == Returns(ConfigReloaded)
  {
  }

  lemma WorkspaceEncoded(p: Workspace)
    ensures ParseWorkspace(Payload(Event.Workspace(p))) == Returns(p)
  {
    var e := Event.Workspace(p);
    DecodeEncoded(Descriptor("Workspace", Whole, [Text]), FieldsOf(e));
    WorkspaceFields(Payload(e));
  }

  lemma WorkspaceParsed(p: Workspace, data: string)
    requires ParseWorkspace(data) == Returns(p)
    ensures From(TagOf(Event.Workspace(p)), data) == Returns(Event.Workspace(p))
  {
    WorkspaceDispatch(data);
  }

  lemma WorkspaceV2Encoded(p: WorkspaceV2)
    requires Separable(AtFirstComma, Texts(FieldsOf(Event.WorkspaceV2(p))))
    ensures ParseWorkspaceV2(Payload(Event.WorkspaceV2(p))) == Returns(p)
  {
    var e := Event.WorkspaceV2(p);
    DecodeEncoded(Descriptor("WorkspaceV2", AtFirstComma, [UInt32, Text]), FieldsOf(e));
    WorkspaceV2Fields(Payload(e));
  }

  lemma WorkspaceV2Safe(p: WorkspaceV2)
    requires WireSafe(Event.WorkspaceV2(p))
    ensures Separable(AtFirstComma, Texts(FieldsOf(Event.WorkspaceV2(p))))
  {
    SafeLayout(Event.WorkspaceV2(p), AtFirstComma);
  }

  lemma WorkspaceV2Parsed(p: WorkspaceV2, data: string)
    requires ParseWorkspaceV2(data) == Returns(p)
    ensures From(TagOf(Event.WorkspaceV2(p)), data) == Returns(Event.WorkspaceV2(p))
  {
    WorkspaceV2Dispatch(data);
  }

  lemma FocusedMonEncoded(p: FocusedMon)
    requires Separable(AtFirstComma, Texts(FieldsOf(Event.FocusedMon(p))))
    ensures ParseFocusedMon(Payload(Event.FocusedMon(p))) == Returns(p)
  {
    var e := Event.FocusedMon(p);
    DecodeEncoded(Descriptor("FocusedMon", AtFirstComma, [Text, Text]), FieldsOf(e));
    FocusedMonFields(Payload(e));
  }

  lemma FocusedMonSafe(p: FocusedMon)
    requires WireSafe(Event.FocusedMon(p))
    ensures Separable(AtFirstComma, Texts(FieldsOf(Event.FocusedMon(p))))
  {
    SafeLayout(Event.FocusedMon(p), AtFirstComma);
  }

  lemma FocusedMonParsed(p: FocusedMon, data: string)
    requires ParseFocusedMon(data) == Returns(p)
    ensures From(TagOf(Event.FocusedMon(p)), data) == Returns(Event.FocusedMon(p))
  {
    FocusedMonDispatch(data);
  }

  lemma ActiveWindowEncoded(p: ActiveWindow)
    requires Separable(AtFirstComma, Texts(FieldsOf(Event.ActiveWindow(p))))
    ensures ParseActiveWindow(Payload(Event.ActiveWindow(p))) == Returns(p)
  {
    var e := Event.ActiveWindow(p);
    DecodeEncoded(Descriptor("ActiveWindow", AtFirstComma, [Text, Text]), FieldsOf(e));
    ActiveWindowFields(Payload(e));
  }

  lemma ActiveWindowSafe(p: ActiveWindow)
    requires WireSafe(Event.ActiveWindow(p))
    ensures Separable(AtFirstComma, Texts(FieldsOf(Event.ActiveWindow(p))))
  {
    SafeLayout(Event.ActiveWindow(p), AtFirstComma);
  }

  lemma ActiveWindowParsed(p: ActiveWindow, data: string)
    requires ParseActiveWindow(data) == Returns(p)
    ensures From(TagOf(Event.ActiveWindow(p)), data) == Returns(Event.ActiveWindow(p))
  {
    ActiveWindowDispatch(data);
  }

  lemma ActiveWindowV2Encoded(p: ActiveWindowV2)
    ensures ParseActiveWindowV2(Payload(Event.ActiveWindowV2(p))) == Returns(p)
  {
    var e := Event.ActiveWindowV2(p);
    DecodeEncoded(Descriptor("ActiveWindowV2", Whole, [Text]), FieldsOf(e));
    ActiveWindowV2Fields(Payload(e));
  }

  lemma ActiveWindowV2Parsed(p: ActiveWindowV2, data: string)
    requires ParseActiveWindowV2(data) == Returns(p)
    ensures From(TagOf(Event.ActiveWindowV2(p)), data) == Returns(Event.ActiveWindowV2(p))
  {
    ActiveWindowV2Dispatch(data);
  }

  lemma MoveWorkspaceEncoded(p: MoveWorkspace)
    requires Separable(CommaSeparated, Texts(FieldsOf(Event.MoveWorkspace(p))))
    ensures ParseMoveWorkspace(Payload(Event.MoveWorkspace(p))) == Returns(p)
  {
    var e := Event.MoveWorkspace(p);
    DecodeEncoded(Descriptor("MoveWorkspace", CommaSeparated, [Text, Text]), FieldsOf(e));
    MoveWorkspaceFields(Payload(e));
  }

  lemma MoveWorkspaceSafe(p: MoveWorkspace)
    requires WireSafe(Event.MoveWorkspace(p))
    ensures Separable(CommaSeparated, Texts(FieldsOf(Event.MoveWorkspace(p))))
  {
    SafeLayout(Event.MoveWorkspace(p), CommaSeparated);
  }

  lemma MoveWorkspaceParsed(p: MoveWorkspace, data: string)
    requires ParseMoveWorkspace(data) == Returns(p)
    ensures From(TagOf(Event.MoveWorkspace(p)), data) == Returns(Event.MoveWorkspace(p))
  {
    MoveWorkspaceDispatch(data);
  }

  lemma MoveWorkspaceV2Encoded(p: MoveWorkspaceV2)
    requires Separable(CommaSeparated, Texts(FieldsOf(Event.MoveWorkspaceV2(p))))
    ensures ParseMoveWorkspaceV2(Payload(Event.MoveWorkspaceV2(p))) == Returns(p)
  {
    var e := Event.MoveWorkspaceV2(p);
    DecodeEncoded(Descriptor("MoveWorkspaceV2", CommaSeparated, [UInt32, Text, Text]), FieldsOf(e));
    MoveWorkspaceV2Fields(Payload(e));
  }

  lemma MoveWorkspaceV2Safe(p: MoveWorkspaceV2)
    requires WireSafe(Event.MoveWorkspaceV2(p))
    ensures Separable(CommaSeparated, Texts(FieldsOf(Event.MoveWorkspaceV2(p))))
  {
    SafeLayout(Event.MoveWorkspaceV2(p), CommaSeparated);
  }

  lemma MoveWorkspaceV2Parsed(p: MoveWorkspaceV2, data: string)
    requires ParseMoveWorkspaceV2(data) == Returns(p)
    ensures From(TagOf(Event.MoveWorkspaceV2(p)), data) == Returns(Event.MoveWorkspaceV2(p))
  {
    MoveWorkspaceV2Dispatch(data);
  }

  lemma FullscreenEncoded(p: Fullscreen)
    ensures ParseFullscreen(Payload(Event.Fullscreen(p))) == Returns(p)
  {
    var e := Event.Fullscreen(p);
    DecodeEncoded(Descriptor("Fullscreen", Whole, [Flag]), FieldsOf(e));
    FullscreenFields(Payload(e));
  }

  lemma FullscreenParsed(p: Fullscreen, data: string)
    requires ParseFullscreen(data) == Returns(p)
    ensures From(TagOf(Event.Fullscreen(p)), data) == Returns(Event.Fullscreen(p))
  {
    FullscreenDispatch(data);
  }

  lemma MonitorRemovedEncoded(p: MonitorRemoved)
    ensures ParseMonitorRemoved(Payload(Event.MonitorRemoved(p))) == Returns(p)
  {
    var e := Event.MonitorRemoved(p);
    DecodeEncoded(Descriptor("MonitorRemoved", Whole, [Text]), FieldsOf(e));
    MonitorRemovedFields(Payload(e));
  }

  lemma MonitorRemovedParsed(p: MonitorRemoved, data: string)
    requires ParseMonitorRemoved(data) == Returns(p)
    ensures From(TagOf(Event.MonitorRemoved(p)), data) == Returns(Event.MonitorRemoved(p))
  {
    MonitorRemovedDispatch(data);
  }

  lemma MonitorAddedEncoded(p: MonitorAdded)
    ensures ParseMonitorAdded(Payload(Event.MonitorAdded(p))) == Returns(p)
  {
    var e := Event.MonitorAdded(p);
    DecodeEncoded(Descriptor("MonitorAdded", Whole, [Text]), FieldsOf(e));
    MonitorAddedFields(Payload(e));
  }

  lemma MonitorAddedParsed(p: MonitorAdded, data: string)
    requires ParseMonitorAdded(data) == Returns(p)
    ensures From(TagOf(Event.MonitorAdded(p)), data) == Returns(Event.MonitorAdded(p))
  {
    MonitorAddedDispatch(data);
  }

  lemma MonitorAddedV2Encoded(p: MonitorAddedV2)
    requires Separable(CommaSeparated, Texts(FieldsOf(Event.MonitorAddedV2(p))))
    ensures ParseMonitorAddedV2(Payload(Event.MonitorAddedV2(p))) == Returns(p)
  {
    var e := Event.MonitorAddedV2(p);
    DecodeEncoded(Descriptor("MonitorAddedV2", CommaSeparated, [UInt32, Text, Text]), FieldsOf(e));
    MonitorAddedV2Fields(Payload(e));
  }

  lemma MonitorAddedV2Safe(p: MonitorAddedV2)
    requires WireSafe(Event.MonitorAddedV2(p))
    ensures Separable(CommaSeparated, Texts(FieldsOf(Event.MonitorAddedV2(p))))
  {
    SafeLayout(Event.MonitorAddedV2(p), CommaSeparated);
  }

  lemma MonitorAddedV2Parsed(p: MonitorAddedV2, data: string)
    requires ParseMonitorAddedV2(data) == Returns(p)
    ensures From(TagOf(Event.MonitorAddedV2(p)), data) == Returns(Event.MonitorAddedV2(p))
  {
    MonitorAddedV2Dispatch(data);
  }

  lemma CreateWorkspaceEncoded(p: CreateWorkspace)
    ensures ParseCreateWorkspace(Payload(Event.CreateWorkspace(p))) == Returns(p)
  {
    var e := Event.CreateWorkspace(p);
    DecodeEncoded(Descriptor("CreateWorkspace", Whole, [Text]), FieldsOf(e));
    CreateWorkspaceFields(Payload(e));
  }

  lemma CreateWorkspaceParsed(p: CreateWorkspace, data: string)
    requires ParseCreateWorkspace(data) == Returns(p)
    ensures From(TagOf(Event.CreateWorkspace(p)), data) == Returns(Event.CreateWorkspace(p))
  {
    CreateWorkspaceDispatch(data);
  }

  lemma CreateWorkspaceV2Encoded(p: CreateWorkspaceV2)
    requires Separable(AtFirstComma, Texts(FieldsOf(Event.CreateWorkspaceV2(p))))
    ensures ParseCreateWorkspaceV2(Payload(Event.CreateWorkspaceV2(p))) == Returns(p)
  {
    var e := Event.CreateWorkspaceV2(p);
    DecodeEncoded(Descriptor("CreateWorkspaceV2", AtFirstComma, [UInt32, Text]), FieldsOf(e));
    CreateWorkspaceV2Fields(Payload(e));
  }

  lemma CreateWorkspaceV2Safe(p: CreateWorkspaceV2)
    requires WireSafe(Event.CreateWorkspaceV2(p))
    ensures Separable(AtFirstComma, Texts(FieldsOf(Event.CreateWorkspaceV2(p))))
  {
    SafeLayout(Event.CreateWorkspaceV2(p), AtFirstComma);
  }

  lemma CreateWorkspaceV2Parsed(p: CreateWorkspaceV2, data: string)
    requires ParseCreateWorkspaceV2(data) == Returns(p)
    ensures From(TagOf(Event.CreateWorkspaceV2(p)), data) == Returns(Event.CreateWorkspaceV2(p))
  {
    CreateWorkspaceV2Dispatch(data);
  }

  lemma DestroyWorkspaceEncoded(p: DestroyWorkspace)
    ensures ParseDestroyWorkspace(Payload(Event.DestroyWorkspace(p))) == Returns(p)
  {
    var e := Event.DestroyWorkspace(p);
    DecodeEncoded(Descriptor("DestroyWorkspace", Whole, [Text]), FieldsOf(e));
    DestroyWorkspaceFields(Payload(e));
  }

  lemma DestroyWorkspaceParsed(p: DestroyWorkspace, data: string)
    requires ParseDestroyWorkspace(data) == Returns(p)
    ensures From(TagOf(Event.DestroyWorkspace(p)), data) == Returns(Event.DestroyWorkspace(p))
  {
    DestroyWorkspaceDispatch(data);
  }

  lemma DestroyWorkspaceV2Encoded(p: DestroyWorkspaceV2)
    requires Separable(AtFirstComma, Texts(FieldsOf(Event.DestroyWorkspaceV2(p))))
    ensures ParseDestroyWorkspaceV2(Payload(Event.DestroyWorkspaceV2(p))) == Returns(p)
  {
    var e := Event.DestroyWorkspaceV2(p);
    DecodeEncoded(Descriptor("DestroyWorkspaceV2", AtFirstComma, [UInt32, Text]), FieldsOf(e));
    DestroyWorkspaceV2Fields(Payload(e));
  }

  lemma DestroyWorkspaceV2Safe(p: DestroyWorkspaceV2)
    requires WireSafe(Event.DestroyWorkspaceV2(p))
    ensures Separable(AtFirstComma, Texts(FieldsOf(Event.DestroyWorkspaceV2(p))))
  {
    SafeLayout(Event.DestroyWorkspaceV2(p), AtFirstComma);
  }

  lemma DestroyWorkspaceV2Parsed(p: DestroyWorkspaceV2, data: string)
    requires ParseDestroyWorkspaceV2(data) == Returns(p)
    ensures From(TagOf(Event.DestroyWorkspaceV2(p)), data) == Returns(Event.DestroyWorkspaceV2(p))
  {
    DestroyWorkspaceV2Dispatch(data);
  }

  lemma RenameWorkspaceEncoded(p: RenameWorkspace)
    requires Separable(AtFirstComma, Texts(FieldsOf(Event.RenameWorkspace(p))))
    ensures ParseRenameWorkspace(Payload(Event.RenameWorkspace(p))) == Returns(p)
  {
    var e := Event.RenameWorkspace(p);
    DecodeEncoded(Descriptor("RenameWorkspace", AtFirstComma, [UInt32, Text]), FieldsOf(e));
    RenameWorkspaceFields(Payload(e));
  }

  lemma RenameWorkspaceSafe(p: RenameWorkspace)
    requires WireSafe(Event.RenameWorkspace(p))
    ensures Separable(AtFirstComma, Texts(FieldsOf(Event.RenameWorkspace(p))))
  {
    SafeLayout(Event.RenameWorkspace(p), AtFirstComma);
  }

  lemma RenameWorkspaceParsed(p: RenameWorkspace, data: string)
    requires ParseRenameWorkspace(data) == Returns(p)
    ensures From(TagOf(Event.RenameWorkspace(p)), data) == Returns(Event.RenameWorkspace(p))
  {
    RenameWorkspaceDispatch(data);
  }

  lemma ActiveSpecialEncoded(p: ActiveSpecial)
    requires Separable(AtFirstComma, Texts(FieldsOf(Event.ActiveSpecial(p))))
    ensures ParseActiveSpecial(Payload(Event.ActiveSpecial(p))) == Returns(p)
  {
    var e := Event.ActiveSpecial(p);
    DecodeEncoded(Descriptor("ActiveSpecial", AtFirstComma, [Text, Text]), FieldsOf(e));
    ActiveSpecialFields(Payload(e));
  }

  lemma ActiveSpecialSafe(p: ActiveSpecial)
    requires WireSafe(Event.ActiveSpecial(p))
    ensures Separable(AtFirstComma, Texts(FieldsOf(Event.ActiveSpecial(p))))
  {
    SafeLayout(Event.ActiveSpecial(p), AtFirstComma);
  }

  lemma ActiveSpecialParsed(p: ActiveSpecial, data: string)
    requires ParseActiveSpecial(data) == Returns(p)
    ensures From(TagOf(Event.ActiveSpecial(p)), data) == Returns(Event.ActiveSpecial(p))
  {
    ActiveSpecialDispatch(data);
  }

  lemma ActiveLayoutEncoded(p: ActiveLayout)
    requires Separable(AtFirstComma, Texts(FieldsOf(Event.ActiveLayout(p))))
    ensures ParseActiveLayout(Payload(Event.ActiveLayout(p))) == Returns(p)
  {
    var e := Event.ActiveLayout(p);
    DecodeEncoded(Descriptor("ActiveLayout", AtFirstComma, [Text, Text]), FieldsOf(e));
    ActiveLayoutFields(Payload(e));
  }

  lemma ActiveLayoutSafe(p: ActiveLayout)
    requires WireSafe(Event.ActiveLayout(p))
    ensures Separable(AtFirstComma, Texts(FieldsOf(Event.ActiveLayout(p))))
  {
    SafeLayout(Event.ActiveLayout(p), AtFirstComma);
  }

  lemma ActiveLayoutParsed(p: ActiveLayout, data: string)
    requires ParseActiveLayout(data) == Returns(p)
    ensures From(TagOf(Event.ActiveLayout(p)), data) == Returns(Event.ActiveLayout(p))
  {
    ActiveLayoutDispatch(data);
  }

  lemma OpenWindowEncoded(p: OpenWindow)
    requires Separable(CommaSeparated, Texts(FieldsOf(Event.OpenWindow(p))))
    ensures ParseOpenWindow(Payload(Event.OpenWindow(p))) == Returns(p)
  {
    var e := Event.OpenWindow(p);
    DecodeEncoded(Descriptor("OpenWindow", CommaSeparated, [Text, Text, Text, Text]), FieldsOf(e));
    OpenWindowFields(Payload(e));
  }

  lemma OpenWindowSafe(p: OpenWindow)
    requires WireSafe(Event.OpenWindow(p))
    ensures Separable(CommaSeparated, Texts(FieldsOf(Event.OpenWindow(p))))
  {
    SafeLayout(Event.OpenWindow(p), CommaSeparated);
  }

  lemma OpenWindowParsed(p: OpenWindow, data: string)
    requires ParseOpenWindow(data) == Returns(p)
    ensures From(TagOf(Event.OpenWindow(p)), data) == Returns(Event.OpenWindow(p))
  {
    OpenWindowDispatch(data);
  }

  lemma CloseWindowEncoded(p: CloseWindow)
    ensures ParseCloseWindow(Payload(Event.CloseWindow(p))) == Returns(p)
  {
    var e := Event.CloseWindow(p);
    DecodeEncoded(Descriptor("CloseWindow", Whole, [Text]), FieldsOf(e));
    CloseWindowFields(Payload(e));
  }

  lemma CloseWindowParsed(p: CloseWindow, data: string)
    requires ParseCloseWindow(data) == Returns(p)
    ensures From(TagOf(Event.CloseWindow(p)), data) == Returns(Event.CloseWindow(p))
  {
    CloseWindowDispatch(data);
  }

  lemma MoveWindowEncoded(p: MoveWindow)
    requires Separable(AtFirstComma, Texts(FieldsOf(Event.MoveWindow(p))))
    ensures ParseMoveWindow(Payload(Event.MoveWindow(p))) == Returns(p)
  {
    var e := Event.MoveWindow(p);
    DecodeEncoded(Descriptor("MoveWindow", AtFirstComma, [Text, Text]), FieldsOf(e));
    MoveWindowFields(Payload(e));
  }

  lemma MoveWindowSafe(p: MoveWindow)
    requires WireSafe(Event.MoveWindow(p))
    ensures Separable(AtFirstComma, Texts(FieldsOf(Event.MoveWindow(p))))
  {
    SafeLayout(Event.MoveWindow(p), AtFirstComma);
  }

  lemma MoveWindowParsed(p: MoveWindow, data: string)
    requires ParseMoveWindow(data) == Returns(p)
    ensures From(TagOf(Event.MoveWindow(p)), data) == Returns(Event.MoveWindow(p))
  {
    MoveWindowDispatch(data);
  }

  lemma MoveWindowV2Encoded(p: MoveWindowV2)
    requires Separable(CommaSeparated, Texts(FieldsOf(Event.MoveWindowV2(p))))
    ensures ParseMoveWindowV2(Payload(Event.MoveWindowV2(p))) == Returns(p)
  {
    var e := Event.MoveWindowV2(p);
    DecodeEncoded(Descriptor("MoveWindowV2", CommaSeparated, [Text, UInt32, Text]), FieldsOf(e));
    MoveWindowV2Fields(Payload(e));
  }

  lemma MoveWindowV2Safe(p: MoveWindowV2)
    requires WireSafe(Event.MoveWindowV2(p))
    ensures Separable(CommaSeparated, Texts(FieldsOf(Event.MoveWindowV2(p))))
  {
    SafeLayout(Event.MoveWindowV2(p), CommaSeparated);
  }

  lemma MoveWindowV2Parsed(p: MoveWindowV2, data: string)
    requires ParseMoveWindowV2(data) == Returns(p)
    ensures From(TagOf(Event.MoveWindowV2(p)), data) == Returns(Event.MoveWindowV2(p))
  {
    MoveWindowV2Dispatch(data);
  }

  lemma OpenLayerEncoded(p: OpenLayer)
    ensures ParseOpenLayer(Payload(Event.OpenLayer(p))) == Returns(p)
  {
    var e := Event.OpenLayer(p);
    DecodeEncoded(Descriptor("OpenLayer", Whole, [Text]), FieldsOf(e));
    OpenLayerFields(Payload(e));
  }

  lemma OpenLayerParsed(p: OpenLayer, data: string)
    requires ParseOpenLayer(data) == Returns(p)
    ensures From(TagOf(Event.OpenLayer(p)), data) == Returns(Event.OpenLayer(p))
  {
    OpenLayerDispatch(data);
  }

  lemma CloseLayerEncoded(p: CloseLayer)
    ensures ParseCloseLayer(Payload(Event.CloseLayer(p))) == Returns(p)
  {
    var e := Event.CloseLayer(p);
    DecodeEncoded(Descriptor("CloseLayer", Whole, [Text]), FieldsOf(e));
    CloseLayerFields(Payload(e));
  }

  lemma CloseLayerParsed(p: CloseLayer, data: string)
    requires ParseCloseLayer(data) == Returns(p)
    ensures From(TagOf(Event.CloseLayer(p)), data) == Returns(Event.CloseLayer(p))
  {
    CloseLayerDispatch(data);
  }

  lemma SubmapEncoded(p: Submap)
    ensures ParseSubmap(Payload(Event.Submap(p))) == Returns(p)
  {
    var e := Event.Submap(p);
    DecodeEncoded(Descriptor("Submap", Whole, [Text]), FieldsOf(e));
    SubmapFields(Payload(e));
  }

  lemma SubmapParsed(p: Submap, data: string)
    requires ParseSubmap(data) == Returns(p)
    ensures From(TagOf(Event.Submap(p)), data) == Returns(Event.Submap(p))
  {
    SubmapDispatch(data);
  }

  lemma ChangeFloatingModeEncoded(p: ChangeFloatingMode)
    requires Separable(AtFirstComma, Texts(FieldsOf(Event.ChangeFloatingMode(p))))
    ensures ParseChangeFloatingMode(Payload(Event.ChangeFloatingMode(p))) == Returns(p)
  {
    var e := Event.ChangeFloatingMode(p);
    DecodeEncoded(Descriptor("ChangeFloatingMode", AtFirstComma, [Text, Flag]), FieldsOf(e));
    ChangeFloatingModeFields(Payload(e));
  }

  lemma ChangeFloatingModeSafe(p: ChangeFloatingMode)
    requires WireSafe(Event.ChangeFloatingMode(p))
    ensures Separable(AtFirstComma, Texts(FieldsOf(Event.ChangeFloatingMode(p))))
  {
    SafeLayout(Event.ChangeFloatingMode(p), AtFirstComma);
  }

  lemma ChangeFloatingModeParsed(p: ChangeFloatingMode, data: string)
    requires ParseChangeFloatingMode(data) == Returns(p)
    ensures From(TagOf(Event.ChangeFloatingMode(p)), data) == Returns(Event.ChangeFloatingMode(p))
  {
    ChangeFloatingModeDispatch(data);
  }

  lemma UrgentEncoded(p: Urgent)
    ensures ParseUrgent(Payload(Event.Urgent(p))) == Returns(p)
  {
    var e := Event.Urgent(p);
    DecodeEncoded(Descriptor("Urgent", Whole, [Text]), FieldsOf(e));
    UrgentFields(Payload(e));
  }

  lemma UrgentParsed(p: Urgent, data: string)
    requires ParseUrgent(data) == Returns(p)
    ensures From(TagOf(Event.Urgent(p)), data) == Returns(Event.Urgent(p))
  {
    UrgentDispatch(data);
  }

  lemma MinimizeEncoded(p: Minimize)
    requires Separable(AtFirstComma, Texts(FieldsOf(Event.Minimize(p))))
    ensures ParseMinimize(Payload(Event.Minimize(p))) == Returns(p)
  {
    var e := Event.Minimize(p);
    DecodeEncoded(Descriptor("Minimize", AtFirstComma, [Text, Flag]), FieldsOf(e));
    MinimizeFields(Payload(e));
  }

  lemma MinimizeSafe(p: Minimize)
    requires WireSafe(Event.Minimize(p))
    ensures Separable(AtFirstComma, Texts(FieldsOf(Event.Minimize(p))))
  {
    SafeLayout(Event.Minimize(p), AtFirstComma);
  }

  lemma MinimizeParsed(p: Minimize, data: string)
    requires ParseMinimize(data) == Returns(p)
    ensures From(TagOf(Event.Minimize(p)), data) == Returns(Event.Minimize(p))
  {
    MinimizeDispatch(data);
  }

  lemma ScreencastEncoded(p: Screencast)
    requires Separable(AtFirstComma, Texts(FieldsOf(Event.Screencast(p))))
    ensures ParseScreencast(Payload(Event.Screencast(p))) == Returns(p)
  {
    var e := Event.Screencast(p);
    DecodeEncoded(Descriptor("Screencast", AtFirstComma, [Flag, UInt8]), FieldsOf(e));
    ScreencastFields(Payload(e));
  }

  lemma ScreencastSafe(p: Screencast)
    requires WireSafe(Event.Screencast(p))
    ensures Separable(AtFirstComma, Texts(FieldsOf(Event.Screencast(p))))
  {
    SafeLayout(Event.Screencast(p), AtFirstComma);
  }

  lemma ScreencastParsed(p: Screencast, data: string)
    requires ParseScreencast(data) == Returns(p)
    ensures From(TagOf(Event.Screencast(p)), data) == Returns(Event.Screencast(p))
  {
    ScreencastDispatch(data);
  }

  lemma WindowTitleEncoded(p: WindowTitle)
    ensures ParseWindowTitle(Payload(Event.WindowTitle(p))) == Returns(p)
  {
    var e := Event.WindowTitle(p);
    DecodeEncoded(Descriptor("WindowTitle", Whole, [Text]), FieldsOf(e));
    WindowTitleFields(Payload(e));
  }

  lemma WindowTitleParsed(p: WindowTitle, data: string)
    requires ParseWindowTitle(data) == Returns(p)
    ensures From(TagOf(Event.WindowTitle(p)), data) == Returns(Event.WindowTitle(p))
  {
    WindowTitleDispatch(data);
  }

  lemma IgnoreGroupLockEncoded(p: IgnoreGroupLock)
    ensures ParseIgnoreGroupLock(Payload(Event.IgnoreGroupLock(p))) == Returns(p)
  {
    var e := Event.IgnoreGroupLock(p);
    DecodeEncoded(Descriptor("IgnoreGroupLock", Whole, [Flag]), FieldsOf(e));
    IgnoreGroupLockFields(Payload(e));
  }

  lemma IgnoreGroupLockParsed(p: IgnoreGroupLock, data: string)
    requires ParseIgnoreGroupLock(data) == Returns(p)
    ensures From(TagOf(Event.IgnoreGroupLock(p)), data) == Returns(Event.IgnoreGroupLock(p))
  {
    IgnoreGroupLockDispatch(data);
  }

  lemma LockGroupsEncoded(p: LockGroups)
    ensures ParseLockGroups(Payload(Event.LockGroups(p))) == Returns(p)
  {
    var e := Event.LockGroups(p);
    DecodeEncoded(Descriptor("LockGroups", Whole, [Flag]), FieldsOf(e));
    LockGroupsFields(Payload(e));
  }

  lemma LockGroupsParsed(p: LockGroups, data: string)
    requires ParseLockGroups(data) == Returns(p)
    ensures From(TagOf(Event.LockGroups(p)), data) == Returns(Event.LockGroups(p))
  {
    LockGroupsDispatch(data);
  }

  lemma PinEncoded(p: Pin)
    requires Separable(AtFirstComma, Texts(FieldsOf(Event.Pin(p))))
    ensures ParsePin(Payload(Event.Pin(p))) == Returns(p)
  {
    var e := Event.Pin(p);
    DecodeEncoded(Descriptor("Pin", AtFirstComma, [Text, Flag]), FieldsOf(e));
    PinFields(Payload(e));
  }

  lemma PinSafe(p: Pin)
    requires WireSafe(Event.Pin(p))
    ensures Separable(AtFirstComma, Texts(FieldsOf(Event.Pin(p))))
  {
    SafeLayout(Event.Pin(p), AtFirstComma);
  }

  lemma PinParsed(p: Pin, data: string)
    requires ParsePin(data) == Returns(p)
    ensures From(TagOf(Event.Pin(p)), data) == Returns(Event.Pin(p))
  {
    PinDispatch(data);
  }
}

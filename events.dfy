/**
  The event catalog of the Hyprland event socket client: one record per event
  payload, the closed `Event` enum, the per-record decoders (`Parse::parse`)
  and the dispatch on the event tag (`Event::from`).

  The Rust decoders return a record or panic. Here every decoder returns an
  `Outcome`: `Returns(record)`, or `Panics(reason)` exactly where the Rust code
  panics, with the reason naming the panicking call.
 */
module Events {
  import opened RustStr

  /** Why a decoder panics. */
  datatype Panic =
    | UnwrapNone                           // `split_once(",").unwrap()` found no comma
    | UnwrapParseError(kind: IntErrorKind) // `text.parse().unwrap()` failed with this `ParseIntError` kind
    | InvalidData(message: string)         // the explicit `panic!` of a fixed-count decoder

  /** A value the Rust code returns, or the panic it raises instead. */
  datatype Outcome<+T> = Returns(value: T) | Panics(reason: Panic)
  {
    predicate IsFailure()
    {
      Panics?
    }

    function PropagateFailure<U>(): Outcome<U>
      requires Panics?
    {
      Panics(reason)
    }

    function Extract(): T
      requires Returns?
    {
      value
    }
  }

  // ---------------------------------------------------------------------------
  // Payload records, in wire order (`tag>>FIELD1,FIELD2,...`)
  // ---------------------------------------------------------------------------

  /** workspace>>WORKSPACENAME */
  datatype Workspace = Workspace(workspaceName: string)
  /** workspacev2>>WORKSPACEID,WORKSPACENAME */
  datatype WorkspaceV2 = WorkspaceV2(workspaceId: U32, workspaceName: string)
  /** focusedmon>>MONNAME,WORKSPACENAME */
  datatype FocusedMon = FocusedMon(monitorName: string, workspaceName: string)
  /** activewindow>>WINDOWCLASS,WINDOWTITLE */
  datatype ActiveWindow = ActiveWindow(windowClass: string, windowTitle: string)
  /** activewindowv2>>WINDOWADDRESS */
  datatype ActiveWindowV2 = ActiveWindowV2(windowAddress: string)
  /** fullscreen>>0/1 */
  datatype Fullscreen = Fullscreen(enterFullscreen: bool)
  /** monitorremoved>>MONITORNAME */
  datatype MonitorRemoved = MonitorRemoved(monitorName: string)
  /** monitoradded>>MONITORNAME */
  datatype MonitorAdded = MonitorAdded(monitorName: string)
  /** monitoraddedv2>>MONITORID,MONITORNAME,MONITORDESCRIPTION */
  datatype MonitorAddedV2 = MonitorAddedV2(monitorId: U32, monitorName: string, monitorDescription: string)
  /** createworkspace>>WORKSPACENAME */
  datatype CreateWorkspace = CreateWorkspace(workspaceName: string)
  /** createworkspacev2>>WORKSPACEID,WORKSPACENAME */
  datatype CreateWorkspaceV2 = CreateWorkspaceV2(workspaceId: U32, workspaceName: string)
  /** destroyworkspace>>WORKSPACENAME */
  datatype DestroyWorkspace = DestroyWorkspace(workspaceName: string)
  /** destroyworkspacev2>>WORKSPACEID,WORKSPACENAME */
  datatype DestroyWorkspaceV2 = DestroyWorkspaceV2(workspaceId: U32, workspaceName: string)
  /** moveworkspace>>WORKSPACENAME,MONNAME */
  datatype MoveWorkspace = MoveWorkspace(workspaceName: string, monitorName: string)
  /** moveworkspacev2>>WORKSPACEID,WORKSPACENAME,MONNAME */
  datatype MoveWorkspaceV2 = MoveWorkspaceV2(workspaceId: U32, workspaceName: string, monitorName: string)
  /** renameworkspace>>WORKSPACEID,NEWNAME */
  datatype RenameWorkspace = RenameWorkspace(workspaceId: U32, newName: string)
  /** activespecial>>WORKSPACENAME,MONNAME */
  datatype ActiveSpecial = ActiveSpecial(workspaceName: string, monitorName: string)
  /** activelayout>>KEYBOARDNAME,LAYOUTNAME */
  datatype ActiveLayout = ActiveLayout(keyboardName: string, layoutName: string)
  /** openwindow>>WINDOWADDRESS,WORKSPACENAME,WINDOWCLASS,WINDOWTITLE */
  datatype OpenWindow = OpenWindow(windowAddress: string, workspaceName: string, windowClass: string, windowTitle: string)
  /** closewindow>>WINDOWADDRESS */
  datatype CloseWindow = CloseWindow(windowAddress: string)
  /** movewindow>>WINDOWADDRESS,WORKSPACENAME */
  datatype MoveWindow = MoveWindow(windowAddress: string, workspaceName: string)
  /** movewindowv2>>WINDOWADDRESS,WORKSPACEID,WORKSPACENAME */
  datatype MoveWindowV2 = MoveWindowV2(windowAddress: string, workspaceId: U32, workspaceName: string)
  /** openlayer>>NAMESPACE */
  datatype OpenLayer = OpenLayer(namespace: string)
  /** closelayer>>NAMESPACE */
  datatype CloseLayer = CloseLayer(namespace: string)
  /** submap>>SUBMAPNAME */
  datatype Submap = Submap(submapName: string)
  /** changefloatingmode>>WINDOWADDRESS,FLOATING */
  datatype ChangeFloatingMode = ChangeFloatingMode(windowAddress: string, floating: bool)
  /** urgent>>WINDOWADDRESS */
  datatype Urgent = Urgent(windowAddress: string)
  /** minimize>>WINDOWADDRESS,MINIMIZED */
  datatype Minimize = Minimize(windowAddress: string, minimized: bool)
  /** screencast>>STATE,OWNER (owner 0 is a monitor share, 1 a window share) */
  datatype Screencast = Screencast(state: bool, owner: U8)
  /** windowtitle>>WINDOWADDRESS */
  datatype WindowTitle = WindowTitle(windowAddress: string)
  /** ignoregrouplock>>STATE */
  datatype IgnoreGroupLock = IgnoreGroupLock(state: bool)
  /** lockgroups>>STATE */
  datatype LockGroups = LockGroups(state: bool)
  /** pin>>WINDOWADDRESS,PINSTATE */
  datatype Pin = Pin(windowAddress: string, pinState: bool)

  /** One decoded notification. `ConfigReloaded` carries no payload. */
  datatype Event =
    | Workspace(Workspace)
    | WorkspaceV2(WorkspaceV2)
    | FocusedMon(FocusedMon)
    | ActiveWindow(ActiveWindow)
    | ActiveWindowV2(ActiveWindowV2)
    | Fullscreen(Fullscreen)
    | MonitorRemoved(MonitorRemoved)
    | MonitorAdded(MonitorAdded)
    | MonitorAddedV2(MonitorAddedV2)
    | CreateWorkspace(CreateWorkspace)
    | CreateWorkspaceV2(CreateWorkspaceV2)
    | DestroyWorkspace(DestroyWorkspace)
    | DestroyWorkspaceV2(DestroyWorkspaceV2)
    | MoveWorkspace(MoveWorkspace)
    | MoveWorkspaceV2(MoveWorkspaceV2)
    | RenameWorkspace(RenameWorkspace)
    | ActiveSpecial(ActiveSpecial)
    | ActiveLayout(ActiveLayout)
    | OpenWindow(OpenWindow)
    | CloseWindow(CloseWindow)
    | MoveWindow(MoveWindow)
    | MoveWindowV2(MoveWindowV2)
    | OpenLayer(OpenLayer)
    | CloseLayer(CloseLayer)
    | Submap(Submap)
    | ChangeFloatingMode(ChangeFloatingMode)
    | Urgent(Urgent)
    | Minimize(Minimize)
    | Screencast(Screencast)
    | WindowTitle(WindowTitle)
    | IgnoreGroupLock(IgnoreGroupLock)
    | LockGroups(LockGroups)
    | ConfigReloaded
    | Pin(Pin)

  // ---------------------------------------------------------------------------
  // Field decoders shared by the record decoders
  // ---------------------------------------------------------------------------

  /**
    `data.split_once(",").unwrap()`: the text before the first comma and
    everything after it (further commas stay in the second part); panics
    when there is no comma.
   */
  function SplitFirstComma(data: string): (r: Outcome<(string, string)>)
    ensures r.Panics? ==> r.reason == UnwrapNone
  {
    match SplitOnce(data, ",")
    case None => Panics(UnwrapNone)
    case Some(pair) => Returns(pair)
  }

  /**
    `split_once(",").unwrap()` panics exactly when the payload has no comma;
    otherwise the first part has no comma and the parts rejoin to the payload.
   */
  lemma SplitFirstCommaSpec(data: string)
    ensures SplitFirstComma(data).Panics? <==> ',' !in data
    ensures SplitFirstComma(data).Returns? ==>
              var (first, rest) := SplitFirstComma(data).value;
              ',' !in first && first + "," + rest == data
  {
    ContainsChar(data, ',');
    if SplitFirstComma(data).Returns? {
      ContainsChar(SplitFirstComma(data).value.0, ',');
    }
  }

  /** The truthy test `text == "1"` the decoders apply to flag fields. */
  predicate IsOne(text: string)
  {
    |text| == 1 && text[0] == '1'
  }

  /** The message of the `panic!` a fixed-count decoder raises on a wrong field count. */
  function InvalidDataMessage(variant: string, data: string): string
  {
    "[" + variant + "::parse()]: Invalid data: " + data
  }

  /**
    `data.split(',').collect::<Vec<&str>>()` followed by the check
    `parts.len() != count` that panics: returns the fields exactly when the
    payload holds `count - 1` commas; joined with commas they give the payload.
   */
  function SplitExact(variant: string, data: string, count: nat): (r: Outcome<seq<string>>)
    ensures r.Returns? ==> |r.value| == count
    ensures r.Panics? ==> r.reason == InvalidData(InvalidDataMessage(variant, data))
  {
    var parts := Split(data, ',');
    if |parts| != count then
      Panics(InvalidData(InvalidDataMessage(variant, data)))
    else
      Returns(parts)
  }

  /**
    The fixed-count split succeeds exactly when the payload holds `count - 1`
    commas; its fields then have no comma and rejoin to the payload.
   */
  lemma SplitExactSpec(variant: string, data: string, count: nat)
    ensures SplitExact(variant, data, count).Returns? <==> multiset(data)[','] + 1 == count
    ensures SplitExact(variant, data, count).Returns? ==>
              var parts := SplitExact(variant, data, count).value;
              Join(parts, ",") == data && forall k :: 0 <= k < count ==> ',' !in parts[k]
  {
    SplitSpec(data, ',');
    JoinSplit(data, ',');
  }

  /** `text.parse::<u32>().unwrap()` */
  function UnwrapU32(text: string): Outcome<U32>
  {
    match FromStrRadix(text, U32_MAX)
    case Err(kind) => Panics(UnwrapParseError(kind))
    case Ok(n) => Returns(n)
  }

  /** `text.parse::<u8>().unwrap()` */
  function UnwrapU8(text: string): Outcome<U8>
  {
    match FromStrRadix(text, U8_MAX)
    case Err(kind) => Panics(UnwrapParseError(kind))
    case Ok(n) => Returns(n)
  }

  // ---------------------------------------------------------------------------
  // Record decoders (`Parse::parse` of each record)
  // ---------------------------------------------------------------------------

  function ParseWorkspace(data: string): Outcome<Workspace>
  {
    Returns(Workspace.Workspace(data))
  }

  function ParseWorkspaceV2(data: string): Outcome<WorkspaceV2>
  {
    var fields :- SplitFirstComma(data);
    var workspaceId :- UnwrapU32(fields.0);
    Returns(WorkspaceV2.WorkspaceV2(workspaceId, fields.1))
  }

  function ParseFocusedMon(data: string): Outcome<FocusedMon>
  {
    var fields :- SplitFirstComma(data);
    Returns(FocusedMon.FocusedMon(fields.0, fields.1))
  }

  function ParseActiveWindow(data: string): Outcome<ActiveWindow>
  {
    var fields :- SplitFirstComma(data);
    Returns(ActiveWindow.ActiveWindow(fields.0, fields.1))
  }

  function ParseActiveWindowV2(data: string): Outcome<ActiveWindowV2>
  {
    Returns(ActiveWindowV2.ActiveWindowV2(data))
  }

  function ParseFullscreen(data: string): Outcome<Fullscreen>
  {
    Returns(Fullscreen.Fullscreen(IsOne(data)))
  }

  function ParseMonitorRemoved(data: string): Outcome<MonitorRemoved>
  {
    Returns(MonitorRemoved.MonitorRemoved(data))
  }

  function ParseMonitorAdded(data: string): Outcome<MonitorAdded>
  {
    Returns(MonitorAdded.MonitorAdded(data))
  }

  function ParseMonitorAddedV2(data: string): Outcome<MonitorAddedV2>
  {
    var parts :- SplitExact("MonitorAddedV2", data, 3);
    var monitorId :- UnwrapU32(parts[0]);
    Returns(MonitorAddedV2.MonitorAddedV2(monitorId, parts[1], parts[2]))
  }

  function ParseCreateWorkspace(data: string): Outcome<CreateWorkspace>
  {
    Returns(CreateWorkspace.CreateWorkspace(data))
  }

  function ParseCreateWorkspaceV2(data: string): Outcome<CreateWorkspaceV2>
  {
    var fields :- SplitFirstComma(data);
    var workspaceId :- UnwrapU32(fields.0);
    Returns(CreateWorkspaceV2.CreateWorkspaceV2(workspaceId, fields.1))
  }

  function ParseDestroyWorkspace(data: string): Outcome<DestroyWorkspace>
  {
    Returns(DestroyWorkspace.DestroyWorkspace(data))
  }

  function ParseDestroyWorkspaceV2(data: string): Outcome<DestroyWorkspaceV2>
  {
    var fields :- SplitFirstComma(data);
    var workspaceId :- UnwrapU32(fields.0);
    Returns(DestroyWorkspaceV2.DestroyWorkspaceV2(workspaceId, fields.1))
  }

  function ParseMoveWorkspace(data: string): Outcome<MoveWorkspace>
  {
    var parts :- SplitExact("MoveWorkspace", data, 2);
    Returns(MoveWorkspace.MoveWorkspace(parts[0], parts[1]))
  }

  function ParseMoveWorkspaceV2(data: string): Outcome<MoveWorkspaceV2>
  {
    var parts :- SplitExact("MoveWorkspaceV2", data, 3);
    var workspaceId :- UnwrapU32(parts[0]);
    Returns(MoveWorkspaceV2.MoveWorkspaceV2(workspaceId, parts[1], parts[2]))
  }

  function ParseRenameWorkspace(data: string): Outcome<RenameWorkspace>
  {
    var fields :- SplitFirstComma(data);
    var workspaceId :- UnwrapU32(fields.0);
    Returns(RenameWorkspace.RenameWorkspace(workspaceId, fields.1))
  }

  function ParseActiveSpecial(data: string): Outcome<ActiveSpecial>
  {
    var fields :- SplitFirstComma(data);
    Returns(ActiveSpecial.ActiveSpecial(fields.0, fields.1))
  }

  function ParseActiveLayout(data: string): Outcome<ActiveLayout>
  {
    var fields :- SplitFirstComma(data);
    Returns(ActiveLayout.ActiveLayout(fields.0, fields.1))
  }

  function ParseOpenWindow(data: string): Outcome<OpenWindow>
  {
    var parts :- SplitExact("OpenWindow", data, 4);
    Returns(OpenWindow.OpenWindow(parts[0], parts[1], parts[2], parts[3]))
  }

  function ParseCloseWindow(data: string): Outcome<CloseWindow>
  {
    Returns(CloseWindow.CloseWindow(data))
  }

  function ParseMoveWindow(data: string): Outcome<MoveWindow>
  {
    var fields :- SplitFirstComma(data);
    Returns(MoveWindow.MoveWindow(fields.0, fields.1))
  }

  function ParseMoveWindowV2(data: string): Outcome<MoveWindowV2>
  {
    var parts :- SplitExact("MoveWindowV2", data, 3);
    var workspaceId :- UnwrapU32(parts[1]);
    Returns(MoveWindowV2.MoveWindowV2(parts[0], workspaceId, parts[2]))
  }

  function ParseWindowTitle(data: string): Outcome<WindowTitle>
  {
    Returns(WindowTitle.WindowTitle(data))
  }

  function ParseOpenLayer(data: string): Outcome<OpenLayer>
  {
    Returns(OpenLayer.OpenLayer(data))
  }

  function ParseCloseLayer(data: string): Outcome<CloseLayer>
  {
    Returns(CloseLayer.CloseLayer(data))
  }

  function ParseSubmap(data: string): Outcome<Submap>
  {
    Returns(Submap.Submap(data))
  }

  function ParseChangeFloatingMode(data: string): Outcome<ChangeFloatingMode>
  {
    var fields :- SplitFirstComma(data);
    Returns(ChangeFloatingMode.ChangeFloatingMode(fields.0, IsOne(fields.1)))
  }

  function ParseUrgent(data: string): Outcome<Urgent>
  {
    Returns(Urgent.Urgent(data))
  }

  function ParseMinimize(data: string): Outcome<Minimize>
  {
    var fields :- SplitFirstComma(data);
    Returns(Minimize.Minimize(fields.0, IsOne(fields.1)))
  }

  function ParseScreencast(data: string): Outcome<Screencast>
  {
    var fields :- SplitFirstComma(data);
    var owner :- UnwrapU8(fields.1);
    Returns(Screencast.Screencast(IsOne(fields.0), owner))
  }

  function ParseIgnoreGroupLock(data: string): Outcome<IgnoreGroupLock>
  {
    Returns(IgnoreGroupLock.IgnoreGroupLock(IsOne(data)))
  }

  function ParseLockGroups(data: string): Outcome<LockGroups>
  {
    Returns(LockGroups.LockGroups(IsOne(data)))
  }

  function ParsePin(data: string): Outcome<Pin>
  {
    var fields :- SplitFirstComma(data);
    Returns(Pin.Pin(fields.0, IsOne(fields.1)))
  }

  // ---------------------------------------------------------------------------
  // Dispatch on the tag (`Event::from`)
  // ---------------------------------------------------------------------------

  /**
    `Event::from(event_type, data)`: exact, case-sensitive match of the tag;
    `configreloaded` ignores its payload and any other tag, the empty one
    included, also yields `ConfigReloaded` (the source logs a warning there).
   */
  function From(eventType: string, data: string): Outcome<Event>
  {
    match eventType
    case "workspace" => var p :- ParseWorkspace(data); Returns(Event.Workspace(p))
    case "workspacev2" => var p :- ParseWorkspaceV2(data); Returns(Event.WorkspaceV2(p))
    case "focusedmon" => var p :- ParseFocusedMon(data); Returns(Event.FocusedMon(p))
    case "activewindow" => var p :- ParseActiveWindow(data); Returns(Event.ActiveWindow(p))
    case "activewindowv2" => var p :- ParseActiveWindowV2(data); Returns(Event.ActiveWindowV2(p))
    case "moveworkspace" => var p :- ParseMoveWorkspace(data); Returns(Event.MoveWorkspace(p))
    case "moveworkspacev2" => var p :- ParseMoveWorkspaceV2(data); Returns(Event.MoveWorkspaceV2(p))
    case "fullscreen" => var p :- ParseFullscreen(data); Returns(Event.Fullscreen(p))
    case "monitorremoved" => var p :- ParseMonitorRemoved(data); Returns(Event.MonitorRemoved(p))
    case "monitoradded" => var p :- ParseMonitorAdded(data); Returns(Event.MonitorAdded(p))
    case "monitoraddedv2" => var p :- ParseMonitorAddedV2(data); Returns(Event.MonitorAddedV2(p))
    case "createworkspace" => var p :- ParseCreateWorkspace(data); Returns(Event.CreateWorkspace(p))
    case "createworkspacev2" => var p :- ParseCreateWorkspaceV2(data); Returns(Event.CreateWorkspaceV2(p))
    case "destroyworkspace" => var p :- ParseDestroyWorkspace(data); Returns(Event.DestroyWorkspace(p))
    case "destroyworkspacev2" => var p :- ParseDestroyWorkspaceV2(data); Returns(Event.DestroyWorkspaceV2(p))
    case "renameworkspace" => var p :- ParseRenameWorkspace(data); Returns(Event.RenameWorkspace(p))
    case "activespecial" => var p :- ParseActiveSpecial(data); Returns(Event.ActiveSpecial(p))
    case "activelayout" => var p :- ParseActiveLayout(data); Returns(Event.ActiveLayout(p))
    case "openwindow" => var p :- ParseOpenWindow(data); Returns(Event.OpenWindow(p))
    case "closewindow" => var p :- ParseCloseWindow(data); Returns(Event.CloseWindow(p))
    case "movewindow" => var p :- ParseMoveWindow(data); Returns(Event.MoveWindow(p))
    case "movewindowv2" => var p :- ParseMoveWindowV2(data); Returns(Event.MoveWindowV2(p))
    case "openlayer" => var p :- ParseOpenLayer(data); Returns(Event.OpenLayer(p))
    case "closelayer" => var p :- ParseCloseLayer(data); Returns(Event.CloseLayer(p))
    case "submap" => var p :- ParseSubmap(data); Returns(Event.Submap(p))
    case "changefloatingmode" => var p :- ParseChangeFloatingMode(data); Returns(Event.ChangeFloatingMode(p))
    case "urgent" => var p :- ParseUrgent(data); Returns(Event.Urgent(p))
    case "minimize" => var p :- ParseMinimize(data); Returns(Event.Minimize(p))
    case "screencast" => var p :- ParseScreencast(data); Returns(Event.Screencast(p))
    case "windowtitle" => var p :- ParseWindowTitle(data); Returns(Event.WindowTitle(p))
    case "ignoregrouplock" => var p :- ParseIgnoreGroupLock(data); Returns(Event.IgnoreGroupLock(p))
    case "lockgroups" => var p :- ParseLockGroups(data); Returns(Event.LockGroups(p))
    case "configreloaded" => Returns(ConfigReloaded)
    case "pin" => var p :- ParsePin(data); Returns(Event.Pin(p))
    case _ => Returns(ConfigReloaded)
  }
}

/**
 * The front-desk application state: the two central panels with their
 * show flags and scope guard, and the dispatch of inbound messages to the
 * table store, which exists only once the first message has arrived.
 */
module Frontdesk {
  import opened Outcomes
  import opened Database
  import opened QueryReturn
  import Table

  // ---------------------------------------------------------------------
  // Panels
  // ---------------------------------------------------------------------

  datatype CentralWindowEnum = InProgressPanel | PreOperativePanel {
    function Other(): CentralWindowEnum {
      if InProgressPanel? then PreOperativePanel else InProgressPanel
    }
  }

  /** One central panel: whether it is shown, and the scope it may be narrowed to. */
  datatype ScopeWindow = ScopeWindow(show: bool, enableScope: bool, idReference: Option<int>, scope: Option<QueryTable>)

  datatype CentralWindow = CentralWindow(inProgress: ScopeWindow, preOperative: ScopeWindow) {
    function Panel(which: CentralWindowEnum): ScopeWindow {
      match which
      case InProgressPanel => inProgress
      case PreOperativePanel => preOperative
    }
  }

  /** Both panels hidden, unscoped, with no id and no scope (`Default`). */
  function DefaultCentralWindow(): CentralWindow {
    CentralWindow(ScopeWindow(false, false, None, None), ScopeWindow(false, false, None, None))
  }

  /**
   * `CentralWindow::supports_scope`: the panel's scope, but only when
   * scoping is enabled and both the id reference and the scope are set.
   */
  function SupportsScope(c: CentralWindow, which: CentralWindowEnum): (r: Option<QueryTable>)
    ensures r.Some? <==>
      c.Panel(which).enableScope && c.Panel(which).idReference.Some? && c.Panel(which).scope.Some?
    ensures r.Some? ==> r == c.Panel(which).scope
  {
    match which
    case InProgressPanel =>
      if c.inProgress.enableScope && c.inProgress.idReference.Some? && c.inProgress.scope.Some?
      then Some(c.inProgress.scope.value) else None
    case PreOperativePanel =>
      if c.preOperative.enableScope && c.preOperative.idReference.Some? && c.preOperative.scope.Some?
      then Some(c.preOperative.scope.value) else None
  }

  /** The panels after `toggle_window(which)`. */
  function Toggled(c: CentralWindow, which: CentralWindowEnum): (r: CentralWindow)
    ensures r.Panel(which) == c.Panel(which).(show := !c.Panel(which).show)
    ensures r.Panel(which.Other()) == c.Panel(which.Other())
  {
    match which
    case InProgressPanel => c.(inProgress := c.inProgress.(show := !c.inProgress.show))
    case PreOperativePanel => c.(preOperative := c.preOperative.(show := !c.preOperative.show))
  }

  /** Toggling the same panel twice restores the panels. */
  lemma ToggleTwiceRestores(c: CentralWindow, which: CentralWindowEnum)
    ensures Toggled(Toggled(c, which), which) == c
  {
  }

  /** Toggles of the two different panels commute. */
  lemma TogglesCommute(c: CentralWindow)
    ensures Toggled(Toggled(c, InProgressPanel), PreOperativePanel)
         == Toggled(Toggled(c, PreOperativePanel), InProgressPanel)
  {
  }

  // ---------------------------------------------------------------------
  // Inbound messages
  // ---------------------------------------------------------------------

  datatype MessageOperation = Initialize | Update

  /**
   * The `data` text of an envelope, given by what the JSON decoder makes of
   * it as a snapshot and as an update row.
   */
  datatype Payload = Payload(asSnapshot: Parsed<RawTable>, asUpdateRow: Parsed<UpdateEquipmentRow>)

  datatype ReceiveMessage = ReceiveMessage(
    tableName: DatabaseTable,
    operation: MessageOperation,
    statusCode: string,
    data: Payload)

  /** A websocket frame; a text frame is given by what the decoder makes of it as an envelope. */
  datatype WsMessage = Text(envelope: Parsed<ReceiveMessage>) | Binary | Unknown | Ping | Pong

  datatype WsEvent = Opened | Message(message: WsMessage) | Error | Closed

  /**
   * What one polled event does to the mirror (`None` until the first
   * message creates it) and how the step ends. An Initialize installs the
   * snapshot; an Update is handed to the store as an equipment update and
   * leaves its tables as they were, creating an empty store if there was
   * none; an envelope that does not decode is dropped. Frames other than
   * text, and payloads that do not decode, reach `todo!()` or `expect`.
   */
  function Dispatch(mirror: Option<RawTable>, event: WsEvent): (r: (Option<RawTable>, Outcome))
    ensures r.1.Panicked? ==> r.0 == mirror
    ensures mirror.Some? ==> r.0.Some?
    ensures r.0 != mirror ==> event.Message? && event.message.Text? && event.message.envelope.Parsed?
    ensures r.1.Panicked? <==>
      event.Message? &&
      (if event.message.Text? then
         event.message.envelope.Parsed? &&
         (if event.message.envelope.value.operation.Initialize?
          then event.message.envelope.value.data.asSnapshot.ParseError?
          else event.message.envelope.value.data.asUpdateRow.ParseError?)
       else true)
  {
    match event
    case Message(Text(Parsed(msg))) =>
      (match msg.operation
       case Initialize =>
         if msg.data.asSnapshot.Parsed? then (Some(msg.data.asSnapshot.value), Completed)
         else (mirror, Panicked("parse error"))
       case Update =>
         if msg.data.asUpdateRow.Parsed? then (Some(mirror.GetOr(EmptyRawTable())), Completed)
         else (mirror, Panicked("not yet implemented")))
    case Message(Text(ParseError)) => (mirror, Completed)
    case Message(_) => (mirror, Panicked("not yet implemented"))
    case _ => (mirror, Completed)
  }

  /** After a decoded Initialize the mirror exists and holds the snapshot, whether or not it existed before. */
  lemma InitializeInstallsSnapshot(mirror: Option<RawTable>, msg: ReceiveMessage, snapshot: RawTable)
    requires msg.operation == Initialize && msg.data.asSnapshot == Parsed(snapshot)
    ensures Dispatch(mirror, Message(Text(Parsed(msg)))) == (Some(snapshot), Completed)
  {
  }

  /** A decoded Update changes no table; the mirror exists afterwards, empty if it did not before. */
  lemma UpdateKeepsTables(mirror: Option<RawTable>, msg: ReceiveMessage)
    requires msg.operation == Update && msg.data.asUpdateRow.Parsed?
    ensures Dispatch(mirror, Message(Text(Parsed(msg)))).1 == Completed
    ensures mirror.Some? ==> Dispatch(mirror, Message(Text(Parsed(msg)))).0 == mirror
    ensures mirror.None? ==> Dispatch(mirror, Message(Text(Parsed(msg)))).0 == Some(EmptyRawTable())
  {
  }

  /** Applying the same update twice leaves the mirror as applying it once. */
  lemma UpdateIdempotent(mirror: Option<RawTable>, msg: ReceiveMessage)
    requires msg.operation == Update
    requires Dispatch(mirror, Message(Text(Parsed(msg)))).1 == Completed
    ensures var once := Dispatch(mirror, Message(Text(Parsed(msg)))).0;
      Dispatch(once, Message(Text(Parsed(msg)))) == (once, Completed)
  {
  }

  /** Neither `table_name` nor `status_code` affects what a message does. */
  lemma EnvelopeHeaderIgnored(mirror: Option<RawTable>, msg: ReceiveMessage, name: DatabaseTable, code: string)
    ensures Dispatch(mirror, Message(Text(Parsed(msg))))
         == Dispatch(mirror, Message(Text(Parsed(msg.(tableName := name, statusCode := code)))))
  {
  }

  /** Only a panicking step or a decoded message can change the mirror; every other event leaves it untouched. */
  lemma MirrorChangesOnlyOnDecodedMessages(mirror: Option<RawTable>, event: WsEvent)
    requires !(event.Message? && event.message.Text? && event.message.envelope.Parsed?)
    ensures Dispatch(mirror, event).0 == mirror
    ensures Dispatch(mirror, event).1.Panicked? <==> event.Message? && !event.message.Text?
  {
  }

  // ---------------------------------------------------------------------
  // The application
  // ---------------------------------------------------------------------

  /** `FrontdeskApp`, without its network channels. */
  class FrontdeskApp {
    var data: Table.TableData?
    var centralPanelWindowShow: CentralWindow

    /** The mirrored tables, or `None` before the first message. */
    ghost function Mirror(): Option<RawTable>
      reads this, data
    {
      if data == null then None else Some(data.Snapshot())
    }

    /** `FrontdeskApp::new` without the connection: no store yet, both panels default. */
    constructor ()
      ensures data == null && Mirror() == None
      ensures centralPanelWindowShow == DefaultCentralWindow()
    {
      data := null;
      centralPanelWindowShow := DefaultCentralWindow();
    }

    /** `toggle_window`: flip the chosen panel's show flag in place. */
    method ToggleWindow(which: CentralWindowEnum)
      modifies this
      ensures centralPanelWindowShow == Toggled(old(centralPanelWindowShow), which)
      ensures data == old(data)
    {
      match which {
        case InProgressPanel =>
          centralPanelWindowShow := centralPanelWindowShow.(
            inProgress := centralPanelWindowShow.inProgress.(show := !centralPanelWindowShow.inProgress.show));
        case PreOperativePanel =>
          centralPanelWindowShow := centralPanelWindowShow.(
            preOperative := centralPanelWindowShow.preOperative.(show := !centralPanelWindowShow.preOperative.show));
      }
    }

    /**
     * The message handling of `FrontdeskApp::update` for one polled event.
     * An existing store is updated in place; a missing one is created,
     * and installed only if the step does not panic.
     */
    method Update(event: WsEvent) returns (outcome: Outcome)
      modifies this, data
      ensures (Mirror(), outcome) == Dispatch(old(Mirror()), event)
      ensures old(data) != null ==> data == old(data)
      ensures old(data) == null && data != null ==> fresh(data)
      ensures centralPanelWindowShow == old(centralPanelWindowShow)
    {
      match event {
        case Message(Text(Parsed(msg))) =>
          match msg.operation {
            case Initialize =>
              if data != null {
                outcome := data.Initialize(msg.data.asSnapshot);
              } else {
                var created := new Table.TableData();
                outcome := created.Initialize(msg.data.asSnapshot);
                if outcome == Completed {
                  data := created;
                }
              }
            case Update =>
              if data != null {
                outcome := data.Update(msg.data.asUpdateRow, EquipmentTable);
              } else {
                var created := new Table.TableData();
                outcome := created.Update(msg.data.asUpdateRow, EquipmentTable);
                if outcome == Completed {
                  data := created;
                }
              }
          }
        case Message(Text(ParseError)) =>
          outcome := Completed;
        case Message(_) =>
          outcome := Panicked("not yet implemented");
        case _ =>
          outcome := Completed;
      }
    }
  }
}

/**
 * The normalised rows mirrored from the backend database. Every column is
 * optional because the backend may leave it out; an absent column means
 * "unknown", never zero or empty. Integer ids are the backend's 32-bit ids,
 * compared here only for equality, so they are unbounded `int`s.
 */
module Database {
  import opened Outcomes

  datatype OperationStatus = PreOperative | InProgress | PostOperative | Recovery | Discharge

  /** Only `ForInspection` is named by the client; every other state is carried by its label. */
  datatype EquipmentStatus = ForInspection | OtherStatus(name: string)

  datatype Equipment = Equipment(id: Option<int>, name: Option<string>, status: Option<EquipmentStatus>)

  datatype Room = Room(id: Option<int>, name: Option<string>)

  /** A physical tool; `infoId` points at the Equipment row that describes it. */
  datatype Tool = Tool(id: Option<int>, infoId: Option<int>, status: Option<EquipmentStatus>)

  datatype Patient = Patient(id: Option<int>, firstName: Option<string>, lastName: Option<string>)

  datatype Operation = Operation(
    id: Option<int>,
    labelText: Option<string>,
    status: Option<OperationStatus>,
    patientId: Option<int>,
    roomId: Option<int>,
    startTime: Option<string>,
    endTime: Option<string>)

  /** A tool booked for an operation; `onSite` is a tri-state flag (1, another value, or absent). */
  datatype OperationTool = OperationTool(operationId: Option<int>, toolId: Option<int>, onSite: Option<int>)

  // Tables that no view reads: mirrored for completeness, identified by their id only.
  datatype Staff = Staff(id: Option<int>)
  datatype ToolReservation = ToolReservation(id: Option<int>)
  datatype ToolDesignatedRoom = ToolDesignatedRoom(id: Option<int>)
  datatype ToolInspector = ToolInspector(id: Option<int>)
  datatype PatientWardRoom = PatientWardRoom(id: Option<int>)
  datatype PatientWardAssistant = PatientWardAssistant(id: Option<int>)
  datatype OperationStaff = OperationStaff(id: Option<int>)

  /** The names an inbound message may give in its `table_name` field. */
  datatype DatabaseTable =
    | EquipmentTable | RoomTable | ToolTable | StaffTable | ToolReservationTable
    | ToolDesignatedRoomTable | ToolInspectorTable | PatientTable | OperationTable
    | PatientWardRoomTable | PatientWardAssistantTable | OperationStaffTable | OperationToolTable

  /** A full snapshot: one row sequence per table, in the backend's order. */
  datatype RawTable = RawTable(
    equipment: seq<Equipment>,
    room: seq<Room>,
    tool: seq<Tool>,
    staff: seq<Staff>,
    toolReservation: seq<ToolReservation>,
    toolDesignatedRoom: seq<ToolDesignatedRoom>,
    toolInspector: seq<ToolInspector>,
    patient: seq<Patient>,
    operation: seq<Operation>,
    patientWardRoom: seq<PatientWardRoom>,
    patientWardAssistant: seq<PatientWardAssistant>,
    operationStaff: seq<OperationStaff>,
    operationTool: seq<OperationTool>)

  /** The snapshot with all thirteen tables empty. */
  function EmptyRawTable(): RawTable {
    RawTable([], [], [], [], [], [], [], [], [], [], [], [], [])
  }

  /** The payload of an update message: the id of the row to replace and its new contents. */
  datatype UpdateEquipmentRow = UpdateEquipmentRow(id: int, newRowData: Equipment)
}

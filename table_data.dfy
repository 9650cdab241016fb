/**
 * The table store (`TableData`): thirteen tables mirrored from the backend,
 * each a row sequence the store's methods reassign. The locks that guard
 * each table are left out; a table is its row sequence.
 */
module Table {
  import opened Outcomes
  import opened Database
  import opened QueryReturn
  import TableQuery

  class TableData {
    var equipment: seq<Equipment>
    var room: seq<Room>
    var tool: seq<Tool>
    var staff: seq<Staff>
    var toolReservation: seq<ToolReservation>
    var toolDesignatedRoom: seq<ToolDesignatedRoom>
    var toolInspector: seq<ToolInspector>
    var patient: seq<Patient>
    var operation: seq<Operation>
    var patientWardRoom: seq<PatientWardRoom>
    var patientWardAssistant: seq<PatientWardAssistant>
    var operationStaff: seq<OperationStaff>
    var operationTool: seq<OperationTool>

    /** The thirteen tables as one value. */
    function Snapshot(): RawTable
      reads this
    {
      RawTable(equipment, room, tool, staff, toolReservation, toolDesignatedRoom, toolInspector,
               patient, operation, patientWardRoom, patientWardAssistant, operationStaff, operationTool)
    }

    /** `TableData::new`: every table empty. */
    constructor ()
      ensures Snapshot() == EmptyRawTable()
    {
      equipment, room, tool, staff := [], [], [], [];
      toolReservation, toolDesignatedRoom, toolInspector := [], [], [];
      patient, operation, patientWardRoom, patientWardAssistant := [], [], [], [];
      operationStaff, operationTool := [], [];
    }

    /**
     * `TableData::initialize`: every table is replaced by the snapshot's,
     * with no merging. A payload that does not decode panics (`expect`)
     * before any table is touched.
     */
    method Initialize(payload: Parsed<RawTable>) returns (outcome: Outcome)
      modifies this
      ensures payload.Parsed? ==> outcome == Completed && Snapshot() == payload.value
      ensures payload.ParseError? ==> outcome == Panicked("parse error") && Snapshot() == old(Snapshot())
    {
      if payload.ParseError? {
        return Panicked("parse error");
      }
      var raw := payload.value;
      equipment := raw.equipment;
      room := raw.room;
      tool := raw.tool;
      staff := raw.staff;
      toolReservation := raw.toolReservation;
      toolDesignatedRoom := raw.toolDesignatedRoom;
      toolInspector := raw.toolInspector;
      patient := raw.patient;
      operation := raw.operation;
      patientWardRoom := raw.patientWardRoom;
      patientWardAssistant := raw.patientWardAssistant;
      operationStaff := raw.operationStaff;
      operationTool := raw.operationTool;
      outcome := Completed;
    }

    /**
     * `TableData::update`: a decoded payload takes the equipment table's
     * write lock and changes nothing (the row replacement is commented
     * out); a payload that does not decode reaches `todo!()` and panics.
     * The method modifies nothing, whatever `table` names.
     */
    method Update(payload: Parsed<UpdateEquipmentRow>, table: DatabaseTable) returns (outcome: Outcome)
      ensures outcome.Completed? <==> payload.Parsed?
      ensures payload.ParseError? ==> outcome == Panicked("not yet implemented")
    {
      if payload.ParseError? {
        return Panicked("not yet implemented");
      }
      outcome := Completed;
    }

    /**
     * `TableData::query`: the view of `window`'s kind recomputed from the
     * store's current tables; the store is left as it was.
     */
    method Query(window: WindowTable, id: Option<int>) returns (r: Checked<WindowTable>)
      ensures r == TableQuery.Query(Snapshot(), window, id)
    {
      r := TableQuery.Query(Snapshot(), window, id);
    }
  }
}

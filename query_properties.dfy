/**
 * What the two views promise, stated against the tables they are derived
 * from: row-per-operation shape, join resolution with its sentinels, tool
 * counts and the zero-guarded ratio, the exact panic condition of the
 * `unwrap()`s, and which bookings the tool view keeps.
 */
module QueryProperties {
  import opened Outcomes
  import opened Database
  import opened QueryReturn
  import opened TableQuery

  // ---------------------------------------------------------------------
  // PreOperativeDefault
  // ---------------------------------------------------------------------

  /** The default view has one row per operation, in the store's order, carrying the operation's id. */
  lemma DefaultViewOneRowPerOperation(t: RawTable, window: WindowTable, id: Option<int>)
    requires window.PreOperativeDefaultTable?
    requires Query(t, window, id).Ok?
    ensures Query(t, window, id).value.PreOperativeDefaultTable?
    ensures Query(t, window, id).value.defaultRows.Some?
    ensures |Query(t, window, id).value.defaultRows.value| == |t.operation|
    ensures forall i :: 0 <= i < |t.operation| ==>
      && Query(t, window, id).value.defaultRows.value[i].opId == t.operation[i].id
      && Query(t, window, id).value.defaultRows.value[i] == DefaultRow(t.operation[i], t.patient, t.room, t.operationTool).value
  {
    var rows := PreOperativeDefaultView(t.operation, t.patient, t.room, t.operationTool);
    assert Query(t, window, id) == Ok(PreOperativeDefaultTable(Some(rows.value)));
  }

  /** The default view does not depend on the id argument. */
  lemma DefaultViewIgnoresId(t: RawTable, window: WindowTable, id: Option<int>)
    requires window.PreOperativeDefaultTable?
    ensures Query(t, window, id) == Query(t, window, None)
  {
  }

  /** The row of an operation panics exactly when one of the `unwrap()`s meets an absent id. */
  lemma DefaultRowPanicsExactly(op: Operation, patients: seq<Patient>, rooms: seq<Room>, ots: seq<OperationTool>)
    ensures DefaultRow(op, patients, rooms, ots).Panic? <==>
      || UnwrapPanics(PatientIds(patients), op.patientId)
      || UnwrapPanics(RoomIds(rooms), op.roomId)
      || (op.id.Some? && exists i :: 0 <= i < |ots| && ots[i].operationId.None?)
  {
  }

  /** With every id present the view never panics. */
  lemma DefaultViewTotalWithIds(t: RawTable, window: WindowTable, id: Option<int>)
    requires window.PreOperativeDefaultTable?
    requires forall i :: 0 <= i < |t.patient| ==> t.patient[i].id.Some?
    requires forall i :: 0 <= i < |t.room| ==> t.room[i].id.Some?
    requires forall i :: 0 <= i < |t.operationTool| ==> t.operationTool[i].operationId.Some?
    ensures Query(t, window, id).Ok?
  {
    forall k | 0 <= k < |t.operation|
      ensures DefaultRow(t.operation[k], t.patient, t.room, t.operationTool).Ok?
    {
      var op := t.operation[k];
      DefaultRowPanicsExactly(op, t.patient, t.room, t.operationTool);
    }
  }

  /**
   * The patient's name is "first last" of the first patient whose id equals
   * the operation's patient id (an absent part shown as "N/A"), and "N/A"
   * when the operation has no patient id or no patient matches.
   */
  lemma DefaultRowPatientName(op: Operation, patients: seq<Patient>, rooms: seq<Room>, ots: seq<OperationTool>)
    requires DefaultRow(op, patients, rooms, ots).Ok?
    ensures NoMatch(PatientIds(patients), op.patientId) ==>
      DefaultRow(op, patients, rooms, ots).value.patientFullName == NotAvailable
    ensures forall i :: FirstMatch(PatientIds(patients), op.patientId, i) ==>
      DefaultRow(op, patients, rooms, ots).value.patientFullName
        == OrNotAvailable(patients[i].firstName) + " " + OrNotAvailable(patients[i].lastName)
  {
    forall i | FirstMatch(PatientIds(patients), op.patientId, i)
      ensures DefaultRow(op, patients, rooms, ots).value.patientFullName == FullName(patients[i])
    {
      FirstMatchUnique(PatientIds(patients), op.patientId, i, FindUnwrapping(PatientIds(patients), op.patientId).index);
    }
  }

  /** The room name is the first matching room's name ("N/A" if it has none), and "N/A" without a match. */
  lemma DefaultRowRoomName(op: Operation, patients: seq<Patient>, rooms: seq<Room>, ots: seq<OperationTool>)
    requires DefaultRow(op, patients, rooms, ots).Ok?
    ensures NoMatch(RoomIds(rooms), op.roomId) ==>
      DefaultRow(op, patients, rooms, ots).value.roomName == NotAvailable
    ensures forall i :: FirstMatch(RoomIds(rooms), op.roomId, i) ==>
      DefaultRow(op, patients, rooms, ots).value.roomName == OrNotAvailable(rooms[i].name)
  {
    forall i | FirstMatch(RoomIds(rooms), op.roomId, i)
      ensures DefaultRow(op, patients, rooms, ots).value.roomName == OrNotAvailable(rooms[i].name)
    {
      FirstMatchUnique(RoomIds(rooms), op.roomId, i, FindUnwrapping(RoomIds(rooms), op.roomId).index);
    }
  }

  /** Absent label and times become "N/A" and an absent status becomes Discharge; present ones are copied. */
  lemma DefaultRowSentinels(op: Operation, patients: seq<Patient>, rooms: seq<Room>, ots: seq<OperationTool>)
    requires DefaultRow(op, patients, rooms, ots).Ok?
    ensures var row := DefaultRow(op, patients, rooms, ots).value;
      && row.opLabel == (if op.labelText.Some? then op.labelText.value else "N/A")
      && row.opStatus == (if op.status.Some? then op.status.value else Discharge)
      && row.startTime == (if op.startTime.Some? then op.startTime.value else "N/A")
      && row.endTime == (if op.endTime.Some? then op.endTime.value else "N/A")
  {
  }

  // ---------------------------------------------------------------------
  // PreOperativeToolReady
  // ---------------------------------------------------------------------

  /** An id that no operation carries (an operation without id counting as 0) gives an empty view. */
  lemma ToolReadyUnknownOperationIsEmpty(t: RawTable, window: WindowTable, id: int)
    requires window.PreOperativeToolReadyTable?
    requires forall i :: 0 <= i < |t.operation| ==> IdOrZero(t.operation[i].id) != id
    ensures Query(t, window, Some(id)) == Ok(PreOperativeToolReadyTable(Some([])))
  {
    var kept := KeptBookings(t.operation, t.operationTool, id);
    assert multiset(kept) == multiset{};
  }

  /**
   * When some operation carries the id, the view keeps exactly the bookings
   * whose operation id (absent counting as -1) equals it, with their
   * multiplicities.
   */
  lemma ToolReadyKeepsBookingsOfOperation(ops: seq<Operation>, ots: seq<OperationTool>, id: int)
    requires exists i :: 0 <= i < |ops| && IdOrZero(ops[i].id) == id
    ensures forall b ::
      (multiset(KeptBookings(ops, ots, id))[b] == if IdOrMinusOne(b.operationId) == id then multiset(ots)[b] else 0)
  {
  }

  /** For an id that is neither sentinel, a booking is kept iff its operation id is present and equals an existing operation's id. */
  lemma ToolReadyMatchesPresentIds(ops: seq<Operation>, b: OperationTool, id: int)
    requires id != 0 && id != -1
    ensures AnyOperationMatches(ops, b, id) <==>
      b.operationId == Some(id) && exists i :: 0 <= i < |ops| && ops[i].id == Some(id)
  {
    if AnyOperationMatches(ops, b, id) {
      var i :| 0 <= i < |ops| && IdOrZero(ops[i].id) == IdOrMinusOne(b.operationId) && IdOrZero(ops[i].id) == id;
      assert ops[i].id == Some(id);
    }
    if b.operationId == Some(id) && exists i :: 0 <= i < |ops| && ops[i].id == Some(id) {
      var i :| 0 <= i < |ops| && ops[i].id == Some(id);
      assert IdOrZero(ops[i].id) == IdOrMinusOne(b.operationId) == id;
    }
  }

  /**
   * The sentinel defaults collide: when some operation has no id (taken as
   * 0), every booking of operation 0 shows up in the view for id 0.
   */
  lemma ToolReadySentinelCollision(ops: seq<Operation>, ots: seq<OperationTool>, k: int, b: OperationTool)
    requires 0 <= k < |ops| && ops[k].id.None?
    requires b in ots && b.operationId == Some(0)
    ensures b in KeptBookings(ops, ots, 0)
  {
    assert IdOrZero(ops[k].id) == IdOrMinusOne(b.operationId) == 0;
    assert multiset(KeptBookings(ops, ots, 0))[b] == multiset(ots)[b];
  }

  /** The kept bookings keep their relative order: filtering distributes over concatenation. */
  lemma {:induction false} KeptBookingsAppend(ops: seq<Operation>, a: seq<OperationTool>, b: seq<OperationTool>, id: int)
    ensures KeptBookings(ops, a + b, id) == KeptBookings(ops, a, id) + KeptBookings(ops, b, id)
  {
    if a == [] {
      assert a + b == b;
    } else {
      assert (a + b)[0] == a[0];
      assert (a + b)[1..] == a[1..] + b;
      KeptBookingsAppend(ops, a[1..], b, id);
    }
  }

  /** Row `i` is the first whose id equals `key` (absent ids compare equal to an absent key). */
  ghost predicate FirstWithId(ids: seq<Option<int>>, key: Option<int>, i: int) {
    0 <= i < |ids| && ids[i] == key && forall j :: 0 <= j < i ==> ids[j] != key
  }

  /**
   * Each tool row: on_site iff the flag is exactly 1; a booking whose tool
   * or equipment cannot be found is named "Unknown Tool", one whose
   * equipment has no name "N/A"; the status is the first matching tool's,
   * ForInspection when it has none or no tool matches.
   */
  lemma ToolRowResolution(b: OperationTool, tools: seq<Tool>, equipment: seq<Equipment>)
    ensures ToolRow(b, tools, equipment).onSite <==> b.onSite == Some(1)
    ensures (forall i :: 0 <= i < |tools| ==> tools[i].id != b.toolId) ==>
      ToolRow(b, tools, equipment).equipmentName == UnknownTool &&
      ToolRow(b, tools, equipment).toolStatus == ForInspection
    ensures forall i :: FirstWithId(ToolIds(tools), b.toolId, i) ==>
      && ToolRow(b, tools, equipment).toolStatus == tools[i].status.GetOr(ForInspection)
      && ((forall e :: 0 <= e < |equipment| ==> equipment[e].id != tools[i].infoId) ==>
            ToolRow(b, tools, equipment).equipmentName == UnknownTool)
      && (forall e :: FirstWithId(EquipmentIds(equipment), tools[i].infoId, e) ==>
            ToolRow(b, tools, equipment).equipmentName == OrNotAvailable(equipment[e].name))
    ensures NotAvailable != UnknownTool
  {
    var tool := FirstIndexOf(ToolIds(tools), b.toolId);
    forall i | FirstWithId(ToolIds(tools), b.toolId, i)
      ensures tool == Some(i)
    {
    }
    if tool.Some? {
      var item := FirstIndexOf(EquipmentIds(equipment), tools[tool.value].infoId);
      forall e | FirstWithId(EquipmentIds(equipment), tools[tool.value].infoId, e)
        ensures item == Some(e)
      {
      }
    }
  }

  /** Each row of the tool view is the resolution of the kept booking at the same position. */
  lemma ToolReadyRowsFollowBookings(t: RawTable, window: WindowTable, id: int)
    requires window.PreOperativeToolReadyTable?
    ensures Query(t, window, Some(id)).Ok?
    ensures Query(t, window, Some(id)).value.PreOperativeToolReadyTable?
    ensures var kept := KeptBookings(t.operation, t.operationTool, id);
      var rows := Query(t, window, Some(id)).value.toolRows;
      && rows.Some? && |rows.value| == |kept|
      && forall i :: 0 <= i < |kept| ==> rows.value[i] == ToolRow(kept[i], t.tool, t.equipment)
  {
  }

  // ---------------------------------------------------------------------
  // A worked store
  // ---------------------------------------------------------------------

  /**
   * Operation 1 on patient Ann Lee in room OR-3 with two booked tools, one
   * on site: one row, "Ann Lee", "OR-3", 2 tools, 1 on site, ratio 1/2,
   * percentage 50.
   */
  lemma KneeRepairScenario()
    ensures var op := Operation(Some(1), Some("Knee Repair"), Some(PreOperative), Some(1), Some(1),
                                Some("2024-01-01 08:00:00"), Some("2024-01-01 10:00:00"));
      var patients := [Patient(Some(1), Some("Ann"), Some("Lee"))];
      var rooms := [Room(Some(1), Some("OR-3"))];
      var ots := [OperationTool(Some(1), Some(10), Some(1)), OperationTool(Some(1), Some(11), Some(0))];
      DefaultRow(op, patients, rooms, ots) ==
        Ok(PreOperativeDefault(Some(1), "Knee Repair", "Ann Lee", PreOperative, "OR-3", 2, 1, 0.5, 50.0,
                               "2024-01-01 08:00:00", "2024-01-01 10:00:00"))
  {
    var op := Operation(Some(1), Some("Knee Repair"), Some(PreOperative), Some(1), Some(1),
                        Some("2024-01-01 08:00:00"), Some("2024-01-01 10:00:00"));
    var patients := [Patient(Some(1), Some("Ann"), Some("Lee"))];
    var rooms := [Room(Some(1), Some("OR-3"))];
    var ots := [OperationTool(Some(1), Some(10), Some(1)), OperationTool(Some(1), Some(11), Some(0))];
    assert ots[..1] == [ots[0]];
    assert ots[..0] == [];
    assert PatientIds(patients) == [Some(1)];
    assert RoomIds(rooms) == [Some(1)];
    assert PatientIds(patients)[..0] == [];
    assert FindUnwrapping(PatientIds(patients), Some(1)) == Found(0);
    assert FindUnwrapping(RoomIds(rooms), Some(1)) == Found(0);
    assert FullName(patients[0]) == "Ann Lee";
    assert PatientFullName(op, patients) == Ok("Ann Lee");
    assert RoomName(op, rooms) == Ok("OR-3");
    assert OperationIdsPresent(ots);
    assert TotalTools(1, ots) == 2;
    assert OnSiteTools(1, ots) == 1;
    assert OnSiteRatio(1, 2) == 0.5;
  }
}

/**
 * The view builder of the table store (`TableData::query`): two
 * denormalised views derived from the mirrored tables by joins with
 * sentinel defaults and by counting. Every derivation is a function of the
 * table contents; the store itself is the class in module `Table`.
 */
module TableQuery {
  import opened Outcomes
  import opened Database
  import opened QueryReturn

  /** Shown for an absent column or an unmatched foreign key. */
  const NotAvailable := "N/A"

  /** Shown when the tool -> equipment reference chain is broken. */
  const UnknownTool := "Unknown Tool"

  function OrNotAvailable(s: Option<string>): string {
    s.GetOr(NotAvailable)
  }

  // ---------------------------------------------------------------------
  // Lookups
  // ---------------------------------------------------------------------

  /** The id column of a table, in row order. */
  function Ids<T>(rows: seq<T>, id: T -> Option<int>): (ids: seq<Option<int>>)
    ensures |ids| == |rows| && forall i :: 0 <= i < |ids| ==> ids[i] == id(rows[i])
  {
    seq(|rows|, i requires 0 <= i < |rows| => id(rows[i]))
  }

  function PatientIds(patients: seq<Patient>): seq<Option<int>> {
    Ids(patients, (p: Patient) => p.id)
  }

  function RoomIds(rooms: seq<Room>): seq<Option<int>> {
    Ids(rooms, (r: Room) => r.id)
  }

  function ToolIds(tools: seq<Tool>): seq<Option<int>> {
    Ids(tools, (t: Tool) => t.id)
  }

  function EquipmentIds(equipment: seq<Equipment>): seq<Option<int>> {
    Ids(equipment, (e: Equipment) => e.id)
  }

  /** Where a search that unwraps each row's id stopped. */
  datatype Search = Found(index: nat) | NotFound | UnwrapPanic

  /** Row `i` is the first whose id equals the present `key`, and every id before it is present. */
  ghost predicate FirstMatch(ids: seq<Option<int>>, key: Option<int>, i: int) {
    && 0 <= i < |ids|
    && key.Some?
    && ids[i] == key
    && forall j :: 0 <= j < i ==> ids[j].Some? && ids[j] != key
  }

  /** No row can match: the key is absent, or every id is present and differs from it. */
  ghost predicate NoMatch(ids: seq<Option<int>>, key: Option<int>) {
    key.None? || forall j :: 0 <= j < |ids| ==> ids[j].Some? && ids[j] != key
  }

  /** Scanning for a present key reaches a row with an absent id before any match. */
  ghost predicate UnwrapPanics(ids: seq<Option<int>>, key: Option<int>) {
    key.Some? && exists j :: 0 <= j < |ids| && ids[j].None? && forall k :: 0 <= k < j ==> ids[k] != key
  }

  /** At most one row is the first match. */
  lemma FirstMatchUnique(ids: seq<Option<int>>, key: Option<int>, i: int, j: int)
    requires FirstMatch(ids, key, i) && FirstMatch(ids, key, j)
    ensures i == j
  {
  }

  /**
   * `rows.iter().find(|r| key.map(|id| id == r.id.unwrap()).unwrap_or(false))`:
   * with an absent key nothing is unwrapped and nothing matches; with a
   * present key the scan unwraps each row's id until the first match, and
   * panics on an absent id met before it.
   */
  function FindUnwrapping(ids: seq<Option<int>>, key: Option<int>): (r: Search)
    ensures r.Found? <==> exists i :: FirstMatch(ids, key, i)
    ensures r.Found? ==> FirstMatch(ids, key, r.index)
    ensures r.NotFound? <==> NoMatch(ids, key)
    ensures r.UnwrapPanic? <==> UnwrapPanics(ids, key)
  {
    if key.None? then NotFound
    else if ids == [] then NotFound
    else
      var n := |ids| - 1;
      var prefix := FindUnwrapping(ids[..n], key);
      assert forall j :: 0 <= j < n ==> ids[..n][j] == ids[j];
      if prefix.Found? then
        assert FirstMatch(ids, key, prefix.index);
        prefix
      else if prefix.UnwrapPanic? then
        var j :| 0 <= j < n && ids[..n][j].None? && forall k :: 0 <= k < j ==> ids[..n][k] != key;
        assert ids[j].None? && forall k :: 0 <= k < j ==> ids[k] != key;
        UnwrapPanic
      else if ids[n].None? then
        UnwrapPanic
      else if ids[n] == key then
        assert FirstMatch(ids, key, n);
        Found(n)
      else
        NotFound
  }

  /** `rows.iter().find(|r| r.id == key)`: the first row whose (optional) id equals `key`, `None == None` included. */
  function FirstIndexOf(ids: seq<Option<int>>, key: Option<int>): (r: Option<nat>)
    ensures r.Some? ==> r.value < |ids| && ids[r.value] == key && forall j :: 0 <= j < r.value ==> ids[j] != key
    ensures r.None? <==> forall j :: 0 <= j < |ids| ==> ids[j] != key
  {
    if ids == [] then None
    else
      var n := |ids| - 1;
      var prefix := FirstIndexOf(ids[..n], key);
      assert forall j :: 0 <= j < n ==> ids[..n][j] == ids[j];
      if prefix.Some? then prefix
      else if ids[n] == key then Some(n)
      else None
  }

  // ---------------------------------------------------------------------
  // Counting the tools of an operation
  // ---------------------------------------------------------------------

  /** Every `operation_id` is present, so unwrapping them while counting cannot panic. */
  predicate OperationIdsPresent(ots: seq<OperationTool>) {
    forall i :: 0 <= i < |ots| ==> ots[i].operationId.Some?
  }

  /** `filter(|ot| id == ot.operation_id.unwrap()).count()`, once every operation_id is present. */
  function TotalTools(id: int, ots: seq<OperationTool>): (n: nat)
    ensures n <= |ots|
    ensures n == 0 <==> forall i :: 0 <= i < |ots| ==> ots[i].operationId != Some(id)
  {
    if ots == [] then 0
    else
      var last := ots[|ots| - 1];
      assert forall i :: 0 <= i < |ots| - 1 ==> ots[..|ots| - 1][i] == ots[i];
      TotalTools(id, ots[..|ots| - 1]) + (if last.operationId == Some(id) then 1 else 0)
  }

  /** The same filter, keeping only the rows whose on-site flag is exactly 1. */
  function OnSiteTools(id: int, ots: seq<OperationTool>): (n: nat)
    ensures n <= |ots|
    ensures n == 0 <==> forall i :: 0 <= i < |ots| ==> !(ots[i].operationId == Some(id) && ots[i].onSite == Some(1))
  {
    if ots == [] then 0
    else
      var last := ots[|ots| - 1];
      assert forall i :: 0 <= i < |ots| - 1 ==> ots[..|ots| - 1][i] == ots[i];
      OnSiteTools(id, ots[..|ots| - 1]) + (if last.operationId == Some(id) && last.onSite == Some(1) then 1 else 0)
  }

  /** Positions of the booked tools of operation `id`. */
  ghost function ToolsOf(id: int, ots: seq<OperationTool>): set<int> {
    set i | 0 <= i < |ots| && ots[i].operationId == Some(id)
  }

  /** Positions of the booked tools of operation `id` that are on site. */
  ghost function OnSiteToolsOf(id: int, ots: seq<OperationTool>): set<int> {
    set i | 0 <= i < |ots| && ots[i].operationId == Some(id) && ots[i].onSite == Some(1)
  }

  lemma {:induction false} TotalToolsCountsBookings(id: int, ots: seq<OperationTool>)
    ensures TotalTools(id, ots) == |ToolsOf(id, ots)|
  {
    if ots != [] {
      var n := |ots| - 1;
      TotalToolsCountsBookings(id, ots[..n]);
      var before := ToolsOf(id, ots[..n]);
      assert ToolsOf(id, ots) == if ots[n].operationId == Some(id) then before + {n} else before;
    }
  }

  lemma {:induction false} OnSiteToolsCountsBookings(id: int, ots: seq<OperationTool>)
    ensures OnSiteTools(id, ots) == |OnSiteToolsOf(id, ots)|
  {
    if ots != [] {
      var n := |ots| - 1;
      OnSiteToolsCountsBookings(id, ots[..n]);
      var before := OnSiteToolsOf(id, ots[..n]);
      assert OnSiteToolsOf(id, ots) ==
        if ots[n].operationId == Some(id) && ots[n].onSite == Some(1) then before + {n} else before;
    }
  }

  /** The on-site tools are a subset of the operation's tools. */
  lemma {:induction false} OnSiteAtMostTotal(id: int, ots: seq<OperationTool>)
    ensures OnSiteTools(id, ots) <= TotalTools(id, ots)
  {
    if ots != [] {
      OnSiteAtMostTotal(id, ots[..|ots| - 1]);
    }
  }

  // ---------------------------------------------------------------------
  // PreOperativeDefault: one row per operation
  // ---------------------------------------------------------------------

  function FullName(p: Patient): string {
    OrNotAvailable(p.firstName) + " " + OrNotAvailable(p.lastName)
  }

  /**
   * The patient column: "first last" of the first patient whose id equals
   * the operation's patient id, "N/A" when there is none, or a panic when
   * an absent patient id is unwrapped before the match.
   */
  function PatientFullName(op: Operation, patients: seq<Patient>): (r: Checked<string>)
    ensures r.Panic? <==> UnwrapPanics(PatientIds(patients), op.patientId)
    ensures NoMatch(PatientIds(patients), op.patientId) ==> r == Ok(NotAvailable)
    ensures forall i :: FirstMatch(PatientIds(patients), op.patientId, i) ==> r == Ok(FullName(patients[i]))
  {
    var ids := PatientIds(patients);
    match FindUnwrapping(ids, op.patientId)
    case Found(k) =>
      assert forall i :: FirstMatch(ids, op.patientId, i) ==> i == k by {
        forall i | FirstMatch(ids, op.patientId, i) ensures i == k {
          FirstMatchUnique(ids, op.patientId, i, k);
        }
      }
      Ok(FullName(patients[k]))
    case NotFound => Ok(NotAvailable)
    case UnwrapPanic => Panic
  }

  /** The room column: the first matching room's name ("N/A" if unnamed), "N/A" without a match, or a panic. */
  function RoomName(op: Operation, rooms: seq<Room>): (r: Checked<string>)
    ensures r.Panic? <==> UnwrapPanics(RoomIds(rooms), op.roomId)
    ensures NoMatch(RoomIds(rooms), op.roomId) ==> r == Ok(NotAvailable)
    ensures forall i :: FirstMatch(RoomIds(rooms), op.roomId, i) ==> r == Ok(OrNotAvailable(rooms[i].name))
  {
    var ids := RoomIds(rooms);
    match FindUnwrapping(ids, op.roomId)
    case Found(k) =>
      assert forall i :: FirstMatch(ids, op.roomId, i) ==> i == k by {
        forall i | FirstMatch(ids, op.roomId, i) ensures i == k {
          FirstMatchUnique(ids, op.roomId, i, k);
        }
      }
      Ok(OrNotAvailable(rooms[k].name))
    case NotFound => Ok(NotAvailable)
    case UnwrapPanic => Panic
  }

  /** The share of booked tools that are on site; 0 when none are booked (no division). */
  function OnSiteRatio(onSite: nat, total: nat): (ratio: real)
    ensures total == 0 ==> ratio == 0.0
    ensures total > 0 ==> ratio * total as real == onSite as real
    ensures onSite <= total ==> 0.0 <= ratio <= 1.0
  {
    if total > 0 then onSite as real / total as real else 0.0
  }

  /** The row the view derives from one operation, or a panic from an `unwrap()` of an absent id. */
  function DefaultRow(op: Operation, patients: seq<Patient>, rooms: seq<Room>, ots: seq<OperationTool>)
    : (r: Checked<PreOperativeDefault>)
    ensures r.Panic? <==>
      || UnwrapPanics(PatientIds(patients), op.patientId)
      || UnwrapPanics(RoomIds(rooms), op.roomId)
      || (op.id.Some? && exists i :: 0 <= i < |ots| && ots[i].operationId.None?)
    ensures r.Ok? ==> r.value.opId == op.id
    ensures r.Ok? && op.id.Some? ==>
      r.value.totalTools == |ToolsOf(op.id.value, ots)| && r.value.onSiteTools == |OnSiteToolsOf(op.id.value, ots)|
    ensures r.Ok? && op.id.None? ==> r.value.totalTools == 0 && r.value.onSiteTools == 0
    ensures r.Ok? ==> 0 <= r.value.onSiteTools <= r.value.totalTools
    ensures r.Ok? ==> r.value.onSiteRatio == OnSiteRatio(r.value.onSiteTools, r.value.totalTools)
    ensures r.Ok? ==> r.value.onSitePercentage == r.value.onSiteRatio * 100.0
    ensures r.Ok? ==> 0.0 <= r.value.onSiteRatio <= 1.0 && 0.0 <= r.value.onSitePercentage <= 100.0
  {
    var name := PatientFullName(op, patients);
    var room := RoomName(op, rooms);
    if name.Panic? || room.Panic? || (op.id.Some? && !OperationIdsPresent(ots)) then Panic
    else
      var total := if op.id.Some? then TotalTools(op.id.value, ots) else 0;
      var onSite := if op.id.Some? then OnSiteTools(op.id.value, ots) else 0;
      assert op.id.Some? ==> total == |ToolsOf(op.id.value, ots)| && onSite == |OnSiteToolsOf(op.id.value, ots)| && onSite <= total by {
        if op.id.Some? {
          TotalToolsCountsBookings(op.id.value, ots);
          OnSiteToolsCountsBookings(op.id.value, ots);
          OnSiteAtMostTotal(op.id.value, ots);
        }
      }
      var ratio := OnSiteRatio(onSite, total);
      Ok(PreOperativeDefault(
        op.id, OrNotAvailable(op.labelText), name.value, op.status.GetOr(Discharge), room.value,
        total, onSite, ratio, ratio * 100.0,
        OrNotAvailable(op.startTime), OrNotAvailable(op.endTime)))
  }

  /** `operations.iter().map(..).collect()`: the rows in the operations' order, or the first panic. */
  function PreOperativeDefaultView(ops: seq<Operation>, patients: seq<Patient>, rooms: seq<Room>, ots: seq<OperationTool>)
    : (r: Checked<seq<PreOperativeDefault>>)
    ensures r.Ok? <==> forall i :: 0 <= i < |ops| ==> DefaultRow(ops[i], patients, rooms, ots).Ok?
    ensures r.Ok? ==> |r.value| == |ops|
    ensures r.Ok? ==> forall i :: 0 <= i < |ops| ==> r.value[i] == DefaultRow(ops[i], patients, rooms, ots).value
  {
    if ops == [] then Ok([])
    else
      var head := DefaultRow(ops[0], patients, rooms, ots);
      if head.Panic? then Panic
      else
        var rest := PreOperativeDefaultView(ops[1..], patients, rooms, ots);
        assert forall i :: 1 <= i < |ops| ==> ops[1..][i - 1] == ops[i];
        if rest.Panic? then
          var k :| 0 <= k < |ops[1..]| && DefaultRow(ops[1..][k], patients, rooms, ots).Panic?;
          assert DefaultRow(ops[k + 1], patients, rooms, ots).Panic?;
          Panic
        else Ok([head.value] + rest.value)
  }

  // ---------------------------------------------------------------------
  // PreOperativeToolReady: the tools of one operation
  // ---------------------------------------------------------------------

  /** `op.id.unwrap_or_else(|| 0)`: an operation without id is taken as operation 0. */
  function IdOrZero(id: Option<int>): int {
    id.GetOr(0)
  }

  /** `op_tool.operation_id.unwrap_or_else(|| -1)`: a booking without operation is taken as operation -1. */
  function IdOrMinusOne(id: Option<int>): int {
    id.GetOr(-1)
  }

  /**
   * `operations.iter().any(|op| op.id.unwrap_or(0) == op_tool.operation_id.unwrap_or(-1)
   *                             && op.id.unwrap_or(0) == operation_id)`.
   */
  function AnyOperationMatches(ops: seq<Operation>, ot: OperationTool, id: int): (b: bool)
    ensures b <==> exists i :: 0 <= i < |ops| && IdOrZero(ops[i].id) == IdOrMinusOne(ot.operationId) && IdOrZero(ops[i].id) == id
  {
    if ops == [] then false
    else
      assert forall i :: 1 <= i < |ops| ==> ops[1..][i - 1] == ops[i];
      (IdOrZero(ops[0].id) == IdOrMinusOne(ot.operationId) && IdOrZero(ops[0].id) == id)
      || AnyOperationMatches(ops[1..], ot, id)
  }

  /** The `filter` step: the bookings kept for operation `id`, in their original order. */
  function KeptBookings(ops: seq<Operation>, ots: seq<OperationTool>, id: int): (kept: seq<OperationTool>)
    ensures |kept| <= |ots|
    ensures forall t :: multiset(kept)[t] == if AnyOperationMatches(ops, t, id) then multiset(ots)[t] else 0
  {
    if ots == [] then []
    else
      assert ots == [ots[0]] + ots[1..];
      (if AnyOperationMatches(ops, ots[0], id) then [ots[0]] else []) + KeptBookings(ops, ots[1..], id)
  }

  /** The `map` step: resolve the booking's tool, then the tool's equipment, with sentinels. */
  function ToolRow(ot: OperationTool, tools: seq<Tool>, equipment: seq<Equipment>): (row: PreOperativeToolReady)
    ensures row.onSite <==> ot.onSite == Some(1)
    ensures (forall i :: 0 <= i < |tools| ==> tools[i].id != ot.toolId) ==>
      row.equipmentName == UnknownTool && row.toolStatus == ForInspection
    ensures row.equipmentName == UnknownTool || exists e :: 0 <= e < |equipment| && row.equipmentName == OrNotAvailable(equipment[e].name)
    ensures row.toolStatus == ForInspection || exists i :: 0 <= i < |tools| && tools[i].status == Some(row.toolStatus)
  {
    var tool := FirstIndexOf(ToolIds(tools), ot.toolId);
    var item := if tool.Some? then FirstIndexOf(EquipmentIds(equipment), tools[tool.value].infoId) else None;
    PreOperativeToolReady(
      if item.Some? then OrNotAvailable(equipment[item.value].name) else UnknownTool,
      ot.onSite == Some(1),
      if tool.Some? then tools[tool.value].status.GetOr(ForInspection) else ForInspection)
  }

  /** The tool rows for operation `id`: one per kept booking, in order. */
  function ToolReadyView(id: int, ops: seq<Operation>, ots: seq<OperationTool>, tools: seq<Tool>, equipment: seq<Equipment>)
    : (rows: seq<PreOperativeToolReady>)
    ensures |rows| == |KeptBookings(ops, ots, id)|
  {
    var kept := KeptBookings(ops, ots, id);
    seq(|kept|, i requires 0 <= i < |kept| => ToolRow(kept[i], tools, equipment))
  }

  // ---------------------------------------------------------------------
  // query
  // ---------------------------------------------------------------------

  /**
   * `TableData::query`: recompute the view of `window`'s kind from the
   * snapshot. The value returned is also the one written back into the
   * caller's window slot. The default view ignores `id`; the tool view
   * without an id hands the slot back as it was.
   */
  function Query(t: RawTable, window: WindowTable, id: Option<int>): (r: Checked<WindowTable>)
    ensures r.Ok? ==> (r.value.PreOperativeDefaultTable? <==> window.PreOperativeDefaultTable?)
    ensures window.PreOperativeToolReadyTable? ==> r.Ok?
    ensures window.PreOperativeToolReadyTable? && id.None? ==> r == Ok(window)
  {
    match window
    case PreOperativeDefaultTable(_) =>
      var rows := PreOperativeDefaultView(t.operation, t.patient, t.room, t.operationTool);
      if rows.Panic? then Panic else Ok(PreOperativeDefaultTable(Some(rows.value)))
    case PreOperativeToolReadyTable(_) =>
      if id.None? then Ok(window)
      else Ok(PreOperativeToolReadyTable(Some(ToolReadyView(id.value, t.operation, t.operationTool, t.tool, t.equipment))))
  }
}

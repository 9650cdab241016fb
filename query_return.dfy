/**
 * The denormalised view rows the client derives from the mirrored tables,
 * and the tagged slot a panel keeps its current view in.
 */
module QueryReturn {
  import opened Outcomes
  import opened Database

  /**
   * One row per operation. The on-site ratio and percentage are exact
   * rationals here (the client computes them in binary floating point).
   */
  datatype PreOperativeDefault = PreOperativeDefault(
    opId: Option<int>,
    opLabel: string,
    patientFullName: string,
    opStatus: OperationStatus,
    roomName: string,
    totalTools: int,
    onSiteTools: int,
    onSiteRatio: real,
    onSitePercentage: real,
    startTime: string,
    endTime: string)

  /** One row per tool booked for the selected operation. */
  datatype PreOperativeToolReady = PreOperativeToolReady(
    equipmentName: string,
    onSite: bool,
    toolStatus: EquipmentStatus)

  /** The view kind a query is asked for, with the rows it last produced (if any). */
  datatype WindowTable =
    | PreOperativeDefaultTable(defaultRows: Option<seq<PreOperativeDefault>>)
    | PreOperativeToolReadyTable(toolRows: Option<seq<PreOperativeToolReady>>)

  /** The scope a panel may be narrowed to. */
  datatype QueryTable = PreOperativeDefaultScope(scopeRows: Option<seq<PreOperativeDefault>>)
}

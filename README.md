# Front-desk table mirror and views, in Dafny

This project models the core of a hospital front-desk client (`hms_frontdesk_app`, written in Rust). The client mirrors thirteen tables of the hospital database in memory and derives two denormalised views from them:

- **PreOperativeDefault**: one row per operation, joined to its patient and room. Each row counts the tools booked for the operation and how many of them are on site.
- **PreOperativeToolReady**: for one operation id, the booked tools, resolved through Tool to Equipment.

The views use sentinel defaults: `"N/A"`, `"Unknown Tool"`, `Discharge` and `ForInspection`.

The model also covers:

- the store's own operations: `new`, `initialize` and `update`;
- the application's handling of inbound messages, where the store exists only once a message has arrived;
- the two panels' show flags and their scope guard;
- the text layout of `format_date`: month label, day, year and 12-hour clock.

Modules follow the crate:

| module | file | models |
|---|---|---|
| `Outcomes` | `outcomes.dfy` | `Option`, and how steps end: a value or a panic (`Checked`), a decoder's result (`Parsed`), a state change that completes or panics (`Outcome`) |
| `Database` | `database.dfy` | the row types, the table names, the thirteen-table snapshot `RawTable`, the update payload |
| `QueryReturn` | `query_return.dfy` | the view rows and the `WindowTable` slot |
| `TableQuery` | `table_query.dfy` | `TableData::query` as functions: lookups, counts, both views |
| `QueryProperties` | `query_properties.dfy` | what the views promise, proved against the tables |
| `Table` | `table_data.dfy` | the `TableData` class: thirteen `seq` fields, `new`, `initialize`, `update`, `query` |
| `DateFormat` | `date_format.dfy` | the text layout of `format_date` on parsed calendar fields |
| `Frontdesk` | `frontdesk.dfy` | the panels, `supports_scope`, `toggle_window`, and message dispatch in `FrontdeskApp::update` |

Modelling choices:

- **Panics are explicit.** `query` calls `unwrap()` on a patient's id, a room's id and a booking's operation id. The model returns `Panic` exactly when one of these would meet an absent value, in the same scan order. For a lookup, that means an absent id is met before the first match. For the counts, it means the operation itself has an id and some booking has an absent operation id; for an operation without id the counting closures never unwrap. `expect` and `todo!()` in `initialize`, `update` and the dispatch end a step as `Panicked`. A panic happens before any assignment, so the state is left as it was.
- **The view builder is pure.** The iterator pipelines of `query` are functions over the row sequences. The one side effect is the write-back into `*window_table`. In the source, the value written back and the value returned are the same (`window_table.to_owned()` right after the assignment), so `Query` returns that single value.
- **Store and app state are classes.** `TableData` is a class whose methods reassign its thirteen sequence fields. `FrontdeskApp` is a class with `data: TableData?` and the panel flags. Its message handler is proved against the pure `Dispatch`: `(Mirror(), outcome) == Dispatch(old(Mirror()), event)`.
- **Ratios are exact.** The on-site ratio and percentage are exact rationals (`real`), with the same zero guard as the source.

## Model

| member | source | states |
|---|---|---|
| `TableQuery.FindUnwrapping` | src/table/mod.rs:79-87 | the `find` whose closure unwraps each row's id: the result is the first row whose id equals the present key, with every earlier id present. It is "not found" exactly when the key is absent or every id is present and different. It panics exactly when an absent id is met before any match |
| `TableQuery.FirstIndexOf` | src/table/mod.rs:139-140 | the `find` by optional id: the first position whose id equals the key (`None` matches `None`), or none exactly when no id equals it |
| `TableQuery.FirstMatchUnique` | src/table/mod.rs:79-87 | a `find` has at most one first match |
| `TableQuery.PatientFullName` | src/table/mod.rs:79-82 | the patient column panics exactly when an absent patient id is unwrapped before the match; it is "N/A" when no patient can match, and otherwise "first last" of the first matching patient |
| `TableQuery.RoomName` | src/table/mod.rs:84-87 | the room column panics exactly when an absent room id is unwrapped before the match; it is "N/A" when no room can match, and otherwise the first matching room's name ("N/A" if it has none) |
| `TableQuery.TotalTools` | src/table/mod.rs:89-91 | `total_tools` is at most the number of bookings, and 0 exactly when no booking carries the operation's id |
| `TableQuery.OnSiteTools` | src/table/mod.rs:93-95 | `on_site_tools` is at most the number of bookings, and 0 exactly when no booking of the operation is flagged exactly 1 |
| `TableQuery.TotalToolsCountsBookings` | src/table/mod.rs:89-91 | `total_tools` equals the number of positions whose booking carries the operation's id |
| `TableQuery.OnSiteToolsCountsBookings` | src/table/mod.rs:93-95 | `on_site_tools` equals the number of positions whose booking carries the operation's id and whose on-site flag is exactly 1 |
| `TableQuery.OnSiteAtMostTotal` | src/table/mod.rs:89-95 | the on-site count never exceeds the total count |
| `TableQuery.OnSiteRatio` | src/table/mod.rs:97-103 | the ratio is 0 when no tool is booked (nothing is divided); otherwise ratio × total = on-site, and it lies in [0, 1] whenever on-site <= total |
| `TableQuery.DefaultRow` | src/table/mod.rs:74-118 | one operation's row panics exactly when the patient lookup or the room lookup unwraps an absent id, or the operation has an id and some booking lacks an operation id. Otherwise the row carries the operation's id; its two tool counts are the numbers of its bookings and of its on-site bookings (0 and 0 without an id), with on-site <= total; its ratio is `OnSiteRatio` of the counts and its percentage the ratio × 100, within [0, 1] and [0, 100] |
| `TableQuery.PreOperativeDefaultView` | src/table/mod.rs:74-119 | the map over operations: it succeeds iff every operation's row succeeds, and then has exactly one row per operation, at the operation's position |
| `TableQuery.AnyOperationMatches` | src/table/mod.rs:134-136 | the `any` over operations: true iff some operation's id (absent taken as 0) equals both the booking's operation id (absent taken as -1) and the requested id |
| `TableQuery.KeptBookings` | src/table/mod.rs:133-136 | the `filter`: each booking occurs in the result as often as in the input if `any` holds for it, and otherwise not at all |
| `TableQuery.ToolRow` | src/table/mod.rs:137-155 | on_site iff the flag is exactly 1; a booking whose tool id matches no tool gives "Unknown Tool" and ForInspection; every name is "Unknown Tool" or taken from an equipment row; every status is ForInspection or some tool's status |
| `TableQuery.ToolReadyView` | src/table/mod.rs:133-156 | the tool view has one row per kept booking |
| `TableQuery.Query` | src/table/mod.rs:66-164 | the result keeps the requested view kind; the tool view never panics; the tool view without an id returns the window as given |
| `QueryProperties.DefaultViewOneRowPerOperation` | src/table/mod.rs:74-122 | the default view holds one row per operation, in the store's order, and each row's `op_id` is its operation's id |
| `QueryProperties.DefaultViewIgnoresId` | src/table/mod.rs:66-122 | the default view is the same whatever id is passed |
| `QueryProperties.DefaultRowPanicsExactly` | src/table/mod.rs:79-95 | an operation's row panics iff the patient lookup panics, or the room lookup panics, or the operation has an id and some booking lacks an operation id |
| `QueryProperties.DefaultViewTotalWithIds` | src/table/mod.rs:79-95 | when every patient id, room id and booking operation id is present, the default view never panics |
| `QueryProperties.DefaultRowPatientName` | src/table/mod.rs:79-82 | the patient name is "first last" of the first patient whose id equals the operation's patient id, each absent part shown as "N/A". It is "N/A" when the patient id is absent or no patient matches |
| `QueryProperties.DefaultRowRoomName` | src/table/mod.rs:84-87 | the room name is the first matching room's name ("N/A" if it has none), and "N/A" when the room id is absent or no room matches |
| `QueryProperties.DefaultRowSentinels` | src/table/mod.rs:76-116 | an absent label, start time or end time becomes "N/A" and an absent status becomes Discharge; present values are copied |
| `QueryProperties.ToolReadyUnknownOperationIsEmpty` | src/table/mod.rs:125-158 | an id that no operation carries (an operation without id counting as 0) gives an empty tool view |
| `QueryProperties.ToolReadyKeepsBookingsOfOperation` | src/table/mod.rs:133-136 | when some operation carries the id, the view keeps exactly the bookings whose operation id (absent as -1) equals it, with their multiplicities |
| `QueryProperties.ToolReadyMatchesPresentIds` | src/table/mod.rs:135 | for an id other than 0 and -1, a booking is kept iff its operation id is present and equal to the id, and some operation has that id |
| `QueryProperties.ToolReadySentinelCollision` | src/table/mod.rs:135 | an operation without id makes every booking of operation 0 appear in the view for id 0 |
| `QueryProperties.KeptBookingsAppend` | src/table/mod.rs:133-136 | filtering distributes over concatenation, so kept bookings stay in their original order |
| `QueryProperties.ToolRowResolution` | src/table/mod.rs:139-154 | on_site iff the flag is exactly 1. A booking whose tool, or whose tool's equipment, cannot be found is "Unknown Tool"; equipment found without a name is "N/A". The status is the first matching tool's, ForInspection when it has none or no tool matches. "N/A" and "Unknown Tool" differ |
| `QueryProperties.ToolReadyRowsFollowBookings` | src/table/mod.rs:133-158 | with an id, the tool view is written into the window and its i-th row resolves the i-th kept booking |
| `QueryProperties.KneeRepairScenario` | src/table/mod.rs:74-119 | a worked store: operation 1, Ann Lee in OR-3, two bookings with one on site, gives "Ann Lee", "OR-3", 2, 1, ratio 0.5, percentage 50 |
| `Table.TableData.constructor` | src/table/mod.rs:306-322 | `new` makes all thirteen tables empty |
| `Table.TableData.Initialize` | src/table/mod.rs:323-338 | a decoded snapshot replaces every table with the snapshot's own, with no merging; a payload that does not decode panics and leaves every table as it was |
| `Table.TableData.Update` | src/table/mod.rs:339-350 | a decoded payload completes and changes no table (the method modifies nothing); a payload that does not decode panics (`todo!()`) |
| `Table.TableData.Query` | src/table/mod.rs:66-164 | `query` returns the view recomputed from the store's current tables and leaves the store unchanged |
| `DateFormat.MonthLabel` | src/main.rs:122-136 | months 1 to 12 map to labels of 3 to 5 characters, ending in a dot except for May |
| `DateFormat.MonthLabelsDistinct` | src/main.rs:122-136 | no two months share a label |
| `DateFormat.HourDisplay` | src/main.rs:138-142 | the 12-hour reading is always in 1..12 |
| `DateFormat.Period` | src/main.rs:138-142 | the period is PM iff the hour is at least 12, and AM otherwise |
| `DateFormat.TwelveHourClockReadsBack` | src/main.rs:138-142 | the 12-hour reading and its period give back the 24-hour hour (0 maps to 12 AM, 12 to 12 PM) |
| `DateFormat.Decimal` | src/main.rs:146 | `{}` of a day: at least one digit, no leading zero, one digit exactly below 10, two exactly from 10 to 99 |
| `DateFormat.DecimalReadsBack` | src/main.rs:146 | the decimal text of a number reads back as that number |
| `DateFormat.SignedDecimal` | src/main.rs:146 | `{}` of a year: a '-' exactly when the year is negative, then digits without a leading zero that read back as the year's magnitude |
| `DateFormat.Pad2` | src/main.rs:144 | `{:02}` of a number below 100 is exactly two digits that read back as the number |
| `DateFormat.TimeText` | src/main.rs:144 | the clock text is seven characters: the padded 12-hour reading, a colon, the padded minute, the period |
| `DateFormat.TimeTextReadsBack` | src/main.rs:144 | "hh:mm" plus period: two digits of the 12-hour reading, a colon, two digits of the minute, then AM or PM |
| `DateFormat.FormatDateReadsBack` | src/main.rs:111-146 | the text starts with the month label and a space. Its last seven characters give back the minute and, with the period, the 24-hour hour |
| `DateFormat.FormatDate` | src/main.rs:111-146 | the text is the month label and a space, then the day, ", ", the year and a space, then the seven-character clock, at exactly those offsets |
| `DateFormat.FormatDateDay` | src/main.rs:146 | in the middle text between the month label and the clock, the day comes first: digits with no leading zero and no comma, reading back as the day, so the first comma ends them; then ", ", and a closing space |
| `DateFormat.FormatDateYear` | src/main.rs:146 | after the day and ", " and up to the closing space, the middle text is exactly the year's text, which starts with '-' exactly for a negative year (its digits read back through `SignedDecimal`) |
| `Frontdesk.SupportsScope` | src/main.rs:71-92 | a panel's scope is returned iff `enable_scope` is set and both `id_reference` and `scope` are present; otherwise nothing |
| `Frontdesk.Toggled` | src/main.rs:187-193 | toggling negates the chosen panel's `show` flag, keeps its other fields, and leaves the other panel unchanged |
| `Frontdesk.ToggleTwiceRestores` | src/main.rs:187-193 | toggling the same panel twice restores the panels |
| `Frontdesk.TogglesCommute` | src/main.rs:187-193 | toggling the two panels in either order gives the same panels |
| `Frontdesk.Dispatch` | src/main.rs:198-263 | one polled event: a panic never changes the mirror; an existing store is never dropped; the mirror changes only on a decoded text message. The step panics exactly on a frame that is not text, or a decoded envelope whose payload does not decode for its operation |
| `Frontdesk.FrontdeskApp.constructor` | src/main.rs:177-185 | a new application has no store and both panels in their default state |
| `Frontdesk.FrontdeskApp.ToggleWindow` | src/main.rs:187-193 | the panels become the toggled panels and the store is untouched |
| `Frontdesk.FrontdeskApp.Update` | src/main.rs:198-263 | one polled event changes the mirror and ends as `Dispatch` says. An existing store is updated in place; a new store is fresh, and installed only when the step does not panic. The panels are untouched |
| `Frontdesk.InitializeInstallsSnapshot` | src/main.rs:213-222 | after a decoded Initialize the store exists and holds the snapshot, whether or not it existed before |
| `Frontdesk.UpdateKeepsTables` | src/main.rs:224-232 | a decoded Update (always applied as an Equipment update) completes and keeps the tables; an absent store becomes an empty one |
| `Frontdesk.UpdateIdempotent` | src/main.rs:224-232 | applying the same update twice leaves the mirror as applying it once |
| `Frontdesk.EnvelopeHeaderIgnored` | src/main.rs:209-234 | neither `table_name` nor `status_code` changes what a message does |
| `Frontdesk.MirrorChangesOnlyOnDecodedMessages` | src/main.rs:198-263 | an envelope that does not decode, and every non-message event, leaves the mirror untouched. Only non-text frames panic (`todo!()`) |

## Where the code falls short of its evident intent

The model follows the code in each case below.

- An update is meant to replace one row in place. The row replacement in `update` is commented out, so a decoded update changes nothing, and one that does not decode panics (`todo!()`).
- A snapshot that fails to parse is meant to be dropped with the store left untouched. `initialize` calls `expect` and panics instead. The store is still untouched, because the panic comes before any assignment.
- An Update is meant to target the table its envelope names. The dispatch always passes `DatabaseTable::Equipment`, and `update` ignores the argument.
- The tool view is meant to keep the bookings whose operation id equals the given id. The code compares through `unwrap_or` defaults: 0 for an operation's id and -1 for a booking's operation id. So an operation without id counts as operation 0 (`ToolReadySentinelCollision`).
- `supports_scope` returns `scope.unwrap()` where an `Option` is declared. The model returns the present scope wrapped in `Some`, which is what the guard is evidently for.
- The `Operation` struct in src/database/table/mod.rs has no patient or room id and a string status. The model follows the fields that `query` reads.

## Left out

- Rendering (`TableData::build_table` and the panels and windows of `FrontdeskApp::update` after the message handling): UI code. Besides drawing, `build_table` skips every default-view row whose status is not PreOperative, formats the start and end times with `format_date` and colours them with `date_code`, and on a click calls `query` for the tool view and passes the result to `push_last`. That row filter and the colouring are not modelled; the time format is (`DateFormat`).
- `push_last` and the navigation stack it maintains: they are defined in no file of this model, so their behaviour is not modelled.
- `date_code`: it reads the wall clock.
- Connecting, reconnecting and sending the handshake, and the `sender`/`receiver` fields: network I/O. A websocket error event is modelled only as leaving the store untouched.
- JSON decoding (serde) and timestamp parsing (chrono): foreign library calls. Each decode is a `Parsed` value, given as input. `FormatDate` starts from parsed calendar fields, so a timestamp that does not parse (the `expect` in `format_date`) is not modelled.
- The `Arc<RwLock<…>>` around each table, and lock acquisition: they exist for concurrency. A table is its row sequence.
- `println!` debug output.
- TableQuery.DefaultRow: the on-site ratio and percentage are exact rationals, not `f64`, so floating-point rounding (e.g. of 1/3 × 100) is not modelled.
- Integer widths: ids (`i32`) and counts (`i64`) are unbounded integers. Ids are only compared for equality and counts are bounded by table lengths, so wrap-around cannot arise at realistic sizes.
- Columns that no view reads: the tables Staff, ToolReservation, ToolDesignatedRoom, ToolInspector, PatientWardRoom, PatientWardAssistant and OperationStaff carry only their id. The full `EquipmentStatus` enumeration is not in the files of this model, so only `ForInspection` is named and every other status is carried by its label.
- `UpdateEquipmentRow` is declared in a module that is not part of this model. It is modelled as an id with an Equipment row.

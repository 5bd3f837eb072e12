# Smart house: devices, rooms, house and their reports

This project models the "smart house" library (Rust) in Dafny. A house holds rooms, and a room holds devices.
Each of them has a name and renders a textual status report that can fail:

- **Devices** (`SmartSocket`, `SmartThermometer`) report a fixed template naming themselves ("… Роботает штатно.", with the
  source's spelling). A device reached through `&dyn IDevice` can be of any kind. The model therefore adds a `Custom`
  device whose report is any given `Result`, so the failure paths of rooms and houses are reachable.
- **Rooms** (`OwningRoom`, `BorrowingRoom`) are built only when their device names are pairwise distinct. They list device
  names in order. Their report is a header line followed by one `"   - …\n"` line per device report.
  The loop stops at the first device whose report fails and wraps its error with the device and room names.
- **The house** (`SmartHouse`) is built only when its room names are pairwise distinct. It lists room names in order and
  looks up a room's device names by the room's name, taking the first match. Its report is a header line
  followed by the room reports in order. The first failing room stops the loop, and its error is wrapped with the house name.

Files and modules:

- `wrappers.dfy` (`Wrappers`): `Option` and `Result`.
- `text.dfy` (`Text`): the uniqueness test exactly as the constructors perform it: the names are collected into a set
  and the set's size is compared with the list's length. It is proved equivalent to "pairwise distinct".
  The file also defines `Embeds` ("this message mentions that text").
- `devices.dfy` (`Devices`): src/devices/standard.rs.
- `rooms.dfy` (`Rooms`): the two room types of examples/house.rs.
  A `Containment` tag (`Owning`/`Borrowing`) is all that remains of the ownership difference.
- `house.dfy` (`House`): src/house/mod.rs.
- `demo.dfy` (`Demo`): the data the demo program of src/main.rs builds, and what it reports.

Each `create_report` exists twice in the model.

- The specification is a function (`Rooms.RoomReport`, `House.HouseReport`). It is a left fold over the children that
  stops at the first failure (`Rooms.DeviceLines`, `House.RoomReports`).
- The implementation is a method with the source's loop (`Rooms.CreateReport`, `House.CreateReport`). It accumulates
  into a mutable string and returns early on the first failure, and it is proved equal to the function.

Each fold is also related to independent reference definitions:

- when every child reports, the result is the header followed by the children's lines concatenated front to back
  (`JoinedLines`, `JoinedReports`);
- when child `k` is the first failure, the result is that child's wrapped error;
- the report succeeds exactly when every child's report succeeds.

Reports are functions of immutable values, so asking twice gives the same answer. `Demo.ReportTwice` states this for the
demo's two calls.

src/main.rs is a standalone copy of the library and of the rooms in examples/house.rs. The rows below cite one copy, and the same members model both:

| src/main.rs | same code as |
|---|---|
| 22-58 (devices) | src/devices/standard.rs:6-50 |
| 68-124 (`OwningRoom`) | examples/house.rs:11-67 |
| 127-183 (`BorrowingRoom`) | examples/house.rs:70-126 |
| 186-218 (`SmartHouse::new`, `_get_room_names`, `_get_room_devices_names`) | src/house/mod.rs:7-25, 31-42 |
| 220-239 (`SmartHouse::create_report`) | src/house/mod.rs:45-64 |

Apart from visibility (no `pub`), local declarations of the three traits and syntax such as `Ok(report)` for `return Ok(report);`, the copy differs in three ways: two getters carry a leading underscore, devices are built with struct literals rather than `new`, and its `SmartHouse` has no `get_name`.
Getting a name (`get_name`) is the `name` field of each datatype.

## Model

| member | source | states |
|---|---|---|
| `Devices.NewSocket` | src/devices/standard.rs:11-26 | the socket keeps exactly the given name, and its report is the socket template around that name |
| `Devices.NewThermometer` | src/devices/standard.rs:34-49 | the thermometer keeps exactly the given name, and its report is the thermometer template around that name |
| `Devices.Report` | src/devices/standard.rs:17-43 | a socket or thermometer report is always `Ok` and mentions the device's name; a user-defined device reports what it is given |
| `Devices.SocketAndThermometerDiffer` | src/devices/standard.rs:18-41 | a socket report and a thermometer report are never equal, whatever the two names |
| `Devices.StandardReportDeterminesDevice` | src/devices/standard.rs:17-43 | two library devices give equal reports if and only if they are the same kind with the same name, so the report depends only on kind and name and identifies both |
| `Text.NameSetBound` | examples/house.rs:18-22 | the set of names is never larger than the list, and it is exactly as large if and only if the names are pairwise distinct |
| `Text.UniqueIffDistinct` | examples/house.rs:20-22 | the set-size comparison accepts exactly the lists with pairwise distinct names |
| `Rooms.DeviceNames` | examples/house.rs:37-43 | `get_devices_names` has one name per device, and element i is device i's name |
| `Rooms.NewRoom` | examples/house.rs:17-29 | the constructor succeeds if and only if device names are pairwise distinct; on success it stores kind, name and devices unchanged and in order; otherwise the error is "Устройства в комнате имеют неуникальные названия" |
| `Rooms.DeviceFailure` | examples/house.rs:54-59 | the wrapped error mentions the device name, the room name and the inner error |
| `Rooms.CreateReport` | examples/house.rs:47-66 | the accumulate-and-return-early loop computes exactly the room report specification |
| `Rooms.ReportStep` | examples/house.rs:50-62 | one loop turn: a successful device report appends its indented line, and a failing one decides the whole report |
| `Rooms.FailureIsFinal` | examples/house.rs:53-60 | once a prefix of the devices has failed, the remaining devices do not change the result |
| `Rooms.JoinedLinesSnoc` | examples/house.rs:62 | the front-to-back concatenation of device lines can be extended at the back one line at a time, as the loop does |
| `Rooms.AllOkLines` | examples/house.rs:50-65 | when every device reports, the loop's body text is one `"   - " + r_i + "\n"` line per device report, in device order |
| `Rooms.AllOkReport` | examples/house.rs:47-65 | when every device reports, the room report is `" * комната '" + name + "':\n"` followed by those lines |
| `Rooms.FirstFailureLines` | examples/house.rs:50-60 | when device k is the first to fail, the loop yields device k's error wrapped with its name and the room name |
| `Rooms.FirstFailureReport` | examples/house.rs:50-60 | when device k is the first to fail, the room report is `Err` of device k's wrapped error |
| `Rooms.OkLinesAllOk` | examples/house.rs:50-62 | a successful loop means every device report was `Ok` |
| `Rooms.ReportOkIffAllOk` | examples/house.rs:47-65 | the room report is `Ok` if and only if every device report is `Ok` |
| `Rooms.LaterDevicesNotConsulted` | examples/house.rs:50-60 | when device k fails first, replacing every device after k leaves the room report unchanged, so those devices are never consulted |
| `Rooms.StandardRoomReportsOk` | src/main.rs:103-123 | a room holding only sockets and thermometers always reports `Ok` |
| `Rooms.ContainmentIrrelevant` | examples/house.rs:76-126 | owning and borrowing rooms over the same data get the same constructor verdict and error text and give the same report |
| `House.RoomNames` | src/house/mod.rs:31-33 | `get_room_names` has one name per room, in stored order |
| `House.NewHouse` | src/house/mod.rs:13-25 | the constructor succeeds if and only if room names are pairwise distinct; on success it stores name and rooms unchanged; otherwise the error is "Комнаты в доме имеют неуникальные названия" |
| `House.FindRoom` | src/house/mod.rs:36 | `find` returns the first room with the name, and returns nothing if and only if no room has it |
| `House.RoomDevicesNames` | src/house/mod.rs:35-42 | the lookup fails if and only if no room has the name, and the error is "В доме нет комнаты с названием '" + name + "'" |
| `House.LookupFindsFirst` | src/house/mod.rs:36-40 | the lookup returns the device names of the first room with the requested name |
| `House.LookupUnique` | src/house/mod.rs:13-41 | in a house built by the constructor (distinct room names), looking up a room's name gives exactly that room's device names |
| `House.RoomFailure` | src/house/mod.rs:53-57 | the wrapped error mentions the house name and the room's error |
| `House.CreateReport` | src/house/mod.rs:46-64 | the loop, which calls each room's report loop, computes exactly the house report specification |
| `House.ReportStep` | src/house/mod.rs:49-61 | one loop turn: a successful room report is appended as is, and a failing one decides the whole report |
| `House.FailureIsFinal` | src/house/mod.rs:52-58 | once a prefix of the rooms has failed, the remaining rooms do not change the result |
| `House.JoinedReportsSnoc` | src/house/mod.rs:60 | the front-to-back concatenation of room reports can be extended at the back one report at a time |
| `House.AllOkBody` | src/house/mod.rs:49-61 | when every room reports, the loop's body text is the room reports concatenated in order |
| `House.AllOkReport` | src/house/mod.rs:46-63 | when every room reports, the house report is `"Отчёт по дому '" + name + "':\n"` followed by the room reports in order |
| `House.FirstFailureBody` | src/house/mod.rs:49-58 | when room k is the first to fail with e, the loop yields e wrapped with the house name |
| `House.FirstFailureReport` | src/house/mod.rs:49-58 | when room k is the first to fail with e, the house report is `Err` of e wrapped with the house name |
| `House.OkBodyAllOk` | src/house/mod.rs:49-61 | a successful loop means every room report was `Ok` |
| `House.ReportOkIffAllOk` | src/house/mod.rs:46-63 | the house report is `Ok` if and only if every room report is `Ok` |
| `House.LaterRoomsNotConsulted` | src/house/mod.rs:49-58 | when room k fails first, replacing every room after k leaves the house report unchanged |
| `House.DeviceFailurePropagates` | src/house/mod.rs:49-58 | a device failure that comes first in the first failing room reaches the house as a nested error; that error mentions the house, the room, the device and the device's own error |
| `House.StandardHouseReportsOk` | src/main.rs:220-239 | a house whose rooms hold only sockets and thermometers always reports `Ok` |
| `Demo.ConstructionsSucceed` | src/main.rs:244-267 | all three room constructions and the house construction of the demo succeed, with the data unchanged |
| `Demo.HallReport` | src/main.rs:261 | the report of room "Зал" is its header and one socket line |
| `Demo.KitchenReport` | src/main.rs:262 | the report of room "Кухня" is its header, a socket line, then a thermometer line |
| `Demo.StorageReport` | src/main.rs:263 | the report of room "Кладовка" is its header and one thermometer line |
| `Demo.ReportText` | src/main.rs:266-270 | the demo house report is the house header, then "Зал", "Кухня", "Кладовка" in that order, each followed by one "Роботает штатно." line per device, four device lines in all |
| `Demo.ReportTwice` | src/main.rs:270-272 | the two successive reports of the demo are identical, and both are that text |

## Left out

- The `main` functions (src/main.rs:242-273, examples/house.rs:128-151): printing and `unwrap` panics are I/O. Only their data and the two report calls are modelled, in `Demo`.
- Lifetimes and borrowing (`&'a dyn IDevice`, `&'a Vec<…>`): the model holds values. The only trace of owning versus borrowing containment is the `Containment` tag, and reference validity is not modelled.
- `HashSet` hashing: the uniqueness test is the size of a mathematical set of names compared with the list's length.
- The trait declarations (src/common/mod.rs, src/devices/mod.rs, src/rooms/mod.rs) have no behaviour. They shape the datatypes: the `Device` variants stand for `dyn IDevice`.
- User-defined room kinds: `SmartHouse` accepts any `&dyn IRoom`, but the only implementations are the two room types modelled here. A room therefore fails only through one of its devices, and a room kind that fails on its own is not modelled.
- User-defined devices: a `Custom` device carries one fixed report. A device whose report changes between calls (interior mutability, a clock, I/O behind `&self`) is not modelled, so repeated reports agree only because every method of the library takes `&self` and no shipped type changes after construction.
- The doc comment at src/main.rs:3-14 describes an information-source parameter for reports that no code implements.

/** Rooms (`OwningRoom` and `BorrowingRoom` of examples/house.rs): named
    containers of devices with unique names, and their aggregated report. */
module Rooms {
  import opened Wrappers
  import opened Text
  import opened Devices

  /** How a room holds its device list: its own vector (`OwningRoom`) or a
      borrowed reference to one owned elsewhere (`BorrowingRoom`). Without
      ownership in the model, the tag is all that tells them apart. */
  datatype Containment = Owning | Borrowing

  datatype Room = Room(containment: Containment, name: string, devices: seq<Device>)

  const NonUniqueDevices: string := "Устройства в комнате имеют неуникальные названия"

  /** `get_devices_names`: the names of the devices, in stored order. */
  function DeviceNames(devices: seq<Device>): (names: seq<string>)
    ensures |names| == |devices|
    ensures forall i :: 0 <= i < |devices| ==> names[i] == devices[i].name
  {
    if devices == [] then [] else [devices[0].name] + DeviceNames(devices[1..])
  }

  /** `OwningRoom::new` and `BorrowingRoom::new`: the room is built, unchanged,
      exactly when no two devices share a name. */
  function NewRoom(containment: Containment, name: string, devices: seq<Device>): (r: Result<Room, string>)
    ensures r.Ok? <==> Distinct(DeviceNames(devices))
    ensures r.Ok? ==> r.value == Room(containment, name, devices)
    ensures r.Err? ==> r.error == NonUniqueDevices
  {
    var names := DeviceNames(devices);
    UniqueIffDistinct(names);
    if HasUniqueNames(names) then Ok(Room(containment, name, devices)) else Err(NonUniqueDevices)
  }

  function Header(roomName: string): string
  {
    " * комната '" + roomName + "':\n"
  }

  /** The indented line a successful device report becomes. */
  function DeviceLine(text: string): string
  {
    "   - " + text + "\n"
  }

  /** The error a room raises when a device's report fails. */
  function DeviceFailure(deviceName: string, roomName: string, cause: string): (msg: string)
    ensures Embeds(msg, deviceName) && Embeds(msg, roomName) && Embeds(msg, cause)
  {
    var p1 := "Возникла ошибка при формировании отчёта с устройством '";
    var p2 := "' в комнате '";
    var p3 := "': ";
    assert p1 + deviceName + p2 + roomName + p3 + cause == p1 + deviceName + (p2 + roomName + p3 + cause);
    EmbedsMiddle(p1, deviceName, p2 + roomName + p3 + cause);
    assert p1 + deviceName + p2 + roomName + p3 + cause == (p1 + deviceName + p2) + roomName + (p3 + cause);
    EmbedsMiddle(p1 + deviceName + p2, roomName, p3 + cause);
    EmbedsSuffix(p1 + deviceName + p2 + roomName + p3, cause);
    p1 + deviceName + p2 + roomName + p3 + cause
  }

  /** The text the `for` loop of `create_report` appends after the header,
      device by device, stopping at the first device whose report fails. */
  function DeviceLines(roomName: string, devices: seq<Device>): Result<string, string>
  {
    if devices == [] then Ok("")
    else
      var earlier := DeviceLines(roomName, devices[..|devices| - 1]);
      var last := devices[|devices| - 1];
      if earlier.Err? then earlier
      else match Report(last)
        case Err(e) => Err(DeviceFailure(last.name, roomName, e))
        case Ok(text) => Ok(earlier.value + DeviceLine(text))
  }

  /** `create_report` of a room. */
  function RoomReport(room: Room): Result<string, string>
  {
    match DeviceLines(room.name, room.devices)
    case Ok(lines) => Ok(Header(room.name) + lines)
    case Err(e) => Err(e)
  }

  /** `create_report` as the source runs it: accumulate into a mutable string,
      return the wrapped error of the first device that fails. */
  method CreateReport(room: Room) returns (r: Result<string, string>)
    ensures r == RoomReport(room)
  {
    var report := Header(room.name);
    ghost var lines := "";
    var i := 0;
    while i < |room.devices|
      invariant 0 <= i <= |room.devices|
      invariant DeviceLines(room.name, room.devices[..i]) == Ok(lines)
      invariant report == Header(room.name) + lines
    {
      var device := room.devices[i];
      var deviceReport := Report(device);
      ReportStep(room.name, room.devices, i);
      if deviceReport.Err? {
        return Err(DeviceFailure(device.name, room.name, deviceReport.error));
      }
      var line := DeviceLine(deviceReport.value);
      ConcatAssociative(Header(room.name), lines, line);
      report := report + line;
      lines := lines + line;
      i := i + 1;
    }
    assert room.devices[..i] == room.devices;
    r := Ok(report);
  }

  /** One turn of the loop of `create_report`, after the first `i` devices reported. */
  lemma ReportStep(roomName: string, devices: seq<Device>, i: nat)
    requires i < |devices| && DeviceLines(roomName, devices[..i]).Ok?
    ensures Report(devices[i]).Err? ==>
              DeviceLines(roomName, devices)
              == Err(DeviceFailure(devices[i].name, roomName, Report(devices[i]).error))
    ensures Report(devices[i]).Ok? ==>
              DeviceLines(roomName, devices[..i + 1])
              == Ok(DeviceLines(roomName, devices[..i]).value + DeviceLine(Report(devices[i]).value))
  {
    assert devices[..i + 1][..i] == devices[..i];
    if Report(devices[i]).Err? {
      FailureIsFinal(roomName, devices, i + 1);
    }
  }

  /** Once a prefix of the devices has failed, the devices after it change nothing. */
  lemma {:induction false} FailureIsFinal(roomName: string, devices: seq<Device>, n: nat)
    requires n <= |devices| && DeviceLines(roomName, devices[..n]).Err?
    ensures DeviceLines(roomName, devices) == DeviceLines(roomName, devices[..n])
  {
    if n < |devices| {
      var init := devices[..|devices| - 1];
      assert init[..n] == devices[..n];
      FailureIsFinal(roomName, init, n);
    } else {
      assert devices[..n] == devices;
    }
  }

  /** Every device of the sequence reports successfully. */
  predicate AllReportsOk(devices: seq<Device>)
  {
    forall i :: 0 <= i < |devices| ==> Report(devices[i]).Ok?
  }

  /** Reference definition of a successful report body: one line per device, in order. */
  function JoinedLines(devices: seq<Device>): string
    requires AllReportsOk(devices)
  {
    if devices == [] then "" else DeviceLine(Report(devices[0]).value) + JoinedLines(devices[1..])
  }

  lemma {:induction false} JoinedLinesSnoc(devices: seq<Device>)
    requires devices != [] && AllReportsOk(devices)
    ensures JoinedLines(devices)
         == JoinedLines(devices[..|devices| - 1]) + DeviceLine(Report(devices[|devices| - 1]).value)
  {
    if |devices| > 1 {
      var rest := devices[1..];
      assert rest[..|rest| - 1] == devices[..|devices| - 1][1..];
      JoinedLinesSnoc(rest);
    }
  }

  /** When every device reports, the room report is the header followed by
      one indented line per device report, in device order. */
  lemma {:induction false} AllOkLines(roomName: string, devices: seq<Device>)
    requires AllReportsOk(devices)
    ensures DeviceLines(roomName, devices) == Ok(JoinedLines(devices))
  {
    if devices != [] {
      AllOkLines(roomName, devices[..|devices| - 1]);
      JoinedLinesSnoc(devices);
    }
  }

  /** If device `k` is the first whose report fails, the room reports that
      device's error, wrapped with the device and room names. */
  lemma {:induction false} FirstFailureLines(roomName: string, devices: seq<Device>, k: nat)
    requires k < |devices| && Report(devices[k]).Err?
    requires forall j :: 0 <= j < k ==> Report(devices[j]).Ok?
    ensures DeviceLines(roomName, devices)
         == Err(DeviceFailure(devices[k].name, roomName, Report(devices[k]).error))
  {
    if k == |devices| - 1 {
      AllOkLines(roomName, devices[..k]);
    } else {
      var init := devices[..|devices| - 1];
      assert init[k] == devices[k];
      FirstFailureLines(roomName, init, k);
    }
  }

  lemma AllOkReport(room: Room)
    requires AllReportsOk(room.devices)
    ensures RoomReport(room) == Ok(Header(room.name) + JoinedLines(room.devices))
  {
    AllOkLines(room.name, room.devices);
  }

  lemma FirstFailureReport(room: Room, k: nat)
    requires k < |room.devices| && Report(room.devices[k]).Err?
    requires forall j :: 0 <= j < k ==> Report(room.devices[j]).Ok?
    ensures RoomReport(room)
         == Err(DeviceFailure(room.devices[k].name, room.name, Report(room.devices[k]).error))
  {
    FirstFailureLines(room.name, room.devices, k);
  }

  /** A successful body means every device reported successfully. */
  lemma {:induction false} OkLinesAllOk(roomName: string, devices: seq<Device>)
    requires DeviceLines(roomName, devices).Ok?
    ensures AllReportsOk(devices)
  {
    if devices != [] {
      var init := devices[..|devices| - 1];
      OkLinesAllOk(roomName, init);
      forall i | 0 <= i < |devices| - 1 ensures Report(devices[i]).Ok? {
        assert devices[i] == init[i];
      }
    }
  }

  /** A room report succeeds exactly when every device report succeeds. */
  lemma ReportOkIffAllOk(room: Room)
    ensures RoomReport(room).Ok? <==> AllReportsOk(room.devices)
  {
    if AllReportsOk(room.devices) {
      AllOkReport(room);
    } else if RoomReport(room).Ok? {
      OkLinesAllOk(room.name, room.devices);
    }
  }

  /** Devices after the first failing one are never asked for a report:
      replacing them leaves the room report unchanged. */
  lemma LaterDevicesNotConsulted(room: Room, k: nat, replacement: seq<Device>)
    requires k < |room.devices| && Report(room.devices[k]).Err?
    requires forall j :: 0 <= j < k ==> Report(room.devices[j]).Ok?
    ensures RoomReport(Room(room.containment, room.name, room.devices[..k + 1] + replacement))
         == RoomReport(room)
  {
    var other := room.devices[..k + 1] + replacement;
    assert other[k] == room.devices[k];
    assert forall j :: 0 <= j < k ==> other[j] == room.devices[j];
    FirstFailureReport(room, k);
    FirstFailureReport(Room(room.containment, room.name, other), k);
  }

  /** A room of library devices only (sockets and thermometers) always reports. */
  lemma StandardRoomReportsOk(room: Room)
    requires forall i :: 0 <= i < |room.devices| ==> IsStandard(room.devices[i])
    ensures RoomReport(room).Ok?
  {
    AllOkReport(room);
  }

  /** Owning and borrowing rooms over the same data are indistinguishable to
      callers: same constructor verdict, same names, same report. */
  lemma ContainmentIrrelevant(name: string, devices: seq<Device>)
    ensures NewRoom(Owning, name, devices).Ok? == NewRoom(Borrowing, name, devices).Ok?
    ensures NewRoom(Owning, name, devices).Err? ==>
              NewRoom(Owning, name, devices) == NewRoom(Borrowing, name, devices)
    ensures RoomReport(Room(Owning, name, devices)) == RoomReport(Room(Borrowing, name, devices))
  {
  }
}

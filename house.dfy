/** The house (`SmartHouse` of src/house/mod.rs): a named container of rooms
    with unique names, room lookup by name, and the aggregated report. */
module House {
  import opened Wrappers
  import opened Text
  import opened Devices
  import opened Rooms

  datatype SmartHouse = SmartHouse(name: string, rooms: seq<Room>)

  const NonUniqueRooms: string := "Комнаты в доме имеют неуникальные названия"

  /** `get_room_names`: the names of the rooms, in stored order. */
  function RoomNames(rooms: seq<Room>): (names: seq<string>)
    ensures |names| == |rooms|
    ensures forall i :: 0 <= i < |rooms| ==> names[i] == rooms[i].name
  {
    if rooms == [] then [] else [rooms[0].name] + RoomNames(rooms[1..])
  }

  /** `SmartHouse::new`: the house is built, unchanged, exactly when no two
      rooms share a name. */
  function NewHouse(name: string, rooms: seq<Room>): (r: Result<SmartHouse, string>)
    ensures r.Ok? <==> Distinct(RoomNames(rooms))
    ensures r.Ok? ==> r.value == SmartHouse(name, rooms)
    ensures r.Err? ==> r.error == NonUniqueRooms
  {
    var names := RoomNames(rooms);
    UniqueIffDistinct(names);
    if HasUniqueNames(names) then Ok(SmartHouse(name, rooms)) else Err(NonUniqueRooms)
  }

  /** `Iterator::find` over the rooms: the index of the first room with that name. */
  function FindRoom(rooms: seq<Room>, roomName: string): (k: Option<nat>)
    ensures k.Some? ==> k.value < |rooms| && rooms[k.value].name == roomName
    ensures k.Some? ==> forall j :: 0 <= j < k.value ==> rooms[j].name != roomName
    ensures k.None? <==> forall j :: 0 <= j < |rooms| ==> rooms[j].name != roomName
  {
    if rooms == [] then None
    else if rooms[0].name == roomName then Some(0)
    else match FindRoom(rooms[1..], roomName)
      case None =>
        assert forall j :: 1 <= j < |rooms| ==> rooms[j] == rooms[1..][j - 1];
        None
      case Some(k) => Some(k + 1)
  }

  function NoSuchRoom(roomName: string): string
  {
    "В доме нет комнаты с названием '" + roomName + "'"
  }

  /** `get_room_devices_names`: fails exactly when no room bears the name;
      otherwise gives the device names of the first room that does. */
  function RoomDevicesNames(house: SmartHouse, roomName: string): (r: Result<seq<string>, string>)
    ensures r.Err? <==> roomName !in RoomNames(house.rooms)
    ensures r.Err? ==> r.error == NoSuchRoom(roomName)
  {
    match FindRoom(house.rooms, roomName)
    case None => Err(NoSuchRoom(roomName))
    case Some(k) => Ok(DeviceNames(house.rooms[k].devices))
  }

  /** The lookup answers with the first room of that name. */
  lemma LookupFindsFirst(house: SmartHouse, k: nat)
    requires k < |house.rooms|
    requires forall j :: 0 <= j < k ==> house.rooms[j].name != house.rooms[k].name
    ensures RoomDevicesNames(house, house.rooms[k].name) == Ok(DeviceNames(house.rooms[k].devices))
  {
  }

  /** In a house with unique room names, looking a room up by its name gives
      exactly that room's device names. */
  lemma LookupUnique(house: SmartHouse, k: nat)
    requires Distinct(RoomNames(house.rooms)) && k < |house.rooms|
    ensures RoomDevicesNames(house, house.rooms[k].name) == Ok(DeviceNames(house.rooms[k].devices))
  {
    var names := RoomNames(house.rooms);
    forall j | 0 <= j < k ensures house.rooms[j].name != house.rooms[k].name {
      assert names[j] != names[k];
    }
    LookupFindsFirst(house, k);
  }

  function Header(houseName: string): string
  {
    "Отчёт по дому '" + houseName + "':\n"
  }

  /** The error a house raises when a room's report fails. */
  function RoomFailure(houseName: string, cause: string): (msg: string)
    ensures Embeds(msg, houseName) && Embeds(msg, cause)
  {
    var p1 := "Возникла ошибка при формировании отчёта по дому '";
    var p2 := "': ";
    EmbedsMiddle(p1, houseName, p2 + cause);
    assert p1 + houseName + p2 + cause == p1 + houseName + (p2 + cause);
    EmbedsSuffix(p1 + houseName + p2, cause);
    p1 + houseName + p2 + cause
  }

  /** The text the `for` loop of `create_report` appends after the header,
      room by room, stopping at the first room whose report fails. */
  function RoomReports(houseName: string, rooms: seq<Room>): Result<string, string>
  {
    if rooms == [] then Ok("")
    else
      var earlier := RoomReports(houseName, rooms[..|rooms| - 1]);
      if earlier.Err? then earlier
      else match RoomReport(rooms[|rooms| - 1])
        case Err(e) => Err(RoomFailure(houseName, e))
        case Ok(text) => Ok(earlier.value + text)
  }

  /** `create_report` of the house. */
  function HouseReport(house: SmartHouse): Result<string, string>
  {
    match RoomReports(house.name, house.rooms)
    case Ok(body) => Ok(Header(house.name) + body)
    case Err(e) => Err(e)
  }

  /** `create_report` as the source runs it: ask each room for its report,
      append it, and return the wrapped error of the first room that fails. */
  method CreateReport(house: SmartHouse) returns (r: Result<string, string>)
    ensures r == HouseReport(house)
  {
    var report := Header(house.name);
    ghost var body := "";
    var i := 0;
    while i < |house.rooms|
      invariant 0 <= i <= |house.rooms|
      invariant RoomReports(house.name, house.rooms[..i]) == Ok(body)
      invariant report == Header(house.name) + body
    {
      var roomReport := Rooms.CreateReport(house.rooms[i]);
      ReportStep(house.name, house.rooms, i);
      if roomReport.Err? {
        return Err(RoomFailure(house.name, roomReport.error));
      }
      ConcatAssociative(Header(house.name), body, roomReport.value);
      report := report + roomReport.value;
      body := body + roomReport.value;
      i := i + 1;
    }
    assert house.rooms[..i] == house.rooms;
    r := Ok(report);
  }

  /** One turn of the loop of `create_report`, after the first `i` rooms reported. */
  lemma ReportStep(houseName: string, rooms: seq<Room>, i: nat)
    requires i < |rooms| && RoomReports(houseName, rooms[..i]).Ok?
    ensures RoomReport(rooms[i]).Err? ==>
              RoomReports(houseName, rooms) == Err(RoomFailure(houseName, RoomReport(rooms[i]).error))
    ensures RoomReport(rooms[i]).Ok? ==>
              RoomReports(houseName, rooms[..i + 1])
              == Ok(RoomReports(houseName, rooms[..i]).value + RoomReport(rooms[i]).value)
  {
    assert rooms[..i + 1][..i] == rooms[..i];
    if RoomReport(rooms[i]).Err? {
      FailureIsFinal(houseName, rooms, i + 1);
    }
  }

  /** Once a prefix of the rooms has failed, the rooms after it change nothing. */
  lemma {:induction false} FailureIsFinal(houseName: string, rooms: seq<Room>, n: nat)
    requires n <= |rooms| && RoomReports(houseName, rooms[..n]).Err?
    ensures RoomReports(houseName, rooms) == RoomReports(houseName, rooms[..n])
  {
    if n < |rooms| {
      var init := rooms[..|rooms| - 1];
      assert init[..n] == rooms[..n];
      FailureIsFinal(houseName, init, n);
    } else {
      assert rooms[..n] == rooms;
    }
  }

  /** Every room of the sequence reports successfully. */
  predicate AllRoomsOk(rooms: seq<Room>)
  {
    forall i :: 0 <= i < |rooms| ==> RoomReport(rooms[i]).Ok?
  }

  /** Reference definition of a successful report body: the room reports, concatenated in order. */
  function JoinedReports(rooms: seq<Room>): string
    requires AllRoomsOk(rooms)
  {
    if rooms == [] then "" else RoomReport(rooms[0]).value + JoinedReports(rooms[1..])
  }

  lemma {:induction false} JoinedReportsSnoc(rooms: seq<Room>)
    requires rooms != [] && AllRoomsOk(rooms)
    ensures JoinedReports(rooms)
         == JoinedReports(rooms[..|rooms| - 1]) + RoomReport(rooms[|rooms| - 1]).value
  {
    if |rooms| > 1 {
      var rest := rooms[1..];
      assert rest[..|rest| - 1] == rooms[..|rooms| - 1][1..];
      JoinedReportsSnoc(rest);
    }
  }

  lemma {:induction false} AllOkBody(houseName: string, rooms: seq<Room>)
    requires AllRoomsOk(rooms)
    ensures RoomReports(houseName, rooms) == Ok(JoinedReports(rooms))
  {
    if rooms != [] {
      AllOkBody(houseName, rooms[..|rooms| - 1]);
      JoinedReportsSnoc(rooms);
    }
  }

  lemma {:induction false} FirstFailureBody(houseName: string, rooms: seq<Room>, k: nat)
    requires k < |rooms| && RoomReport(rooms[k]).Err?
    requires forall j :: 0 <= j < k ==> RoomReport(rooms[j]).Ok?
    ensures RoomReports(houseName, rooms) == Err(RoomFailure(houseName, RoomReport(rooms[k]).error))
  {
    if k == |rooms| - 1 {
      AllOkBody(houseName, rooms[..k]);
    } else {
      var init := rooms[..|rooms| - 1];
      assert init[k] == rooms[k];
      FirstFailureBody(houseName, init, k);
    }
  }

  /** When every room reports, the house report is the header followed by
      the room reports, concatenated in room order. */
  lemma AllOkReport(house: SmartHouse)
    requires AllRoomsOk(house.rooms)
    ensures HouseReport(house) == Ok(Header(house.name) + JoinedReports(house.rooms))
  {
    AllOkBody(house.name, house.rooms);
  }

  /** If room `k` is the first whose report fails with `e`, the house reports
      `e` wrapped with the house name. */
  lemma FirstFailureReport(house: SmartHouse, k: nat)
    requires k < |house.rooms| && RoomReport(house.rooms[k]).Err?
    requires forall j :: 0 <= j < k ==> RoomReport(house.rooms[j]).Ok?
    ensures HouseReport(house) == Err(RoomFailure(house.name, RoomReport(house.rooms[k]).error))
  {
    FirstFailureBody(house.name, house.rooms, k);
  }

  /** A successful body means every room reported successfully. */
  lemma {:induction false} OkBodyAllOk(houseName: string, rooms: seq<Room>)
    requires RoomReports(houseName, rooms).Ok?
    ensures AllRoomsOk(rooms)
  {
    if rooms != [] {
      var init := rooms[..|rooms| - 1];
      OkBodyAllOk(houseName, init);
      forall i | 0 <= i < |rooms| - 1 ensures RoomReport(rooms[i]).Ok? {
        assert rooms[i] == init[i];
      }
    }
  }

  /** A house report succeeds exactly when every room report succeeds. */
  lemma ReportOkIffAllOk(house: SmartHouse)
    ensures HouseReport(house).Ok? <==> AllRoomsOk(house.rooms)
  {
    if AllRoomsOk(house.rooms) {
      AllOkReport(house);
    } else if HouseReport(house).Ok? {
      OkBodyAllOk(house.name, house.rooms);
    }
  }

  /** Rooms after the first failing one are never asked for a report:
      replacing them leaves the house report unchanged. */
  lemma LaterRoomsNotConsulted(house: SmartHouse, k: nat, replacement: seq<Room>)
    requires k < |house.rooms| && RoomReport(house.rooms[k]).Err?
    requires forall j :: 0 <= j < k ==> RoomReport(house.rooms[j]).Ok?
    ensures HouseReport(SmartHouse(house.name, house.rooms[..k + 1] + replacement)) == HouseReport(house)
  {
    var other := house.rooms[..k + 1] + replacement;
    assert other[k] == house.rooms[k];
    assert forall j :: 0 <= j < k ==> other[j] == house.rooms[j];
    FirstFailureReport(house, k);
    FirstFailureReport(SmartHouse(house.name, other), k);
  }

  /** Failure propagation through both levels: when device `d` is the first
      to fail in room `k`, itself the first failing room, the house error
      names the house, the room and the device and carries the device's own
      error text. */
  lemma DeviceFailurePropagates(house: SmartHouse, k: nat, d: nat)
    requires k < |house.rooms| && d < |house.rooms[k].devices|
    requires forall j :: 0 <= j < k ==> RoomReport(house.rooms[j]).Ok?
    requires Report(house.rooms[k].devices[d]).Err?
    requires forall j :: 0 <= j < d ==> Report(house.rooms[k].devices[j]).Ok?
    ensures HouseReport(house).Err?
    ensures var room := house.rooms[k];
            var device := room.devices[d];
            var msg := HouseReport(house).error;
            && msg == RoomFailure(house.name,
                                  DeviceFailure(device.name, room.name, Report(device).error))
            && Embeds(msg, house.name) && Embeds(msg, room.name)
            && Embeds(msg, device.name) && Embeds(msg, Report(device).error)
  {
    var room := house.rooms[k];
    var device := room.devices[d];
    Rooms.FirstFailureReport(room, d);
    FirstFailureReport(house, k);
    var inner := DeviceFailure(device.name, room.name, Report(device).error);
    var msg := RoomFailure(house.name, inner);
    EmbedsTransitive(msg, inner, room.name);
    EmbedsTransitive(msg, inner, device.name);
    EmbedsTransitive(msg, inner, Report(device).error);
  }

  /** A house whose rooms hold only library devices always reports. */
  lemma StandardHouseReportsOk(house: SmartHouse)
    requires forall k, i :: 0 <= k < |house.rooms| && 0 <= i < |house.rooms[k].devices|
               ==> IsStandard(house.rooms[k].devices[i])
    ensures HouseReport(house).Ok?
  {
    forall k | 0 <= k < |house.rooms| ensures RoomReport(house.rooms[k]).Ok? {
      StandardRoomReportsOk(house.rooms[k]);
    }
    AllOkReport(house);
  }
}

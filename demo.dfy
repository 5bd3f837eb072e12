/** The scenario the demo program of src/main.rs builds and reports on twice. */
module Demo {
  import opened Wrappers
  import opened Devices
  import opened Rooms
  import opened House

  const TvSocket: Device := Socket("розетка для телевизора")
  const AquariumSocket: Device := Socket("розетка для аквариума")
  const AquariumThermometer: Device := Thermometer("термометр для аквариума")
  const StillThermometer: Device := Thermometer("термометр для самогонного аппарата")

  const Hall: Room := Room(Owning, "Зал", [TvSocket])
  const Kitchen: Room := Room(Borrowing, "Кухня", [AquariumSocket, AquariumThermometer])
  const Storage: Room := Room(Borrowing, "Кладовка", [StillThermometer])

  const Home: SmartHouse := SmartHouse("Дом, милый дом", [Hall, Kitchen, Storage])

  /** Every name is distinct at its level, so none of the `unwrap` calls panics. */
  lemma ConstructionsSucceed()
    ensures NewRoom(Owning, "Зал", [TvSocket]) == Ok(Hall)
    ensures NewRoom(Borrowing, "Кухня", [AquariumSocket, AquariumThermometer]) == Ok(Kitchen)
    ensures NewRoom(Borrowing, "Кладовка", [StillThermometer]) == Ok(Storage)
    ensures NewHouse("Дом, милый дом", [Hall, Kitchen, Storage]) == Ok(Home)
  {
  }

  /** The expected report: the house header, then each room header in the
      order Зал, Кухня, Кладовка, each followed by one line per device. */
  function ExpectedReport(): string
  {
    House.Header("Дом, милый дом") + HallText() + KitchenText() + StorageText()
  }

  function HallText(): string
  {
    Rooms.Header("Зал") + DeviceLine(SocketText("розетка для телевизора"))
  }

  function KitchenText(): string
  {
    Rooms.Header("Кухня")
    + DeviceLine(SocketText("розетка для аквариума"))
    + DeviceLine(ThermometerText("термометр для аквариума"))
  }

  function StorageText(): string
  {
    Rooms.Header("Кладовка") + DeviceLine(ThermometerText("термометр для самогонного аппарата"))
  }

  lemma HallReport()
    ensures RoomReport(Hall) == Ok(HallText())
  {
    Rooms.AllOkReport(Hall);
    var tv := DeviceLine(SocketText("розетка для телевизора"));
    assert Hall.devices[1..] == [];
    assert JoinedLines(Hall.devices) == tv + "" == tv;
  }

  lemma KitchenReport()
    ensures RoomReport(Kitchen) == Ok(KitchenText())
  {
    Rooms.AllOkReport(Kitchen);
    var aquarium := DeviceLine(SocketText("розетка для аквариума"));
    var water := DeviceLine(ThermometerText("термометр для аквариума"));
    assert Kitchen.devices[1..][1..] == [];
    assert JoinedLines(Kitchen.devices[1..]) == water + "" == water;
    assert JoinedLines(Kitchen.devices) == aquarium + water;
    assert Rooms.Header("Кухня") + (aquarium + water) == KitchenText();
  }

  lemma StorageReport()
    ensures RoomReport(Storage) == Ok(StorageText())
  {
    Rooms.AllOkReport(Storage);
    var still := DeviceLine(ThermometerText("термометр для самогонного аппарата"));
    assert Storage.devices[1..] == [];
    assert JoinedLines(Storage.devices) == still + "" == still;
  }

  /** The body of a house of three reporting rooms is their three reports in order. */
  lemma ThreeRoomsBody(a: Room, b: Room, c: Room)
    requires RoomReport(a).Ok? && RoomReport(b).Ok? && RoomReport(c).Ok?
    ensures AllRoomsOk([a, b, c])
    ensures JoinedReports([a, b, c])
         == RoomReport(a).value + (RoomReport(b).value + RoomReport(c).value)
  {
    var rooms := [a, b, c];
    assert rooms[1..] == [b, c] && rooms[1..][1..] == [c] && rooms[1..][1..][1..] == [];
    assert JoinedReports([c]) == RoomReport(c).value + "" == RoomReport(c).value;
  }

  /** The demo report, as the house header followed by the three room reports. */
  lemma ReportText()
    ensures HouseReport(Home) == Ok(ExpectedReport())
  {
    HallReport();
    KitchenReport();
    StorageReport();
    ThreeRoomsBody(Hall, Kitchen, Storage);
    House.AllOkReport(Home);
    assert House.Header(Home.name) + (HallText() + (KitchenText() + StorageText())) == ExpectedReport();
  }

  /** The two reports the demo prints are identical, and both are the expected text. */
  method ReportTwice() returns (first: Result<string, string>, second: Result<string, string>)
    ensures first == second == Ok(ExpectedReport())
  {
    ReportText();
    first := House.CreateReport(Home);
    second := House.CreateReport(Home);
  }
}

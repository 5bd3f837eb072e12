/** Devices (src/devices/standard.rs): named leaves that render a one-line report. */
module Devices {
  import opened Wrappers
  import opened Text

  /** A device behind `&dyn IDevice`: the two kinds the library ships, and any
      user-defined kind, whose report is whatever its implementation returns. */
  datatype Device =
    | Socket(name: string)
    | Thermometer(name: string)
    | Custom(name: string, outcome: Result<string, string>)

  /** The kinds the library ships; their reports never fail. */
  predicate IsStandard(d: Device)
  {
    d.Socket? || d.Thermometer?
  }

  /** `SmartSocket::new`: stores the name as given, without validation. */
  function NewSocket(name: string): (d: Device)
    ensures d.Socket? && d.name == name
    ensures Report(d) == Ok(SocketText(name))
  {
    Socket(name)
  }

  /** `SmartThermometer::new`. */
  function NewThermometer(name: string): (d: Device)
    ensures d.Thermometer? && d.name == name
    ensures Report(d) == Ok(ThermometerText(name))
  {
    Thermometer(name)
  }

  const SocketPrefix: string := "Это умная розетка '"
  const ThermometerPrefix: string := "Это умный термометр '"
  const WorksNormally: string := "'. Роботает штатно."

  /** The fixed report template of a socket. */
  function SocketText(name: string): string
  {
    SocketPrefix + name + WorksNormally
  }

  /** The fixed report template of a thermometer. */
  function ThermometerText(name: string): string
  {
    ThermometerPrefix + name + WorksNormally
  }

  /** `create_report` of a device. */
  function Report(d: Device): (r: Result<string, string>)
    ensures IsStandard(d) ==> r.Ok? && Embeds(r.value, d.name)
    ensures d.Custom? ==> r == d.outcome
  {
    match d
    case Socket(n) =>
      EmbedsMiddle(SocketPrefix, n, WorksNormally);
      Ok(SocketText(n))
    case Thermometer(n) =>
      EmbedsMiddle(ThermometerPrefix, n, WorksNormally);
      Ok(ThermometerText(n))
    case Custom(_, outcome) => outcome
  }

  /** Whatever the names, a socket's report is never a thermometer's: the
      templates already differ at their eighth character. */
  lemma SocketAndThermometerDiffer(socketName: string, thermometerName: string)
    ensures Report(Socket(socketName)) != Report(Thermometer(thermometerName))
  {
    assert SocketText(socketName)[7] != ThermometerText(thermometerName)[7];
  }

  lemma TemplateInjective(prefix: string, a: string, b: string)
    requires prefix + a + WorksNormally == prefix + b + WorksNormally
    ensures a == b
  {
    var t := prefix + a + WorksNormally;
    assert |a| == |b|;
    assert a == t[|prefix|..|prefix| + |a|];
    assert b == (prefix + b + WorksNormally)[|prefix|..|prefix| + |b|];
  }

  /** A standard device's report depends on its kind and name only, and
      conversely determines both: equal reports come from equal devices. */
  lemma StandardReportDeterminesDevice(d1: Device, d2: Device)
    requires IsStandard(d1) && IsStandard(d2)
    ensures Report(d1) == Report(d2) <==> d1 == d2
  {
    if Report(d1) == Report(d2) {
      match d1
      case Socket(n1) =>
        if d2.Thermometer? {
          SocketAndThermometerDiffer(n1, d2.name);
        } else {
          TemplateInjective(SocketPrefix, n1, d2.name);
        }
      case Thermometer(n1) =>
        if d2.Socket? {
          SocketAndThermometerDiffer(d2.name, n1);
        } else {
          TemplateInjective(ThermometerPrefix, n1, d2.name);
        }
    }
  }
}

// The controller-side vocabulary of Joystick.c: the abstract control symbols
// a script step names (Buttons_t), a script step (command), and the HID input
// report that GetNextReport fills in for the host.

module Controller {

  newtype uint8 = x: int | 0 <= x < 0x100
  newtype uint16 = x: int | 0 <= x < 0x1_0000

  /** One abstract input action of a script (Buttons_t). */
  datatype Button = Up | Down | Left | Right | X | Y | A | B | L | R | Plus | Nothing | Triggers

  /** One script step: the symbol and how long (in calls, minus one) it is held. */
  datatype Command = Command(button: Button, duration: uint16)

  /** The directional pad of the report. */
  datatype Hat =
    | HatTop | HatTopRight | HatRight | HatBottomRight
    | HatBottom | HatBottomLeft | HatLeft | HatTopLeft | HatCenter

  /** The button bits of the report that the scripts can press. */
  datatype Switch = SwitchA | SwitchB | SwitchL | SwitchR | SwitchPlus

  /** One input report: two analog sticks, the hat, and the set of pressed
      button bits (the bitmask `Button`, read as a set). */
  datatype Report = Report(lx: uint8, ly: uint8, rx: uint8, ry: uint8, hat: Hat, buttons: set<Switch>)

  /** Rest position of an analog axis. */
  const StickCenter: uint8 := 128

  /** The report as GetNextReport prepares it before looking at the script:
      zeroed, then every axis centred and the hat centred. */
  function NeutralReport(): (r: Report)
    ensures r.hat == HatCenter && r.buttons == {}
    ensures r.lx == r.ly == r.rx == r.ry == StickCenter
  {
    Report(StickCenter, StickCenter, StickCenter, StickCenter, HatCenter, {})
  }

  /** Re-asserts the neutral axes and hat, as the NOTHING branches do. */
  function Recentre(r: Report): (c: Report)
    ensures c.buttons == r.buttons
    ensures c.hat == HatCenter && c.lx == c.ly == c.rx == c.ry == StickCenter
  {
    r.(lx := StickCenter, ly := StickCenter, rx := StickCenter, ry := StickCenter, hat := HatCenter)
  }
}

/**
 * The battery applet's state and its message handler, as values: `State`
 * holds the fields of `CosmicBatteryApplet` that the handler reads and
 * writes, and `Step` is what `update` does with one message. The class in
 * module `Applet` is proved to follow these definitions.
 */
module AppletSpec {
  import opened Options
  import opened Presentation

  newtype I32 = x: int | -0x8000_0000 <= x < 0x8000_0000
  newtype I64 = x: int | -0x8000_0000_0000_0000 <= x < 0x8000_0000_0000_0000

  const TwoTo64: nat := 0x1_0000_0000_0000_0000

  /** `t as u64`: the one unsigned 64-bit number congruent to `t`. */
  function AsU64(t: I64): (r: nat)
    ensures r < TwoTo64 && r % TwoTo64 == (t as int) % TwoTo64
    ensures t >= 0 ==> r == t as int
  {
    if t < 0 then TwoTo64 + t as int else t as int
  }

  /** The power profiles of the power daemon. */
  datatype Power = Battery | Balanced | Performance

  /** A stand-in for one `UnboundedSender`: a handle that tells channels apart. */
  datatype Channel = Channel(handle: nat)

  /** The requests the applet sends to the keyboard backlight, the screen
      backlight and the power daemon. */
  datatype Request =
    | KbdSet(kbdLevel: real) | KbdGet
    | ScreenSet(screenLevel: real) | ScreenGet
    | ProfileSet(profile: Power) | ProfileGet

  /** One request put on one channel. */
  datatype Sent = Sent(channel: Channel, request: Request)

  /** The messages `update` handles. Animation data (the `Instant` of `Frame`,
      the toggler chain of `SetChargingLimit`) is not modelled. */
  datatype Message =
    | TogglePopup
    | Update(onBattery: bool, percent: real, timeToEmpty: I64)
    | SetKbdBrightness(kbdPercent: I32)
    | SetScreenBrightness(screenPercent: I32)
    | SetChargingLimit(enable: bool)
    | UpdateKbdBrightness(kbd: real)
    | UpdateScreenBrightness(screen: real)
    | OpenBatterySettings
    | InitKbdBacklight(kbdTx: Channel, kbdInit: real)
    | InitScreenBacklight(screenTx: Channel, screenInit: real)
    | Errored(error: string)
    | InitProfile(profileTx: Channel, initProfile: Power)
    | Profile(newProfile: Power)
    | SelectProfile(selected: Power)
    | Frame

  /** The popup window asked for: its parent, its id and its size limits. */
  datatype PopupSettings = PopupSettings(
    parent: nat, id: nat,
    minWidth: real, maxWidth: real, minHeight: real, maxHeight: real)

  /** The command `update` hands back to the runtime. */
  datatype Command = NoCommand | DestroyPopup(closed: nat) | GetPopup(settings: PopupSettings)

  /** The fields of `CosmicBatteryApplet` that `update` reads and writes;
      `sent` lists every request put on a channel, oldest first. */
  datatype State = State(
    iconName: string,
    displayIconName: string,
    chargingLimit: bool,
    batteryPercent: real,
    onBattery: bool,
    timeRemaining: nat,
    kbdBrightness: real,
    screenBrightness: real,
    popup: Option<nat>,
    idCtr: nat,
    screenSender: Option<Channel>,
    kbdSender: Option<Channel>,
    powerProfile: Power,
    powerProfileSender: Option<Channel>,
    sent: seq<Sent>)

  const InitialIconName := "battery-symbolic"
  const InitialDisplayIconName := "display-brightness-symbolic"

  /** `init`: the two placeholder icon names and every other field at its
      default; the default power profile is a parameter. */
  function Init(profile: Power): (r: State)
    ensures Consistent(r) && r.popup == None && r.idCtr == 0 && r.sent == []
    ensures r.powerProfile == profile && r.kbdSender == r.screenSender == r.powerProfileSender == None
  {
    State(InitialIconName, InitialDisplayIconName, false, 0.0, false, 0, 0.0, 0.0,
          None, 0, None, None, profile, None, [])
  }

  /** What holds of every state the applet reaches: the battery part, the
      display part and the popup part below. */
  predicate Consistent(s: State) {
    BatteryConsistent(s) && DisplayConsistent(s) && PopupConsistent(s)
  }

  /** The percentage lies in [0, 100] and the battery icon shows it, or
      nothing has been reported yet. */
  predicate BatteryConsistent(s: State) {
    && 0.0 <= s.batteryPercent <= 100.0
    && (|| (s.iconName == InitialIconName && s.batteryPercent == 0.0 && !s.onBattery && !s.chargingLimit)
        || s.iconName == BatteryIconName(BatteryBucket(s.batteryPercent, s.chargingLimit), s.chargingLimit, !s.onBattery))
  }

  /** The screen brightness lies in [0.01, 1] and the display icon shows it,
      or nothing has been reported yet. */
  predicate DisplayConsistent(s: State) {
    || (s.displayIconName == InitialDisplayIconName && s.screenBrightness == 0.0)
    || (0.01 <= s.screenBrightness <= 1.0 && s.displayIconName == DisplayIconName(DisplayLevel(s.screenBrightness)))
  }

  /** An open popup carries the last id handed out. */
  predicate PopupConsistent(s: State) {
    s.popup.Some? ==> s.popup.value == s.idCtr && s.idCtr >= 1
  }

  /** `update_battery`: always leaves the battery part consistent, with the
      given on-battery flag and, when it lies in [0, 100], the given percentage. */
  function WithBattery(s: State, percent: real, onBattery: bool): (t: State)
    ensures BatteryConsistent(t) && t.onBattery == onBattery && t.chargingLimit == s.chargingLimit
    ensures 0.0 <= percent <= 100.0 ==> t.batteryPercent == percent
  {
    var p := Clamp(percent, 0.0, 100.0);
    s.(onBattery := onBattery, batteryPercent := p,
       iconName := BatteryIconName(BatteryBucket(p, s.chargingLimit), s.chargingLimit, !onBattery))
  }

  /** `update_display`: always leaves the display part consistent, with a
      brightness in [0.01, 1] that is the given one when that lies in range. */
  function WithDisplay(s: State, brightness: real): (t: State)
    ensures DisplayConsistent(t) && 0.01 <= t.screenBrightness <= 1.0
    ensures 0.01 <= brightness <= 1.0 ==> t.screenBrightness == brightness
  {
    var b := Clamp(brightness, 0.01, 1.0);
    s.(screenBrightness := b, displayIconName := DisplayIconName(DisplayLevel(b)))
  }

  /** `set_charging_limit`: sets the flag and leaves the battery part
      consistent, keeping the on-battery flag and an in-range percentage. */
  function WithChargingLimit(s: State, limit: bool): (t: State)
    ensures t.chargingLimit == limit && BatteryConsistent(t) && t.onBattery == s.onBattery
    ensures 0.0 <= s.batteryPercent <= 100.0 ==> t.batteryPercent == s.batteryPercent
  {
    WithBattery(s.(chargingLimit := limit), s.batteryPercent, s.onBattery)
  }

  /** A send on an optional sender: nothing is sent when the sender is absent,
      and the result of a send is ignored. */
  function SendOn(sent: seq<Sent>, sender: Option<Channel>, request: Request): seq<Sent> {
    if sender.Some? then sent + [Sent(sender.value, request)] else sent
  }

  /** The popup settings `TogglePopup` asks for: parent window 0 and the size limits. */
  function NewPopup(id: nat): PopupSettings {
    PopupSettings(0, id, 300.0, 372.0, 200.0, 1080.0)
  }

  /** The result of handling one message: the new state and the command returned. */
  datatype Handled = Handled(next: State, command: Command)

  /** `update`: the new state and the command for one message. Requests are
      only ever added to the log, and only `TogglePopup` touches the popup and
      the id counter or returns a command. */
  function Step(s: State, m: Message): (r: Handled)
    ensures s.sent <= r.next.sent
    ensures !m.TogglePopup? ==> r.command == NoCommand && r.next.popup == s.popup && r.next.idCtr == s.idCtr
  {
    match m
    case Frame => Handled(s, NoCommand)
    case SetKbdBrightness(n) =>
      var b := Clamp(n as real / 100.0, 0.0, 1.0);
      Handled(s.(kbdBrightness := b, sent := SendOn(s.sent, s.kbdSender, KbdSet(b))), NoCommand)
    case SetScreenBrightness(n) =>
      var t := WithDisplay(s, Clamp(n as real / 100.0, 0.01, 1.0));
      Handled(t.(sent := SendOn(t.sent, t.screenSender, ScreenSet(t.screenBrightness))), NoCommand)
    case SetChargingLimit(enable) => Handled(WithChargingLimit(s, enable), NoCommand)
    case OpenBatterySettings => Handled(s, NoCommand)
    case Errored(_) => Handled(s, NoCommand)
    case TogglePopup =>
      if s.popup.Some? then
        Handled(s.(popup := None), DestroyPopup(s.popup.value))
      else
        var gets := SendOn(SendOn(s.sent, s.kbdSender, KbdGet), s.screenSender, ScreenGet);
        var id := s.idCtr + 1;
        Handled(s.(idCtr := id, popup := Some(id), sent := SendOn(gets, s.powerProfileSender, ProfileGet)),
                GetPopup(NewPopup(id)))
    case Update(onBattery, percent, timeToEmpty) =>
      Handled(WithBattery(s, percent, onBattery).(timeRemaining := AsU64(timeToEmpty)), NoCommand)
    case UpdateKbdBrightness(b) => Handled(s.(kbdBrightness := b), NoCommand)
    case InitKbdBacklight(tx, b) =>
      Handled(s.(sent := s.sent + [Sent(tx, KbdGet)], kbdSender := Some(tx), kbdBrightness := b), NoCommand)
    case InitScreenBacklight(tx, b) =>
      Handled(WithDisplay(s.(sent := s.sent + [Sent(tx, ScreenGet)], screenSender := Some(tx)), b), NoCommand)
    case UpdateScreenBrightness(b) => Handled(WithDisplay(s, b), NoCommand)
    case InitProfile(tx, p) => Handled(s.(powerProfileSender := Some(tx), powerProfile := p), NoCommand)
    case Profile(p) =>
      Handled(s.(powerProfile := p, sent := SendOn(SendOn(s.sent, s.kbdSender, KbdGet), s.screenSender, ScreenGet)),
              NoCommand)
    case SelectProfile(p) =>
      Handled(s.(sent := SendOn(s.sent, s.powerProfileSender, ProfileSet(p))), NoCommand)
  }

  /** The state after handling `ms` in order. */
  function Run(s: State, ms: seq<Message>): State
    decreases |ms|
  {
    if ms == [] then s else Run(Step(s, ms[0]).next, ms[1..])
  }

  /** The ids of the popups opened while handling `ms` in order. */
  function OpenedIds(s: State, ms: seq<Message>): seq<nat>
    decreases |ms|
  {
    if ms == [] then []
    else
      var h := Step(s, ms[0]);
      (if h.command.GetPopup? then [h.command.settings.id] else []) + OpenedIds(h.next, ms[1..])
  }
}

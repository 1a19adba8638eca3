/**
 * `CosmicBatteryApplet`: the applet's state object, whose handler updates its
 * fields in place. Each method is proved to do what the matching function of
 * `AppletSpec` says, so the laws proved there hold of the object.
 */
module Applet {
  import opened Options
  import opened Presentation
  import opened AppletSpec
  import AppletLaws

  class CosmicBatteryApplet {
    var iconName: string
    var displayIconName: string
    var chargingLimit: bool
    var batteryPercent: real
    var onBattery: bool
    var timeRemaining: nat
    var kbdBrightness: real
    var screenBrightness: real
    var popup: Option<nat>
    var idCtr: nat
    var screenSender: Option<Channel>
    var kbdSender: Option<Channel>
    var powerProfile: Power
    var powerProfileSender: Option<Channel>
    /** Every request put on a channel so far, oldest first. */
    var sent: seq<Sent>

    /** The object's fields as a value. */
    function Snapshot(): State
      reads this
    {
      State(iconName, displayIconName, chargingLimit, batteryPercent, onBattery, timeRemaining,
            kbdBrightness, screenBrightness, popup, idCtr, screenSender, kbdSender,
            powerProfile, powerProfileSender, sent)
    }

    /** `init`, with the default power profile as a parameter. */
    constructor (profile: Power)
      ensures Snapshot() == Init(profile) && Consistent(Snapshot())
    {
      iconName := InitialIconName;
      displayIconName := InitialDisplayIconName;
      chargingLimit := false;
      batteryPercent := 0.0;
      onBattery := false;
      timeRemaining := 0;
      kbdBrightness := 0.0;
      screenBrightness := 0.0;
      popup := None;
      idCtr := 0;
      screenSender := None;
      kbdSender := None;
      powerProfile := profile;
      powerProfileSender := None;
      sent := [];
    }

    /** `update_battery`, a private method that only `update` and
        `set_charging_limit` call; whatever the state before, it leaves the
        battery part consistent. */
    method UpdateBattery(percent: real, onBattery: bool)
      modifies this
      ensures Snapshot() == WithBattery(old(Snapshot()), percent, onBattery)
      ensures BatteryConsistent(Snapshot())
    {
      var p := Clamp(percent, 0.0, 100.0);
      this.onBattery := onBattery;
      batteryPercent := p;
      var bucket := BatteryBucket(batteryPercent, chargingLimit);
      iconName := BatteryIconName(bucket, chargingLimit, !onBattery);
    }

    /** `update_display`, a private method that only `update` calls; whatever
        the state before, it leaves the display part consistent. */
    method UpdateDisplay(brightness: real)
      modifies this
      ensures Snapshot() == WithDisplay(old(Snapshot()), brightness)
      ensures DisplayConsistent(Snapshot())
    {
      screenBrightness := Clamp(brightness, 0.01, 1.0);
      displayIconName := DisplayIconName(DisplayLevel(screenBrightness));
    }

    /** `set_charging_limit`, a private method that only `update` calls;
        whatever the state before, it leaves the battery part consistent. */
    method SetChargingLimit(limit: bool)
      modifies this
      ensures Snapshot() == WithChargingLimit(old(Snapshot()), limit)
      ensures BatteryConsistent(Snapshot())
    {
      chargingLimit := limit;
      UpdateBattery(batteryPercent, onBattery);
    }

    /** `tx.send(request)` on an optional sender, its result ignored. */
    method Send(sender: Option<Channel>, request: Request)
      modifies this
      ensures Snapshot() == old(Snapshot()).(sent := SendOn(old(sent), sender, request))
    {
      if sender.Some? {
        sent := sent + [Sent(sender.value, request)];
      }
    }

    /** A helper of `Update`, not an entry point (the invariant is `Update`'s
        to keep). The `TogglePopup` arm of `update`: close the open popup, or ask the
        devices for their values and open a popup with the next id. */
    method TogglePopup() returns (command: Command)
      modifies this
      ensures Snapshot() == Step(old(Snapshot()), Message.TogglePopup).next
      ensures command == Step(old(Snapshot()), Message.TogglePopup).command
    {
      if popup.Some? {
        var p := popup.value;
        popup := None;
        command := DestroyPopup(p);
      } else {
        Send(kbdSender, KbdGet);
        Send(screenSender, ScreenGet);
        idCtr := idCtr + 1;
        var newId := idCtr;
        popup := Some(newId);
        Send(powerProfileSender, ProfileGet);
        command := GetPopup(NewPopup(newId));
      }
    }

    /** `update`: handles one message and returns the command for the runtime;
        a consistent applet stays consistent. */
    method Update(m: Message) returns (command: Command)
      requires Consistent(Snapshot())
      modifies this
      ensures Snapshot() == Step(old(Snapshot()), m).next
      ensures command == Step(old(Snapshot()), m).command
      ensures Consistent(Snapshot())
    {
      AppletLaws.StepConsistent(Snapshot(), m);
      command := Handle(m);
    }

    /** The arms of `update`'s match, one per message. This and the four
        methods below are helpers of `Update`, not entry points; `Update`
        proves that the invariant is kept. */
    method Handle(m: Message) returns (command: Command)
      modifies this
      ensures Snapshot() == Step(old(Snapshot()), m).next
      ensures command == Step(old(Snapshot()), m).command
    {
      command := NoCommand;
      match m {
        case Frame | OpenBatterySettings | Errored(_) =>
        case TogglePopup =>
          command := TogglePopup();
        case Update(_, _, _) | SetChargingLimit(_) =>
          HandleBattery(m);
        case SetKbdBrightness(_) | UpdateKbdBrightness(_) | InitKbdBacklight(_, _) =>
          HandleKbdBacklight(m);
        case SetScreenBrightness(_) | UpdateScreenBrightness(_) | InitScreenBacklight(_, _) =>
          HandleScreenBacklight(m);
        case InitProfile(_, _) | Profile(_) | SelectProfile(_) =>
          HandleProfile(m);
      }
    }

    /** The arms of `update` for battery reports and the charging limit. */
    method HandleBattery(m: Message)
      requires m.Update? || m.SetChargingLimit?
      modifies this
      ensures Snapshot() == Step(old(Snapshot()), m).next
    {
      match m {
        case Update(onBattery, percent, timeToEmpty) =>
          UpdateBattery(percent, onBattery);
          timeRemaining := AsU64(timeToEmpty);
        case SetChargingLimit(enable) =>
          SetChargingLimit(enable);
      }
    }

    /** The arms of `update` for the keyboard backlight. */
    method HandleKbdBacklight(m: Message)
      requires m.SetKbdBrightness? || m.UpdateKbdBrightness? || m.InitKbdBacklight?
      modifies this
      ensures Snapshot() == Step(old(Snapshot()), m).next
    {
      match m {
        case SetKbdBrightness(n) =>
          kbdBrightness := Clamp(n as real / 100.0, 0.0, 1.0);
          Send(kbdSender, KbdSet(kbdBrightness));
        case UpdateKbdBrightness(b) =>
          kbdBrightness := b;
        case InitKbdBacklight(tx, b) =>
          Send(Some(tx), KbdGet);
          kbdSender := Some(tx);
          kbdBrightness := b;
      }
    }

    /** The arms of `update` for the screen backlight. */
    method HandleScreenBacklight(m: Message)
      requires m.SetScreenBrightness? || m.UpdateScreenBrightness? || m.InitScreenBacklight?
      modifies this
      ensures Snapshot() == Step(old(Snapshot()), m).next
    {
      match m {
        case SetScreenBrightness(n) =>
          UpdateDisplay(Clamp(n as real / 100.0, 0.01, 1.0));
          Send(screenSender, ScreenSet(screenBrightness));
        case UpdateScreenBrightness(b) =>
          UpdateDisplay(b);
        case InitScreenBacklight(tx, b) =>
          Send(Some(tx), ScreenGet);
          screenSender := Some(tx);
          UpdateDisplay(b);
      }
    }

    /** The arms of `update` for the power profile. */
    method HandleProfile(m: Message)
      requires m.InitProfile? || m.Profile? || m.SelectProfile?
      modifies this
      ensures Snapshot() == Step(old(Snapshot()), m).next
    {
      match m {
        case InitProfile(tx, p) =>
          powerProfileSender := Some(tx);
          powerProfile := p;
        case Profile(p) =>
          powerProfile := p;
          Send(kbdSender, KbdGet);
          Send(screenSender, ScreenGet);
        case SelectProfile(p) =>
          Send(powerProfileSender, ProfileSet(p));
      }
    }
  }
}

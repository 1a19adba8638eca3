# Battery applet state, modelled in Dafny

This project models the state object of the COSMIC battery applet
(`CosmicBatteryApplet` in `cosmic-applet-battery/src/app.rs`) and proves
properties of it. The object turns battery, backlight and power-profile
reports into icon names and stored values. It opens and closes its popup and
sends requests back to the devices over channels. The model covers:

- `format_duration`: the remaining time as seconds, as minutes, or as `H:MM`
  (module `DurationFormat`, with the decimal text of numbers in `Decimal`).
- The presentation mappers inside `update_battery` and `update_display`. The
  battery percentage is clamped and placed on the descending threshold
  ladder. The screen brightness is clamped and read as off, low, medium or
  high. Both give icon names (module `Presentation`).
- The fields that `update` reads and writes, as a value `State`, and what
  `update` does with one message, as the function `Step` (module
  `AppletSpec`). The laws proved about them are in module `AppletLaws`.
- The object itself, as the class `CosmicBatteryApplet`, whose methods update
  its fields in place (module `Applet`). Each method is proved to do what the
  matching function of `AppletSpec` says. So the laws hold of the object too.

Every channel send appends a `Sent(channel, request)` to the field `sent`.
Channels are opaque handles. The result of a send is ignored, as in the
source. The localised unit words of `format_duration` are parameters.

Two behaviours of the code are easy to misread, and the model keeps both:

- `format_duration` switches to `H:MM` only above 60 minutes, so 3600 s
  prints as `60` and the minutes word. The unit word follows the number with
  no space.
- The charging limit skips both top rungs of the ladder, so under the limit
  the level is at most 80.

## Model

| member | source | states |
|---|---|---|
| Decimal.Show | cosmic-applet-battery/src/app.rs:38-43 | the text of a number is one or more digits, with no leading zero unless the number is 0 |
| Decimal.ValueOfShow | cosmic-applet-battery/src/app.rs:38-43 | reading the text of n back gives n |
| Decimal.ShowInjective | cosmic-applet-battery/src/app.rs:38-43 | different numbers have different texts |
| Decimal.ShowLength | cosmic-applet-battery/src/app.rs:38 | the text has one character exactly below 10 and two exactly from 10 to 99 |
| Decimal.ShowPadded | cosmic-applet-battery/src/app.rs:38 | `{:02}` gives digits only, with length max(width, digits of n) |
| Decimal.ValueOfShowPadded | cosmic-applet-battery/src/app.rs:38 | reading the zero-padded text back gives the number |
| DurationFormat.FormatDuration | cosmic-applet-battery/src/app.rs:33-45 | the text starts with a digit; it ends with the seconds word up to 60 s and with the minutes word from 61 s to 3659 s |
| DurationFormat.FormatSecondsReadsBack | cosmic-applet-battery/src/app.rs:33-45 | up to 60 s (60 included) the text is the number of seconds, without a leading zero and reading back as secs, then the seconds word |
| DurationFormat.FormatMinutesReadsBack | cosmic-applet-battery/src/app.rs:33-45 | from 61 s to 3659 s the text is the number of whole minutes (1 to 60), without a leading zero, then the minutes word |
| DurationFormat.FormatClockReadsBack | cosmic-applet-battery/src/app.rs:33-45 | from 3660 s the text is `H:MM` with H at least 1 and without a leading zero, MM two digits below 60, and H*60+MM the whole minutes |
| DurationFormat.FormatDurationExamples | cosmic-applet-battery/src/app.rs:33-45 | 30 s, 60 s, 90 s, 3600 s and 3661 s give `30`+s, `60`+s, `1`+min, `60`+min and `1:01` |
| Presentation.Clamp | cosmic-applet-battery/src/app.rs:75 | `f64::clamp`: the result lies in [lo, hi], equals x inside, lo below and hi above |
| Presentation.ClampIdempotent | cosmic-applet-battery/src/app.rs:121-124 | clamping an already clamped value changes nothing |
| Presentation.BatteryBucket | cosmic-applet-battery/src/app.rs:78-96 | the level is one of 0,5,10,20,35,50,80,90,100; at most 80 under the limit; 100 above 95 % and 90 in (80, 95] without it; 0 exactly at or below 5 % |
| Presentation.BucketAtLeast | cosmic-applet-battery/src/app.rs:78-96 | the level is at least b exactly when the percentage exceeds b's threshold and, for 90 and 100, the limit is off |
| Presentation.BucketMonotone | cosmic-applet-battery/src/app.rs:78-96 | for a fixed limit the level never decreases as the percentage grows |
| Presentation.BucketLimitLowers | cosmic-applet-battery/src/app.rs:78-83 | the limit never raises the level, and changes it exactly above 80 % |
| Presentation.BatteryIconName | cosmic-applet-battery/src/app.rs:97-100 | the battery icon name starts with the applet's fixed icon prefix (what it encodes: ParseBatteryIconName) |
| Presentation.ParseBatteryIconName | cosmic-applet-battery/src/app.rs:97-100 | the battery icon name reads back as its level, its limited flag and its charging flag, through a reader that accepts the level only as plain decimal with no leading zero |
| Presentation.BatteryIconNameInjective | cosmic-applet-battery/src/app.rs:97-100 | two different level/flag triples never share an icon name |
| Presentation.BatteryIconNameLimited | cosmic-applet-battery/src/app.rs:97-100 | the name contains `limited-` iff the limit is on |
| Presentation.BatteryIconNameCharging | cosmic-applet-battery/src/app.rs:97-100 | the name contains `charging-` iff the machine is not on battery |
| Presentation.DisplayLevel | cosmic-applet-battery/src/app.rs:106-115 | off below 0.011, low in [0.011, 0.333), medium in [0.333, 0.666), high from 0.666, each in both directions |
| Presentation.DisplayLevelMonotone | cosmic-applet-battery/src/app.rs:106-115 | a brighter screen never shows a lower level |
| Presentation.DisplayIconName | cosmic-applet-battery/src/app.rs:117-118 | the display icon name is the level word between the fixed prefix and the fixed suffix (what it encodes: ParseDisplayIconName) |
| Presentation.ParseDisplayIconName | cosmic-applet-battery/src/app.rs:117-118 | the display icon name reads back as its level |
| Presentation.MapperExamples | cosmic-applet-battery/src/app.rs:74-119 | 0 and 0.005 show off, 0.2 low, 0.5 medium, 0.9 high; 150 % counts as 100 and -10 % as 0 |
| AppletSpec.AsU64 | cosmic-applet-battery/src/app.rs:240 | `as u64` gives the one number below 2^64 congruent to t, and t itself when t is not negative |
| AppletSpec.Init | cosmic-applet-battery/src/app.rs:156-166 | `init` gives a consistent state with no popup, counter 0, no channels, an empty request log and the given profile |
| AppletSpec.WithBattery | cosmic-applet-battery/src/app.rs:74-101 | `update_battery` leaves the battery part consistent from any state, with the given flag and an in-range percentage kept as given |
| AppletSpec.WithDisplay | cosmic-applet-battery/src/app.rs:103-119 | `update_display` leaves the display part consistent from any state, with the brightness in [0.01, 1] and an in-range brightness kept as given |
| AppletSpec.WithChargingLimit | cosmic-applet-battery/src/app.rs:121-124 | `set_charging_limit` sets the flag and leaves the battery part consistent, keeping the on-battery flag and an in-range percentage |
| AppletSpec.Step | cosmic-applet-battery/src/app.rs:176-278 | `update` only appends to the request log, and only `TogglePopup` touches the popup and the counter or returns a command |
| AppletLaws.StepConsistent | cosmic-applet-battery/src/app.rs:176-278 | every message keeps the invariant: percentage and brightness in range, icons showing them, an open popup holding the last id |
| AppletLaws.StepKeepsBattery | cosmic-applet-battery/src/app.rs:176-278 | every message keeps the percentage in range and the battery icon showing it |
| AppletLaws.StepKeepsDisplay | cosmic-applet-battery/src/app.rs:176-278 | every message keeps the screen brightness in range and the display icon showing it |
| AppletLaws.StepKeepsPopup | cosmic-applet-battery/src/app.rs:201-233 | every message keeps an open popup holding the last id handed out |
| AppletLaws.RunConsistent | cosmic-applet-battery/src/app.rs:176-278 | any run of messages from a consistent state ends consistent |
| AppletLaws.UpdateBatteryStores | cosmic-applet-battery/src/app.rs:74-101 | `update_battery` stores the clamped percentage and the flag, names an icon that reads back as their level and flags, and changes nothing else |
| AppletLaws.UpdateDisplayStores | cosmic-applet-battery/src/app.rs:103-119 | `update_display` stores the brightness clamped into [0.01, 1] (0.01 below, 1 above), names an icon reading back as its level (off below, high above), and changes nothing else |
| AppletLaws.ChargingLimitRecomputes | cosmic-applet-battery/src/app.rs:121-124 | `set_charging_limit` sets the flag and recomputes the icon, and keeps percentage and on-battery flag as they were |
| AppletLaws.ChargingLimitIdempotent | cosmic-applet-battery/src/app.rs:121-124 | setting the same limit twice equals setting it once |
| AppletLaws.TogglePopupCloses | cosmic-applet-battery/src/app.rs:201-204 | an open popup is destroyed and forgotten, and nothing else changes |
| AppletLaws.TogglePopupOpens | cosmic-applet-battery/src/app.rs:205-231 | with no popup the counter rises by one, the popup gets the new id under window 0 with widths 300 to 372 and heights 200 to 1080, and exactly one request for its value is appended per held device, in the order keyboard, screen, power profile |
| AppletLaws.StepCountsPopups | cosmic-applet-battery/src/app.rs:212-214 | the counter rises, by one, exactly when a popup is opened, and the popup carries the new counter |
| AppletLaws.PopupIdsIncrease | cosmic-applet-battery/src/app.rs:212-214 | over any run the popup ids strictly increase, lie above the starting counter and never pass the final one |
| AppletLaws.SetKbdBrightnessClamps | cosmic-applet-battery/src/app.rs:179-184 | the keyboard brightness becomes n/100 clamped into [0, 1] and that value is sent when a channel is held |
| AppletLaws.SetScreenBrightnessClamps | cosmic-applet-battery/src/app.rs:185-190 | the screen brightness becomes n/100 clamped into [0.01, 1] (0.01 from n <= 0, 1 from n > 100), the icon shows it, the stored value is sent when a channel is held, and nothing else changes |
| AppletLaws.ProfileMirrorsDaemon | cosmic-applet-battery/src/app.rs:258-275 | `Profile` sets the local profile and asks each held backlight for its value; `InitProfile` sets the profile and keeps the channel; `SelectProfile` only sends the request; each changes nothing else |
| AppletLaws.BacklightReportsStore | cosmic-applet-battery/src/app.rs:242-253 | a backlight's first report keeps its channel, appends one `Get` on it and stores the value (the screen's clamped into [0.01, 1] with its icon); a later keyboard report stores the value as given; nothing else changes |
| AppletLaws.BatteryReportStores | cosmic-applet-battery/src/app.rs:234-241 | a battery report stores the clamped percentage and the flag, names an icon that reads back as their level and flags, stores the time to empty wrapped as u64, and changes nothing else |
| AppletLaws.StepRoutesRequests | cosmic-applet-battery/src/app.rs:176-278 | a message only appends requests, each on the channel the new state holds for that request's device |
| AppletLaws.RunOnlyAppends | cosmic-applet-battery/src/app.rs:176-278 | over any run, requests once sent stay in the log |
| Applet.CosmicBatteryApplet.constructor | cosmic-applet-battery/src/app.rs:156-166 | `init` gives the placeholder icon names and default fields, a consistent state |
| Applet.CosmicBatteryApplet.UpdateBattery | cosmic-applet-battery/src/app.rs:74-101 | the fields become what `update_battery` gives (see UpdateBatteryStores), with the battery part consistent |
| Applet.CosmicBatteryApplet.UpdateDisplay | cosmic-applet-battery/src/app.rs:103-119 | the fields become what `update_display` gives (see UpdateDisplayStores), with the display part consistent |
| Applet.CosmicBatteryApplet.SetChargingLimit | cosmic-applet-battery/src/app.rs:121-124 | the fields become what `set_charging_limit` gives (see ChargingLimitRecomputes), with the battery part consistent |
| Applet.CosmicBatteryApplet.Send | cosmic-applet-battery/src/app.rs:181-183 | a send appends to the log exactly when the sender is present, and changes nothing else |
| Applet.CosmicBatteryApplet.TogglePopup | cosmic-applet-battery/src/app.rs:201-233 | the fields and the command are those of `Step` on `TogglePopup` |
| Applet.CosmicBatteryApplet.Handle | cosmic-applet-battery/src/app.rs:177-276 | each arm of the match leaves the fields and the command that `Step` gives |
| Applet.CosmicBatteryApplet.HandleBattery | cosmic-applet-battery/src/app.rs:234-241 | the `Update` arm, and the `SetChargingLimit` arm at lines 191-194, leave the fields that `Step` gives |
| Applet.CosmicBatteryApplet.HandleKbdBacklight | cosmic-applet-battery/src/app.rs:242-249 | the `UpdateKbdBrightness` and `InitKbdBacklight` arms, and the `SetKbdBrightness` arm at lines 179-184, leave the fields that `Step` gives |
| Applet.CosmicBatteryApplet.HandleScreenBacklight | cosmic-applet-battery/src/app.rs:250-257 | the `InitScreenBacklight` and `UpdateScreenBrightness` arms, and the `SetScreenBrightness` arm at lines 185-190, leave the fields that `Step` gives |
| Applet.CosmicBatteryApplet.HandleProfile | cosmic-applet-battery/src/app.rs:258-275 | the power-profile arms leave the fields that `Step` gives |
| Applet.CosmicBatteryApplet.Update | cosmic-applet-battery/src/app.rs:176-278 | the object follows `Step`, and a consistent object stays consistent |

## Left out

- `view`, `view_window` and `style`: widget-tree construction. The `{:.0}%` display there is float printing.
- `subscription`: the mapping of device events to messages. The device watchers it builds on are not part of this model.
- `src/window.rs`: window construction and X11 hint handling, which is toolkit glue.
- Animation: the `Timeline`, the `Instant` of `Frame` and the toggler chain of `SetChargingLimit` are not modelled. `Frame` changes no modelled field.
- The logging of `Errored` and the empty `OpenBatterySettings` arm change no modelled field.
- `get_popup_settings` settings other than the parent, the id and the size limits. The popup itself is created or destroyed by the runtime, so a command value stands for it.
- Localisation: the unit words of `format_duration` are parameters.
- Floating point: `f64` is modelled as `real`. NaN is not modelled: `f64::clamp` leaves NaN in place, and the ladders would then give level 0 and `high`. The rounding of `n / 100.0` and of the threshold literals is not modelled.
- Presentation.Clamp: does not model the panic of `f64::clamp` when min > max, because every call in the source passes constant bounds in order.
- AppletSpec.Init: the default power profile comes from the power daemon's `Power` type, which is not part of this model, so it is a parameter.
- AppletLaws.StepConsistent: the invariant says nothing about the keyboard brightness, because the code clamps it only on `SetKbdBrightness` and stores `InitKbdBacklight` and `UpdateKbdBrightness` values unclamped.
- The id counter is a `u128`, and `+= 1` could overflow it. The model uses an unbounded counter, because 2^128 popups cannot occur.
- Send failures on a closed channel are ignored by the source. The model records every send on a present sender.

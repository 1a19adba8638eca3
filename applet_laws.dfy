/**
 * What the battery applet's message handler guarantees: the invariant every
 * message keeps, what each kind of message changes and leaves alone, and
 * facts about whole runs of messages.
 */
module AppletLaws {
  import opened Options
  import opened Presentation
  import opened AppletSpec

  /** Every message keeps the state consistent. */
  lemma StepConsistent(s: State, m: Message)
    requires Consistent(s)
    ensures Consistent(Step(s, m).next)
  {
    StepKeepsBattery(s, m);
    StepKeepsDisplay(s, m);
    StepKeepsPopup(s, m);
  }

  lemma StepKeepsBattery(s: State, m: Message)
    requires BatteryConsistent(s)
    ensures BatteryConsistent(Step(s, m).next)
  {
    if !m.Update? && !m.SetChargingLimit? {
      BatteryPartKept(s, Step(s, m).next);
    }
  }

  /** The battery part depends only on the icon, the percentage, the
      on-battery flag and the charging limit. */
  lemma BatteryPartKept(s: State, t: State)
    requires BatteryConsistent(s)
    requires t.iconName == s.iconName && t.batteryPercent == s.batteryPercent
    requires t.onBattery == s.onBattery && t.chargingLimit == s.chargingLimit
    ensures BatteryConsistent(t)
  {
  }

  lemma StepKeepsDisplay(s: State, m: Message)
    requires DisplayConsistent(s)
    ensures DisplayConsistent(Step(s, m).next)
  {
    if !m.SetScreenBrightness? && !m.InitScreenBacklight? && !m.UpdateScreenBrightness? {
      var t := Step(s, m).next;
      assert t.displayIconName == s.displayIconName && t.screenBrightness == s.screenBrightness;
    }
  }

  lemma StepKeepsPopup(s: State, m: Message)
    requires PopupConsistent(s)
    ensures PopupConsistent(Step(s, m).next)
  {
  }

  /** Any run of messages from a consistent state ends in a consistent state. */
  lemma {:induction false} RunConsistent(s: State, ms: seq<Message>)
    requires Consistent(s)
    ensures Consistent(Run(s, ms))
    decreases |ms|
  {
    if ms != [] {
      StepConsistent(s, ms[0]);
      RunConsistent(Step(s, ms[0]).next, ms[1..]);
    }
  }

  /** `update_battery` stores the percentage clamped into [0, 100] and the
      on-battery flag, and names an icon that reads back as the bucket of the
      stored percentage, the current charging limit and "charging" exactly when
      not on battery; nothing else changes. */
  lemma UpdateBatteryStores(s: State, percent: real, onBattery: bool)
    ensures var t := WithBattery(s, percent, onBattery);
      && 0.0 <= t.batteryPercent <= 100.0
      && (0.0 <= percent <= 100.0 ==> t.batteryPercent == percent)
      && (percent > 100.0 ==> t.batteryPercent == 100.0)
      && (percent < 0.0 ==> t.batteryPercent == 0.0)
      && t.onBattery == onBattery
      && ParseBatteryIcon(t.iconName)
         == Some(BatteryIcon(BatteryBucket(t.batteryPercent, s.chargingLimit), s.chargingLimit, !onBattery))
      && (Contains(t.iconName, LimitedInfix) <==> s.chargingLimit)
      && (Contains(t.iconName, ChargingInfix) <==> !onBattery)
      && t.(batteryPercent := s.batteryPercent, onBattery := s.onBattery, iconName := s.iconName) == s
  {
    var p := Clamp(percent, 0.0, 100.0);
    ParseBatteryIconName(BatteryBucket(p, s.chargingLimit), s.chargingLimit, !onBattery);
    BatteryIconNameLimited(BatteryBucket(p, s.chargingLimit), s.chargingLimit, !onBattery);
    BatteryIconNameCharging(BatteryBucket(p, s.chargingLimit), s.chargingLimit, !onBattery);
  }

  /** `update_display` stores the brightness clamped into [0.01, 1] and names
      an icon that reads back as that brightness's level; nothing else changes. */
  lemma UpdateDisplayStores(s: State, brightness: real)
    ensures var t := WithDisplay(s, brightness);
      && 0.01 <= t.screenBrightness <= 1.0
      && (0.01 <= brightness <= 1.0 ==> t.screenBrightness == brightness)
      && (brightness < 0.01 ==> t.screenBrightness == 0.01 && ParseDisplayIcon(t.displayIconName) == Some(Off))
      && (brightness > 1.0 ==> t.screenBrightness == 1.0 && ParseDisplayIcon(t.displayIconName) == Some(High))
      && ParseDisplayIcon(t.displayIconName) == Some(DisplayLevel(t.screenBrightness))
      && t.(screenBrightness := s.screenBrightness, displayIconName := s.displayIconName) == s
  {
    ParseDisplayIconName(DisplayLevel(Clamp(brightness, 0.01, 1.0)));
  }

  /** `set_charging_limit(limit)` sets the flag and recomputes the icon from the
      stored percentage and on-battery flag, which stay as they were. */
  lemma ChargingLimitRecomputes(s: State, limit: bool)
    requires Consistent(s)
    ensures var t := WithChargingLimit(s, limit);
      && t.chargingLimit == limit
      && t.batteryPercent == s.batteryPercent && t.onBattery == s.onBattery
      && ParseBatteryIcon(t.iconName)
         == Some(BatteryIcon(BatteryBucket(s.batteryPercent, limit), limit, !s.onBattery))
      && (Contains(t.iconName, LimitedInfix) <==> limit)
      && t.(chargingLimit := s.chargingLimit, iconName := s.iconName) == s
  {
    UpdateBatteryStores(s.(chargingLimit := limit), s.batteryPercent, s.onBattery);
  }

  /** Setting the same charging limit twice is the same as setting it once. */
  lemma ChargingLimitIdempotent(s: State, limit: bool)
    ensures WithChargingLimit(WithChargingLimit(s, limit), limit) == WithChargingLimit(s, limit)
  {
    ClampIdempotent(s.batteryPercent, 0.0, 100.0);
  }

  /** `TogglePopup` on an open popup closes it and changes nothing else. */
  lemma TogglePopupCloses(s: State)
    requires s.popup.Some?
    ensures var h := Step(s, TogglePopup);
      && h.next.popup == None
      && h.command == DestroyPopup(s.popup.value)
      && h.next.(popup := s.popup) == s
  {
  }

  /** `TogglePopup` with no popup open hands out the next id, records it as
      the open popup and asks for a popup window with that id under window 0;
      it appends a request for the current value to every device it holds a
      channel to, in the order keyboard, screen, power profile. */
  lemma TogglePopupOpens(s: State)
    requires s.popup.None?
    ensures var h := Step(s, TogglePopup);
      && h.next.idCtr == s.idCtr + 1
      && h.next.popup == Some(h.next.idCtr)
      && h.command == GetPopup(PopupSettings(0, h.next.idCtr, 300.0, 372.0, 200.0, 1080.0))
      && h.next.sent == s.sent
           + (if s.kbdSender.Some? then [Sent(s.kbdSender.value, KbdGet)] else [])
           + (if s.screenSender.Some? then [Sent(s.screenSender.value, ScreenGet)] else [])
           + (if s.powerProfileSender.Some? then [Sent(s.powerProfileSender.value, ProfileGet)] else [])
      && h.next.(idCtr := s.idCtr, popup := s.popup, sent := s.sent) == s
  {
  }

  /** A message raises the id counter, by exactly one, just when it opens a
      popup, and the popup it opens carries the new counter. */
  lemma StepCountsPopups(s: State, m: Message)
    ensures var h := Step(s, m);
      && (h.command.GetPopup? ==> h.command.settings.id == h.next.idCtr == s.idCtr + 1)
      && (!h.command.GetPopup? ==> h.next.idCtr == s.idCtr)
  {
  }

  predicate StrictlyIncreasing(ids: seq<nat>) {
    forall i, j :: 0 <= i < j < |ids| ==> ids[i] < ids[j]
  }

  /** Over any run of messages the popup ids handed out strictly increase,
      each is above the counter at the start and at most the counter at the
      end, and the counter never goes down. */
  lemma {:induction false} PopupIdsIncrease(s: State, ms: seq<Message>)
    ensures var ids := OpenedIds(s, ms);
      && StrictlyIncreasing(ids)
      && (forall i :: 0 <= i < |ids| ==> s.idCtr < ids[i] <= Run(s, ms).idCtr)
      && s.idCtr <= Run(s, ms).idCtr
    decreases |ms|
  {
    if ms != [] {
      var h := Step(s, ms[0]);
      PopupIdsIncrease(h.next, ms[1..]);
      StepCountsPopups(s, ms[0]);
      var rest := OpenedIds(h.next, ms[1..]);
      if h.command.GetPopup? {
        assert OpenedIds(s, ms) == [h.next.idCtr] + rest;
      } else {
        assert OpenedIds(s, ms) == rest;
      }
    }
  }

  /** `SetKbdBrightness(n)` stores n / 100 clamped into [0, 1] and sends that
      value to the keyboard backlight when a channel to it is held. */
  lemma SetKbdBrightnessClamps(s: State, n: I32)
    ensures var t := Step(s, SetKbdBrightness(n)).next;
      && 0.0 <= t.kbdBrightness <= 1.0
      && (0 <= n <= 100 ==> t.kbdBrightness == n as real / 100.0)
      && (n > 100 ==> t.kbdBrightness == 1.0)
      && (n < 0 ==> t.kbdBrightness == 0.0)
      && t.sent == (if s.kbdSender.Some? then s.sent + [Sent(s.kbdSender.value, KbdSet(t.kbdBrightness))] else s.sent)
      && t.(kbdBrightness := s.kbdBrightness, sent := s.sent) == s
  {
  }

  /** `SetScreenBrightness(n)` shows n / 100 clamped into [0.01, 1] and sends
      the stored value to the screen backlight when a channel to it is held;
      nothing else changes. */
  lemma SetScreenBrightnessClamps(s: State, n: I32)
    ensures var t := Step(s, SetScreenBrightness(n)).next;
      && 0.01 <= t.screenBrightness <= 1.0
      && (1 <= n <= 100 ==> t.screenBrightness == n as real / 100.0)
      && (n <= 0 ==> t.screenBrightness == 0.01)
      && (n > 100 ==> t.screenBrightness == 1.0)
      && ParseDisplayIcon(t.displayIconName) == Some(DisplayLevel(t.screenBrightness))
      && t.sent == (if s.screenSender.Some? then s.sent + [Sent(s.screenSender.value, ScreenSet(t.screenBrightness))] else s.sent)
      && t.(screenBrightness := s.screenBrightness, displayIconName := s.displayIconName, sent := s.sent) == s
  {
    UpdateDisplayStores(s, Clamp(n as real / 100.0, 0.01, 1.0));
  }

  /** The local power profile mirrors the daemon: `Profile` and `InitProfile`
      set it, while `SelectProfile` only asks the daemon to change and leaves
      the local copy as it was until the daemon reports back. A reported
      profile also asks both backlights for their values, since a profile
      change may have changed them; nothing else changes. */
  lemma ProfileMirrorsDaemon(s: State, p: Power, tx: Channel)
    ensures var t := Step(s, Profile(p)).next;
      && t.powerProfile == p
      && t.sent == s.sent
           + (if s.kbdSender.Some? then [Sent(s.kbdSender.value, KbdGet)] else [])
           + (if s.screenSender.Some? then [Sent(s.screenSender.value, ScreenGet)] else [])
      && t.(powerProfile := s.powerProfile, sent := s.sent) == s
    ensures var t := Step(s, InitProfile(tx, p)).next;
      && t.powerProfile == p && t.powerProfileSender == Some(tx)
      && t.(powerProfile := s.powerProfile, powerProfileSender := s.powerProfileSender) == s
    ensures var t := Step(s, SelectProfile(p)).next;
      && t.powerProfile == s.powerProfile
      && t.sent == (if s.powerProfileSender.Some? then s.sent + [Sent(s.powerProfileSender.value, ProfileSet(p))] else s.sent)
      && t.(sent := s.sent) == s
  {
  }

  /** A backlight's first report keeps its channel, asks it for its value on
      that channel and stores the value, clamped for the screen as
      `update_display` does; a later keyboard report stores the value as given.
      Nothing else changes. */
  lemma BacklightReportsStore(s: State, tx: Channel, b: real)
    ensures var t := Step(s, InitKbdBacklight(tx, b)).next;
      && t.sent == s.sent + [Sent(tx, KbdGet)] && t.kbdSender == Some(tx) && t.kbdBrightness == b
      && t.(sent := s.sent, kbdSender := s.kbdSender, kbdBrightness := s.kbdBrightness) == s
    ensures var t := Step(s, UpdateKbdBrightness(b)).next;
      t.kbdBrightness == b && t.(kbdBrightness := s.kbdBrightness) == s
    ensures var t := Step(s, InitScreenBacklight(tx, b)).next;
      && t.sent == s.sent + [Sent(tx, ScreenGet)] && t.screenSender == Some(tx)
      && t.screenBrightness == Clamp(b, 0.01, 1.0)
      && ParseDisplayIcon(t.displayIconName) == Some(DisplayLevel(t.screenBrightness))
      && t.(sent := s.sent, screenSender := s.screenSender, screenBrightness := s.screenBrightness,
            displayIconName := s.displayIconName) == s
  {
    ParseDisplayIconName(DisplayLevel(Clamp(b, 0.01, 1.0)));
  }

  /** A battery report stores the clamped percentage and the on-battery flag,
      recomputes the battery icon from them, and stores the time to empty read
      as an unsigned 64-bit number of seconds; nothing else changes. */
  lemma BatteryReportStores(s: State, onBattery: bool, percent: real, timeToEmpty: I64)
    ensures var t := Step(s, Update(onBattery, percent, timeToEmpty)).next;
      && t.batteryPercent == Clamp(percent, 0.0, 100.0)
      && t.onBattery == onBattery
      && t.timeRemaining < TwoTo64
      && (timeToEmpty >= 0 ==> t.timeRemaining == timeToEmpty as int)
      && (timeToEmpty < 0 ==> t.timeRemaining == TwoTo64 + timeToEmpty as int)
      && ParseBatteryIcon(t.iconName)
         == Some(BatteryIcon(BatteryBucket(t.batteryPercent, s.chargingLimit), s.chargingLimit, !onBattery))
      && t.(batteryPercent := s.batteryPercent, onBattery := s.onBattery, iconName := s.iconName,
            timeRemaining := s.timeRemaining) == s
  {
    UpdateBatteryStores(s, percent, onBattery);
  }

  /** Which held channel a request belongs on. */
  predicate RoutedIn(t: State, x: Sent) {
    match x.request
    case KbdSet(_) => t.kbdSender == Some(x.channel)
    case KbdGet => t.kbdSender == Some(x.channel)
    case ScreenSet(_) => t.screenSender == Some(x.channel)
    case ScreenGet => t.screenSender == Some(x.channel)
    case ProfileSet(_) => t.powerProfileSender == Some(x.channel)
    case ProfileGet => t.powerProfileSender == Some(x.channel)
  }

  /** `after` extends `before`, and every request added goes on the channel
      `t` holds for that request's device. */
  predicate RoutedSince(t: State, before: seq<Sent>, after: seq<Sent>) {
    before <= after && forall i :: |before| <= i < |after| ==> RoutedIn(t, after[i])
  }

  lemma RoutedSinceTrans(t: State, a: seq<Sent>, b: seq<Sent>, c: seq<Sent>)
    requires RoutedSince(t, a, b) && RoutedSince(t, b, c)
    ensures RoutedSince(t, a, c)
  {
  }

  /** A send on a sender that `t` holds for the request's device is routed. */
  lemma SendOnRouted(t: State, sent: seq<Sent>, sender: Option<Channel>, request: Request)
    requires sender.Some? ==> RoutedIn(t, Sent(sender.value, request))
    ensures RoutedSince(t, sent, SendOn(sent, sender, request))
  {
  }

  /** A message only adds requests to the log, and each one goes on the
      channel the new state holds for that request's device. */
  lemma StepRoutesRequests(s: State, m: Message)
    ensures RoutedSince(Step(s, m).next, s.sent, Step(s, m).next.sent)
  {
    var t := Step(s, m).next;
    match m {
      case SetKbdBrightness(n) =>
        SendOnRouted(t, s.sent, s.kbdSender, KbdSet(t.kbdBrightness));
      case SetScreenBrightness(n) =>
        var u := WithDisplay(s, Clamp(n as real / 100.0, 0.01, 1.0));
        assert u.sent == s.sent && t.screenSender == s.screenSender;
        SendOnRouted(t, s.sent, s.screenSender, ScreenSet(t.screenBrightness));
      case TogglePopup =>
        if s.popup.None? {
          var a := SendOn(s.sent, s.kbdSender, KbdGet);
          var b := SendOn(a, s.screenSender, ScreenGet);
          SendOnRouted(t, s.sent, s.kbdSender, KbdGet);
          SendOnRouted(t, a, s.screenSender, ScreenGet);
          SendOnRouted(t, b, s.powerProfileSender, ProfileGet);
          RoutedSinceTrans(t, s.sent, a, b);
          RoutedSinceTrans(t, s.sent, b, t.sent);
        }
      case Profile(_) =>
        var a := SendOn(s.sent, s.kbdSender, KbdGet);
        SendOnRouted(t, s.sent, s.kbdSender, KbdGet);
        SendOnRouted(t, a, s.screenSender, ScreenGet);
        RoutedSinceTrans(t, s.sent, a, t.sent);
      case SelectProfile(p) =>
        SendOnRouted(t, s.sent, s.powerProfileSender, ProfileSet(p));
      case InitKbdBacklight(tx, _) =>
        assert t.sent == s.sent + [Sent(tx, KbdGet)] && t.kbdSender == Some(tx);
      case InitScreenBacklight(tx, b) =>
        assert t.sent == s.sent + [Sent(tx, ScreenGet)] && t.screenSender == Some(tx);
      case _ =>
        assert t.sent == s.sent;
    }
  }

  /** Requests once sent stay in the log: any run only appends. */
  lemma {:induction false} RunOnlyAppends(s: State, ms: seq<Message>)
    ensures s.sent <= Run(s, ms).sent
    decreases |ms|
  {
    if ms != [] {
      StepRoutesRequests(s, ms[0]);
      RunOnlyAppends(Step(s, ms[0]).next, ms[1..]);
    }
  }
}

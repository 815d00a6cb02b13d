// The page-side audio settings store: the four settings shown in the
// settings panel, whether the panel is open, and the window events each
// change sends to the game.

module AudioStore {
  import opened Util
  import Audio

  /** What the store sends on the window. */
  datatype WindowEvent =
    | AudioSettingsChanged(detail: Audio.PartialSettings)
    | GamePauseRequest
    | GameResumeRequest

  datatype StoreState = StoreState(settings: Audio.Settings, isSettingsOpen: bool)

  datatype Action =
    | SetBgmVolume(volume: real)
    | SetSfxVolume(volume: real)
    | ToggleBgmMute
    | ToggleSfxMute
    | OpenSettings
    | CloseSettings

  const INITIAL: StoreState := StoreState(Audio.Settings(0.5, 0.5, false, false), false)

  const NONE: Audio.PartialSettings := Audio.PartialSettings(None, None, None, None)

  /** The store after an action. */
  function Next(s: StoreState, a: Action): StoreState
  {
    match a
    case SetBgmVolume(v) => s.(settings := s.settings.(bgmVolume := v))
    case SetSfxVolume(v) => s.(settings := s.settings.(sfxVolume := v))
    case ToggleBgmMute => s.(settings := s.settings.(bgmMuted := !s.settings.bgmMuted))
    case ToggleSfxMute => s.(settings := s.settings.(sfxMuted := !s.settings.sfxMuted))
    case OpenSettings => s.(isSettingsOpen := true)
    case CloseSettings => s.(isSettingsOpen := false)
  }

  /** The events an action sends: a settings change carries only the field
      it changed. */
  function Sent(s: StoreState, a: Action): seq<WindowEvent>
  {
    match a
    case SetBgmVolume(v) => [AudioSettingsChanged(NONE.(bgmVolume := Some(v)))]
    case SetSfxVolume(v) => [AudioSettingsChanged(NONE.(sfxVolume := Some(v)))]
    case ToggleBgmMute => [AudioSettingsChanged(NONE.(bgmMuted := Some(!s.settings.bgmMuted)))]
    case ToggleSfxMute => [AudioSettingsChanged(NONE.(sfxMuted := Some(!s.settings.sfxMuted)))]
    case OpenSettings => [GamePauseRequest]
    case CloseSettings => [GameResumeRequest]
  }

  /** Each setter touches its own field and nothing else, and opening or
      closing the panel touches only the panel flag. */
  lemma ActionFrame(s: StoreState, a: Action)
    ensures var t := Next(s, a).settings;
      (a.SetBgmVolume? ==> t.bgmVolume == a.volume) &&
      (a.SetSfxVolume? ==> t.sfxVolume == a.volume) &&
      (!a.SetBgmVolume? ==> t.bgmVolume == s.settings.bgmVolume) &&
      (!a.SetSfxVolume? ==> t.sfxVolume == s.settings.sfxVolume) &&
      (a != ToggleBgmMute <==> t.bgmMuted == s.settings.bgmMuted) &&
      (a != ToggleSfxMute <==> t.sfxMuted == s.settings.sfxMuted)
    ensures (a == OpenSettings || a == CloseSettings) <==> Next(s, a).settings == s.settings && !a.SetBgmVolume? && !a.SetSfxVolume?
    ensures a == OpenSettings ==> Next(s, a).isSettingsOpen
    ensures a == CloseSettings ==> !Next(s, a).isSettingsOpen
    ensures a != OpenSettings && a != CloseSettings ==> Next(s, a).isSettingsOpen == s.isSettingsOpen
  {
  }

  /** Toggling a mute twice gives back the state it started from, and sends
      the new flag and then the original one. */
  lemma ToggleTwice(s: StoreState)
    ensures Next(Next(s, ToggleBgmMute), ToggleBgmMute) == s
    ensures Next(Next(s, ToggleSfxMute), ToggleSfxMute) == s
    ensures Sent(Next(s, ToggleBgmMute), ToggleBgmMute) ==
      [AudioSettingsChanged(NONE.(bgmMuted := Some(s.settings.bgmMuted)))]
  {
  }

  /** The game stays in step with the page: if the game's settings equal the
      store's before an action, applying the events the action sends leaves
      them equal to the store's after it. */
  lemma SentKeepsGameInStep(s: StoreState, a: Action)
    ensures ApplyAll(s.settings, Sent(s, a)) == Next(s, a).settings
  {
  }

  /** The game's settings after it has handled a list of events; only the
      settings-changed ones touch them. */
  function ApplyAll(g: Audio.Settings, es: seq<WindowEvent>): Audio.Settings
    decreases |es|
  {
    if es == [] then g
    else
      var h := ApplyAll(g, es[..|es| - 1]);
      match es[|es| - 1]
      case AudioSettingsChanged(d) => Audio.ApplyPartial(h, d)
      case _ => h
  }

  function RunActions(s: StoreState, acts: seq<Action>): StoreState
    decreases |acts|
  {
    if acts == [] then s else Next(RunActions(s, acts[..|acts| - 1]), acts[|acts| - 1])
  }

  function SentAll(s: StoreState, acts: seq<Action>): seq<WindowEvent>
    decreases |acts|
  {
    if acts == [] then []
    else SentAll(s, acts[..|acts| - 1]) + Sent(RunActions(s, acts[..|acts| - 1]), acts[|acts| - 1])
  }

  lemma {:induction false} ApplyAllAppend(g: Audio.Settings, u: seq<WindowEvent>, v: seq<WindowEvent>)
    ensures ApplyAll(g, u + v) == ApplyAll(ApplyAll(g, u), v)
    decreases |v|
  {
    if v == [] {
      assert u + v == u;
    } else {
      assert (u + v)[..|u + v| - 1] == u + v[..|v| - 1];
      ApplyAllAppend(g, u, v[..|v| - 1]);
    }
  }

  /** Over any sequence of actions, the settings the game ends with by
      handling every event sent are the store's own. */
  lemma {:induction false} GameFollowsStore(s: StoreState, acts: seq<Action>)
    ensures ApplyAll(s.settings, SentAll(s, acts)) == RunActions(s, acts).settings
    decreases |acts|
  {
    if acts != [] {
      var pre := acts[..|acts| - 1];
      GameFollowsStore(s, pre);
      ApplyAllAppend(s.settings, SentAll(s, pre), Sent(RunActions(s, pre), acts[|acts| - 1]));
      SentKeepsGameInStep(RunActions(s, pre), acts[|acts| - 1]);
    }
  }

  /** The settings `initFromStorage` reads: `None` stands for no stored
      record (absent, empty, or not parseable); each missing field takes
      0.5, 0.7, false and false. */
  function FromStorage(s: StoreState, saved: Option<Audio.PartialSettings>): StoreState
  {
    match saved
    case None => s
    case Some(p) =>
      s.(settings := Audio.Settings(Coalesce(p.bgmVolume, 0.5), Coalesce(p.sfxVolume, 0.7),
                                    Coalesce(p.bgmMuted, false), Coalesce(p.sfxMuted, false)))
  }

  /** Without a record the store is untouched; a complete record, as the
      game writes it, is taken as is and agrees with what the game loads;
      a record without a sfx volume gives the store 0.7 where the game
      loads 0.5. */
  lemma FromStorageRules(s: StoreState, saved: Option<Audio.PartialSettings>, t: Audio.Settings)
    ensures saved.None? ==> FromStorage(s, saved) == s
    ensures FromStorage(s, Some(Audio.Full(t))) == s.(settings := t)
    ensures FromStorage(s, Some(Audio.Full(t))).settings == Audio.Loaded(Some(Audio.Full(t)))
    ensures FromStorage(s, saved).isSettingsOpen == s.isSettingsOpen
    ensures saved.Some? && saved.value.sfxVolume.None? ==>
      FromStorage(s, saved).settings.sfxVolume == 0.7 && Audio.Loaded(saved).sfxVolume == 0.5
  {
  }

  class Store {
    var bgmVolume: real
    var sfxVolume: real
    var bgmMuted: bool
    var sfxMuted: bool
    var isSettingsOpen: bool
    /** Events sent on the window, oldest first. */
    var sent: seq<WindowEvent>

    function State(): StoreState
      reads this`bgmVolume, this`sfxVolume, this`bgmMuted, this`sfxMuted, this`isSettingsOpen
    {
      StoreState(Audio.Settings(bgmVolume, sfxVolume, bgmMuted, sfxMuted), isSettingsOpen)
    }

    constructor ()
      ensures State() == INITIAL && sent == []
    {
      bgmVolume := 0.5;
      sfxVolume := 0.5;
      bgmMuted := false;
      sfxMuted := false;
      isSettingsOpen := false;
      sent := [];
    }

    method SetBgmVolume(volume: real)
      modifies this`bgmVolume, this`sent
      ensures State() == Next(old(State()), Action.SetBgmVolume(volume))
      ensures sent == old(sent) + Sent(old(State()), Action.SetBgmVolume(volume))
    {
      bgmVolume := volume;
      sent := sent + [AudioSettingsChanged(NONE.(bgmVolume := Some(volume)))];
    }

    method SetSfxVolume(volume: real)
      modifies this`sfxVolume, this`sent
      ensures State() == Next(old(State()), Action.SetSfxVolume(volume))
      ensures sent == old(sent) + Sent(old(State()), Action.SetSfxVolume(volume))
    {
      sfxVolume := volume;
      sent := sent + [AudioSettingsChanged(NONE.(sfxVolume := Some(volume)))];
    }

    method ToggleBgmMute()
      modifies this`bgmMuted, this`sent
      ensures State() == Next(old(State()), Action.ToggleBgmMute)
      ensures sent == old(sent) + Sent(old(State()), Action.ToggleBgmMute)
    {
      var muted := !bgmMuted;
      bgmMuted := muted;
      sent := sent + [AudioSettingsChanged(NONE.(bgmMuted := Some(muted)))];
    }

    method ToggleSfxMute()
      modifies this`sfxMuted, this`sent
      ensures State() == Next(old(State()), Action.ToggleSfxMute)
      ensures sent == old(sent) + Sent(old(State()), Action.ToggleSfxMute)
    {
      var muted := !sfxMuted;
      sfxMuted := muted;
      sent := sent + [AudioSettingsChanged(NONE.(sfxMuted := Some(muted)))];
    }

    method OpenSettings()
      modifies this`isSettingsOpen, this`sent
      ensures State() == Next(old(State()), Action.OpenSettings)
      ensures sent == old(sent) + Sent(old(State()), Action.OpenSettings)
    {
      isSettingsOpen := true;
      sent := sent + [GamePauseRequest];
    }

    method CloseSettings()
      modifies this`isSettingsOpen, this`sent
      ensures State() == Next(old(State()), Action.CloseSettings)
      ensures sent == old(sent) + Sent(old(State()), Action.CloseSettings)
    {
      isSettingsOpen := false;
      sent := sent + [GameResumeRequest];
    }

    /** Reads the stored record; sends nothing. */
    method InitFromStorage(saved: Option<Audio.PartialSettings>)
      modifies this`bgmVolume, this`sfxVolume, this`bgmMuted, this`sfxMuted
      ensures State() == FromStorage(old(State()), saved)
    {
      if saved.Some? {
        var p := saved.value;
        bgmVolume := Coalesce(p.bgmVolume, 0.5);
        sfxVolume := Coalesce(p.sfxVolume, 0.7);
        bgmMuted := Coalesce(p.bgmMuted, false);
        sfxMuted := Coalesce(p.sfxMuted, false);
      }
    }
  }
}

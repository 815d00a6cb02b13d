// The game's volume and mute controller: the four settings it keeps and
// stores, the one background track it plays, and the looping effects whose
// volumes it keeps in step with the settings.

module Audio {
  import opened Util

  datatype Settings = Settings(bgmVolume: real, sfxVolume: real, bgmMuted: bool, sfxMuted: bool)

  /** A settings record in which any field may be missing, as read from
      storage or carried by a settings-changed event. */
  datatype PartialSettings = PartialSettings(
    bgmVolume: Option<real>,
    sfxVolume: Option<real>,
    bgmMuted: Option<bool>,
    sfxMuted: Option<bool>)

  const STORAGE_KEY: string := "goat_audio_settings"
  const DEFAULTS: Settings := Settings(0.5, 0.5, false, false)

  /** The volume the background track plays at. */
  function BgmLevel(s: Settings): (v: real)
    ensures s.bgmMuted ==> v == 0.0
    ensures !s.bgmMuted ==> v == s.bgmVolume
  {
    if s.bgmMuted then 0.0 else s.bgmVolume
  }

  /** The volume every effect plays at. */
  function SfxLevel(s: Settings): (v: real)
    ensures s.sfxMuted ==> v == 0.0
    ensures !s.sfxMuted ==> v == s.sfxVolume
  {
    if s.sfxMuted then 0.0 else s.sfxVolume
  }

  /** The record written to storage: every field present. */
  function Full(s: Settings): PartialSettings
  {
    PartialSettings(Some(s.bgmVolume), Some(s.sfxVolume), Some(s.bgmMuted), Some(s.sfxMuted))
  }

  /** The settings the manager starts from: `None` stands for no stored
      record (absent, empty, or not parseable), and each missing field
      falls back to its default with `??`. */
  function Loaded(saved: Option<PartialSettings>): Settings
  {
    match saved
    case None => DEFAULTS
    case Some(p) =>
      Settings(Coalesce(p.bgmVolume, DEFAULTS.bgmVolume), Coalesce(p.sfxVolume, DEFAULTS.sfxVolume),
               Coalesce(p.bgmMuted, DEFAULTS.bgmMuted), Coalesce(p.sfxMuted, DEFAULTS.sfxMuted))
  }

  /** Loading what was saved gives back exactly the saved settings. */
  lemma LoadSaved(s: Settings)
    ensures Loaded(Some(Full(s))) == s
  {
  }

  /** Without a record the defaults hold; a stored field is kept even when it
      is 0 or false, and only a missing field takes its default. */
  lemma LoadRules(saved: Option<PartialSettings>)
    ensures saved.None? ==> Loaded(saved) == Settings(0.5, 0.5, false, false)
    ensures saved.Some? ==>
      (saved.value.bgmVolume.Some? ==> Loaded(saved).bgmVolume == saved.value.bgmVolume.value) &&
      (saved.value.bgmVolume.None? ==> Loaded(saved).bgmVolume == 0.5) &&
      (saved.value.sfxVolume.Some? ==> Loaded(saved).sfxVolume == saved.value.sfxVolume.value) &&
      (saved.value.sfxVolume.None? ==> Loaded(saved).sfxVolume == 0.5) &&
      (saved.value.bgmMuted.Some? ==> Loaded(saved).bgmMuted == saved.value.bgmMuted.value) &&
      (saved.value.bgmMuted.None? ==> !Loaded(saved).bgmMuted) &&
      (saved.value.sfxMuted.Some? ==> Loaded(saved).sfxMuted == saved.value.sfxMuted.value) &&
      (saved.value.sfxMuted.None? ==> !Loaded(saved).sfxMuted)
  {
  }

  /** The settings after each present field's setter has run, in the order
      bgm volume, sfx volume, bgm mute, sfx mute: one stored record per
      setter call. */
  function Trail(s: Settings, p: PartialSettings): seq<Settings>
  {
    var s1 := if p.bgmVolume.Some? then s.(bgmVolume := p.bgmVolume.value) else s;
    var s2 := if p.sfxVolume.Some? then s1.(sfxVolume := p.sfxVolume.value) else s1;
    var s3 := if p.bgmMuted.Some? then s2.(bgmMuted := p.bgmMuted.value) else s2;
    var s4 := if p.sfxMuted.Some? then s3.(sfxMuted := p.sfxMuted.value) else s3;
    (if p.bgmVolume.Some? then [s1] else []) + (if p.sfxVolume.Some? then [s2] else []) +
    (if p.bgmMuted.Some? then [s3] else []) + (if p.sfxMuted.Some? then [s4] else [])
  }

  function Present(p: PartialSettings): nat
  {
    (if p.bgmVolume.Some? then 1 else 0) + (if p.sfxVolume.Some? then 1 else 0) +
    (if p.bgmMuted.Some? then 1 else 0) + (if p.sfxMuted.Some? then 1 else 0)
  }

  /** The settings after an event: every present field replaces the
      current one and every missing field is kept. */
  function ApplyPartial(s: Settings, p: PartialSettings): (r: Settings)
    ensures r.bgmVolume == Coalesce(p.bgmVolume, s.bgmVolume)
    ensures r.sfxVolume == Coalesce(p.sfxVolume, s.sfxVolume)
    ensures r.bgmMuted == Coalesce(p.bgmMuted, s.bgmMuted)
    ensures r.sfxMuted == Coalesce(p.sfxMuted, s.sfxMuted)
  {
    Settings(Coalesce(p.bgmVolume, s.bgmVolume), Coalesce(p.sfxVolume, s.sfxVolume),
             Coalesce(p.bgmMuted, s.bgmMuted), Coalesce(p.sfxMuted, s.sfxMuted))
  }

  /** One record is stored per present field, the last one is the final
      settings, and an event with no field stores nothing and changes
      nothing. */
  lemma TrailRules(s: Settings, p: PartialSettings)
    ensures |Trail(s, p)| == Present(p)
    ensures Present(p) > 0 ==> Trail(s, p)[|Trail(s, p)| - 1] == ApplyPartial(s, p)
    ensures Present(p) == 0 ==> ApplyPartial(s, p) == s
  {
  }

  /** A full record replaces everything, and applying the same event twice
      is the same as applying it once. */
  lemma ApplyRules(s: Settings, t: Settings, p: PartialSettings)
    ensures ApplyPartial(s, Full(t)) == t
    ensures ApplyPartial(ApplyPartial(s, p), p) == ApplyPartial(s, p)
  {
  }

  /** The records of an event split into those of its volume fields and,
      from the settings they leave, those of its mute fields. */
  lemma TrailSplit(s: Settings, p: PartialSettings)
    ensures var v := p.(bgmMuted := None, sfxMuted := None);
      Trail(s, p) == Trail(s, v) + Trail(ApplyPartial(s, v), p.(bgmVolume := None, sfxVolume := None))
    ensures var v := p.(bgmMuted := None, sfxMuted := None);
      ApplyPartial(ApplyPartial(s, v), p.(bgmVolume := None, sfxVolume := None)) == ApplyPartial(s, p)
  {
  }

  /** A sound object of the engine: its key and looping flag are fixed when
      it is added. */
  class Sound {
    const key: string
    const loop: bool
    var volume: real
    var playing: bool
    var destroyed: bool

    constructor (key: string, loop: bool, volume: real)
      ensures this.key == key && this.loop == loop && this.volume == volume
      ensures !playing && !destroyed
    {
      this.key := key;
      this.loop := loop;
      this.volume := volume;
      playing := false;
      destroyed := false;
    }

    method SetVolume(v: real)
      modifies this`volume
      ensures volume == v
    {
      volume := v;
    }

    method Play()
      modifies this`playing
      ensures playing
    {
      playing := true;
    }

    method Stop()
      modifies this`playing
      ensures !playing
    {
      playing := false;
    }

    method Destroy()
      modifies this`destroyed
      ensures destroyed
    {
      destroyed := true;
    }
  }

  /** The engine's sound manager, reduced to what the controller asks of it:
      fire-and-forget plays are recorded, and `StopAll` calls counted. */
  class SoundManager {
    var plays: seq<(string, real)>
    var stopAllCalls: nat

    constructor ()
      ensures plays == [] && stopAllCalls == 0
    {
      plays := [];
      stopAllCalls := 0;
    }

    method Play(key: string, volume: real)
      modifies this`plays
      ensures plays == old(plays) + [(key, volume)]
    {
      plays := plays + [(key, volume)];
    }

    method Add(key: string, loop: bool, volume: real) returns (s: Sound)
      ensures fresh(s) && s.key == key && s.loop == loop && s.volume == volume
      ensures !s.playing && !s.destroyed
    {
      s := new Sound(key, loop, volume);
    }

    method StopAll()
      modifies this`stopAllCalls
      ensures stopAllCalls == old(stopAllCalls) + 1
    {
      stopAllCalls := stopAllCalls + 1;
    }
  }

  class AudioManager {
    var soundManager: SoundManager?
    var bgmVolume: real
    var sfxVolume: real
    var bgmMuted: bool
    var sfxMuted: bool
    var currentBgm: Sound?
    var loopingSfx: set<Sound>
    /** How many settings-changed listeners are registered on the window. */
    var listeners: nat
    /** The records written under `STORAGE_KEY`, oldest first. */
    var saves: seq<Settings>

    function GetSettings(): Settings
      reads this`bgmVolume, this`sfxVolume, this`bgmMuted, this`sfxMuted
    {
      Settings(bgmVolume, sfxVolume, bgmMuted, sfxMuted)
    }

    function IsSfxMuted(): (m: bool)
      reads this`sfxMuted
      ensures m == GetSettings().sfxMuted
    {
      sfxMuted
    }

    function GetSfxVolume(): (v: real)
      reads this`sfxVolume
      ensures v == GetSettings().sfxVolume
    {
      sfxVolume
    }

    /** The background track plays at the bgm level and every looping
        effect at the sfx level; the track is not one of the effects; at
        most one listener is registered. */
    predicate Valid()
      reads this, currentBgm, loopingSfx
    {
      (currentBgm != null ==> currentBgm !in loopingSfx && currentBgm.volume == BgmLevel(GetSettings())) &&
      (forall s :: s in loopingSfx ==> s.volume == SfxLevel(GetSettings())) &&
      listeners <= 1
    }

    /** Creation loads the stored settings. */
    constructor (saved: Option<PartialSettings>)
      ensures GetSettings() == Loaded(saved)
      ensures soundManager == null && currentBgm == null && loopingSfx == {}
      ensures listeners == 0 && saves == [] && Valid()
    {
      var s := Loaded(saved);
      bgmVolume := s.bgmVolume;
      sfxVolume := s.sfxVolume;
      bgmMuted := s.bgmMuted;
      sfxMuted := s.sfxMuted;
      soundManager := null;
      currentBgm := null;
      loopingSfx := {};
      listeners := 0;
      saves := [];
    }

    /** Binds a scene's sound manager, forgets the previous scene's sounds,
        and replaces any earlier listener by a single new one. */
    method Init(sm: SoundManager)
      requires Valid()
      modifies this`soundManager, this`currentBgm, this`loopingSfx, this`listeners
      ensures soundManager == sm && currentBgm == null && loopingSfx == {}
      ensures listeners == 1 && Valid()
    {
      soundManager := sm;
      currentBgm := null;
      loopingSfx := {};
      if listeners > 0 {
        listeners := listeners - 1;
      }
      listeners := listeners + 1;
    }

    /** A one-shot effect, skipped while effects are muted or before `Init`. */
    method PlaySfx(key: string)
      modifies soundManager
      ensures soundManager != null ==>
        soundManager.plays == old(soundManager.plays) + (if sfxMuted then [] else [(key, sfxVolume)]) &&
        soundManager.stopAllCalls == old(soundManager.stopAllCalls)
    {
      if sfxMuted || soundManager == null {
        return;
      }
      soundManager.Play(key, sfxVolume);
    }

    /** Stops and destroys the current track, then starts a new looping one
        at the bgm level; does nothing before `Init`. */
    method PlayBgm(key: string)
      requires Valid()
      modifies this`currentBgm, currentBgm
      ensures Valid()
      ensures soundManager == null ==> currentBgm == old(currentBgm)
      ensures soundManager != null ==>
        (old(currentBgm) != null ==> !old(currentBgm).playing && old(currentBgm).destroyed) &&
        currentBgm != null && fresh(currentBgm) && currentBgm.key == key && currentBgm.loop &&
        currentBgm.playing && !currentBgm.destroyed && currentBgm.volume == BgmLevel(GetSettings())
    {
      if soundManager == null {
        return;
      }
      if currentBgm != null {
        currentBgm.Stop();
        currentBgm.Destroy();
      }
      var track := soundManager.Add(key, true, if bgmMuted then 0.0 else bgmVolume);
      currentBgm := track;
      track.Play();
    }

    /** A new looping effect at the sfx level, kept in the looping set;
        before `Init` it fails. */
    method CreateLoopingSfx(key: string) returns (r: Option<Sound>)
      requires Valid()
      modifies this`loopingSfx
      ensures Valid()
      ensures soundManager == null ==> r.None? && loopingSfx == old(loopingSfx)
      ensures soundManager != null ==>
        r.Some? && fresh(r.value) && r.value.key == key && r.value.loop && !r.value.playing &&
        r.value.volume == SfxLevel(GetSettings()) && loopingSfx == old(loopingSfx) + {r.value}
    {
      if soundManager == null {
        return None;
      }
      var sound := soundManager.Add(key, true, if sfxMuted then 0.0 else sfxVolume);
      loopingSfx := loopingSfx + {sound};
      r := Some(sound);
    }

    method RemoveLoopingSfx(sound: Sound)
      requires Valid()
      modifies this`loopingSfx
      ensures loopingSfx == old(loopingSfx) - {sound} && Valid()
    {
      loopingSfx := loopingSfx - {sound};
    }

    /** Sets every looping effect's volume, one sound at a time. */
    method SetLoopingVolume(v: real)
      modifies loopingSfx
      ensures forall s :: s in loopingSfx ==> s.volume == v
      ensures forall s :: s in loopingSfx ==> s.playing == old(s.playing) && s.destroyed == old(s.destroyed)
    {
      var rest := loopingSfx;
      while rest != {}
        invariant rest <= loopingSfx
        invariant forall s :: s in loopingSfx && s !in rest ==> s.volume == v
        invariant forall s :: s in loopingSfx ==> s.playing == old(s.playing) && s.destroyed == old(s.destroyed)
        decreases |rest|
      {
        var s :| s in rest;
        s.SetVolume(v);
        rest := rest - {s};
      }
    }

    method Save()
      modifies this`saves
      ensures saves == old(saves) + [GetSettings()]
    {
      saves := saves + [GetSettings()];
    }

    method SetBgmVolume(volume: real)
      requires Valid()
      modifies this`bgmVolume, this`saves, currentBgm
      ensures GetSettings() == old(GetSettings()).(bgmVolume := volume)
      ensures saves == old(saves) + [GetSettings()] && Valid()
    {
      bgmVolume := volume;
      if currentBgm != null {
        currentBgm.SetVolume(if bgmMuted then 0.0 else volume);
      }
      Save();
    }

    method SetSfxVolume(volume: real)
      requires Valid()
      modifies this`sfxVolume, this`saves, loopingSfx
      ensures GetSettings() == old(GetSettings()).(sfxVolume := volume)
      ensures saves == old(saves) + [GetSettings()] && Valid()
    {
      sfxVolume := volume;
      SetLoopingVolume(if sfxMuted then 0.0 else volume);
      Save();
    }

    method SetBgmMuted(muted: bool)
      requires Valid()
      modifies this`bgmMuted, this`saves, currentBgm
      ensures GetSettings() == old(GetSettings()).(bgmMuted := muted)
      ensures saves == old(saves) + [GetSettings()] && Valid()
    {
      bgmMuted := muted;
      if currentBgm != null {
        currentBgm.SetVolume(if muted then 0.0 else bgmVolume);
      }
      Save();
    }

    method SetSfxMuted(muted: bool)
      requires Valid()
      modifies this`sfxMuted, this`saves, loopingSfx
      ensures GetSettings() == old(GetSettings()).(sfxMuted := muted)
      ensures saves == old(saves) + [GetSettings()] && Valid()
    {
      sfxMuted := muted;
      SetLoopingVolume(if muted then 0.0 else sfxVolume);
      Save();
    }

    /** One field of a settings-changed event: its setter runs only when
        the field is present. */
    method ApplyBgmVolume(v: Option<real>)
      requires Valid()
      modifies this`bgmVolume, this`saves, currentBgm
      ensures GetSettings() == old(GetSettings()).(bgmVolume := Coalesce(v, old(bgmVolume)))
      ensures saves == old(saves) + (if v.Some? then [GetSettings()] else []) && Valid()
    {
      if v.Some? { SetBgmVolume(v.value); }
    }

    method ApplySfxVolume(v: Option<real>)
      requires Valid()
      modifies this`sfxVolume, this`saves, loopingSfx
      ensures GetSettings() == old(GetSettings()).(sfxVolume := Coalesce(v, old(sfxVolume)))
      ensures saves == old(saves) + (if v.Some? then [GetSettings()] else []) && Valid()
    {
      if v.Some? { SetSfxVolume(v.value); }
    }

    method ApplyBgmMuted(m: Option<bool>)
      requires Valid()
      modifies this`bgmMuted, this`saves, currentBgm
      ensures GetSettings() == old(GetSettings()).(bgmMuted := Coalesce(m, old(bgmMuted)))
      ensures saves == old(saves) + (if m.Some? then [GetSettings()] else []) && Valid()
    {
      if m.Some? { SetBgmMuted(m.value); }
    }

    method ApplySfxMuted(m: Option<bool>)
      requires Valid()
      modifies this`sfxMuted, this`saves, loopingSfx
      ensures GetSettings() == old(GetSettings()).(sfxMuted := Coalesce(m, old(sfxMuted)))
      ensures saves == old(saves) + (if m.Some? then [GetSettings()] else []) && Valid()
    {
      if m.Some? { SetSfxMuted(m.value); }
    }

    /** The volume fields of an event, bgm first. */
    method ApplyVolumes(p: PartialSettings)
      requires Valid()
      modifies this`bgmVolume, this`sfxVolume, this`saves, currentBgm, loopingSfx
      ensures GetSettings() == ApplyPartial(old(GetSettings()), p.(bgmMuted := None, sfxMuted := None))
      ensures saves == old(saves) + Trail(old(GetSettings()), p.(bgmMuted := None, sfxMuted := None)) && Valid()
    {
      ghost var log := saves;
      ApplyBgmVolume(p.bgmVolume);
      ghost var mid := saves;
      ApplySfxVolume(p.sfxVolume);
      assert saves == log + (mid[|log|..] + saves[|mid|..]);
    }

    /** The mute fields of an event, bgm first. */
    method ApplyMutes(p: PartialSettings)
      requires Valid()
      modifies this`bgmMuted, this`sfxMuted, this`saves, currentBgm, loopingSfx
      ensures GetSettings() == ApplyPartial(old(GetSettings()), p.(bgmVolume := None, sfxVolume := None))
      ensures saves == old(saves) + Trail(old(GetSettings()), p.(bgmVolume := None, sfxVolume := None)) && Valid()
    {
      ghost var log := saves;
      ApplyBgmMuted(p.bgmMuted);
      ghost var mid := saves;
      ApplySfxMuted(p.sfxMuted);
      assert saves == log + (mid[|log|..] + saves[|mid|..]);
    }

    /** The settings-changed handler: the present fields through their
        setters, in order, each storing a record. */
    method ApplySettings(p: PartialSettings)
      requires Valid()
      modifies this`bgmVolume, this`sfxVolume, this`bgmMuted, this`sfxMuted, this`saves, currentBgm, loopingSfx
      ensures GetSettings() == ApplyPartial(old(GetSettings()), p)
      ensures saves == old(saves) + Trail(old(GetSettings()), p) && Valid()
    {
      ghost var s0 := GetSettings();
      ghost var log := saves;
      ApplyVolumes(p);
      ghost var s1 := GetSettings();
      ghost var mid := saves;
      ApplyMutes(p);
      TrailSplit(s0, p);
      assert mid == log + Trail(s0, p.(bgmMuted := None, sfxMuted := None));
      assert saves == mid + Trail(s1, p.(bgmVolume := None, sfxVolume := None));
    }

    /** Stops every sound of the bound manager and forgets the track and
        the looping effects. */
    method StopAll()
      requires Valid()
      modifies soundManager, this`currentBgm, this`loopingSfx
      ensures currentBgm == null && loopingSfx == {} && Valid()
      ensures soundManager != null ==>
        soundManager.stopAllCalls == old(soundManager.stopAllCalls) + 1 &&
        soundManager.plays == old(soundManager.plays)
    {
      if soundManager != null {
        soundManager.StopAll();
      }
      currentBgm := null;
      loopingSfx := {};
    }
  }

  /** The record stored last is what the next manager loads: a manager
      created after a store starts from the settings in force at that
      store. */
  lemma SavedSettingsReload(saves: seq<Settings>)
    requires |saves| > 0
    ensures Loaded(Some(Full(saves[|saves| - 1]))) == saves[|saves| - 1]
  {
    LoadSaved(saves[|saves| - 1]);
  }
}

/**
 * Volume and mute (js/player.js, setVolume / toggleMute / onPlayerReady / saveVolumeSettings):
 * the clamp, the commands that carry the stored settings to the widget, and the two keys
 * under which they are persisted.
 */
module Volume {
  import opened Widget

  /** The volume background channels are set to when they become ready. */
  const DEFAULT_VOLUME: int := 20
  const VOLUME_KEY: string := "playerVolume"
  const MUTED_KEY: string := "playerMuted"

  /** A value in the persisted key-value store. */
  datatype Setting = Number(n: int) | Flag(b: bool)

  /** `Math.max(0, Math.min(100, value))`. */
  function Clamp(value: int): (r: int)
    ensures 0 <= r <= 100
    ensures 0 <= value <= 100 ==> r == value
    ensures value > 100 ==> r == 100
    ensures value < 0 ==> r == 0
  {
    var capped := if value < 100 then value else 100;
    if capped > 0 then capped else 0
  }

  /**
   * What setVolume and toggleMute send a ready widget: `mute()` when muted, otherwise
   * `unMute()` followed by `setVolume(volume)`.
   */
  function Reapply(muted: bool, volume: int): (cmds: seq<Command>)
    ensures Mute in cmds <==> muted
    ensures UnMute in cmds <==> !muted
    ensures forall v :: SetVolume(v) in cmds <==> !muted && v == volume
  {
    if muted then [Mute] else [UnMute, SetVolume(volume)]
  }

  /** What onPlayerReady sends: `mute()` when muted, otherwise only `setVolume(volume)`. */
  function OnReady(muted: bool, volume: int): (cmds: seq<Command>)
    ensures Mute in cmds <==> muted
    ensures UnMute !in cmds
    ensures forall v :: SetVolume(v) in cmds <==> !muted && v == volume
  {
    if muted then [Mute] else [SetVolume(volume)]
  }

  /** Whatever the widget heard before, after Reapply it is muted exactly when asked, and otherwise plays at `volume`. */
  lemma ReapplyOutput(log: seq<Command>, muted: bool, volume: int)
    ensures AudioAfter(log + Reapply(muted, volume)).muted == muted
    ensures Output(AudioAfter(log + Reapply(muted, volume))) == if muted then 0 else volume
  {
    if muted {
      AudioAfterAppend(log, Mute);
    } else {
      assert log + Reapply(muted, volume) == (log + [UnMute]) + [SetVolume(volume)];
      AudioAfterAppend(log, UnMute);
      AudioAfterAppend(log + [UnMute], SetVolume(volume));
    }
  }

  /**
   * onPlayerReady does not unmute, so it yields the stored settings only on a widget that is
   * not muted already (as a freshly constructed one is not).
   */
  lemma OnReadyOutput(log: seq<Command>, muted: bool, volume: int)
    requires !AudioAfter(log).muted
    ensures AudioAfter(log + OnReady(muted, volume)).muted == muted
    ensures Output(AudioAfter(log + OnReady(muted, volume))) == if muted then 0 else volume
  {
    AudioAfterAppend(log, OnReady(muted, volume)[0]);
  }

  /** A muted widget that only gets OnReady's commands for "not muted" stays silent. */
  lemma OnReadyKeepsStaleMute(log: seq<Command>, volume: int)
    requires AudioAfter(log).muted
    ensures Output(AudioAfter(log + OnReady(false, volume))) == 0
  {
    AudioAfterAppend(log, SetVolume(volume));
  }
}

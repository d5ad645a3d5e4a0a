/**
 * The external video widget, seen only through the commands the player sends it.
 *
 * Every widget instance (the main player and each background channel) is modelled as an
 * append-only log of `Command`s. Replaying a log gives the widget's audible state, which is
 * what "the widget's effective output is 0 iff muted" is stated about.
 */
module Widget {

  datatype Command =
    | Mute
    | UnMute
    | SetVolume(level: int)
    | Load(videoId: string)
    | Cue(videoId: string)
    | SetLoop(on: bool)
    | Play
    | Pause
    | SeekTo(seconds: int)

  /** The audible part of a widget's state: its mute switch and its volume level. */
  datatype Audio = Audio(muted: bool, level: int)

  /** A freshly constructed widget is not muted; its level is the widget's own default. */
  const FRESH: Audio := Audio(false, 100)

  predicate IsAudioCommand(c: Command) {
    c.Mute? || c.UnMute? || c.SetVolume?
  }

  function Apply(a: Audio, c: Command): (r: Audio)
    ensures !IsAudioCommand(c) ==> r == a
  {
    match c
    case Mute => a.(muted := true)
    case UnMute => a.(muted := false)
    case SetVolume(v) => a.(level := v)
    case _ => a
  }

  /** The audible state of a widget that has received exactly `log`, oldest command first. */
  function AudioAfter(log: seq<Command>): Audio
  {
    if log == [] then FRESH else Apply(AudioAfter(log[..|log| - 1]), log[|log| - 1])
  }

  /** What the listener hears: nothing while muted, otherwise the level. */
  function Output(a: Audio): int {
    if a.muted then 0 else a.level
  }

  lemma {:induction false} AudioAfterAppend(log: seq<Command>, c: Command)
    ensures AudioAfter(log + [c]) == Apply(AudioAfter(log), c)
  {
    assert (log + [c])[..|log + [c]| - 1] == log;
  }

  /** Transport commands (load, cue, play, pause, seek, loop) never change what is heard. */
  lemma {:induction false} NonAudioKeepsAudio(log: seq<Command>, tail: seq<Command>)
    requires forall i :: 0 <= i < |tail| ==> !IsAudioCommand(tail[i])
    ensures AudioAfter(log + tail) == AudioAfter(log)
    decreases |tail|
  {
    if tail == [] {
      assert log + tail == log;
    } else {
      var front := tail[..|tail| - 1];
      assert log + tail == (log + front) + [tail[|tail| - 1]];
      AudioAfterAppend(log + front, tail[|tail| - 1]);
      NonAudioKeepsAudio(log, front);
    }
  }
}

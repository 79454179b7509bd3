/**
  AudioFocus3DPriority: the priority-aware variant. Start records the
  smallest priority value among the sources (starting from 256); the
  sources with exactly that priority are the arbiters. On each enabled
  tick an arbiter does not change its own volume: it only overwrites the
  persistent flag `soundOnFOV` with its own visibility. Every other source
  is ramped toward its baseline when the flag, as it stands when that
  source is visited, is true, and toward the attenuated baseline when it
  is false. With `onOffSwitch` off, every source ramps back to baseline.

  Sources are parallel arrays as in AudioFocus; `priority` is read on
  every tick, as AudioSource.priority is.
 */
module AudioFocusPriority {
  import opened Attenuation

  /** The initial value of the prioritySound field. */
  const NoPriority: int := 256

  /**
    The value Start leaves in prioritySound: it starts at 256 and is lowered
    to every smaller priority met while scanning the sources in order.
   */
  function MinPriority(priority: seq<int>): (r: int)
    ensures r <= NoPriority
    ensures forall i :: 0 <= i < |priority| ==> r <= priority[i]
    ensures r == NoPriority || r in priority
    decreases |priority|
  {
    if |priority| == 0 then NoPriority
    else
      var m := MinPriority(priority[..|priority| - 1]);
      if priority[|priority| - 1] < m then priority[|priority| - 1] else m
  }

  /**
    The value of soundOnFOV when an enabled tick visits source k: the
    flag `flag` carried over from the previous tick, overwritten in array
    order by every arbiter among sources 0 .. k-1 with "that arbiter is in
    view".
   */
  function FlagAt(flag: bool, priority: seq<int>, prioritySound: int, angle: seq<real>, fieldOfView: real, k: nat): bool
    requires |angle| == |priority| && k <= |priority|
    decreases k
  {
    if k == 0 then flag
    else if priority[k - 1] == prioritySound then !OutOfView(angle[k - 1], fieldOfView)
    else FlagAt(flag, priority, prioritySound, angle, fieldOfView, k - 1)
  }

  /**
    The flag seen at k is either the one carried over from the previous
    tick or the visibility written by some arbiter visited before k.
   */
  lemma {:induction false} FlagCarriedOrWritten(flag: bool, priority: seq<int>, prioritySound: int, angle: seq<real>, fieldOfView: real, k: nat)
    requires |angle| == |priority| && k <= |priority|
    ensures FlagAt(flag, priority, prioritySound, angle, fieldOfView, k) == flag ||
            exists j :: 0 <= j < k && priority[j] == prioritySound &&
                        FlagAt(flag, priority, prioritySound, angle, fieldOfView, k) == !OutOfView(angle[j], fieldOfView)
    decreases k
  {
    if k > 0 && priority[k - 1] != prioritySound {
      FlagCarriedOrWritten(flag, priority, prioritySound, angle, fieldOfView, k - 1);
    }
  }

  /**
    A source that comes before every arbiter sees the flag exactly as the
    previous tick left it (on the very first tick, the initial false).
   */
  lemma {:induction false} FlagBeforeFirstArbiter(flag: bool, priority: seq<int>, prioritySound: int, angle: seq<real>, fieldOfView: real, k: nat)
    requires |angle| == |priority| && k <= |priority|
    requires forall j :: 0 <= j < k ==> priority[j] != prioritySound
    ensures FlagAt(flag, priority, prioritySound, angle, fieldOfView, k) == flag
    decreases k
  {
    if k > 0 {
      FlagBeforeFirstArbiter(flag, priority, prioritySound, angle, fieldOfView, k - 1);
    }
  }

  /**
    Last write wins: if source j is an arbiter and no source between j and
    k is, the flag seen at k is exactly j's visibility, whatever the earlier
    arbiters or the previous tick said.
   */
  lemma {:induction false} LastArbiterWins(flag: bool, priority: seq<int>, prioritySound: int, angle: seq<real>, fieldOfView: real, j: nat, k: nat)
    requires |angle| == |priority| && j < k <= |priority|
    requires priority[j] == prioritySound
    requires forall m :: j < m < k ==> priority[m] != prioritySound
    ensures FlagAt(flag, priority, prioritySound, angle, fieldOfView, k) == !OutOfView(angle[j], fieldOfView)
    decreases k
  {
    if k - 1 > j {
      LastArbiterWins(flag, priority, prioritySound, angle, fieldOfView, j, k - 1);
    }
  }

  /**
    The level a non-arbiter source is driven toward: its baseline while
    the shared flag says the arbiter is in view, the attenuated baseline
    otherwise. The source's own angle and spatial blend play no part.
   */
  function DuckTarget(initialVol: real, volAtt: real, soundOnFOV: bool): (r: real)
    ensures soundOnFOV ==> r == initialVol
    ensures !soundOnFOV ==> r == Attenuated(initialVol, volAtt)
    ensures 0.01 <= volAtt <= 1.0 && initialVol >= 0.0 ==> 0.01 * initialVol <= r <= initialVol
  {
    if soundOnFOV then initialVol else Attenuated(initialVol, volAtt)
  }

  /**
    Proof helper: what an enabled tick leaves in a source's volume, given
    the flag at its index. An arbiter keeps its volume; any other source
    ramps toward its DuckTarget.
   */
  function Visited(vol: real, initialVol: real, volAtt: real, isArbiter: bool, soundOnFOV: bool, dt: real): real {
    if isArbiter then vol else Ramp(vol, DuckTarget(initialVol, volAtt, soundOnFOV), dt)
  }

  class AudioFocus3DPriority {
    /** audioSources[i].volume, owned by the engine and written by ticks. */
    var volume: array<real>
    /** audioSources[i].priority, owned by the engine and only read here. */
    var priority: array<int>
    /** The baseline volumes snapshotted by Start. */
    var initialVol: array<real>
    /** The arbiters' priority: the smallest priority value found by Start, at most 256. */
    var prioritySound: int
    /** The last visibility written by an arbiter; persists across ticks. */
    var soundOnFOV: bool
    /** The global switch; off sends every source back toward baseline. */
    var onOffSwitch: bool
    /** The attenuation factor, set in the inspector within [0.01, 1.0]. */
    var volAtt: real

    ghost predicate Valid()
      reads this
    {
      volume.Length == priority.Length == initialVol.Length && initialVol != volume
    }

    /**
      The field initialisers and Start: snapshot every source's volume as
      its baseline and lower prioritySound, from 256, to the smallest
      priority among the sources.
     */
    constructor Start(volume: array<real>, priority: array<int>)
      requires volume.Length == priority.Length
      ensures Valid() && fresh(initialVol)
      ensures this.volume == volume && this.priority == priority
      ensures initialVol.Length == volume.Length
      ensures forall i :: 0 <= i < volume.Length ==> initialVol[i] == volume[i]
      ensures prioritySound == MinPriority(priority[..])
      ensures !soundOnFOV && !onOffSwitch && volAtt == 1.0
    {
      this.volume := volume;
      this.priority := priority;
      initialVol := new real[volume.Length];
      prioritySound := NoPriority;
      soundOnFOV := false;
      onOffSwitch := false;
      volAtt := 1.0;
      new;
      for i := 0 to volume.Length
        modifies initialVol, this`prioritySound
        invariant forall j :: 0 <= j < i ==> initialVol[j] == volume[j]
        invariant prioritySound == MinPriority(priority[..i])
      {
        initialVol[i] := volume[i];
        assert priority[..i + 1][..i] == priority[..i];
        if priority[i] < prioritySound {
          prioritySound := priority[i];
        }
      }
      assert priority[..volume.Length] == priority[..];
    }

    /**
      One scheduled tick. With the switch on, the sources are visited in
      array order: an arbiter overwrites soundOnFOV with its visibility and
      keeps its volume; any other source ramps toward the DuckTarget of the
      flag as it stands at that moment. With the switch off, every source
      ramps toward its baseline and the flag is untouched. Baselines,
      priorities and prioritySound never change.
     */
    method FindFOVAudioSources(angle: seq<real>, fieldOfView: real, dt: real)
      requires Valid()
      requires |angle| == volume.Length
      modifies volume, this`soundOnFOV
      ensures Valid()
      ensures soundOnFOV == if onOffSwitch
        then FlagAt(old(soundOnFOV), priority[..], prioritySound, angle, fieldOfView, volume.Length)
        else old(soundOnFOV)
      ensures forall i :: 0 <= i < volume.Length && !onOffSwitch ==>
        volume[i] == Ramp(old(volume[i]), initialVol[i], dt)
      ensures forall i :: 0 <= i < volume.Length && onOffSwitch && priority[i] == prioritySound ==>
        volume[i] == old(volume[i])
      ensures forall i :: 0 <= i < volume.Length && onOffSwitch && priority[i] != prioritySound ==>
        volume[i] == Ramp(old(volume[i]),
                          DuckTarget(initialVol[i], volAtt, FlagAt(old(soundOnFOV), priority[..], prioritySound, angle, fieldOfView, i)),
                          dt)
      ensures unchanged(initialVol) && unchanged(priority)
    {
      if onOffSwitch {
        FollowArbiters(angle, fieldOfView, dt);
      } else {
        RestoreBaselines(dt);
      }
    }

    /** The enabled pass of a tick: arbiters write the flag, the other sources follow it. */
    method FollowArbiters(angle: seq<real>, fieldOfView: real, dt: real)
      requires Valid()
      requires |angle| == volume.Length
      modifies volume, this`soundOnFOV
      ensures Valid()
      ensures soundOnFOV == FlagAt(old(soundOnFOV), priority[..], prioritySound, angle, fieldOfView, volume.Length)
      ensures forall i :: 0 <= i < volume.Length ==>
        volume[i] == Visited(old(volume[i]), initialVol[i], volAtt, priority[i] == prioritySound,
                             FlagAt(old(soundOnFOV), priority[..], prioritySound, angle, fieldOfView, i), dt)
    {
      for i := 0 to volume.Length
        invariant soundOnFOV == FlagAt(old(soundOnFOV), priority[..], prioritySound, angle, fieldOfView, i)
        invariant forall j :: 0 <= j < i ==>
          volume[j] == Visited(old(volume[j]), initialVol[j], volAtt, priority[j] == prioritySound,
                               FlagAt(old(soundOnFOV), priority[..], prioritySound, angle, fieldOfView, j), dt)
        invariant forall j :: i <= j < volume.Length ==> volume[j] == old(volume[j])
      {
        Visit(i, angle, fieldOfView, dt);
      }
    }

    /**
      The enabled pass's visit of source i: an arbiter writes its
      visibility into soundOnFOV and keeps its volume; any other source
      ramps toward the DuckTarget of the flag as it stands.
     */
    method Visit(i: nat, angle: seq<real>, fieldOfView: real, dt: real)
      requires Valid()
      requires i < volume.Length && |angle| == volume.Length
      modifies volume, this`soundOnFOV
      ensures Valid()
      ensures soundOnFOV == if priority[i] == prioritySound then !OutOfView(angle[i], fieldOfView) else old(soundOnFOV)
      ensures volume[i] == Visited(old(volume[i]), initialVol[i], volAtt, priority[i] == prioritySound, old(soundOnFOV), dt)
      ensures forall j :: 0 <= j < volume.Length && j != i ==> volume[j] == old(volume[j])
    {
      if priority[i] == prioritySound {
        if OutOfView(angle[i], fieldOfView) {
          soundOnFOV := false;
        } else {
          soundOnFOV := true;
        }
      } else {
        if soundOnFOV {
          AdjustVolume(i, volume[i], initialVol[i], dt);
        } else {
          AdjustVolume(i, volume[i], Attenuated(initialVol[i], volAtt), dt);
        }
      }
    }

    /** The bypass pass of a tick: every source ramps back toward its baseline. */
    method RestoreBaselines(dt: real)
      requires Valid()
      modifies volume
      ensures Valid()
      ensures forall i :: 0 <= i < volume.Length ==> volume[i] == Ramp(old(volume[i]), initialVol[i], dt)
    {
      for i := 0 to volume.Length
        invariant forall j :: 0 <= j < i ==> volume[j] == Ramp(old(volume[j]), initialVol[j], dt)
        invariant forall j :: i <= j < volume.Length ==> volume[j] == old(volume[j])
      {
        AdjustVolume(i, volume[i], initialVol[i], dt);
      }
    }

    /** Writes source i's volume one ramp step from startVol toward endVol. */
    method AdjustVolume(i: nat, startVol: real, endVol: real, dt: real)
      requires i < volume.Length
      modifies volume
      ensures volume[i] == Ramp(startVol, endVol, dt)
      ensures forall j :: 0 <= j < volume.Length && j != i ==> volume[j] == old(volume[j])
    {
      volume[i] := Lerp(startVol, endVol, RampSpeed * dt);
    }
  }

  /**
    The ordering of one enabled first tick, as a caller sees it. Sources
    A, B, C have priorities 128, 0, 64 and volumes 0.5, 0.8, 1.0; B is the
    arbiter and is in view, A and C are not; volAtt is 0.2 and the frame
    time 20 ms. A is visited before B writes the flag, sees the initial
    false and is ducked to 0.1; B keeps its volume; C sees B's true and
    stays at its baseline although it is itself out of view.
   */
  method FirstTickScenario() returns (a: real, b: real, c: real, flag: bool)
    ensures a == 0.1 && b == 0.8 && c == 1.0 && flag
  {
    var volume := new real[3];
    volume[0], volume[1], volume[2] := 0.5, 0.8, 1.0;
    var priority := new int[3];
    priority[0], priority[1], priority[2] := 128, 0, 64;
    assert priority[..] == [128, 0, 64];
    var focus := new AudioFocus3DPriority.Start(volume, priority);
    focus.volAtt := 0.2;
    focus.onOffSwitch := true;
    var angle := [120.0, 10.0, 120.0];
    assert Attenuated(0.5, 0.2) == 0.1;
    focus.FindFOVAudioSources(angle, 60.0, 0.02);
    a, b, c, flag := volume[0], volume[1], volume[2], focus.soundOnFOV;
  }
}

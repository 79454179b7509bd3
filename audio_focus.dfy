/**
  AudioFocus3D: a component that, every 100 ms, walks the scene's audio
  sources and ramps each source's volume toward its baseline while it is
  in the camera's field of view, and toward the attenuated baseline
  (baseline * volAtt) while it is outside it. Fully 2D sources
  (spatial blend 0) are never attenuated.

  The engine's AudioSource objects are modelled as parallel arrays indexed
  by source: `volume` (the playback volume the component writes) and
  `spatialBlend` (read only). The camera geometry of a tick arrives as
  `angle[i]`, the angle between the camera's forward vector and the
  direction to source i, together with the camera's fieldOfView; the
  frame time Time.deltaTime arrives as `dt`.
 */
module AudioFocus {
  import opened Attenuation

  /**
    The level source i is driven toward on a tick. Only a source that is
    outside the view and not fully 2D gets the attenuated level; a 2D
    source or a source in view always targets its baseline.
   */
  function SourceTarget(initialVol: real, volAtt: real, angle: real, fieldOfView: real, spatialBlend: real): (r: real)
    ensures spatialBlend == 0.0 ==> r == initialVol
    ensures !OutOfView(angle, fieldOfView) ==> r == initialVol
    ensures OutOfView(angle, fieldOfView) && spatialBlend != 0.0 ==> r == Attenuated(initialVol, volAtt)
    ensures r != initialVol ==> OutOfView(angle, fieldOfView) && spatialBlend != 0.0 && r == Attenuated(initialVol, volAtt)
    ensures 0.01 <= volAtt <= 1.0 && initialVol >= 0.0 ==> 0.01 * initialVol <= r <= initialVol
  {
    if OutOfView(angle, fieldOfView) && spatialBlend != 0.0 then Attenuated(initialVol, volAtt) else initialVol
  }

  class AudioFocus3D {
    /** audioSources[i].volume, owned by the engine and written by every tick. */
    var volume: array<real>
    /**
      The spatial blend the tick reads for source i: that of the first
      AudioSource on source i's GameObject, owned by the engine and only
      read here.
     */
    var spatialBlend: array<real>
    /** The baseline volumes snapshotted by Start. */
    var initialVol: array<real>
    /** The attenuation factor, set in the inspector within [0.01, 1.0]. */
    var volAtt: real

    ghost predicate Valid()
      reads this
    {
      volume.Length == spatialBlend.Length == initialVol.Length &&
      volume != spatialBlend && initialVol != volume && initialVol != spatialBlend
    }

    /**
      The field initialisers and Start: take the scene's sources and
      snapshot every source's current volume as its baseline.
     */
    constructor Start(volume: array<real>, spatialBlend: array<real>)
      requires volume.Length == spatialBlend.Length && volume != spatialBlend
      ensures Valid() && fresh(initialVol)
      ensures this.volume == volume && this.spatialBlend == spatialBlend
      ensures initialVol.Length == volume.Length
      ensures forall i :: 0 <= i < volume.Length ==> initialVol[i] == volume[i]
      ensures volAtt == 1.0
    {
      this.volume := volume;
      this.spatialBlend := spatialBlend;
      volAtt := 1.0;
      initialVol := new real[volume.Length];
      new;
      for i := 0 to volume.Length
        modifies initialVol
        invariant forall j :: 0 <= j < i ==> initialVol[j] == volume[j]
      {
        initialVol[i] := volume[i];
      }
    }

    /**
      One scheduled tick: every source, in array order, is ramped toward
      its SourceTarget. Only the volumes change; the baselines, the spatial
      blends and the component's fields stay as they were.
     */
    method FindFOVAudioSources(angle: seq<real>, fieldOfView: real, dt: real)
      requires Valid()
      requires |angle| == volume.Length
      modifies volume
      ensures Valid()
      ensures forall i :: 0 <= i < volume.Length ==>
        volume[i] == Ramp(old(volume[i]), SourceTarget(initialVol[i], volAtt, angle[i], fieldOfView, spatialBlend[i]), dt)
      ensures unchanged(initialVol) && unchanged(spatialBlend)
    {
      for i := 0 to volume.Length
        invariant forall j :: 0 <= j < i ==>
          volume[j] == Ramp(old(volume[j]), SourceTarget(initialVol[j], volAtt, angle[j], fieldOfView, spatialBlend[j]), dt)
        invariant forall j :: i <= j < volume.Length ==> volume[j] == old(volume[j])
      {
        if OutOfView(angle[i], fieldOfView) && spatialBlend[i] != 0.0 {
          AdjustVolume(i, volume[i], Attenuated(initialVol[i], volAtt), dt);
        } else {
          AdjustVolume(i, volume[i], initialVol[i], dt);
        }
      }
    }

    /** Writes source i's volume one ramp step from startVol toward endVol. */
    method AdjustVolume(i: nat, startVol: real, endVol: real, dt: real)
      requires i < volume.Length
      modifies volume
      ensures volume[i] == Ramp(startVol, endVol, dt)
      ensures forall j :: 0 <= j < volume.Length && j != i ==> volume[j] == old(volume[j])
    {
      volume[i] := Lerp(startVol, endVol, RampSpeed * dt);
    }
  }

  /**
    Two sources with baseline 1.0, the first fully 3D (spatial blend 1.0)
    and the second 2D (spatial blend 0), volAtt 0.2, a 60 degree field of
    view and 20 ms frames. With both sources at 90 degrees a tick ducks
    the 3D source to 0.2 and leaves the 2D one at 1.0; once both are back
    at 0 degrees the next tick restores the 3D source to 1.0.
   */
  method ViewScenario() returns (ducked: real, flat: real, restored: real)
    ensures ducked == 0.2 && flat == 1.0 && restored == 1.0
  {
    var volume := new real[2];
    volume[0], volume[1] := 1.0, 1.0;
    var spatialBlend := new real[2];
    spatialBlend[0], spatialBlend[1] := 1.0, 0.0;
    var focus := new AudioFocus3D.Start(volume, spatialBlend);
    focus.volAtt := 0.2;
    focus.FindFOVAudioSources([90.0, 90.0], 60.0, 0.02);
    ducked, flat := volume[0], volume[1];
    focus.FindFOVAudioSources([0.0, 0.0], 60.0, 0.02);
    restored := volume[0];
  }
}

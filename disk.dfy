/** The phases of the disk_to_sphere animation: which copies of the disk draw() shows at
    clock t, where each copy sits along x, how it is turned and what draw2DSpace receives. */
module DiskToSphere {
  import opened RealMath
  import opened Optional
  import opened SpherePatch

  /** One call of draw2DSpace(dir, t) after translate(offset, 0, 0) and rotateX(turn).
      `param` is `None` where draw2DSpace is called without its t argument. */
  datatype Copy = Copy(offset: real, turn: real, dir: real, param: Option<real>)

  /** The copies drawn by draw() at clock value t. */
  function Phase(tr: Trig, t: real): seq<Copy> {
    if t < 1.0 then
      [Copy(0.0, 0.0, 0.0, None)]
    else if t < 4.0 then
      [Copy(-(t - 1.0) * 10.0, 0.0, 0.0, None), Copy((t - 1.0) * 10.0, 0.0, 0.0, None)]
    else if t < 8.0 then
      [Copy(-3.0 * 10.0, 0.0, 0.0, None), Copy(3.0 * 10.0, Min(t - 4.0, tr.pi), 0.0, None)]
    else if t < 12.0 then
      [Copy(-3.0 * 10.0, 0.0, 1.0, Some(t - 8.0)), Copy(3.0 * 10.0, tr.pi, -1.0, Some(t - 8.0))]
    else if t < 100.0 then
      [Copy(Min(P5Map(t, 12.0, 15.0, -3.0, 0.0), 0.0) * 10.0, 0.0, 1.0, Some(tr.pi)),
       Copy(Max(P5Map(t, 12.0, 15.0, 3.0, 0.0), 0.0) * 10.0, tr.pi, -1.0, Some(tr.pi))]
    else
      []
  }

  /** Between t = 1 and t = 100 two copies are drawn, placed symmetrically about x = 0. */
  lemma PhaseMirrored(tr: Trig, t: real)
    ensures |Phase(tr, t)| == (if t < 1.0 then 1 else if t < 100.0 then 2 else 0)
    ensures |Phase(tr, t)| == 2 ==> Phase(tr, t)[0].offset == -Phase(tr, t)[1].offset
    ensures t < 1.0 ==> Phase(tr, t)[0].offset == 0.0
  {
    if 12.0 <= t < 100.0 {
      MergeOffsets(t);
    }
  }

  /** map(t, 12, 15, -3, 0) = t - 15 and map(t, 12, 15, 3, 0) = 15 - t. */
  lemma MergeOffsets(t: real)
    ensures P5Map(t, 12.0, 15.0, -3.0, 0.0) == t - 15.0
    ensures P5Map(t, 12.0, 15.0, 3.0, 0.0) == 15.0 - t
  {
    assert (t - 12.0) / (15.0 - 12.0) * (0.0 - -3.0) == t - 12.0;
    assert (t - 12.0) / (15.0 - 12.0) * (0.0 - 3.0) == 12.0 - t;
  }

  /** From t = 15 on, both hemispheres sit at x = 0 and close into one sphere. */
  lemma PhaseSettled(tr: Trig, t: real)
    requires 15.0 <= t < 100.0
    ensures Phase(tr, t)[0].offset == 0.0 && Phase(tr, t)[1].offset == 0.0
  {
    MergeOffsets(t);
  }

  /** Every copy is drawn with a turn in [0, pi], by 0, 1 or -1, and with a parameter of at
      most pi reaching spherePoint once clamped. */
  lemma PhaseCopies(tr: Trig, t: real, i: int)
    requires Lawful(tr) && 0 <= i < |Phase(tr, t)|
    ensures 0.0 <= Phase(tr, t)[i].turn <= tr.pi
    ensures Phase(tr, t)[i].dir in {0.0, 1.0, -1.0}
    ensures Phase(tr, t)[i].param.None? <==> Phase(tr, t)[i].dir == 0.0
  {
  }

  /** The copies drawn with draw2DSpace(0) are flat: every point of their patch has z = 0,
      whatever parameter it is given. */
  lemma FlatCopies(tr: Trig, t: real, i: int, theta: real, phi: real, param: real)
    requires Lawful(tr) && 0 <= i < |Phase(tr, t)| && Phase(tr, t)[i].param.None?
    ensures PatchPoint(tr, theta, phi, param, Phase(tr, t)[i].dir).z == 0.0
  {
    PhaseCopies(tr, t, i);
    SpherePointFlat(tr, theta, phi, ClampToPi(tr, param), 0.0);
  }
}

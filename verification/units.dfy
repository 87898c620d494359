/** Angle conventions of the Python layer: shape rotations become a fraction
    of a turn, excitation angles and phases become radians. */
module Units {
  import opened Numbers

  /** The rotation handed to the backend by the ellipse, rectangle and
      polygon commands: degrees over 360, or radians over pi/2. */
  function RotationFraction(angle: real, useRadians: bool): (r: real)
    ensures useRadians ==> r * (Pi / 2.0) == angle
    ensures !useRadians ==> r * 360.0 == angle
  {
    if useRadians then angle / (Pi / 2.0) else angle / 360.0
  }

  lemma RotationExamples()
    ensures RotationFraction(90.0, false) == 0.25
    ensures RotationFraction(Pi / 4.0, true) == 0.5
    ensures RotationFraction(0.0, true) == RotationFraction(0.0, false) == 0.0
  {
  }

  /** The same physical angle given in radians yields four times the
      fraction it yields in degrees: the radian path divides by a quarter
      turn where the degree path divides by a full one. */
  lemma RadianFractionIsFourfold(deg: real)
    ensures RotationFraction(deg * Pi / 180.0, true) == 4.0 * RotationFraction(deg, false)
  {
    var r := RotationFraction(deg * Pi / 180.0, true);
    assert r * (Pi / 2.0) == deg * Pi / 180.0;
    assert r * Pi == (deg / 90.0) * Pi;
  }

  /** A right angle given as pi/2 radians becomes a whole turn. */
  lemma RightAngleMismatch()
    ensures RotationFraction(Pi / 2.0, true) == 1.0
    ensures RotationFraction(90.0, false) == 0.25
  {
  }

  /** The conversion the degree path implies: radians over a full turn. */
  function TurnFraction(angle: real, useRadians: bool): (r: real)
    ensures useRadians ==> r * (2.0 * Pi) == angle
    ensures !useRadians ==> r * 360.0 == angle
  {
    if useRadians then angle / (2.0 * Pi) else angle / 360.0
  }

  /** Under the full-turn conversion both units agree on every angle. */
  lemma TurnFractionUnitsAgree(deg: real)
    ensures TurnFraction(deg * Pi / 180.0, true) == TurnFraction(deg, false)
  {
    var r := TurnFraction(deg * Pi / 180.0, true);
    assert r * (2.0 * Pi) == deg * Pi / 180.0;
    assert r * Pi == (deg / 360.0) * Pi;
  }

  /** The (phi, theta) angles and the s and p (amplitude, phase) pairs of a
      plane-wave excitation. */
  datatype PlaneWaveAngles = PlaneWaveAngles(angle: seq<real>, polS: seq<real>, polP: seq<real>) {
    predicate Valid() {
      |angle| == 2 && |polS| == 2 && |polP| == 2
    }
  }

  /** set_excitation_planewave's unit step: in degree mode phi, theta and
      both phases are multiplied by pi/180; amplitudes are never touched. */
  function ExcitationRadians(w: PlaneWaveAngles, useRadians: bool): (r: PlaneWaveAngles)
    requires w.Valid()
    ensures r.Valid()
    ensures useRadians ==> r == w
    ensures r.polS[0] == w.polS[0] && r.polP[0] == w.polP[0]
    ensures !useRadians ==> forall k :: 0 <= k < 2 ==> r.angle[k] * 180.0 == w.angle[k] * Pi
    ensures !useRadians ==> r.polS[1] * 180.0 == w.polS[1] * Pi && r.polP[1] * 180.0 == w.polP[1] * Pi
  {
    if useRadians then w
    else
      var d := Pi / 180.0;
      PlaneWaveAngles([w.angle[0] * d, w.angle[1] * d],
                      [w.polS[0], w.polS[1] * d],
                      [w.polP[0], w.polP[1] * d])
  }

  /** Radians back to degrees for the same four entries. */
  function ExcitationDegrees(w: PlaneWaveAngles): (r: PlaneWaveAngles)
    requires w.Valid()
    ensures r.Valid()
  {
    var d := 180.0 / Pi;
    PlaneWaveAngles([w.angle[0] * d, w.angle[1] * d],
                    [w.polS[0], w.polS[1] * d],
                    [w.polP[0], w.polP[1] * d])
  }

  /** The degree conversion loses nothing: converting back recovers the
      caller's input, and zero angles and phases are left as they are. */
  lemma ExcitationRadiansRoundTrip(w: PlaneWaveAngles)
    requires w.Valid()
    ensures ExcitationDegrees(ExcitationRadians(w, false)) == w
    ensures w.angle == [0.0, 0.0] && w.polS[1] == 0.0 && w.polP[1] == 0.0 ==>
              ExcitationRadians(w, false) == w
  {
    var r := ExcitationRadians(w, false);
    var b := ExcitationDegrees(r);
    ScaleBack(w.angle[0]);
    ScaleBack(w.angle[1]);
    ScaleBack(w.polS[1]);
    ScaleBack(w.polP[1]);
    assert b.angle[0] == w.angle[0] && b.angle[1] == w.angle[1];
    assert b.polS[0] == w.polS[0] && b.polS[1] == w.polS[1];
    assert b.polP[0] == w.polP[0] && b.polP[1] == w.polP[1];
    assert b.angle == w.angle && b.polS == w.polS && b.polP == w.polP;
  }

  lemma ScaleBack(x: real)
    ensures x * (Pi / 180.0) * (180.0 / Pi) == x
  {
    assert (Pi / 180.0) * (180.0 / Pi) == 1.0;
    assert x * (Pi / 180.0) * (180.0 / Pi) == x * ((Pi / 180.0) * (180.0 / Pi));
  }
}

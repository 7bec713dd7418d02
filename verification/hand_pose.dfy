/** How `DJListener` reads a hand: whether it is open (`isHandExtended`),
    whether its frontmost finger points alone (`isFingerSolo`), and where
    that finger is (`getPointingPosition`).

    The tracking SDK's objects are abstracted into records that hold the
    values the listener asks them for: the number of extended fingers, the
    frontmost finger, the sphere radius and the direction angles. */
module HandPose {

  /** A tracked finger as the listener sees it: whether the SDK reports it
      valid and extended, and the X coordinate of its stabilised tip. */
  datatype Finger = Finger(valid: bool, extended: bool, tipX: real)

  /** A tracked hand: the count of its extended fingers, its frontmost
      finger, the radius of the sphere fitted to its curvature, and the
      pitch, yaw and roll of its direction in radians. */
  datatype Hand = Hand(
    extendedCount: nat,
    frontmost: Finger,
    sphereRadius: real,
    pitch: real,
    yaw: real,
    roll: real)

  /** Number of fingers on a hand. */
  const FINGERS: nat := 5

  /** `isHandExtended`: false when fewer than five fingers are extended. */
  predicate IsHandExtended(h: Hand)
    ensures IsHandExtended(h) <==> h.extendedCount >= FINGERS
  {
    h.extendedCount >= FINGERS
  }

  /** `isFingerSolo`: the finger is valid and extended, and it is the only
      extended finger of the hand. A solo finger, whichever finger is tested,
      rules out an open hand, and its pointing position is its tip. */
  predicate IsFingerSolo(h: Hand, f: Finger)
    ensures IsFingerSolo(h, f) ==> !IsHandExtended(h)
    ensures IsFingerSolo(h, f) ==> GetPointingPosition(h, f) == f.tipX
  {
    f.valid && f.extended && h.extendedCount == 1
  }

  /** `getPointingPosition`: the tip's X coordinate of a valid finger, and 0
      for an invalid one. */
  function GetPointingPosition(h: Hand, f: Finger): (x: real)
    ensures f.valid ==> x == f.tipX
    ensures !f.valid ==> x == 0.0
  {
    if f.valid then f.tipX else 0.0
  }

  /** The three modes the listener distinguishes, tested in this order. */
  datatype Pose = Extended | SoloPointing | Neutral

  /** The mode `onFrameHand` selects for a hand. Since a solo finger means
      exactly one extended finger, the solo test decides the mode on its own
      whenever it holds: the modes are exclusive and exhaustive. */
  function Classify(h: Hand): (p: Pose)
    ensures p == Extended <==> h.extendedCount >= FINGERS
    ensures p == SoloPointing <==> IsFingerSolo(h, h.frontmost)
    ensures p == Neutral <==> !IsHandExtended(h) && !IsFingerSolo(h, h.frontmost)
  {
    if IsHandExtended(h) then Extended
    else if IsFingerSolo(h, h.frontmost) then SoloPointing
    else Neutral
  }

  /** A hand has at most five fingers; on such a hand "at least five
      extended" is "every finger extended". */
  lemma ExtendedMeansAllFingers(h: Hand)
    requires h.extendedCount <= FINGERS
    ensures IsHandExtended(h) <==> h.extendedCount == FINGERS
  {
  }

  /** When the frontmost finger points alone, the pointing position is its
      tip: the fallback 0 for an invalid finger is never used. */
  lemma SoloPointerPositionIsTip(h: Hand)
    requires Classify(h) == SoloPointing
    ensures GetPointingPosition(h, h.frontmost) == h.frontmost.tipX
  {
  }
}

/** The records the analyzers return and the payload the worker hands to
    the scorer and the coach (src/cv/types.ts). Every analyzer result is
    always present except the horizon, which the payload type marks
    optional. */
module Types {
  import opened Numeric
  import opened Geometry
  import opened Segments

  datatype SubjectResult = SubjectResult(center: Point, conf: real)

  datatype HorizonResult = HorizonResult(y: real, conf: real)

  /** What scoreThirds and scorePhi return. */
  datatype GridScore = GridScore(subjectScore: real, horizonScore: real, overall: real, best: Option<Point>)

  /** The four spiral orientations: 0 as built, 1 mirrored in x, 2 in y, 3 in both. */
  type Orientation = o: int | 0 <= o <= 3

  datatype SpiralResult = SpiralResult(score: real, orientation: Orientation, eye: Option<Point>)

  datatype SymmetryResult = SymmetryResult(score: real, axisX: real)

  datatype DiagonalBest = TLBR | TRBL

  datatype DiagonalResult = DiagonalResult(score: real, best: DiagonalBest)

  /** `vp` is a point in pixels of the small image. */
  datatype LeadingResult = LeadingResult(convergence: real, vp: Option<Point>, kept: seq<Segment>)

  datatype Analysis = Analysis(
    scale: real,
    leading: LeadingResult,
    horizon: Option<HorizonResult>,
    thirds: GridScore,
    phi: GridScore,
    spiral: SpiralResult,
    symmetry: SymmetryResult,
    diagonal: DiagonalResult,
    subject: SubjectResult)
}

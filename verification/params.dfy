/** The decomposition parameters the binding passes to the engine, and the clamping
    it applies to three of them before the call. */
module Params {

  /** The engine's parameter record, holding the values the binding received. Only the
      three clamped fields matter to this model; the others are carried unchanged. */
  datatype Parameters = Parameters(
    resolution: int,
    concavity: real,
    planeDownsampling: int,
    convexhullDownsampling: int,
    alpha: real,
    beta: real,
    maxConvexHulls: int,
    pca: int,
    mode: int,
    maxNumVerticesPerCH: int,
    minVolumePerCH: real,
    convexhullApproximation: int)

  /** Resolutions below this switch the voxel subdivision off. */
  const MinResolution: int := 64

  /** The values the clamps leave alone: a resolution that is 0 or at least
      `MinResolution`, and down-sampling factors of at least 1. */
  predicate Normal(p: Parameters)
  {
    && (p.resolution == 0 || p.resolution >= MinResolution)
    && p.planeDownsampling >= 1
    && p.convexhullDownsampling >= 1
  }

  /** The clamps applied before the engine is called. */
  function Normalize(p: Parameters): (q: Parameters)
    ensures p.resolution < MinResolution ==> q.resolution == 0
    ensures p.resolution >= MinResolution ==> q.resolution == p.resolution
    ensures p.planeDownsampling < 1 ==> q.planeDownsampling == 1
    ensures p.planeDownsampling >= 1 ==> q.planeDownsampling == p.planeDownsampling
    ensures p.convexhullDownsampling < 1 ==> q.convexhullDownsampling == 1
    ensures p.convexhullDownsampling >= 1 ==> q.convexhullDownsampling == p.convexhullDownsampling
    ensures Normal(q)
    ensures q.(resolution := p.resolution, planeDownsampling := p.planeDownsampling,
               convexhullDownsampling := p.convexhullDownsampling) == p
  {
    p.(resolution := if p.resolution < MinResolution then 0 else p.resolution,
       planeDownsampling := if p.planeDownsampling < 1 then 1 else p.planeDownsampling,
       convexhullDownsampling := if p.convexhullDownsampling < 1 then 1 else p.convexhullDownsampling)
  }

  /** The clamps change exactly the parameter records that are not already normal. */
  lemma NormalizeFixesExactlyNormal(p: Parameters)
    ensures Normalize(p) == p <==> Normal(p)
  {
    if Normal(p) {
      assert Normalize(p).resolution == p.resolution;
    }
  }

  /** Clamping twice is clamping once. */
  lemma NormalizeIdempotent(p: Parameters)
    ensures Normalize(Normalize(p)) == Normalize(p)
  {
    NormalizeFixesExactlyNormal(Normalize(p));
  }
}

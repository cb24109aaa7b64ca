/** The hull aggregation of `ComputeHACD`: each hull's flat buffers are repacked into
    the nested vertex and face lists returned to the caller. */
module Aggregate {

  import opened Meshes
  import Seqs

  /** `mesh_verts` and `mesh_faces`: one entry per hull, in engine order, each a list
      of coordinate triples and of index triples. */
  datatype Aggregated = Aggregated(verts: seq<seq<seq<real>>>, faces: seq<seq<seq<int>>>)

  /** The aggregation loop over hulls `0 .. nConvexHulls - 1`. No value is changed: the
      nested lists flatten back to each hull's buffers. */
  function AggregateHulls(hulls: seq<ConvexHull>): (r: Aggregated)
    ensures |r.verts| == |hulls| && |r.faces| == |hulls|
    ensures forall p :: 0 <= p < |hulls| ==> |r.verts[p]| == NPoints(hulls[p])
    ensures forall p :: 0 <= p < |hulls| ==> |r.faces[p]| == NTriangles(hulls[p])
    ensures forall p, k :: 0 <= p < |hulls| && 0 <= k < |r.verts[p]| ==> |r.verts[p][k]| == 3
    ensures forall p, k :: 0 <= p < |hulls| && 0 <= k < |r.faces[p]| ==> |r.faces[p][k]| == 3
    ensures forall p :: 0 <= p < |hulls| && WellFormed(hulls[p]) ==>
      Seqs.Flatten(r.verts[p]) == hulls[p].points && Seqs.Flatten(r.faces[p]) == hulls[p].triangles
  {
    var r := Aggregated(
      seq(|hulls|, p requires 0 <= p < |hulls| => Triples(hulls[p].points)),
      seq(|hulls|, p requires 0 <= p < |hulls| => Triples(hulls[p].triangles)));
    forall p | 0 <= p < |hulls|
      ensures Seqs.Flatten(Triples(hulls[p].points)) == hulls[p].points[..3 * NPoints(hulls[p])]
      ensures Seqs.Flatten(Triples(hulls[p].triangles)) == hulls[p].triangles[..3 * NTriangles(hulls[p])]
    {
      TriplesFlatten(hulls[p].points);
      TriplesFlatten(hulls[p].triangles);
    }
    r
  }
}

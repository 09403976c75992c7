/** The configured point list: replacing or adding by identity. */
module Points {
  import opened Text
  import opened Identity
  import opened Model

  /** Index of the first point with this identity, or the length of the list. */
  function Slot(points: seq<PointConfig>, id: PointIdentity): (i: nat)
    ensures i <= |points| && (i < |points| ==> PointIdentityOf(points[i]) == id)
    ensures forall k :: 0 <= k < i ==> PointIdentityOf(points[k]) != id
  {
    if points == [] || PointIdentityOf(points[0]) == id then 0 else 1 + Slot(points[1..], id)
  }

  lemma SlotIs(points: seq<PointConfig>, id: PointIdentity, i: nat)
    requires i <= |points| && (i < |points| ==> PointIdentityOf(points[i]) == id)
    requires forall k :: 0 <= k < i ==> PointIdentityOf(points[k]) != id
    ensures Slot(points, id) == i
  {
  }

  /** Upsert by identity: the first point with the same identity is replaced, else the point is added. */
  function Upsert(points: seq<PointConfig>, point: PointConfig): seq<PointConfig> {
    var i := Slot(points, PointIdentityOf(point));
    if i < |points| then points[i := point] else points + [point]
  }

  /** The handler's search and replacement. */
  method UpsertPoint(points: seq<PointConfig>, point: PointConfig) returns (r: seq<PointConfig>)
    ensures r == Upsert(points, point)
  {
    var identity := PointIdentityOf(point);
    var i := 0;
    while i < |points| && PointIdentityOf(points[i]) != identity
      invariant 0 <= i <= |points|
      invariant forall k :: 0 <= k < i ==> PointIdentityOf(points[k]) != identity
    {
      i := i + 1;
    }
    SlotIs(points, identity, i);
    r := if i < |points| then points[i := point] else points + [point];
  }

  /** Every other identity keeps its points, their contents and their order. */
  function Others(points: seq<PointConfig>, id: PointIdentity): seq<PointConfig> {
    if points == [] then []
    else
      var n := |points| - 1;
      if PointIdentityOf(points[n]) == id then Others(points[..n], id) else Others(points[..n], id) + [points[n]]
  }

  lemma {:induction false} OthersReplace(points: seq<PointConfig>, i: nat, point: PointConfig)
    requires i < |points| && PointIdentityOf(points[i]) == PointIdentityOf(point)
    ensures Others(points[i := point], PointIdentityOf(point)) == Others(points, PointIdentityOf(point))
  {
    var n := |points| - 1;
    if i < n {
      OthersReplace(points[..n], i, point);
      assert points[i := point][..n] == points[..n][i := point];
    } else {
      assert points[i := point][..n] == points[..n];
    }
  }

  lemma UpsertKeepsOthers(points: seq<PointConfig>, point: PointConfig)
    ensures Others(Upsert(points, point), PointIdentityOf(point)) == Others(points, PointIdentityOf(point))
    ensures exists i :: 0 <= i < |Upsert(points, point)| && Upsert(points, point)[i] == point
  {
    var i := Slot(points, PointIdentityOf(point));
    if i < |points| {
      OthersReplace(points, i, point);
    } else {
      assert (points + [point])[..|points|] == points;
    }
    assert Upsert(points, point)[i] == point;
  }

  lemma UpsertIdempotent(points: seq<PointConfig>, point: PointConfig)
    ensures Upsert(Upsert(points, point), point) == Upsert(points, point)
  {
    var i := Slot(points, PointIdentityOf(point));
    SlotIs(Upsert(points, point), PointIdentityOf(point), i);
  }

  /** No two configured points share an identity. */
  ghost predicate Distinct(points: seq<PointConfig>) {
    forall i, j :: 0 <= i < j < |points| ==> PointIdentityOf(points[i]) != PointIdentityOf(points[j])
  }

  lemma UpsertKeepsDistinct(points: seq<PointConfig>, point: PointConfig)
    requires Distinct(points)
    ensures Distinct(Upsert(points, point))
  {
    var i := Slot(points, PointIdentityOf(point));
    var r := Upsert(points, point);
    forall a, b | 0 <= a < b < |r| ensures PointIdentityOf(r[a]) != PointIdentityOf(r[b]) {
      if i < |points| {
        assert PointIdentityOf(points[a]) != PointIdentityOf(points[b]);
      }
    }
  }

  // ---- merging a list of points ----

  /** `merge_imported_points`, taken as an upsert of each imported point in turn. */
  function Merge(points: seq<PointConfig>, imported: seq<PointConfig>): seq<PointConfig> {
    if imported == [] then points
    else Upsert(Merge(points, imported[..|imported| - 1]), imported[|imported| - 1])
  }

  /** The last imported point with an identity. */
  function LastOf(imported: seq<PointConfig>, id: PointIdentity): Option<PointConfig> {
    if imported == [] then None
    else if PointIdentityOf(imported[|imported| - 1]) == id then Some(imported[|imported| - 1])
    else LastOf(imported[..|imported| - 1], id)
  }

  /** The points whose identities are not imported, in their order. */
  function Unmentioned(points: seq<PointConfig>, imported: seq<PointConfig>): seq<PointConfig> {
    if points == [] then []
    else
      var n := |points| - 1;
      Unmentioned(points[..n], imported)
      + if LastOf(imported, PointIdentityOf(points[n])).None? then [points[n]] else []
  }

  lemma {:induction false} UnmentionedReplace(points: seq<PointConfig>, imported: seq<PointConfig>, i: nat,
                                              point: PointConfig)
    requires i < |points| && PointIdentityOf(points[i]) == PointIdentityOf(point)
    requires LastOf(imported, PointIdentityOf(point)).Some?
    ensures Unmentioned(points[i := point], imported) == Unmentioned(points, imported)
  {
    hide Identify, LastOf;
    var n := |points| - 1;
    if i < n {
      UnmentionedReplace(points[..n], imported, i, point);
      assert points[i := point][..n] == points[..n][i := point];
    } else {
      assert points[i := point][..n] == points[..n];
    }
  }

  lemma UnmentionedUpsert(points: seq<PointConfig>, imported: seq<PointConfig>, point: PointConfig)
    requires LastOf(imported, PointIdentityOf(point)).Some?
    ensures Unmentioned(Upsert(points, point), imported) == Unmentioned(points, imported)
  {
    hide Identify, LastOf;
    var i := Slot(points, PointIdentityOf(point));
    if i < |points| {
      UnmentionedReplace(points, imported, i, point);
    } else {
      assert (points + [point])[..|points|] == points;
      assert Unmentioned(points, imported) + [] == Unmentioned(points, imported);
    }
  }

  lemma {:induction false} Mentioned(imported: seq<PointConfig>, k: nat)
    requires k < |imported|
    ensures LastOf(imported, PointIdentityOf(imported[k])).Some?
  {
    hide Identify;
    if k < |imported| - 1 { Mentioned(imported[..|imported| - 1], k); }
  }

  lemma {:induction false} MergePrefix(points: seq<PointConfig>, imported: seq<PointConfig>, k: nat)
    requires k <= |imported|
    ensures Unmentioned(Merge(points, imported[..k]), imported) == Unmentioned(points, imported)
  {
    hide Identify, LastOf, Upsert, Unmentioned;
    if k > 0 {
      MergePrefix(points, imported, k - 1);
      Mentioned(imported, k - 1);
      assert imported[..k][..k - 1] == imported[..k - 1];
      UnmentionedUpsert(Merge(points, imported[..k - 1]), imported, imported[k - 1]);
    }
  }

  /** A merge leaves every point it does not mention, and their order; and a duplicate-free list stays so. */
  lemma MergeKeepsOthers(points: seq<PointConfig>, imported: seq<PointConfig>)
    ensures Unmentioned(Merge(points, imported), imported) == Unmentioned(points, imported)
    ensures Distinct(points) ==> Distinct(Merge(points, imported))
  {
    MergePrefix(points, imported, |imported|);
    assert imported[..|imported|] == imported;
    if Distinct(points) { MergeKeepsDistinct(points, imported); }
  }

  lemma {:induction false} MergeKeepsDistinct(points: seq<PointConfig>, imported: seq<PointConfig>)
    requires Distinct(points)
    ensures Distinct(Merge(points, imported))
  {
    hide Distinct, Upsert;
    if imported != [] {
      MergeKeepsDistinct(points, imported[..|imported| - 1]);
      UpsertKeepsDistinct(Merge(points, imported[..|imported| - 1]), imported[|imported| - 1]);
    }
  }

  /** After a merge each imported identity's first slot holds the last import of that identity. */
  lemma {:induction false} MergeHolds(points: seq<PointConfig>, imported: seq<PointConfig>, id: PointIdentity)
    requires LastOf(imported, id).Some?
    ensures var m := Merge(points, imported);
            Slot(m, id) < |m| && m[Slot(m, id)] == LastOf(imported, id).value
  {
    var n := |imported| - 1;
    var before, last := Merge(points, imported[..n]), imported[n];
    var m := Merge(points, imported);
    var i := Slot(before, PointIdentityOf(last));
    if PointIdentityOf(last) == id {
      SlotIs(m, id, i);
    } else {
      MergeHolds(points, imported[..n], id);
      SlotIs(m, id, Slot(before, id));
    }
  }

  /** Merging into a list that holds every import of the prefix's identities already changes only
      those first slots, to the prefix's last import. */
  lemma {:induction false} MergeInto(merged: seq<PointConfig>, imported: seq<PointConfig>)
    requires forall k :: 0 <= k < |imported| ==> Slot(merged, PointIdentityOf(imported[k])) < |merged|
    ensures |Merge(merged, imported)| == |merged|
    ensures forall i :: 0 <= i < |merged| ==>
      var id := PointIdentityOf(merged[i]);
      Merge(merged, imported)[i] ==
        if LastOf(imported, id).Some? && i == Slot(merged, id) then LastOf(imported, id).value else merged[i]
  {
    if imported != [] {
      var n := |imported| - 1;
      var last, before := imported[n], Merge(merged, imported[..n]);
      forall k | 0 <= k < n ensures Slot(merged, PointIdentityOf(imported[..n][k])) < |merged| {
        assert imported[..n][k] == imported[k];
      }
      MergeInto(merged, imported[..n]);
      forall i | 0 <= i < |merged| ensures PointIdentityOf(before[i]) == PointIdentityOf(merged[i]) {
        var id := PointIdentityOf(merged[i]);
        if LastOf(imported[..n], id).Some? { LastOfIdentity(imported[..n], id); }
      }
      SlotIs(before, PointIdentityOf(last), Slot(merged, PointIdentityOf(last)));
    }
  }

  lemma {:induction false} LastOfIdentity(imported: seq<PointConfig>, id: PointIdentity)
    requires LastOf(imported, id).Some?
    ensures PointIdentityOf(LastOf(imported, id).value) == id
  {
    if PointIdentityOf(imported[|imported| - 1]) != id {
      LastOfIdentity(imported[..|imported| - 1], id);
    }
  }

  lemma {:induction false} LastOfExists(imported: seq<PointConfig>, k: nat)
    requires k < |imported|
    ensures LastOf(imported, PointIdentityOf(imported[k])).Some?
  {
    if k < |imported| - 1 {
      LastOfExists(imported[..|imported| - 1], k);
    }
  }

  /** Merging the same list a second time changes nothing, duplicates in it included. */
  lemma MergeIdempotent(points: seq<PointConfig>, imported: seq<PointConfig>)
    ensures Merge(Merge(points, imported), imported) == Merge(points, imported)
  {
    var merged := Merge(points, imported);
    forall k | 0 <= k < |imported| ensures Slot(merged, PointIdentityOf(imported[k])) < |merged| {
      LastOfExists(imported, k);
      MergeHolds(points, imported, PointIdentityOf(imported[k]));
    }
    MergeInto(merged, imported);
    forall i | 0 <= i < |merged| ensures Merge(merged, imported)[i] == merged[i] {
      var id := PointIdentityOf(merged[i]);
      if LastOf(imported, id).Some? { MergeHolds(points, imported, id); }
    }
  }
}

/**
 * The category remap built in `COCODataset.__init__`: catalog category
 * ids to contiguous labels 1..K in `getCatIds()` order, and back.
 */
module CategoryRemap {

  /**
   * `{v: i + 1 for i, v in enumerate(catIds)}`. A dict comprehension
   * inserts in order, so an id listed twice keeps its last position.
   */
  function ContiguousIds(catIds: seq<int>): (m: map<int, int>)
    ensures m.Keys == set c | c in catIds
  {
    if catIds == [] then map[]
    else
      var n := |catIds| - 1;
      assert forall c :: c in catIds <==> c in catIds[..n] || c == catIds[n];
      ContiguousIds(catIds[..n])[catIds[n] := n + 1]
  }

  /**
   * Every enumerated id maps to a label in 1..K whose position in the
   * enumeration holds that id, and no later position holds it.
   */
  lemma {:induction false} ContiguousIdAt(catIds: seq<int>, c: int)
    requires c in catIds
    ensures c in ContiguousIds(catIds)
    ensures 1 <= ContiguousIds(catIds)[c] <= |catIds|
    ensures catIds[ContiguousIds(catIds)[c] - 1] == c
    ensures forall j :: ContiguousIds(catIds)[c] <= j < |catIds| ==> catIds[j] != c
  {
    var n := |catIds| - 1;
    if c != catIds[n] {
      assert c in catIds[..n];
      ContiguousIdAt(catIds[..n], c);
    }
  }

  /** Distinct ids never share a label. */
  lemma ContiguousIdsInjective(catIds: seq<int>, c: int, d: int)
    requires c in catIds && d in catIds && c != d
    ensures ContiguousIds(catIds)[c] != ContiguousIds(catIds)[d]
  {
    ContiguousIdAt(catIds, c);
    ContiguousIdAt(catIds, d);
  }

  predicate Distinct(s: seq<int>) {
    forall i, j :: 0 <= i < j < |s| ==> s[i] != s[j]
  }

  /** With a duplicate-free enumeration, the i-th id gets label i + 1. */
  lemma ContiguousIdsOfDistinct(catIds: seq<int>, i: nat)
    requires Distinct(catIds) && i < |catIds|
    ensures ContiguousIds(catIds)[catIds[i]] == i + 1
  {
    ContiguousIdAt(catIds, catIds[i]);
  }

  /**
   * `{v: k for k, v in fwd.items()}`, visiting the keys of `fwd` through
   * the enumeration it was built from (its insertion order; a repeated id
   * rewrites the same entry).
   */
  function JsonIds(fwd: map<int, int>, order: seq<int>): (inv: map<int, int>)
    requires forall c :: c in order ==> c in fwd
    ensures inv.Keys == set c | c in order :: fwd[c]
  {
    if order == [] then map[]
    else
      var n := |order| - 1;
      assert forall c :: c in order <==> c in order[..n] || c == order[n];
      JsonIds(fwd, order[..n])[fwd[order[n]] := order[n]]
  }

  /** The two maps the dataset keeps. */
  datatype Remap = Remap(jsonToContiguous: map<int, int>, contiguousToJson: map<int, int>)

  function BuildRemap(catIds: seq<int>): (r: Remap)
    ensures r.jsonToContiguous.Keys == set c | c in catIds
    ensures forall d :: d in r.contiguousToJson <==> exists c :: c in catIds && r.jsonToContiguous[c] == d
  {
    var fwd := ContiguousIds(catIds);
    Remap(fwd, JsonIds(fwd, catIds))
  }

  /** The inverse undoes the forward map on every id it was built from. */
  lemma {:induction false} JsonIdsInverts(catIds: seq<int>, order: seq<int>, c: int)
    requires forall x :: x in order ==> x in catIds
    requires c in order
    ensures ContiguousIds(catIds)[c] in JsonIds(ContiguousIds(catIds), order)
    ensures JsonIds(ContiguousIds(catIds), order)[ContiguousIds(catIds)[c]] == c
  {
    var fwd := ContiguousIds(catIds);
    var n := |order| - 1;
    if c != order[n] {
      assert c in order[..n];
      JsonIdsInverts(catIds, order[..n], c);
      ContiguousIdsInjective(catIds, c, order[n]);
    }
  }

  /**
   * The remap is a bijection between the enumerated ids and its labels:
   * `contiguousToJson[jsonToContiguous[c]] == c` for every enumerated c and
   * `jsonToContiguous[contiguousToJson[d]] == d` for every label d.
   */
  lemma RemapRoundTrips(catIds: seq<int>)
    ensures forall c :: c in catIds ==>
      BuildRemap(catIds).jsonToContiguous[c] in BuildRemap(catIds).contiguousToJson &&
      BuildRemap(catIds).contiguousToJson[BuildRemap(catIds).jsonToContiguous[c]] == c
    ensures forall d :: d in BuildRemap(catIds).contiguousToJson ==>
      BuildRemap(catIds).contiguousToJson[d] in BuildRemap(catIds).jsonToContiguous &&
      BuildRemap(catIds).jsonToContiguous[BuildRemap(catIds).contiguousToJson[d]] == d
  {
    var r := BuildRemap(catIds);
    forall c | c in catIds
      ensures r.jsonToContiguous[c] in r.contiguousToJson && r.contiguousToJson[r.jsonToContiguous[c]] == c
    {
      JsonIdsInverts(catIds, catIds, c);
    }
    forall d | d in r.contiguousToJson
      ensures r.contiguousToJson[d] in r.jsonToContiguous && r.jsonToContiguous[r.contiguousToJson[d]] == d
    {
      var c :| c in catIds && r.jsonToContiguous[c] == d;
      JsonIdsInverts(catIds, catIds, c);
    }
  }

  /** Every label is in 1..K, so 0 (background) is never assigned. */
  lemma LabelsPositive(catIds: seq<int>, c: int)
    requires c in catIds
    ensures 1 <= BuildRemap(catIds).jsonToContiguous[c] <= |catIds|
  {
    ContiguousIdAt(catIds, c);
  }

  /**
   * The labels in use are exactly 1..K when the enumeration has no
   * duplicates: the inverse is defined on 1..K and nowhere else, and every
   * label in it is the image of an enumerated id.
   */
  lemma {:induction false} LabelsAreOneToK(catIds: seq<int>)
    requires Distinct(catIds)
    ensures forall d :: d in BuildRemap(catIds).contiguousToJson <==> 1 <= d <= |catIds|
  {
    var r := BuildRemap(catIds);
    forall d | d in r.contiguousToJson ensures 1 <= d <= |catIds| {
      var c :| c in catIds && r.jsonToContiguous[c] == d;
      ContiguousIdAt(catIds, c);
    }
    forall d | 1 <= d <= |catIds| ensures d in r.contiguousToJson {
      ContiguousIdsOfDistinct(catIds, d - 1);
      assert catIds[d - 1] in catIds;
    }
  }
}

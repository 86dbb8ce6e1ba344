/** Label selection, as the webhook computes it and as the API server's list calls mean it. */
module Selector {
  import opened Types

  /** The second map is part of the first: what a label selector asks of a pod's labels. */
  predicate Included(labels: map<string, string>, selector: map<string, string>) {
    forall k :: k in selector ==> k in labels && labels[k] == selector[k]
  }

  lemma IncludedIsSubset(labels: map<string, string>, selector: map<string, string>)
    ensures Included(labels, selector) <==> selector.Items <= labels.Items
  {
    if Included(labels, selector) {
      forall kv | kv in selector.Items
        ensures kv in labels.Items
      {
        assert kv.0 in selector;
      }
    } else {
      var k :| k in selector && (k !in labels || labels[k] != selector[k]);
      assert (k, selector[k]) in selector.Items && (k, selector[k]) !in labels.Items;
    }
  }

  /** Go ranges over a map in any order, and this one returns at the first miss. */
  method ContainsAll(mapA: map<string, string>, mapB: map<string, string>) returns (all: bool)
    ensures all <==> Included(mapA, mapB)
    ensures all <==> mapB.Items <= mapA.Items
  {
    IncludedIsSubset(mapA, mapB);
    var rest := mapB.Keys;
    while rest != {}
      invariant rest <= mapB.Keys
      invariant forall k :: k in mapB && k !in rest ==> k in mapA && mapA[k] == mapB[k]
      decreases rest
    {
      var k :| k in rest;
      if k !in mapA || mapA[k] != mapB[k] { return false; }
      rest := rest - {k};
    }
    all := true;
  }

  /** The first DataSet of a list that selects the labels. */
  function FirstSelecting(labels: map<string, string>, list: seq<DataSet>): Option<DataSet> {
    if list == [] then None
    else if Included(labels, list[0].selector) then Some(list[0])
    else FirstSelecting(labels, list[1..])
  }

  lemma {:induction false} FirstSelectingIs(labels: map<string, string>, list: seq<DataSet>)
    ensures match FirstSelecting(labels, list)
            case None => forall ds :: ds in list ==> !Included(labels, ds.selector)
            case Some(ds) =>
              exists i :: 0 <= i < |list| && list[i] == ds && Included(labels, ds.selector)
                          && forall j :: 0 <= j < i ==> !Included(labels, list[j].selector)
  {
    if list != [] && !Included(labels, list[0].selector) {
      FirstSelectingIs(labels, list[1..]);
      if FirstSelecting(labels, list).Some? {
        var ds := FirstSelecting(labels, list).value;
        var i :| 0 <= i < |list[1..]| && list[1..][i] == ds && Included(labels, ds.selector)
                 && forall j :: 0 <= j < i ==> !Included(labels, list[1..][j].selector);
        assert list[i + 1] == ds;
        assert forall j :: 0 < j < i + 1 ==> list[j] == list[1..][j - 1];
      }
    }
  }

  method FindDataSetForPod(labels: map<string, string>, list: seq<DataSet>) returns (found: Option<DataSet>)
    ensures found == FirstSelecting(labels, list)
  {
    for i := 0 to |list|
      invariant FirstSelecting(labels, list) == FirstSelecting(labels, list[i..])
    {
      var selects := ContainsAll(labels, list[i].selector);
      if selects { return Some(list[i]); }
    }
    found := None;
  }
}

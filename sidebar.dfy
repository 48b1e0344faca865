/**
 * The sidebar both shells draw (frontend/src/App.jsx and frontend/rev-front/src/App.jsx): a list of
 * view keys, each item carrying the `active` class when its key is the active view.
 */
module Sidebar {

  /** No key occurs twice. */
  predicate Distinct(keys: seq<string>) {
    forall i, j :: 0 <= i < j < |keys| ==> keys[i] != keys[j]
  }

  /**
   * `activeView === key ? 'active' : ''` for every item: the marked items are those whose key is the
   * active view, so over distinct keys at most one item is marked, and one is marked exactly when
   * the active view is one of the keys.
   */
  function ActiveMarks(keys: seq<string>, activeView: string): (marks: seq<bool>)
    ensures |marks| == |keys|
    ensures forall i :: 0 <= i < |marks| ==> (marks[i] <==> keys[i] == activeView)
    ensures Distinct(keys) ==>
              forall i, j :: 0 <= i < |marks| && 0 <= j < |marks| && marks[i] && marks[j] ==> i == j
    ensures (exists i :: 0 <= i < |marks| && marks[i]) <==> activeView in keys
  {
    seq(|keys|, i requires 0 <= i < |keys| => keys[i] == activeView)
  }
}

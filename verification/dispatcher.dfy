/**
  The request dispatcher: predicates are tried in registration order and the
  first handler whose predicate holds is chosen.
*/
module Dispatcher {
  import opened Wrappers

  /** The position of the first element of `hs` that `matches`, if any. */
  function FirstMatch<H>(hs: seq<H>, matches: H -> bool): (r: Option<nat>)
    ensures r.Some? ==> r.value < |hs| && matches(hs[r.value])
    ensures r.Some? ==> forall j :: 0 <= j < r.value ==> !matches(hs[j])
    ensures r.None? ==> forall j :: 0 <= j < |hs| ==> !matches(hs[j])
  {
    if |hs| == 0 then None
    else if matches(hs[0]) then Some(0)
    else
      match FirstMatch(hs[1..], matches)
      case None => None
      case Some(k) => Some(k + 1)
  }

  /** The handler the dispatcher selects: the earliest registered one that matches. */
  function Select<H>(hs: seq<H>, matches: H -> bool): (r: Option<H>)
    ensures r.Some? ==>
      exists i :: 0 <= i < |hs| && hs[i] == r.value && matches(hs[i]) && (forall j :: 0 <= j < i ==> !matches(hs[j]))
    ensures r.None? <==> forall h :: h in hs ==> !matches(h)
  {
    match FirstMatch(hs, matches)
    case None => None
    case Some(i) => Some(hs[i])
  }

  /** `hs` with the neighbours at `i` and `i + 1` exchanged. */
  function Swap<H>(hs: seq<H>, i: nat): (r: seq<H>)
    requires i + 1 < |hs|
    ensures |r| == |hs| && r[i] == hs[i + 1] && r[i + 1] == hs[i]
    ensures forall j :: 0 <= j < |hs| && j != i && j != i + 1 ==> r[j] == hs[j]
  {
    hs[..i] + [hs[i + 1], hs[i]] + hs[i + 2..]
  }

  /** A position whose element matches and whose predecessors do not is the first match. */
  lemma FirstMatchIsUnique<H>(hs: seq<H>, matches: H -> bool, k: nat)
    requires k < |hs| && matches(hs[k])
    requires forall j :: 0 <= j < k ==> !matches(hs[j])
    ensures FirstMatch(hs, matches) == Some(k)
  {
  }

  /**
    Registration order matters only between handlers that can both match:
    exchanging two neighbours whose predicates never hold together does not
    change the handler selected for a request.
  */
  lemma DisjointSwapKeepsSelection<H>(hs: seq<H>, matches: H -> bool, i: nat)
    requires i + 1 < |hs|
    requires !(matches(hs[i]) && matches(hs[i + 1]))
    ensures Select(Swap(hs, i), matches) == Select(hs, matches)
  {
    var gs := Swap(hs, i);
    match FirstMatch(hs, matches)
    case None =>
      assert forall h :: h in gs ==> h in hs by {
        forall h | h in gs ensures h in hs {
          var j :| 0 <= j < |gs| && gs[j] == h;
          if j == i { assert h == hs[i + 1]; }
          else if j == i + 1 { assert h == hs[i]; }
          else { assert h == hs[j]; }
        }
      }
    case Some(k) =>
      if k < i {
        FirstMatchIsUnique(gs, matches, k);
      } else if k == i {
        FirstMatchIsUnique(gs, matches, i + 1);
      } else if k == i + 1 {
        FirstMatchIsUnique(gs, matches, i);
      } else {
        FirstMatchIsUnique(gs, matches, k);
      }
  }
}

/**
 * The fixed list of agent names: the orchestrator first, then the
 * subagents in alphabetical order.
 */
module AgentNames {
  import opened Assoc

  const Orchestrator := "orchestrator"

  const AllAgentNames: seq<string> := [
    "orchestrator", "analyst", "archivist", "designer", "explorer",
    "fixer", "librarian", "oracle", "prober", "scribe"]

  /** `names.filter(n => n !== drop)`. */
  function Remove(names: seq<string>, drop: string): (r: seq<string>)
    ensures |r| <= |names|
    ensures forall x :: x in r <==> x in names && x != drop
  {
    if |names| == 0 then []
    else
      var init := Remove(names[..|names| - 1], drop);
      var last := names[|names| - 1];
      assert forall x :: x in names <==> x in names[..|names| - 1] || x == last;
      if last == drop then init else init + [last]
  }

  /** Removing a name that does not occur changes nothing. */
  lemma {:induction false} RemoveAbsent(names: seq<string>, drop: string)
    requires drop !in names
    ensures Remove(names, drop) == names
  {
    if |names| > 0 {
      RemoveAbsent(names[..|names| - 1], drop);
    }
  }

  /** Removing the first name, when it occurs nowhere else, leaves the rest in order. */
  lemma RemoveHead(names: seq<string>)
    requires |names| > 0 && names[0] !in names[1..]
    ensures Remove(names, names[0]) == names[1..]
  {
    RemoveFront(names[1..], names[0]);
    assert [names[0]] + names[1..] == names;
  }

  lemma {:induction false} RemoveFront(rest: seq<string>, x: string)
    requires x !in rest
    ensures Remove([x] + rest, x) == rest
  {
    if |rest| == 0 {
      assert Remove([x], x) == Remove([], x) + [];
    } else {
      var init := rest[..|rest| - 1];
      RemoveFront(init, x);
      assert ([x] + rest)[..|rest|] == [x] + init;
    }
  }

  const SubagentNames: seq<string> := Remove(AllAgentNames, Orchestrator)

  predicate IsAgentName(name: string)
  {
    name in AllAgentNames
  }

  predicate IsSubagentName(name: string)
  {
    IsAgentName(name) && name != Orchestrator
  }

  /** Ten distinct names, the orchestrator first. */
  lemma AgentNamesShape()
    ensures |AllAgentNames| == 10 && Distinct(AllAgentNames) && AllAgentNames[0] == Orchestrator
  {
  }

  /** The subagents are every name but the orchestrator, in the same order. */
  lemma SubagentNamesInOrder()
    ensures SubagentNames == AllAgentNames[1..]
    ensures Orchestrator !in SubagentNames
  {
    RemoveHead(AllAgentNames);
  }

  /** `isSubagentName` holds exactly for the names of `SUBAGENT_NAMES`. */
  lemma SubagentNameIff(name: string)
    ensures IsSubagentName(name) <==> name in SubagentNames
  {
  }
}

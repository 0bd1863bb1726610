/** The research screen's rules (TechTree.tsx): when a technology counts as researched or
    available, which state its node shows, and which clicks start research. */
module TechView {
  import opened Types
  import opened Catalogue

  /** `list.every(p => researched.includes(p))`, one element at a time as Array.every walks it. */
  function AllResearched(list: seq<string>, researched: seq<string>): (b: bool)
    ensures b <==> forall p :: p in list ==> p in researched
  {
    if |list| == 0 then true
    else list[0] in researched && AllResearched(list[1..], researched)
  }

  predicate IsResearched(t: string, researched: seq<string>) {
    t in researched
  }

  predicate IsAvailable(tech: TechDef, researched: seq<string>) {
    AllResearched(tech.prerequisites, researched)
  }

  /** How a node is drawn: done, in progress, open to research, or locked. */
  datatype NodeState = Done | InProgress | Open | Locked

  /** The first of researched, being researched, available that holds; locked otherwise. */
  function NodeStateOf(t: string, researched: seq<string>, current: Option<string>): (n: NodeState)
    requires t in TechTree
    ensures n == Done <==> t in researched
    ensures n == InProgress <==> t !in researched && current == Some(t)
    ensures n == Open <==>
              (t !in researched && current != Some(t) && forall p :: p in TechTree[t].prerequisites ==> p in researched)
    ensures n == Locked <==>
              (t !in researched && current != Some(t) && exists p :: p in TechTree[t].prerequisites && p !in researched)
  {
    if IsResearched(t, researched) then Done
    else if current == Some(t) then InProgress
    else if IsAvailable(TechTree[t], researched) then Open
    else Locked
  }

  /** A click on node t: research is requested for t when it is available and not yet done. */
  function Click(t: string, researched: seq<string>): (request: Option<string>)
    requires t in TechTree
    ensures request.Some? ==> request.value == t
    ensures request.Some? <==> (t !in researched && forall p :: p in TechTree[t].prerequisites ==> p in researched)
  {
    if IsAvailable(TechTree[t], researched) && !IsResearched(t, researched) then Some(t) else None
  }

  /** The clickable nodes are the open ones, plus the one in progress when its prerequisites are
      done: a done or locked node never requests research. */
  lemma ClickableNodes(t: string, researched: seq<string>, current: Option<string>)
    requires t in TechTree
    ensures Click(t, researched).Some? <==>
              (NodeStateOf(t, researched, current) == Open
               || (NodeStateOf(t, researched, current) == InProgress && IsAvailable(TechTree[t], researched)))
    ensures NodeStateOf(t, researched, current) in {Done, Locked} ==> Click(t, researched).None?
  {
  }

  /** With more techs researched, availability is kept and a node only moves forward: never back to
      locked, never out of done. */
  lemma NodeStateMonotone(t: string, researched: seq<string>, more: seq<string>, current: Option<string>)
    requires t in TechTree
    requires forall p :: p in researched ==> p in more
    ensures IsAvailable(TechTree[t], researched) ==> IsAvailable(TechTree[t], more)
    ensures NodeStateOf(t, researched, current) == Done ==> NodeStateOf(t, more, current) == Done
    ensures NodeStateOf(t, researched, current) == Open ==> NodeStateOf(t, more, current) in {Open, Done}
    ensures NodeStateOf(t, more, current) == Locked ==> NodeStateOf(t, researched, current) == Locked
  {
  }

  /** A technology without prerequisites is available whatever has been researched. */
  lemma RootsAlwaysAvailable(t: string, researched: seq<string>)
    requires t in TechTree && TechTree[t].prerequisites == []
    ensures IsAvailable(TechTree[t], researched)
    ensures t !in researched ==> Click(t, researched) == Some(t)
  {
  }

  /** basic_eco is the only root of the tree, so a nation that has researched nothing can start
      exactly one technology. */
  lemma FreshNationCanStartOnlyBasicEconomy(t: string)
    requires t in TechTree
    ensures Click(t, []) == Some(t) <==> t == "basic_eco"
  {
    if t != "basic_eco" {
      assert TechTree[t].prerequisites != [];
      var p := TechTree[t].prerequisites[0];
      assert p in TechTree[t].prerequisites && p !in [];
    }
  }
}

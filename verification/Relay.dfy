/** The relay between the nodes (pkg/relay/relay.go): filters that may drop or duplicate a message,
    and a routing table. A random filter's draw is an argument; delays show up as reordering. */
module Relays {
  import opened Protocol

  datatype Action = Drop | Forward | Duplicate

  datatype Filter =
    | DelayRule
    | JitterRule
    | DropRule
    | DuplicateRule
    | PartitionRule(groups: map<NodeId, int>)

  // One filter's answer; `draw` is whether its random draw fell below its probability.
  function Should(filter: Filter, draw: bool, p: Packet): Action {
    match filter
    case DelayRule => Forward
    case JitterRule => Forward
    case DropRule => if draw then Drop else Forward
    case DuplicateRule => if draw then Duplicate else Forward
    case PartitionRule(groups) =>
      if p.from !in groups || p.to !in groups || groups[p.from] != groups[p.to] then Drop else Forward
  }

  type Draws = nat -> bool

  // Some filter of the list answers with this action.
  predicate Answers(filters: seq<Filter>, draws: Draws, p: Packet, action: Action) {
    exists i: nat :: i < |filters| && Should(filters[i], draws(i), p) == action
  }

  // What becomes of a message: any filter can drop it, an unknown target drops it, any filter can
  // double it, and otherwise it is forwarded.
  function Verdict(filters: seq<Filter>, table: map<NodeId, string>, draws: Draws, p: Packet): Action {
    if Answers(filters, draws, p, Drop) || p.to !in table then Drop
    else if Answers(filters, draws, p, Duplicate) then Duplicate
    else Forward
  }

  // The copies the relay puts on the wire: none, one or two, of the same line, to one address.
  function Copies(filters: seq<Filter>, table: map<NodeId, string>, draws: Draws, p: Packet): seq<(string, Packet)> {
    match Verdict(filters, table, draws, p)
    case Drop => []
    case Forward => [(table[p.to], p)]
    case Duplicate => [(table[p.to], p), (table[p.to], p)]
  }

  class Relay {
    var routingTable: map<NodeId, string>
    var filters: seq<Filter>

    constructor ()
      ensures routingTable == map[] && filters == []
    {
      routingTable, filters := map[], [];
    }

    method AddFilter(filter: Filter)
      modifies this`filters
      ensures filters == old(filters) + [filter]
    {
      filters := filters + [filter];
    }

    method ClearFilters()
      modifies this`filters
      ensures filters == []
    {
      filters := [];
    }

    method RegisterNode(id: NodeId, addr: string)
      modifies this`routingTable
      ensures routingTable == old(routingTable)[id := addr]
    {
      routingTable := routingTable[id := addr];
    }

    // Asks the filters in order; the first to drop decides, a duplicate is remembered.
    method ResolveTarget(p: Packet, draws: Draws) returns (addr: string, action: Action)
      ensures action == Verdict(filters, routingTable, draws, p)
      ensures addr == if action == Drop then "" else routingTable[p.to]
    {
      action := Forward;
      for i := 0 to |filters|
        invariant !Answers(filters[..i], draws, p, Drop)
        invariant action == if Answers(filters[..i], draws, p, Duplicate) then Duplicate else Forward
      {
        var answer := Should(filters[i], draws(i), p);
        if answer == Drop {
          assert Answers(filters, draws, p, Drop);
          return "", Drop;
        }
        if answer == Duplicate {
          action := Duplicate;
        }
        AnswersNext(filters, i, draws, p);
      }
      assert filters[..|filters|] == filters;
      if p.to !in routingTable {
        return "", Drop;
      }
      addr := routingTable[p.to];
    }

    // One line read from a connection: what the relay forwards for it.
    method HandleLine(p: Packet, draws: Draws) returns (copies: seq<(string, Packet)>)
      ensures copies == Copies(filters, routingTable, draws, p)
    {
      var addr, action := ResolveTarget(p, draws);
      copies := [];
      if action != Drop {
        copies := copies + [(addr, p)];
        if action == Duplicate {
          copies := copies + [(addr, p)];
        }
      }
    }
  }

  lemma AnswersNext(filters: seq<Filter>, i: nat, draws: Draws, p: Packet)
    requires i < |filters|
    ensures forall action :: Answers(filters[..i + 1], draws, p, action) <==>
      Answers(filters[..i], draws, p, action) || Should(filters[i], draws(i), p) == action
  {
    forall action
      ensures Answers(filters[..i + 1], draws, p, action) <==>
        Answers(filters[..i], draws, p, action) || Should(filters[i], draws(i), p) == action
    {
      assert forall j: nat :: j < i ==> filters[..i + 1][j] == filters[..i][j];
      assert filters[..i + 1][i] == filters[i];
      if Answers(filters[..i], draws, p, action) {
        var j: nat :| j < i && Should(filters[..i][j], draws(j), p) == action;
        assert Should(filters[..i + 1][j], draws(j), p) == action;
      }
    }
  }

  /** A partition isolates: while the rule is installed, no copy of a message between members of
      different groups leaves the relay, whatever the other filters answer. */
  lemma PartitionIsolates(
      filters: seq<Filter>, table: map<NodeId, string>, draws: Draws, p: Packet, groups: map<NodeId, int>)
    requires PartitionRule(groups) in filters
    requires !(p.from in groups && p.to in groups && groups[p.from] == groups[p.to])
    ensures Copies(filters, table, draws, p) == []
  {
    var i: nat :| i < |filters| && filters[i] == PartitionRule(groups);
    assert Should(filters[i], draws(i), p) == Drop;
  }

  // Rule i of the list stops the message: by chance, or because a partition lies in between.
  predicate Stops(filters: seq<Filter>, draws: Draws, p: Packet, i: nat)
    requires i < |filters|
  {
    match filters[i]
    case DropRule => draws(i)
    case PartitionRule(groups) => !(p.from in groups && p.to in groups && groups[p.from] == groups[p.to])
    case _ => false
  }

  // Rule i of the list doubles the message.
  predicate Doubles(filters: seq<Filter>, draws: Draws, i: nat)
    requires i < |filters|
  {
    filters[i].DuplicateRule? && draws(i)
  }

  /** What the relay makes of a line, whatever the order of the rules: nothing if its target is unknown,
      a random drop strikes or a partition lies in between; otherwise two copies if a random
      duplication strikes, and one if not. Delays and jitter neither lose nor add anything. */
  lemma CopiesExactly(filters: seq<Filter>, table: map<NodeId, string>, draws: Draws, p: Packet)
    ensures Copies(filters, table, draws, p) ==
      if p.to !in table || (exists i: nat :: i < |filters| && Stops(filters, draws, p, i)) then []
      else if exists i: nat :: i < |filters| && Doubles(filters, draws, i)
      then [(table[p.to], p), (table[p.to], p)] else [(table[p.to], p)]
  {
    assert forall i: nat :: i < |filters| ==>
      (Should(filters[i], draws(i), p) == Drop <==> Stops(filters, draws, p, i));
    assert forall i: nat :: i < |filters| ==>
      (Should(filters[i], draws(i), p) == Duplicate <==> Doubles(filters, draws, i));
    hide Should, Stops, Doubles;
  }
}

/** Nodes of a group, as everything but the wire formats sees them: identifiers that can be compared
    and that have an order. The program's identifiers are names; NameOrder.dfy shows that the
    names of any group can be numbered so that the numbers compare as the names do. */
module Nodes {
  datatype NodeID = NodeID(number: nat)

  /** The empty name, least in the canonical order, which stands for "no node". */
  const EMPTY_NODE_ID := NodeID(0)
}

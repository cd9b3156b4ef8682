/** The three simulated nodes. */
module ThreeNodes {

  datatype Node = Node1 | Node2 | Node3

  /** A value for each of the three nodes. */
  datatype PerNode<T> = PerNode(node1: T, node2: T, node3: T) {
    function Get(n: Node): T {
      match n case Node1 => node1 case Node2 => node2 case Node3 => node3
    }

    function Set(n: Node, v: T): PerNode<T> {
      match n case Node1 => this.(node1 := v) case Node2 => this.(node2 := v) case Node3 => this.(node3 := v)
    }
  }

  const ALL: seq<Node> := [Node1, Node2, Node3]
}

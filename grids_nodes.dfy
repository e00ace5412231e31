/** The Grids pattern space: 25 constant nodes of 3 instruments x 32 steps,
    arranged on a 5 x 5 map. The node bytes themselves are compiled-in data
    that the model takes as a parameter of type `NodeTable`. */
module GridsNodes {
  import opened FixedPoint

  const NodeCount: nat := 25
  const Instruments: nat := 3
  const StepsPerCycle: nat := 32
  const NodeSize: nat := 96
  const MapSide: nat := 5

  /** One node: 96 threshold bytes, instrument-major. */
  type Node = s: seq<U8> | |s| == 96 witness seq(96, _ => 0)

  /** `node_0` ... `node_24`, indexed by node number. */
  type NodeTable = t: seq<Node> | |t| == 25 witness seq<Node>(25, _ => SilentNode)

  /** A node whose every threshold is 0. */
  const SilentNode: Node := seq(96, _ => 0)

  /** Where the byte of `instrument` at `step` sits in a node; the layout is a
      bijection between (instrument, step) pairs and offsets 0..95. */
  function NodeOffset(instrument: nat, step: nat): (o: nat)
    requires instrument < Instruments && step < StepsPerCycle
    ensures o < NodeSize
    ensures o / 32 == instrument && o % 32 == step
  {
    instrument * 32 + step
  }

  /** The upstream `drum_map[5][5]`, as node numbers. */
  const DrumMap: seq<seq<nat>> := [
    [10, 8, 0, 9, 11],
    [15, 7, 13, 12, 6],
    [18, 14, 4, 5, 3],
    [23, 16, 21, 1, 2],
    [24, 19, 17, 20, 22]
  ]

  /** For each node number, the one cell of the map that holds it. */
  const MapCells: seq<(nat, nat)> := [
    (0, 2), (3, 3), (3, 4), (2, 4), (2, 2),
    (2, 3), (1, 4), (1, 1), (0, 1), (0, 3),
    (0, 0), (0, 4), (1, 3), (1, 2), (2, 1),
    (1, 0), (3, 1), (4, 2), (2, 0), (4, 1),
    (4, 3), (3, 2), (4, 4), (3, 0), (4, 0)
  ]

  /** The node number in map cell (i, j); every cell names one of the 25 nodes. */
  function MapNode(i: nat, j: nat): (n: nat)
    requires i < MapSide && j < MapSide
    ensures n < NodeCount
    ensures MapCell(n) == (i, j)
  {
    DrumMap[i][j]
  }

  /** The map cell that holds node `n`. */
  function MapCell(n: nat): (c: (nat, nat))
    requires n < NodeCount
    ensures c.0 < MapSide && c.1 < MapSide
    ensures DrumMap[c.0][c.1] == n
  {
    MapCells[n]
  }

  /** `drum_map` names each of the 25 nodes exactly once: distinct cells hold
      distinct nodes, and every node is held by some cell. */
  lemma DrumMapIsBijection()
    ensures forall i, j, k, l | 0 <= i < 5 && 0 <= j < 5 && 0 <= k < 5 && 0 <= l < 5 ::
              MapNode(i, j) == MapNode(k, l) ==> i == k && j == l
    ensures forall n | 0 <= n < NodeCount :: MapNode(MapCell(n).0, MapCell(n).1) == n
  {
  }
}

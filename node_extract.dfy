/** The consistency checks of the node-table generator: it scans the upstream
    resource file for `node_<n>` arrays, keeps those numbered 0..24, refuses a
    kept node whose length is not 96 and refuses a table with a node missing.
    Reading and writing files and the regular-expression scan are outside the
    model; the scan's result is the input `matches`, in file order. */
module NodeExtract {

  /** One `node_<index>[] = { values }` array found by the scan. */
  datatype NodeMatch = NodeMatch(index: nat, values: seq<nat>)

  datatype ExtractError =
    | LengthMismatch(index: nat, length: nat)
    | MissingNodes(indices: seq<nat>)

  datatype Option<T> = None | Some(value: T)

  datatype Result<T> = Ok(value: T) | Err(error: ExtractError)

  /** Nodes numbered outside 0..24 are skipped. */
  predicate Kept(m: NodeMatch)
  {
    m.index <= 24
  }

  /** A kept node with the wrong number of values. */
  predicate Rejected(m: NodeMatch)
  {
    Kept(m) && |m.values| != 96
  }

  /** `k` is the first match the generator refuses. */
  predicate FirstRejectedAt(matches: seq<NodeMatch>, k: nat)
  {
    k < |matches| && Rejected(matches[k]) &&
    forall j :: 0 <= j < k ==> !Rejected(matches[j])
  }

  /** The values stored for node `i` after scanning `matches`: a later array
      with the same number replaces an earlier one. */
  function LastValues(matches: seq<NodeMatch>, i: nat): Option<seq<nat>>
  {
    if matches == [] then None
    else
      var last := matches[|matches| - 1];
      if Kept(last) && last.index == i then Some(last.values)
      else LastValues(matches[..|matches| - 1], i)
  }

  /** The node numbers below `n` that no kept match provides, in increasing order. */
  function MissingBelow(matches: seq<NodeMatch>, n: nat): seq<nat>
  {
    if n == 0 then []
    else MissingBelow(matches, n - 1) + (if LastValues(matches, n - 1).Some? then [] else [n - 1])
  }

  /** Only kept matches are ever stored. */
  lemma {:induction false} LastValuesKept(matches: seq<NodeMatch>, i: nat)
    requires LastValues(matches, i).Some?
    ensures i <= 24
    ensures exists k :: 0 <= k < |matches| && matches[k].index == i &&
                        matches[k].values == LastValues(matches, i).value
  {
    var last := matches[|matches| - 1];
    if Kept(last) && last.index == i {
      assert matches[|matches| - 1].index == i;
    } else {
      LastValuesKept(matches[..|matches| - 1], i);
      var k :| 0 <= k < |matches| - 1 && matches[..|matches| - 1][k].index == i &&
               matches[..|matches| - 1][k].values == LastValues(matches, i).value;
      assert matches[k] == matches[..|matches| - 1][k];
    }
  }

  /** `MissingBelow` lists exactly the node numbers below `n` without a node. */
  lemma {:induction false} MissingBelowExact(matches: seq<NodeMatch>, n: nat)
    ensures forall k :: 0 <= k < |MissingBelow(matches, n)| ==>
              MissingBelow(matches, n)[k] < n && LastValues(matches, MissingBelow(matches, n)[k]).None?
    ensures forall i: nat :: i < n && LastValues(matches, i).None? ==> i in MissingBelow(matches, n)
  {
    if n > 0 {
      MissingBelowExact(matches, n - 1);
    }
  }

  /** The generator's checks. On success the table holds, for each node number
      0..24, the values of the last array with that number, each exactly 96
      long; otherwise it reports the first kept array of the wrong length, or
      else the list of missing node numbers. */
  method ExtractNodes(matches: seq<NodeMatch>) returns (r: Result<seq<seq<nat>>>)
    ensures (exists k: nat :: FirstRejectedAt(matches, k)) <==> r.Err? && r.error.LengthMismatch?
    ensures forall k: nat :: FirstRejectedAt(matches, k) ==>
              r == Err(LengthMismatch(matches[k].index, |matches[k].values|))
    ensures r.Err? && r.error.MissingNodes? ==>
              (forall k :: 0 <= k < |matches| ==> !Rejected(matches[k])) &&
              r.error.indices == MissingBelow(matches, 25) && r.error.indices != []
    ensures r.Ok? <==>
              (forall k :: 0 <= k < |matches| ==> !Rejected(matches[k])) &&
              MissingBelow(matches, 25) == []
    ensures r.Ok? ==>
              |r.value| == 25 &&
              (forall i :: 0 <= i < 25 ==> LastValues(matches, i) == Some(r.value[i]) && |r.value[i]| == 96)
  {
    var nodes: map<nat, seq<nat>> := map[];
    var n := 0;
    while n < |matches|
      invariant 0 <= n <= |matches|
      invariant forall j :: 0 <= j < n ==> !Rejected(matches[j])
      invariant forall i :: i in nodes <==> LastValues(matches[..n], i).Some?
      invariant forall i :: i in nodes ==> nodes[i] == LastValues(matches[..n], i).value && |nodes[i]| == 96
    {
      var m := matches[n];
      assert matches[..n + 1][..n] == matches[..n];
      if Kept(m) {
        if |m.values| != 96 {
          assert FirstRejectedAt(matches, n);
          FirstRejectedUnique(matches, n);
          return Err(LengthMismatch(m.index, |m.values|));
        }
        nodes := nodes[m.index := m.values];
      }
      n := n + 1;
    }
    assert matches[..n] == matches;
    NoneRejected(matches);

    var missing: seq<nat> := [];
    var i := 0;
    while i < 25
      invariant 0 <= i <= 25
      invariant missing == MissingBelow(matches, i)
    {
      if i !in nodes {
        missing := missing + [i];
      }
      i := i + 1;
    }
    if missing != [] {
      return Err(MissingNodes(missing));
    }
    MissingBelowExact(matches, 25);
    r := Ok(seq(25, k requires 0 <= k < 25 => nodes[k]));
  }

  /** At most one match is the first refused one. */
  lemma FirstRejectedUnique(matches: seq<NodeMatch>, k: nat)
    requires FirstRejectedAt(matches, k)
    ensures forall j: nat :: FirstRejectedAt(matches, j) ==> j == k
  {
  }

  /** Without a refused match there is no first refused match. */
  lemma NoneRejected(matches: seq<NodeMatch>)
    requires forall j :: 0 <= j < |matches| ==> !Rejected(matches[j])
    ensures forall k: nat :: !FirstRejectedAt(matches, k)
  {
  }
}

/** The label chain of a query name: the name itself, then the name with
    its leftmost label chopped off, and so on, one entry per label the
    library counts. How a name is chopped and how its labels are counted is
    the library's business and is passed in. */
module Labels {
  import opened Dns

  /** `name` with its leftmost label chopped off `k` times. */
  function Chopped(chop: Name -> Name, name: Name, k: nat): Name
  {
    if k == 0 then name else chop(Chopped(chop, name, k - 1))
  }

  /** Builds the chain the way the trace does: slot 0 holds the name and each
      later slot the chop of the one before. */
  method LabelChain(name: Name, count: uint8, chop: Name -> Name) returns (labels: seq<Name>)
    ensures |labels| == count
    ensures count > 0 ==> labels[0] == name
    ensures forall i :: 1 <= i < count ==> labels[i] == chop(labels[i - 1])
    ensures forall i :: 0 <= i < count ==> labels[i] == Chopped(chop, name, i)
  {
    if count == 0 {
      return [];
    }
    labels := [name];
    var i := 1;
    while i < count
      invariant 1 <= i <= count
      invariant |labels| == i
      invariant labels[0] == name
      invariant forall k :: 1 <= k < i ==> labels[k] == chop(labels[k - 1])
      invariant forall k :: 0 <= k < i ==> labels[k] == Chopped(chop, name, k)
    {
      labels := labels + [chop(labels[i - 1])];
      i := i + 1;
    }
  }

  /** The slots of the label array that the trace writes for a given label
      count: slot 0 unconditionally, then slots 1 up to count - 1. */
  function WrittenLabelSlots(count: nat): (slots: seq<int>)
    ensures |slots| == if count > 0 then count else 1
    ensures forall j :: 0 <= j < |slots| ==> slots[j] == j
  {
    [0] + seq(if count > 0 then count - 1 else 0, k => k + 1)
  }

  /** Every slot written lies inside an array of `count` entries exactly when
      the count is positive: a name with no counted labels gets its slot 0
      written past a zero-length allocation. */
  lemma WrittenSlotsInBoundsIff(count: nat)
    ensures (forall k :: k in WrittenLabelSlots(count) ==> 0 <= k < count) <==> count > 0
  {
    var slots := WrittenLabelSlots(count);
    if count > 0 {
      forall k | k in slots ensures 0 <= k < count {
      }
    } else {
      assert 0 in slots;
    }
  }
}

/** `flatten`: concatenation of a list of lists (main.py:37-39). */
module Lists {

  /** Sum of the lengths of the lists in `xss`. */
  function TotalLength<T>(xss: seq<seq<T>>): nat
  {
    if xss == [] then 0 else |xss[0]| + TotalLength(xss[1..])
  }

  /** `[x for xs in xss for x in xs]`. */
  function Flatten<T>(xss: seq<seq<T>>): (r: seq<T>)
    ensures |r| == TotalLength(xss)
  {
    if xss == [] then [] else xss[0] + Flatten(xss[1..])
  }

  /** Element `j` of list `k` sits in the result right after all earlier lists. */
  lemma {:induction false} FlattenAt<T>(xss: seq<seq<T>>, k: nat, j: nat)
    requires k < |xss| && j < |xss[k]|
    ensures TotalLength(xss[..k]) + j < |Flatten(xss)|
    ensures Flatten(xss)[TotalLength(xss[..k]) + j] == xss[k][j]
  {
    if k == 0 {
      assert xss[..0] == [];
    } else {
      FlattenAt(xss[1..], k - 1, j);
      assert xss[..k][1..] == xss[1..][..k - 1];
    }
  }

  /** Conversely, every element of the result comes from some position of some list. */
  lemma {:induction false} FlattenOrigin<T>(xss: seq<seq<T>>, i: nat)
    requires i < |Flatten(xss)|
    ensures exists k: nat, j: nat ::
              k < |xss| && j < |xss[k]| && i == TotalLength(xss[..k]) + j && Flatten(xss)[i] == xss[k][j]
  {
    if i < |xss[0]| {
      assert xss[..0] == [];
      assert i == TotalLength(xss[..0]) + i && Flatten(xss)[i] == xss[0][i];
    } else {
      FlattenOrigin(xss[1..], i - |xss[0]|);
      var k: nat, j: nat :| k < |xss[1..]| && j < |xss[1..][k]| &&
        i - |xss[0]| == TotalLength(xss[1..][..k]) + j && Flatten(xss[1..])[i - |xss[0]|] == xss[1..][k][j];
      assert xss[..k + 1][1..] == xss[1..][..k];
      assert i == TotalLength(xss[..k + 1]) + j && Flatten(xss)[i] == xss[k + 1][j];
    }
  }
}

/** Small types and facts shared by the models. */
module Common {

  datatype Option<T> = None | Some(value: T)
  datatype Pos = Pos(x: int, y: int, z: int)
  type AgentId = string

  /** Ticks and counts on the wire are 64-bit words. */
  const UINT64: nat := 0x1_0000_0000_0000_0000

  function Abs(n: int): nat {
    if n < 0 then 0 - n else n
  }

  function Manhattan(a: Pos, b: Pos): nat {
    Abs(a.x - b.x) + Abs(a.y - b.y) + Abs(a.z - b.z)
  }

  function Min(a: nat, b: nat): nat {
    if a < b then a else b
  }

  function Max(a: nat, b: nat): nat {
    if a < b then b else a
  }

  /** A sequence with the cells a patch names replaced. */
  function Overwritten<T>(s: seq<T>, m: map<int, T>): (r: seq<T>)
    ensures |r| == |s| && forall i :: 0 <= i < |s| ==> r[i] == if i in m then m[i] else s[i]
  {
    seq(|s|, i requires 0 <= i < |s| => if i in m then m[i] else s[i])
  }

  lemma {:induction false} SubsetIsNoLarger<T>(a: set<T>, b: set<T>)
    requires a <= b
    ensures |a| <= |b|
    decreases a
  {
    if a != {} {
      var x :| x in a;
      SubsetIsNoLarger(a - {x}, b - {x});
    }
  }
}

/** The vocabulary that the modules of this project share. */
module Basics {
  /** A token of the model's vocabulary. */
  type Token = int

  /** One message of a transcript. */
  datatype Message = Message(role: string, content: string)

  function Min(a: int, b: int): int { if a <= b then a else b }

  function Max(a: int, b: int): int { if a <= b then b else a }

  const INT_MAX := 0x7fff_ffff

  /** The value of a 32-bit signed sum. Where it overflows, the model takes it to wrap around. */
  function Int32(x: int): (r: int)
    ensures -INT_MAX - 1 <= r <= INT_MAX
    ensures -INT_MAX - 1 <= x <= INT_MAX ==> r == x
    ensures INT_MAX < x <= 2 * INT_MAX + 1 ==> r == x - 2 * INT_MAX - 2
  {
    (x + INT_MAX + 1) % (2 * INT_MAX + 2) - INT_MAX - 1
  }

  /** A set that takes in one more number, or not. */
  lemma OneMore(now: set<int>, next: set<int>, n: int, grown: bool)
    requires n !in now
    requires forall i :: i in next <==> i in now || (grown && i == n)
    ensures |next| == |now| + if grown then 1 else 0
  {
    assert forall i :: i in next ==> i in now || (grown && i == n);
    assert forall i :: i in now ==> i in next;
    if grown {
      assert n in next;
      assert next == now + {n};
    } else {
      assert next == now;
    }
  }
}

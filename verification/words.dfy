/** Words of 64 bits. */
module Words {

  const ONES: bv64 := 0xffff_ffff_ffff_ffff
  // The word operations have names so that proofs over several of them can hide them.
  // A shift goes 32 places at once while it can and then one place at a time, so that
  // proofs can follow it; ShiftsAre says that this is the shift of the machine.
  function And(x: bv64, y: bv64): bv64 { x & y }
  function Except(x: bv64, m: bv64): bv64 { x & !m }
  function Xor(x: bv64, y: bv64): bv64 { x ^ y }
  function Up(x: bv64, far: bool): bv64 { if far then x << 32 else x << 1 }
  function Down(x: bv64, far: bool): bv64 { if far then x >> 32 else x >> 1 }

  function Left(x: bv64, k: nat): bv64
    decreases k
  {
    if k == 0 then x else if k < 32 then Left(Up(x, false), k - 1) else Left(Up(x, true), k - 32)
  }

  function Right(x: bv64, k: nat): bv64
    decreases k
  {
    if k == 0 then x else if k < 32 then Down(Right(x, k - 1), false) else Down(Right(x, k - 32), true)
  }

  /** The one shift the adapters use. */
  lemma ShiftsAre(x: bv64)
    ensures Left(x, 33) == x << 33 && Right(x, 33) == x >> 33
  {
  }

  lemma Downwards(x: bv64, y: bv64, far: bool)
    ensures Down(And(x, y), far) == And(Down(x, far), Down(y, far))
  {
    hide And, Down;
    if far {
      FarDown(x, y);
    } else {
      NearDown(x, y);
    }
  }

  lemma NearDown(x: bv64, y: bv64)
    ensures Down(And(x, y), false) == And(Down(x, false), Down(y, false))
  {
  }

  lemma FarDown(x: bv64, y: bv64)
    ensures Down(And(x, y), true) == And(Down(x, true), Down(y, true))
  {
  }

  lemma UpDown(x: bv64, y: bv64, far: bool)
    ensures And(Down(Up(x, far), far), Down(y, far)) == And(x, Down(y, far))
  {
  }

  lemma UpInside(v: bv64, m: bv64, far: bool)
    requires Except(v, m) == 0
    ensures Except(Up(v, far), Up(m, far)) == 0
  {
  }

  lemma Whole(x: bv64)
    ensures And(x, ONES) == x && Except(x, ONES) == 0
  {
  }

  lemma {:induction false} RightAnd(x: bv64, y: bv64, k: nat)
    ensures Right(And(x, y), k) == And(Right(x, k), Right(y, k))
  {
    hide And, Down;
    if k != 0 {
      var rest := if k < 32 then k - 1 else k - 32;
      RightAnd(x, y, rest);
      Downwards(Right(x, rest), Right(y, rest), k >= 32);
    }
  }

  /** Shifting there and back loses the top bits and nothing else. */
  lemma {:induction false} LeftRight(x: bv64, k: nat)
    ensures Right(Left(x, k), k) == And(x, Right(ONES, k))
    decreases k
  {
    hide And, Down, Up;
    if k == 0 {
      Whole(x);
    } else {
      var rest := if k < 32 then k - 1 else k - 32;
      LeftRight(Up(x, k >= 32), rest);
      Downwards(Up(x, k >= 32), Right(ONES, rest), k >= 32);
      UpDown(x, Right(ONES, rest), k >= 32);
    }
  }

  lemma {:induction false} LeftInside(v: bv64, m: bv64, k: nat)
    requires Except(v, m) == 0
    ensures Except(Left(v, k), Left(m, k)) == 0
    decreases k
  {
    hide Except, Up;
    if k != 0 {
      UpInside(v, m, k >= 32);
      LeftInside(Up(v, k >= 32), Up(m, k >= 32), if k < 32 then k - 1 else k - 32);
    }
  }

  lemma Replaced(x: bv64, m: bv64, v: bv64)
    requires Except(v, m) == 0
    ensures Except(Xor(Except(x, m), v), m) == Except(x, m)
    ensures And(Xor(Except(x, m), v), m) == v
  {
  }

  lemma Inside(x: bv64, m: bv64, t: bv64)
    ensures Except(And(x, m), m) == 0
    ensures Except(x, m) == 0 && And(m, t) == m ==> And(x, t) == x
  {
  }
}

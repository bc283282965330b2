/** The return computed by the backward loop of `cpid/a2c.cpp`, for one column of
    the batch and then for the whole batch. Rounding is not modelled. */
module A2C {

  function Pow(x: real, n: nat): real {
    if n == 0 then 1.0 else x * Pow(x, n - 1)
  }

  /** Rewards `i` to `j - 1`, each discounted by its distance from `i`. */
  function DiscountedSum(rewards: seq<real>, discount: real, i: nat, j: nat): real
    requires i <= j <= |rewards|
  {
    if i == j then 0.0
    else DiscountedSum(rewards, discount, i, j - 1) + Pow(discount, j - 1 - i) * rewards[j - 1]
  }

  /** The first terminal row from `i` on, or the last row if there is none
      before it. The flag of the last row is never looked at. */
  function FirstTerminal(terminal: seq<bool>, i: nat): (m: nat)
    requires i < |terminal|
    ensures i <= m < |terminal|
    ensures forall k :: i <= k < m ==> !terminal[k]
    ensures m < |terminal| - 1 ==> terminal[m]
    decreases |terminal| - i
  {
    if i == |terminal| - 1 || terminal[i] then i else FirstTerminal(terminal, i + 1)
  }

  /** What the return of row `i` should be: the rewards up to and including the
      first terminal row, or all rewards but the last row's and the value of the
      last row in its place. */
  function Return(rewards: seq<real>, terminal: seq<bool>, value: real, discount: real, i: nat): real
    requires |rewards| == |terminal| && i < |rewards|
  {
    var m := FirstTerminal(terminal, i);
    if m < |rewards| - 1 then DiscountedSum(rewards, discount, i, m + 1)
    else DiscountedSum(rewards, discount, i, m) + Pow(discount, m - i) * value
  }

  /** Taking the first reward out of a discounted sum. */
  lemma {:induction false} SumFirst(rewards: seq<real>, discount: real, i: nat, j: nat)
    requires i < j <= |rewards|
    ensures DiscountedSum(rewards, discount, i, j) == rewards[i] + discount * DiscountedSum(rewards, discount, i + 1, j)
    decreases j
  {
    hide Pow;
    if i + 1 < j {
      SumFirst(rewards, discount, i, j - 1);
      assert DiscountedSum(rewards, discount, i, j - 1) ==
             rewards[i] + discount * DiscountedSum(rewards, discount, i + 1, j - 1);
      hide DiscountedSum;
      SumLast(rewards, discount, i, j);
      SumLast(rewards, discount, i + 1, j);
      assert Pow(discount, j - 1 - i) == discount * Pow(discount, j - 2 - i) by { PowNext(discount, j - 2 - i); }
      Rearranged(rewards[i], rewards[j - 1], DiscountedSum(rewards, discount, i + 1, j - 1),
                 Pow(discount, j - 2 - i), Pow(discount, j - 1 - i), discount);
    } else {
      hide DiscountedSum;
      SumLast(rewards, discount, i, j);
      SumNone(rewards, discount, i);
      SumNone(rewards, discount, j);
      assert Pow(discount, j - 1 - i) == 1.0 by { PowNone(discount); }
    }
  }

  lemma Rearranged(first: real, last: real, s: real, d: real, e: real, discount: real)
    requires e == discount * d
    ensures (first + discount * s) + e * last == first + discount * (s + d * last)
  {
    Distributes(s, d, last, discount);
  }

  lemma SumLast(rewards: seq<real>, discount: real, i: nat, j: nat)
    requires i < j <= |rewards|
    ensures DiscountedSum(rewards, discount, i, j) ==
            DiscountedSum(rewards, discount, i, j - 1) + Pow(discount, j - 1 - i) * rewards[j - 1]
  {
    hide Pow;
  }

  lemma SumNone(rewards: seq<real>, discount: real, i: nat)
    requires i <= |rewards|
    ensures DiscountedSum(rewards, discount, i, i) == 0.0
  {
  }

  lemma PowNext(discount: real, n: nat)
    ensures Pow(discount, n + 1) == discount * Pow(discount, n)
  {
  }

  lemma PowNone(discount: real)
    ensures Pow(discount, 0) == 1.0
  {
  }

  /** The recurrence of the loop body holds of the intended return. */
  lemma ReturnRecurrence(rewards: seq<real>, terminal: seq<bool>, value: real, discount: real, i: nat)
    requires |rewards| == |terminal| && i < |rewards| - 1
    ensures Return(rewards, terminal, value, discount, i) ==
            Return(rewards, terminal, value, discount, i + 1) * discount * (if terminal[i] then 0.0 else 1.0)
            + rewards[i]
  {
    hide DiscountedSum, Pow;
    if terminal[i] {
      SumFirst(rewards, discount, i, i + 1);
      SumNone(rewards, discount, i + 1);
      assert Return(rewards, terminal, value, discount, i) == rewards[i];
      hide Return;
      Zeroes(Return(rewards, terminal, value, discount, i + 1), discount);
    } else {
      assert FirstTerminal(terminal, i) == FirstTerminal(terminal, i + 1);
      hide FirstTerminal;
      ReturnOn(rewards, terminal, value, discount, i);
      hide Return;
      Commutes(Return(rewards, terminal, value, discount, i + 1), discount);
    }
  }

  /** Without a row after it, the return is the value of the last row. */
  lemma ReturnLast(rewards: seq<real>, terminal: seq<bool>, value: real, discount: real)
    requires |rewards| == |terminal| >= 1
    ensures Return(rewards, terminal, value, discount, |rewards| - 1) == value
  {
    SumNone(rewards, discount, |rewards| - 1);
    PowNone(discount);
  }

  lemma ReturnOn(rewards: seq<real>, terminal: seq<bool>, value: real, discount: real, i: nat)
    requires |rewards| == |terminal| && i < |rewards| - 1
    requires FirstTerminal(terminal, i) == FirstTerminal(terminal, i + 1)
    ensures Return(rewards, terminal, value, discount, i) ==
            rewards[i] + discount * Return(rewards, terminal, value, discount, i + 1)
  {
    hide FirstTerminal, DiscountedSum;
    var m := FirstTerminal(terminal, i);
    if m < |rewards| - 1 {
      SumFirst(rewards, discount, i, m + 1);
    } else {
      SumFirst(rewards, discount, i, m);
      var s, d := DiscountedSum(rewards, discount, i + 1, m), Pow(discount, m - (i + 1));
      assert Pow(discount, m - i) == discount * d;
      hide Pow;
      Distributes(s, d, value, discount);
    }
  }

  lemma Zeroes(x: real, discount: real)
    ensures x * discount * 0.0 == 0.0
  {
  }

  lemma Commutes(x: real, discount: real)
    ensures x * discount * 1.0 == discount * x
  {
  }

  lemma Distributes(s: real, d: real, value: real, discount: real)
    ensures discount * (s + d * value) == discount * s + (discount * d) * value
  {
  }

  /** A batch: row `i` holds one reward and one terminal flag for each column. */
  datatype Batch = Batch(rewards: seq<seq<real>>, terminal: seq<seq<bool>>, columns: nat) {

    predicate Valid() {
      && |rewards| == |terminal| >= 1
      && forall i :: 0 <= i < |rewards| ==> |rewards[i]| == |terminal[i]| == columns
    }

    function Rewards(j: nat): (r: seq<real>)
      requires Valid() && j < columns
      ensures |r| == |rewards|
    {
      seq(|rewards|, i requires 0 <= i < |rewards| => rewards[i][j])
    }

    function Terminals(j: nat): (r: seq<bool>)
      requires Valid() && j < columns
      ensures |r| == |terminal|
    {
      seq(|terminal|, i requires 0 <= i < |terminal| => terminal[i][j])
    }
  }

  /** The loop body: decays the returns of row `i + 1`, breaks the chain at a
      terminal, and adds the rewards of row `i`. */
  function Decayed(b: Batch, discounted: seq<real>, discount: real, i: nat): (next: seq<real>)
    requires b.Valid() && |discounted| == b.columns && i < |b.rewards|
    ensures |next| == b.columns
  {
    seq(b.columns, j requires 0 <= j < b.columns =>
      discounted[j] * discount * (if b.terminal[i][j] then 0.0 else 1.0) + b.rewards[i][j])
  }

  lemma DecayedIs(b: Batch, discounted: seq<real>, value: real, discount: real, i: nat, j: nat)
    requires b.Valid() && |discounted| == b.columns && i < |b.rewards| - 1 && j < b.columns
    requires discounted[j] == Return(b.Rewards(j), b.Terminals(j), value, discount, i + 1)
    ensures Decayed(b, discounted, discount, i)[j] == Return(b.Rewards(j), b.Terminals(j), value, discount, i)
  {
    hide Return;
    ReturnRecurrence(b.Rewards(j), b.Terminals(j), value, discount, i);
  }

  /** The loop of doUpdate: from the last row's value backwards. Row `i` of the
      result is the target the value of row `i` is trained towards. */
  method Returns(b: Batch, value: seq<real>, discount: real) returns (targets: seq<seq<real>>)
    requires b.Valid() && |value| == b.columns
    ensures |targets| == |b.rewards| - 1
    ensures forall i :: 0 <= i < |targets| ==> |targets[i]| == b.columns
    ensures forall i, j :: 0 <= i < |targets| && 0 <= j < b.columns ==>
              targets[i][j] == Return(b.Rewards(j), b.Terminals(j), value[j], discount, i)
  {
    var n := |b.rewards|;
    var discounted := value;
    targets := [];
    var i := n - 1;
    while i > 0
      invariant 0 <= i <= n - 1
      invariant |targets| == n - 1 - i && |discounted| == b.columns
      invariant forall j :: 0 <= j < b.columns ==>
                  discounted[j] == Return(b.Rewards(j), b.Terminals(j), value[j], discount, i)
      invariant forall k :: 0 <= k < |targets| ==> |targets[k]| == b.columns
      invariant forall k, j :: 0 <= k < |targets| && 0 <= j < b.columns ==>
                  targets[k][j] == Return(b.Rewards(j), b.Terminals(j), value[j], discount, i + k)
    {
      hide Return, Decayed;
      i := i - 1;
      ghost var before := targets;
      var next := Decayed(b, discounted, discount, i);
      forall j | 0 <= j < b.columns
        ensures next[j] == Return(b.Rewards(j), b.Terminals(j), value[j], discount, i)
      {
        DecayedIs(b, discounted, value[j], discount, i, j);
      }
      discounted := next;
      targets := [next] + targets;
      assert forall k :: 0 < k < |targets| ==> targets[k] == before[k - 1];
    }
  }
}

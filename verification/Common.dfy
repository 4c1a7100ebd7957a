/** Sums over sequences, shared by the termination and conservation arguments. */
module Common {
  datatype Option<+T> = None | Some(value: T)

  ghost function Sum(xs: seq<nat>): nat {
    if xs == [] then 0 else xs[0] + Sum(xs[1..])
  }

  /** Lowering one element by at least d, and raising none, lowers the sum by at least d. */
  lemma {:induction false} SumDrops(xs: seq<nat>, ys: seq<nat>, c: nat, d: nat)
    requires |xs| == |ys| && c < |xs|
    requires forall i :: 0 <= i < |xs| ==> ys[i] <= xs[i]
    requires ys[c] + d <= xs[c]
    ensures Sum(ys) + d <= Sum(xs)
  {
    if c == 0 {
      SumMonotone(xs[1..], ys[1..]);
    } else {
      SumDrops(xs[1..], ys[1..], c - 1, d);
    }
  }

  lemma {:induction false} SumMonotone(xs: seq<nat>, ys: seq<nat>)
    requires |xs| == |ys|
    requires forall i :: 0 <= i < |xs| ==> ys[i] <= xs[i]
    ensures Sum(ys) <= Sum(xs)
  {
    if xs != [] {
      SumMonotone(xs[1..], ys[1..]);
    }
  }

  lemma {:induction false} SumAtMost(xs: seq<nat>, bound: nat)
    requires forall i :: 0 <= i < |xs| ==> xs[i] <= bound
    ensures Sum(xs) <= bound * |xs|
  {
    if xs != [] {
      SumAtMost(xs[1..], bound);
    }
  }

  lemma {:induction false} SumUpdate(xs: seq<nat>, c: nat, x: nat)
    requires c < |xs|
    ensures Sum(xs[c := x]) + xs[c] == Sum(xs) + x
  {
    if c == 0 {
      assert xs[c := x][1..] == xs[1..];
    } else {
      assert xs[c := x][1..] == xs[1..][c - 1 := x];
      SumUpdate(xs[1..], c - 1, x);
    }
  }

  ghost function Union<T>(bags: seq<multiset<T>>): multiset<T> {
    if bags == [] then multiset{} else bags[0] + Union(bags[1..])
  }

  lemma {:induction false} UnionUpdate<T>(bags: seq<multiset<T>>, c: nat, bag: multiset<T>)
    requires c < |bags|
    ensures Union(bags[c := bag]) + bags[c] == Union(bags) + bag
  {
    if c == 0 {
      assert bags[c := bag][1..] == bags[1..];
    } else {
      assert bags[c := bag][1..] == bags[1..][c - 1 := bag];
      UnionUpdate(bags[1..], c - 1, bag);
      calc {
        Union(bags[c := bag]) + bags[c];
        bags[0] + (Union(bags[1..][c - 1 := bag]) + bags[1..][c - 1]);
        bags[0] + (Union(bags[1..]) + bag);
        Union(bags) + bag;
      }
    }
  }

  lemma Associate<T>(a: seq<T>, b: seq<T>, c: seq<T>)
    ensures (a + b) + c == a + (b + c)
  {
  }
}

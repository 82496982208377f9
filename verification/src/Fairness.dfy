/** Smooth weighted round robin: the selection rule of Plan and Commit in internal/scheduler/scheduler.go,
    followed over a stretch of committed picks with a fixed set of eligible namespaces. */
module Fairness {
  import opened Base

  // ----- Sums over the eligible namespaces -----

  ghost function Sum(names: seq<string>, f: string -> int): int {
    if names == [] then 0 else Sum(names[..|names| - 1], f) + f(names[|names| - 1])
  }

  lemma {:induction false} SumAdds(names: seq<string>, f: string -> int, g: string -> int, h: string -> int)
    requires forall x | x in names :: h(x) == f(x) + g(x)
    ensures Sum(names, h) == Sum(names, f) + Sum(names, g)
  {
    if names != [] { SumAdds(names[..|names| - 1], f, g, h); }
  }

  lemma {:induction false} SumScales(names: seq<string>, f: string -> int, factor: int, h: string -> int)
    requires forall x | x in names :: h(x) == factor * f(x)
    ensures Sum(names, h) == factor * Sum(names, f)
  {
    if names != [] {
      var front := names[..|names| - 1];
      SumScales(front, f, factor, h);
      assert factor * Sum(names, f) == factor * Sum(front, f) + factor * f(names[|names| - 1]);
    }
  }

  lemma {:induction false} SumAlike(names: seq<string>, f: string -> int, h: string -> int)
    requires forall x | x in names :: h(x) == f(x)
    ensures Sum(names, h) == Sum(names, f)
  {
    if names != [] { SumAlike(names[..|names| - 1], f, h); }
  }

  predicate DistinctNames(names: seq<string>) {
    forall i, j | 0 <= i < j < |names| :: names[i] != names[j]
  }

  /** A sum in which one name alone counts. */
  lemma {:induction false} SumPoint(names: seq<string>, f: string -> int, name: string)
    requires DistinctNames(names) && forall x | x in names && x != name :: f(x) == 0
    ensures Sum(names, f) == if name in names then f(name) else 0
  {
    if names != [] {
      SumPoint(names[..|names| - 1], f, name);
      assert names == names[..|names| - 1] + [names[|names| - 1]];
    }
  }

  lemma {:induction false} SumAtMost(names: seq<string>, f: string -> int, bound: int)
    requires forall x | x in names :: f(x) <= bound
    ensures Sum(names, f) <= |names| * bound
  {
    if names != [] { SumAtMost(names[..|names| - 1], f, bound); }
  }

  lemma {:induction false} SumMember(names: seq<string>, f: string -> int, name: string)
    requires name in names && forall x | x in names :: f(x) >= 0
    ensures Sum(names, f) >= f(name)
  {
    var front, last := names[..|names| - 1], names[|names| - 1];
    assert names == front + [last];
    SumNonNegative(front, f);
    if name in front { SumMember(front, f, name); }
  }

  lemma {:induction false} SumNonNegative(names: seq<string>, f: string -> int)
    requires forall x | x in names :: f(x) >= 0
    ensures Sum(names, f) >= 0
  {
    if names != [] { SumNonNegative(names[..|names| - 1], f); }
  }

  /** Terms that are not below zero and sum to at most zero are all zero. */
  lemma {:induction false} SumVanishes(names: seq<string>, f: string -> int)
    requires (forall x | x in names :: f(x) >= 0) && Sum(names, f) <= 0
    ensures forall x | x in names :: f(x) == 0
  {
    forall x | x in names ensures f(x) == 0 { SumMember(names, f, x); }
  }

  // ----- One pick -----

  /** A namespace that holds no credit reads as zero. */
  function Held(current: map<string, int>, name: string): int {
    if name in current then current[name] else 0
  }

  function Raised(weight: string -> int, current: map<string, int>, name: string): int {
    Held(current, name) + weight(name)
  }

  /** The first namespace of the list with the largest raised credit. */
  function Selected(names: seq<string>, weight: string -> int, current: map<string, int>): (best: string)
    requires names != []
    ensures best in names && forall x | x in names :: Raised(weight, current, x) <= Raised(weight, current, best)
  {
    var last := names[|names| - 1];
    if |names| == 1 then last
    else
      var front := names[..|names| - 1];
      var best := Selected(front, weight, current);
      assert names == front + [last];
      if Raised(weight, current, last) > Raised(weight, current, best) then last else best
  }

  /** The credits after a pick. */
  ghost function Charged(names: seq<string>, weight: string -> int, current: map<string, int>): map<string, int>
    requires names != []
  {
    var selected := Selected(names, weight, current);
    map x | x in names :: Raised(weight, current, x) - (if x == selected then Sum(names, weight) else 0)
  }

  /** The total and the credit of the namespace can be raised by its weight. */
  ghost predicate FitsAt(names: seq<string>, weight: string -> int, current: map<string, int>, i: nat)
    requires i < |names|
  {
    && Sum(names[..i], weight) <= MAX_INT64 - weight(names[i])
    && Held(current, names[i]) <= MAX_INT64 - weight(names[i])
  }

  /** The raised credits. */
  function RaisedAll(names: seq<string>, weight: string -> int, current: map<string, int>): map<string, int> {
    map x | x in names :: Raised(weight, current, x)
  }

  lemma {:induction false} RaisedMore(names: seq<string>, weight: string -> int, current: map<string, int>, i: nat)
    requires i < |names|
    ensures RaisedAll(names[..i + 1], weight, current) == RaisedAll(names[..i], weight,
            current)[names[i] := Raised(weight, current, names[i])]
    ensures Sum(names[..i + 1], weight) == Sum(names[..i], weight) + weight(names[i])
  {
    assert names[..i + 1] == names[..i] + [names[i]];
    assert names[..i + 1][..i] == names[..i];
  }

  lemma {:induction false} ChargedFromRaised(names: seq<string>, weight: string -> int, current: map<string, int>)
    requires names != []
    ensures var raised, selected := RaisedAll(names, weight, current), Selected(names, weight, current);
            Charged(names, weight, current) == raised[selected := raised[selected] - Sum(names, weight)]
  {
    hide Sum, Selected;
  }

  /** None of the 64-bit guards of Plan refuses. */
  ghost predicate Fits(names: seq<string>, weight: string -> int, current: map<string, int>)
    requires names != []
  {
    && (forall i | 0 <= i < |names| :: FitsAt(names, weight, current, i))
    && Raised(weight, current, Selected(names, weight, current)) >= MIN_INT64 + Sum(names, weight)
  }

  // ----- A stretch of picks -----

  ghost predicate Eligible(names: seq<string>, weight: string -> int) {
    names != [] && DistinctNames(names) && forall x | x in names :: weight(x) >= 1
  }

  /** The credits after `n` committed picks, starting from none. */
  ghost function Credits(names: seq<string>, weight: string -> int, n: nat): map<string, int>
    requires names != []
  {
    if n == 0 then map[] else Charged(names, weight, Credits(names, weight, n - 1))
  }

  /** The namespace of pick number `n`, counting from zero. */
  ghost function Pick(names: seq<string>, weight: string -> int, n: nat): string
    requires names != []
  {
    Selected(names, weight, Credits(names, weight, n))
  }

  /** How often `name` is picked from pick `lo` up to but not including pick `hi`. */
  ghost function Picks(names: seq<string>, weight: string -> int, lo: nat, hi: nat, name: string): nat
    requires names != [] && lo <= hi
    decreases hi
  {
    if lo == hi then 0
    else Picks(names, weight, lo, hi - 1, name) + (if Pick(names, weight, hi - 1) == name then 1 else 0)
  }

  ghost function Owed(names: seq<string>, weight: string -> int, n: nat, name: string): int
    requires names != []
  {
    Held(Credits(names, weight, n), name)
  }

  /** A pick gives every namespace its weight and charges the picked one the total. */
  lemma {:induction false} OwedStep(names: seq<string>, weight: string -> int, n: nat, name: string)
    requires Eligible(names, weight) && name in names
    ensures Owed(names, weight, n + 1, name) ==
            Owed(names, weight, n, name) + weight(name) - (if Pick(names, weight, n) == name then Sum(names, weight)
                else 0)
    ensures Owed(names, weight, 0, name) == 0
  {
    hide Sum;
  }

  lemma {:induction false} AccountStep(total: int, weight: int, n: int, picks: int)
    ensures total * (picks + 1) == total * picks + total
    ensures (n + 1) * weight == n * weight + weight
  {
  }

  /** Between two picks a credit gains its weight each time and pays the total for each pick. */
  lemma {:induction false} CreditMoves(names: seq<string>, weight: string -> int, lo: nat, hi: nat, name: string)
    requires Eligible(names, weight) && lo <= hi && name in names
    ensures Owed(names, weight, hi, name) ==
            Owed(names, weight, lo, name) + (hi - lo) * weight(name) - Sum(names, weight) * Picks(names, weight, lo,
                hi, name)
    decreases hi
  {
    hide Owed, Sum, Eligible, Pick;
    if lo < hi {
      CreditMoves(names, weight, lo, hi - 1, name);
      OwedStep(names, weight, hi - 1, name);
      AccountStep(Sum(names, weight), weight(name), hi - 1 - lo, Picks(names, weight, lo, hi - 1, name));
    }
  }

  /** What one name pays for what all are given leaves the sum as it was. */
  lemma {:induction false} BalanceStep(names: seq<string>, weight: string -> int, before: string -> int,
                                       after: string -> int, selected: string)
    requires DistinctNames(names) && selected in names && Sum(names, before) == 0
    requires forall x | x in names :: after(x) == before(x) + weight(x) - (if x == selected then Sum(names, weight)
             else 0)
    ensures Sum(names, after) == 0
  {
    var total := Sum(names, weight);
    var raised := x => before(x) + weight(x);
    var paid := x => if x == selected then -total else 0;
    SumAdds(names, before, weight, raised);
    SumAdds(names, raised, paid, after);
    SumPoint(names, paid, selected);
  }

  lemma {:induction false} BalanceNext(names: seq<string>, weight: string -> int, n: nat, before: string -> int,
                                       after: string -> int)
    requires hide Owed, Sum;
             Eligible(names, weight) && Sum(names, before) == 0
    requires forall x | x in names ::
               before(x) == Owed(names, weight, n, x) && after(x) == Owed(names, weight, n + 1, x)
    ensures Sum(names, after) == 0
  {
    assert Pick(names, weight, n) in names by { hide Credits, Owed; }
    hide Owed, Sum, Pick;
    forall x | x in names
      ensures after(x) == before(x) + weight(x) - (if x == Pick(names, weight, n) then Sum(names, weight) else 0)
    {
      OwedStep(names, weight, n, x);
    }
    BalanceStep(names, weight, before, after, Pick(names, weight, n));
  }

  /** Credits always sum to zero. */
  lemma {:induction false} CreditsBalance(names: seq<string>, weight: string -> int, n: nat)
    requires Eligible(names, weight)
    ensures Sum(names, x => Owed(names, weight, n, x)) == 0
  {
    var owed := x => Owed(names, weight, n, x);
    hide Owed, Credits;
    if n == 0 {
      forall x | x in names ensures owed(x) == 0 { OwedStep(names, weight, 0, x); }
      SumScales(names, owed, 0, owed);
    } else {
      CreditsBalance(names, weight, n - 1);
      BalanceNext(names, weight, n - 1, x => Owed(names, weight, n - 1, x), owed);
    }
  }

  /** The picked namespace has positive raised credit, so no credit falls to minus the total weight. */
  lemma {:induction false} CreditsAbove(names: seq<string>, weight: string -> int, n: nat, name: string)
    requires Eligible(names, weight) && name in names
    ensures Owed(names, weight, n, name) > -Sum(names, weight)
  {
    hide Owed, Sum, Pick;
    SumMember(names, weight, name);
    OwedStep(names, weight, 0, name);
    if n > 0 {
      CreditsAbove(names, weight, n - 1, name);
      PickedPositive(names, weight, n - 1);
      OwedStep(names, weight, n - 1, name);
    }
  }

  lemma {:induction false} PickedPositive(names: seq<string>, weight: string -> int, n: nat)
    requires Eligible(names, weight)
    ensures Raised(weight, Credits(names, weight, n), Pick(names, weight, n)) > 0
    ensures Owed(names, weight, n, Pick(names, weight, n)) + weight(Pick(names, weight, n)) > 0
  {
    var before := x => Owed(names, weight, n, x);
    var raised := x => Owed(names, weight, n, x) + weight(x);
    CreditsBalance(names, weight, n);
    SumAdds(names, before, weight, raised);
    SumMember(names, weight, names[0]);
    if Raised(weight, Credits(names, weight, n), Pick(names, weight, n)) <= 0 {
      SumAtMost(names, raised, 0);
    }
  }

  /** No credit exceeds what the others can owe. */
  lemma {:induction false} CreditsBelow(names: seq<string>, weight: string -> int, n: nat, name: string)
    requires Eligible(names, weight) && name in names
    ensures Owed(names, weight, n, name) <= (|names| - 1) * (Sum(names, weight) - 1)
  {
    var total := Sum(names, weight);
    var owed := x => Owed(names, weight, n, x);
    var own := x => if x == name then owed(x) + total - 1 else 0;
    var rest := x => if x == name then 1 - total else owed(x);
    hide Owed, Sum;
    CreditsBalance(names, weight, n);
    SumAlike(names, owed, x => Owed(names, weight, n, x));
    SumAdds(names, own, rest, owed);
    SumPoint(names, own, name);
    var least := x => -rest(x);
    forall x | x in names ensures least(x) <= total - 1 { CreditsAbove(names, weight, n, x); }
    SumAtMost(names, least, total - 1);
    SumScales(names, rest, -1, least);
    AccountStep(1, total - 1, |names| - 1, 0);
  }

  /** After any number of picks, no namespace is ahead of its share by a whole pick, nor behind it by
      more than the other namespaces can be ahead. */
  lemma {:induction false} PrefixShare(names: seq<string>, weight: string -> int, n: nat, name: string)
    requires Eligible(names, weight) && name in names
    ensures var total := Sum(names, weight);
            n * weight(name) - (|names| - 1) * (total - 1) <= total * Picks(names, weight, 0, n,
                name) <= n * weight(name) + total - 1
  {
    CreditMoves(names, weight, 0, n, name);
    CreditsAbove(names, weight, n, name);
    CreditsBelow(names, weight, n, name);
  }

  /** The number of picks is shared out among the namespaces. */
  lemma {:induction false} PicksTotal(names: seq<string>, weight: string -> int, n: nat)
    requires Eligible(names, weight)
    ensures Sum(names, x => Picks(names, weight, 0, n, x)) == n
  {
    hide Sum, Selected, Credits;
    var picks := x => Picks(names, weight, 0, n, x);
    if n == 0 {
      SumScales(names, picks, 0, picks);
    } else {
      var before := x => Picks(names, weight, 0, n - 1, x);
      var selected := Pick(names, weight, n - 1);
      var one := x => if x == selected then 1 else 0;
      PicksTotal(names, weight, n - 1);
      SumAdds(names, before, one, picks);
      SumPoint(names, one, selected);
    }
  }

  /** A multiple of `total` above `-total` is a multiple by a number not below zero. */
  lemma {:induction false} NotBehind(total: int, weight: int, picks: int, owed: int)
    requires total >= 0 && owed == total * weight - total * picks && owed > -total
    ensures picks <= weight && owed == total * (weight - picks)
  {
    if weight - picks <= -1 { TimesMonotone(total, weight - picks, -1); }
  }

  /** After as many picks as the total weight, each namespace has had exactly its weight. */
  lemma {:induction false} RoundExact(names: seq<string>, weight: string -> int)
    requires Eligible(names, weight) && Sum(names, weight) >= 0
    ensures forall x | x in names ::
              Picks(names, weight, 0, Sum(names, weight), x) == weight(x)
              && Owed(names, weight, Sum(names, weight), x) == 0
  {
    hide Owed, Sum, Picks;
    var total := Sum(names, weight);
    var short: string -> int := x => weight(x) - Picks(names, weight, 0, total, x);
    forall x | x in names ensures short(x) >= 0 && Owed(names, weight, total, x) == total * short(x) {
      CreditMoves(names, weight, 0, total, x);
      OwedStep(names, weight, 0, x);
      CreditsAbove(names, weight, total, x);
      NotBehind(total, weight(x), Picks(names, weight, 0, total, x), Owed(names, weight, total, x));
    }
    PicksTotal(names, weight, total);
    SumAdds(names, x => Picks(names, weight, 0, total, x), short, weight);
    SumVanishes(names, short);
  }

  lemma {:induction false} TimesMonotone(factor: int, a: int, b: int)
    requires factor >= 0 && a <= b
    ensures factor * a <= factor * b
  {
  }

  /** Credits that read alike choose alike and are charged alike. */
  lemma {:induction false} SelectedAlike(names: seq<string>, weight: string -> int, a: map<string, int>,
                                         b: map<string, int>)
    requires names != [] && forall x | x in names :: Held(a, x) == Held(b, x)
    ensures Selected(names, weight, a) == Selected(names, weight, b)
  {
    if |names| > 1 { SelectedAlike(names[..|names| - 1], weight, a, b); }
  }

  lemma {:induction false} PickAlike(names: seq<string>, weight: string -> int, m: nat, n: nat)
    requires names != [] && forall x | x in names :: Owed(names, weight, m, x) == Owed(names, weight, n, x)
    ensures Pick(names, weight, m) == Pick(names, weight, n)
  {
    SelectedAlike(names, weight, Credits(names, weight, m), Credits(names, weight, n));
  }

  /** The picks repeat with the total weight as their period. */
  lemma {:induction false} Periodic(names: seq<string>, weight: string -> int, n: nat)
    requires Eligible(names, weight) && Sum(names, weight) >= 0
    ensures forall x | x in names :: Owed(names, weight, n + Sum(names, weight), x) == Owed(names, weight, n, x)
    ensures Pick(names, weight, n + Sum(names, weight)) == Pick(names, weight, n)
  {
    hide Owed, Sum, Picks, Pick;
    var total := Sum(names, weight);
    if n == 0 {
      RoundExact(names, weight);
      forall x | x in names
          ensures Owed(names, weight, total, x) == Owed(names, weight, 0, x) { OwedStep(names, weight, 0, x); }
    } else {
      Periodic(names, weight, n - 1);
      forall x | x in names ensures Owed(names, weight, n + total, x) == Owed(names, weight, n, x) {
        OwedStep(names, weight, n - 1, x);
        OwedStep(names, weight, n - 1 + total, x);
      }
    }
    PickAlike(names, weight, n + total, n);
  }

  lemma {:induction false} SameShare(total: int, weight: int, picks: int)
    requires total > 0 && total * weight == total * picks
    ensures weight == picks
  {
  }

  /** Every window of as many consecutive picks as the total weight gives each namespace exactly its
      weight. */
  lemma {:induction false} WindowShare(names: seq<string>, weight: string -> int, lo: nat, name: string)
    requires Eligible(names, weight) && name in names && Sum(names, weight) >= 0
    ensures Picks(names, weight, lo, lo + Sum(names, weight), name) == weight(name)
  {
    hide Owed, Sum, Picks, Pick;
    var total := Sum(names, weight);
    Periodic(names, weight, lo);
    CreditMoves(names, weight, lo, lo + total, name);
    SumMember(names, weight, name);
    SameShare(total, weight(name), Picks(names, weight, lo, lo + total, name));
  }

  lemma {:induction false} SumPrefix(names: seq<string>, weight: string -> int, i: nat)
    requires i < |names| && forall x | x in names :: weight(x) >= 0
    ensures Sum(names[..i], weight) + weight(names[i]) <= Sum(names, weight)
  {
    var front := names[..|names| - 1];
    if i < |front| {
      assert front[..i] == names[..i];
      SumPrefix(front, weight, i);
    }
  }

  lemma {:induction false} ShareOut(k: int, total: int)
    ensures (k - 1) * (total - 1) == k * total - total - k + 1
  {
  }

  /** The overflow guards never stop a stretch while the namespaces' number times the total weight fits in
      63 bits. */
  lemma {:induction false} GuardsPass(names: seq<string>, weight: string -> int, n: nat)
    requires Eligible(names, weight) && |names| * Sum(names, weight) <= MAX_INT64
    ensures Fits(names, weight, Credits(names, weight, n))
  {
    hide Sum, Credits, Selected, FitsAt;
    SumNonNegative(names, weight);
    TimesMonotone(Sum(names, weight), 1, |names|);
    forall i | 0 <= i < |names| ensures FitsAt(names, weight, Credits(names, weight, n), i) {
      GuardPasses(names, weight, n, i);
    }
    PickedPositive(names, weight, n);
  }

  lemma {:induction false} GuardPasses(names: seq<string>, weight: string -> int, n: nat, i: nat)
    requires Eligible(names, weight) && |names| * Sum(names, weight) <= MAX_INT64 && i < |names|
    ensures FitsAt(names, weight, Credits(names, weight, n), i)
  {
    hide Sum, Credits, Selected;
    SumPrefix(names, weight, i);
    CreditsBelow(names, weight, n, names[i]);
    SumMember(names, weight, names[i]);
    SumNonNegative(names, weight);
    TimesMonotone(Sum(names, weight), 1, |names|);
    ShareOut(|names|, Sum(names, weight));
  }
}

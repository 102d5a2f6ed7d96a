// Counting offers: in uplinks, target by target, and over pairs of ids.

module Counting {
  import opened Wire
  import opened Client

  predicate Distinct<T(==)>(xs: seq<T>) {
    forall i, j :: 0 <= i < j < |xs| ==> xs[i] != xs[j]
  }

  function OfferCount(ms: seq<ClientMsg>): nat {
    if ms == [] then 0 else OfferCount(ms[..|ms| - 1]) + (if ms[|ms| - 1].Offer? then 1 else 0)
  }

  /** All offers in a list of uplinks. */
  function AllOffers(ups: seq<seq<ClientMsg>>): nat {
    if ups == [] then 0 else AllOffers(ups[..|ups| - 1]) + OfferCount(ups[|ups| - 1])
  }

  /** The offers in one uplink, added up target by target. */
  function ByTarget(ms: seq<ClientMsg>, us: seq<UserId>): nat {
    if us == [] then 0 else ByTarget(ms, us[..|us| - 1]) + |AllTo(Offers, ms, us[|us| - 1])|
  }

  predicate OffersTo(ms: seq<ClientMsg>, us: seq<UserId>) {
    forall i :: 0 <= i < |ms| && ms[i].Offer? ==> ms[i].to in us
  }

  lemma {:induction false} ByTargetSnoc(ms: seq<ClientMsg>, m: ClientMsg, us: seq<UserId>)
    requires Distinct(us)
    ensures ByTarget(ms + [m], us) == ByTarget(ms, us) + (if m.Offer? && m.to in us then 1 else 0)
    decreases |us|
  {
    hide AllTo;
    if us != [] {
      var front, u := us[..|us| - 1], us[|us| - 1];
      ByTargetSnoc(ms, m, front);
      AllToAppend(Offers, ms, [m], u);
      AllToOne(Offers, m, u);
      assert m.Offer? ==> (m.to in us <==> m.to in front || m.to == u);
    }
  }

  lemma {:induction false} ByTargetNone(us: seq<UserId>)
    ensures ByTarget([], us) == 0
    decreases |us|
  {
    if us != [] { ByTargetNone(us[..|us| - 1]); }
  }

  lemma {:induction false} CountByTarget(ms: seq<ClientMsg>, us: seq<UserId>)
    requires Distinct(us) && OffersTo(ms, us)
    ensures OfferCount(ms) == ByTarget(ms, us)
    decreases |ms|
  {
    if ms == [] {
      ByTargetNone(us);
    } else {
      var front, m := ms[..|ms| - 1], ms[|ms| - 1];
      CountByTarget(front, us);
      ByTargetSnoc(front, m, us);
      assert ms == front + [m];
    }
  }

  /** How many of `us` are larger than `u`. */
  function Larger(us: seq<UserId>, u: UserId): nat {
    if us == [] then 0 else Larger(us[..|us| - 1], u) + (if Less(u, us[|us| - 1]) then 1 else 0)
  }

  function Smaller(us: seq<UserId>, u: UserId): nat {
    if us == [] then 0 else Smaller(us[..|us| - 1], u) + (if Less(us[|us| - 1], u) then 1 else 0)
  }

  /** The pairs (i, j) with us[i] smaller than vs[j]. */
  function Pairs(us: seq<UserId>, vs: seq<UserId>): nat {
    if us == [] then 0 else Pairs(us[..|us| - 1], vs) + Larger(vs, us[|us| - 1])
  }

  lemma {:induction false} PairsSnoc(us: seq<UserId>, vs: seq<UserId>, v: UserId)
    ensures Pairs(us, vs + [v]) == Pairs(us, vs) + Smaller(us, v)
    decreases |us|
  {
    if us != [] {
      PairsSnoc(us[..|us| - 1], vs, v);
      assert (vs + [v])[..|vs|] == vs;
    }
  }

  lemma {:induction false} EitherSide(us: seq<UserId>, v: UserId)
    requires v !in us
    ensures Larger(us, v) + Smaller(us, v) == |us|
    decreases |us|
  {
    if us != [] {
      EitherSide(us[..|us| - 1], v);
      assert us[|us| - 1] != v;
      ExactlyOneSideIsSmaller(us[|us| - 1], v);
    }
  }

  /** Among n distinct ids there are n(n-1)/2 ordered pairs. */
  lemma {:induction false} PairCount(us: seq<UserId>)
    requires Distinct(us)
    ensures 2 * Pairs(us, us) == |us| * (|us| - 1)
    decreases |us|
  {
    if us != [] {
      var front, u := us[..|us| - 1], us[|us| - 1];
      PairCount(front);
      assert us == front + [u];
      PairsSnoc(front, front, u);
      EitherSide(front, u);
      ExactlyOneSideIsSmaller(u, u);
    }
  }

  /** The uplink has `r` more offers to every larger id than `before`, and no
      more to any other. */
  predicate Grew(u: UserId, us: seq<UserId>, before: seq<ClientMsg>, after: seq<ClientMsg>, r: nat) {
    forall j :: 0 <= j < |us| ==> GrewTo(u, us[j], before, after, r)
  }

  predicate GrewTo(u: UserId, x: UserId, before: seq<ClientMsg>, after: seq<ClientMsg>, r: nat) {
    |AllTo(Offers, after, x)| == |AllTo(Offers, before, x)| + (if Less(u, x) then r else 0)
  }

  function Times(r: nat, n: nat): nat {
    r * n
  }

  lemma Distributes(r: nat, a: nat, b: nat)
    ensures Times(r, a + b) == Times(r, a) + Times(r, b) && Times(r, 0) == 0 && Times(r, 1) == r
  {
  }

  lemma {:induction false} GrowthByTarget(u: UserId, us: seq<UserId>, before: seq<ClientMsg>, after: seq<ClientMsg>,
                                          r: nat)
    requires Grew(u, us, before, after, r)
    ensures ByTarget(after, us) == ByTarget(before, us) + Times(r, Larger(us, u))
    decreases |us|
  {
    hide AllTo, Times;
    Distributes(r, 0, 0);
    if us != [] {
      var front := us[..|us| - 1];
      Distributes(r, Larger(front, u), if Less(u, us[|us| - 1]) then 1 else 0);
      forall j | 0 <= j < |front| ensures GrewTo(u, front[j], before, after, r) {
        assert GrewTo(u, us[j], before, after, r);
      }
      GrowthByTarget(u, front, before, after, r);
      assert GrewTo(u, us[|us| - 1], before, after, r);
    }
  }

  /** The offers in a list of uplinks that go to one of `us`. */
  function Among(ups: seq<seq<ClientMsg>>, us: seq<UserId>): nat {
    if ups == [] then 0 else Among(ups[..|ups| - 1], us) + ByTarget(ups[|ups| - 1], us)
  }

  lemma {:induction false} GrowthOfAll(senders: seq<UserId>, us: seq<UserId>,
                                       before: seq<seq<ClientMsg>>, after: seq<seq<ClientMsg>>, r: nat)
    requires |before| == |after| == |senders|
    requires forall i :: 0 <= i < |senders| ==> Grew(senders[i], us, before[i], after[i], r)
    ensures Among(after, us) == Among(before, us) + Times(r, Pairs(senders, us))
    decreases |senders|
  {
    hide Grew, Times;
    Distributes(r, 0, 0);
    if senders != [] {
      var n := |senders| - 1;
      GrowthOfAll(senders[..n], us, before[..n], after[..n], r);
      GrowthByTarget(senders[n], us, before[n], after[n], r);
      Distributes(r, Pairs(senders[..n], us), Larger(us, senders[n]));
    }
  }

  lemma GrowthOfRoom(us: seq<UserId>, before: seq<seq<ClientMsg>>, after: seq<seq<ClientMsg>>, r: nat)
    requires Distinct(us) && |before| == |after| == |us|
    requires forall i :: 0 <= i < |us| ==> Grew(us[i], us, before[i], after[i], r)
    ensures 2 * (Among(after, us) - Among(before, us)) == r * (|us| * (|us| - 1))
  {
    hide Grew, Among, Pairs, Times;
    GrowthOfAll(us, us, before, after, r);
    PairCount(us);
    Halved(r, Pairs(us, us), |us| * (|us| - 1));
  }

  lemma Halved(r: nat, p: nat, q: int)
    ensures 2 * p == q ==> 2 * Times(r, p) == r * q
    ensures 2 * Times(r, p) == r * q ==> r == 0 || 2 * p == q
  {
    if 2 * p < q { Scaled(r, q - 2 * p); } else if q < 2 * p { Scaled(r, 2 * p - q); }
  }

  lemma Scaled(r: nat, d: int)
    requires d > 0
    ensures r > 0 ==> r * d > 0
  {
  }

  /** If the uplinks hold offers to `us` only, those are all. */
  lemma {:induction false} AllAmong(ups: seq<seq<ClientMsg>>, us: seq<UserId>)
    requires Distinct(us) && forall i :: 0 <= i < |ups| ==> OffersTo(ups[i], us)
    ensures AllOffers(ups) == Among(ups, us)
    decreases |ups|
  {
    hide OffersTo;
    if ups != [] {
      AllAmong(ups[..|ups| - 1], us);
      CountByTarget(ups[|ups| - 1], us);
    }
  }

  lemma {:induction false} NoOffers(ups: seq<seq<ClientMsg>>, us: seq<UserId>)
    requires forall i :: 0 <= i < |ups| ==> ups[i] == []
    ensures Among(ups, us) == 0
    decreases |ups|
  {
    if ups != [] {
      NoOffers(ups[..|ups| - 1], us);
      ByTargetNone(us);
    }
  }

  lemma {:induction false} OfferCountAppend(a: seq<ClientMsg>, b: seq<ClientMsg>)
    ensures OfferCount(a + b) == OfferCount(a) + OfferCount(b)
    decreases |b|
  {
    if b == [] {
      assert a + b == a;
    } else {
      assert (a + b)[..|a + b| - 1] == a + b[..|b| - 1];
      OfferCountAppend(a, b[..|b| - 1]);
    }
  }

  lemma OfferCountOne(m: ClientMsg)
    ensures OfferCount([m]) == (if m.Offer? then 1 else 0) && OfferCount([]) == 0
  {
    assert [m][..0] == [];
  }

  // ----- sets of larger ids

  function LargerIn(us: seq<UserId>, u: UserId): set<UserId> {
    set x | x in us && Less(u, x)
  }

  lemma {:induction false} LargerIsSize(us: seq<UserId>, u: UserId)
    requires Distinct(us)
    ensures |LargerIn(us, u)| == Larger(us, u)
    decreases |us|
  {
    hide LargerIn, Less;
    if us == [] {
      assert LargerIn(us, u) == {} by { LargerInNone(u); }
    } else {
      LargerIsSize(us[..|us| - 1], u);
      LargerInSnoc(us, u);
    }
  }

  lemma LargerInNone(u: UserId)
    ensures LargerIn([], u) == {}
  {
  }

  lemma LargerInSnoc(us: seq<UserId>, u: UserId)
    requires Distinct(us) && us != []
    ensures var front, x := us[..|us| - 1], us[|us| - 1];
            && x !in LargerIn(front, u)
            && LargerIn(us, u) == LargerIn(front, u) + (if Less(u, x) then {x} else {})
  {
    hide Less;
    var front := us[..|us| - 1];
    assert us == front + [us[|us| - 1]];
  }

  lemma {:induction false} LargerHead(us: seq<UserId>, u: UserId)
    requires us != []
    ensures Larger(us, u) == (if Less(u, us[0]) then 1 else 0) + Larger(us[1..], u)
    decreases |us|
  {
    if |us| > 1 {
      LargerHead(us[..|us| - 1], u);
      assert us[..|us| - 1][1..] == us[1..][..|us| - 2];
    }
  }

  function Sum(ns: seq<nat>): nat {
    if ns == [] then 0 else Sum(ns[..|ns| - 1]) + ns[|ns| - 1]
  }

  lemma {:induction false} GrowthBySum(before: seq<seq<ClientMsg>>, after: seq<seq<ClientMsg>>, sizes: seq<nat>, r: nat)
    requires |before| == |after| == |sizes|
    requires forall i :: 0 <= i < |sizes| ==> OfferCount(after[i]) == OfferCount(before[i]) + Times(r, sizes[i])
    ensures AllOffers(after) == AllOffers(before) + Times(r, Sum(sizes))
    decreases |sizes|
  {
    hide OfferCount, Times;
    Distributes(r, 0, 0);
    if sizes != [] {
      var n := |sizes| - 1;
      GrowthBySum(before[..n], after[..n], sizes[..n], r);
      Distributes(r, Sum(sizes[..n]), sizes[n]);
    }
  }

  /** Sizes that are at least the pairs' add up to the pairs exactly if each is. */
  lemma {:induction false} SumIsPairs(senders: seq<UserId>, us: seq<UserId>, sizes: seq<nat>)
    requires |sizes| == |senders| && forall i :: 0 <= i < |sizes| ==> Larger(us, senders[i]) <= sizes[i]
    ensures Pairs(senders, us) <= Sum(sizes)
    ensures Sum(sizes) == Pairs(senders, us) <==> forall i :: 0 <= i < |sizes| ==> sizes[i] == Larger(us, senders[i])
    decreases |sizes|
  {
    if sizes != [] {
      var n := |sizes| - 1;
      SumIsPairs(senders[..n], us, sizes[..n]);
      if Sum(sizes) == Pairs(senders, us) {
        forall i | 0 <= i < |sizes| ensures sizes[i] == Larger(us, senders[i]) {
          if i < n { assert sizes[..n][i] == sizes[i]; }
        }
      }
    }
  }
}

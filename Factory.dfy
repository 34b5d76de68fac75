/**
 * The strategy registry: built once from the list of strategy beans, keyed by
 * each strategy's tag, and looked up by tag.
 */
module CouponStrategyFactory {
  import opened Wrappers
  import opened Coupons
  import opened CouponStrategy

  /** Every strategy sits under its own tag. */
  predicate Registry(m: map<CouponType, Strategy>) {
    forall t :: t in m ==> GetCouponType(m[t]) == t
  }

  /** The tags of a list of strategies. */
  function Types(strategies: seq<Strategy>): set<CouponType> {
    set k | 0 <= k < |strategies| :: GetCouponType(strategies[k])
  }

  /** Two entries of the list share a tag. */
  predicate HasDuplicateType(strategies: seq<Strategy>) {
    exists i, j :: 0 <= i < j < |strategies| && GetCouponType(strategies[i]) == GetCouponType(strategies[j])
  }

  /**
   * `Collectors.toMap(getCouponType, identity)`: entries are added in list
   * order, and a tag met a second time makes the collection fail.
   */
  function Build(strategies: seq<Strategy>): Result<map<CouponType, Strategy>, Error>
    decreases |strategies|
  {
    if strategies == [] then Success(map[])
    else
      var m :- Build(strategies[..|strategies| - 1]);
      var s := strategies[|strategies| - 1];
      if GetCouponType(s) in m then Failure(DuplicateKey) else Success(m[GetCouponType(s) := s])
  }

  /** getStrategy: the registered strategy, or UnknownCouponType. */
  function GetStrategy(m: map<CouponType, Strategy>, t: CouponType): (r: Result<Strategy, Error>)
    ensures r.Success? <==> t in m
    ensures Registry(m) && r.Success? ==> GetCouponType(r.value) == t
  {
    if t in m then Success(m[t]) else Failure(UnknownCouponType)
  }

  /**
   * A successful build keys exactly the listed tags, each to the strategy
   * listed for it, and so is a registry.
   */
  lemma {:induction false} BuildRegistry(strategies: seq<Strategy>)
    requires Build(strategies).Success?
    ensures var m := Build(strategies).value;
      && Registry(m)
      && m.Keys == Types(strategies)
      && forall k :: 0 <= k < |strategies| ==> m[GetCouponType(strategies[k])] == strategies[k]
    decreases |strategies|
  {
    if strategies != [] {
      var init := strategies[..|strategies| - 1];
      BuildRegistry(init);
      var m := Build(strategies).value;
      var last := |strategies| - 1;
      assert Types(strategies) == Types(init) + {GetCouponType(strategies[last])} by {
        forall t | t in Types(strategies)
          ensures t in Types(init) + {GetCouponType(strategies[last])}
        {
          var k :| 0 <= k < |strategies| && GetCouponType(strategies[k]) == t;
          if k < last {
            assert init[k] == strategies[k];
          }
        }
        forall t | t in Types(init)
          ensures t in Types(strategies)
        {
          var k :| 0 <= k < |init| && GetCouponType(init[k]) == t;
          assert strategies[k] == init[k];
        }
      }
      forall k | 0 <= k < |strategies|
        ensures m[GetCouponType(strategies[k])] == strategies[k]
      {
        if k < last {
          assert init[k] == strategies[k];
        }
      }
    }
  }

  /** The build fails exactly when two strategies share a tag. */
  lemma {:induction false} BuildFailsIffDuplicate(strategies: seq<Strategy>)
    ensures Build(strategies).Failure? <==> HasDuplicateType(strategies)
    ensures Build(strategies).Failure? ==> Build(strategies).error == DuplicateKey
    decreases |strategies|
  {
    if strategies != [] {
      var init := strategies[..|strategies| - 1];
      var last := |strategies| - 1;
      BuildFailsIffDuplicate(init);
      if HasDuplicateType(init) {
        var i, j :| 0 <= i < j < |init| && GetCouponType(init[i]) == GetCouponType(init[j]);
        assert strategies[i] == init[i] && strategies[j] == init[j];
      } else {
        BuildRegistry(init);
        var m := Build(init).value;
        if GetCouponType(strategies[last]) in m {
          var i :| 0 <= i < |init| && GetCouponType(init[i]) == GetCouponType(strategies[last]);
          assert strategies[i] == init[i];
        } else {
          forall i, j | 0 <= i < j < |strategies|
            ensures GetCouponType(strategies[i]) != GetCouponType(strategies[j])
          {
            assert init[i] == strategies[i];
            if j < last {
              assert init[j] == strategies[j];
            } else {
              assert GetCouponType(init[i]) in Types(init);
            }
          }
        }
      }
    }
  }

  /** The three strategy beans of the application. */
  const Standard: seq<Strategy> := [CartWiseCouponStrategy, ProductWiseCouponStrategy, BxGyCouponStrategy]

  /** With the three strategies registered every tag has a strategy, and the one for its tag. */
  lemma StandardCoversAll(t: CouponType)
    ensures Build(Standard).Success?
    ensures GetStrategy(Build(Standard).value, t) == Success(StrategyFor(t))
  {
    var s := Standard;
    assert s[..2][..1][..0] == [];
    assert s[..2][..1] == [CartWiseCouponStrategy];
    assert s[..2] == [CartWiseCouponStrategy, ProductWiseCouponStrategy];
    assert Build([]) == Success(map[]);
    assert Build([CartWiseCouponStrategy]) == Success(map[CartWise := CartWiseCouponStrategy]);
    assert Build(s[..2]) == Success(map[CartWise := CartWiseCouponStrategy, ProductWise := ProductWiseCouponStrategy]);
    assert Build(s) == Success(map[CartWise := CartWiseCouponStrategy, ProductWise := ProductWiseCouponStrategy,
                                   BxGy := BxGyCouponStrategy]);
  }

  /** Registering one strategy twice makes construction fail. */
  lemma ExampleDuplicateRegistration()
    ensures Build([CartWiseCouponStrategy, CartWiseCouponStrategy]) == Failure(DuplicateKey)
  {
    var s := [CartWiseCouponStrategy, CartWiseCouponStrategy];
    assert s[..1][..0] == [];
    assert s[..1] == [CartWiseCouponStrategy];
  }
}

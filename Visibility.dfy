/**
 * The list of hidden drivers (`driversVisibility`) and its toggle, written out identically
 * in store.jsx and newStore.jsx: a driver that is listed is removed with
 * `filter(d => d !== driver)`, one that is not is appended with `[...list, driver]`.
 * MovingBox.jsx shows a car exactly when its driver is not in the list.
 */
module Visibility {

  /** `list.filter(d => d !== driver)`. */
  function Without(list: seq<string>, driver: string): (r: seq<string>)
    ensures driver !in r
    ensures forall d :: d != driver ==> (d in r <==> d in list)
    ensures |r| <= |list|
  {
    if list == [] then []
    else if list[0] == driver then Without(list[1..], driver)
    else [list[0]] + Without(list[1..], driver)
  }

  /**
   * The new list after `toggleDriverVisibility(driver)`. The toggle flips the driver's
   * membership and leaves every other driver's alone; an unlisted driver is appended at the
   * end, after the existing entries, which stay where they were.
   */
  function Toggled(list: seq<string>, driver: string): (r: seq<string>)
    ensures driver in r <==> driver !in list
    ensures forall d :: d != driver ==> (d in r <==> d in list)
    ensures driver !in list ==> |r| == |list| + 1 && r[..|list|] == list && r[|list|] == driver
  {
    if driver in list then Without(list, driver) else list + [driver]
  }

  /** A car is shown unless its driver is in the list. */
  predicate IsVisible(driverName: string, list: seq<string>)
  {
    driverName !in list
  }

  /**
   * Removal works entry by entry and keeps the order: the other drivers' entries stay, in
   * their order, because removing from a concatenation removes from each part, a single
   * entry stays exactly when it is not the driver, and a list without the driver is unchanged.
   */
  lemma WithoutKeepsOrder(a: seq<string>, b: seq<string>, driver: string)
    ensures Without(a + b, driver) == Without(a, driver) + Without(b, driver)
    ensures forall x :: Without([x], driver) == if x == driver then [] else [x]
    ensures driver !in a ==> Without(a, driver) == a
  {
    WithoutConcat(a, b, driver);
    assert forall x: string :: [x][1..] == [];
    if driver !in a {
      WithoutAbsent(a, driver);
    }
  }

  lemma {:induction false} WithoutConcat(a: seq<string>, b: seq<string>, driver: string)
    ensures Without(a + b, driver) == Without(a, driver) + Without(b, driver)
  {
    if a == [] {
      assert a + b == b;
    } else {
      var ab := a + b;
      assert ab[0] == a[0] && ab[1..] == a[1..] + b;
      WithoutConcat(a[1..], b, driver);
      if a[0] != driver {
        calc {
          Without(ab, driver);
          [a[0]] + Without(a[1..] + b, driver);
          [a[0]] + (Without(a[1..], driver) + Without(b, driver));
          ([a[0]] + Without(a[1..], driver)) + Without(b, driver);
        }
      }
    }
  }

  lemma {:induction false} WithoutAbsent(a: seq<string>, driver: string)
    requires driver !in a
    ensures Without(a, driver) == a
  {
    if a != [] {
      WithoutAbsent(a[1..], driver);
    }
  }

  /** Two toggles restore the driver's membership (not necessarily its place in the list). */
  lemma ToggleTwiceMembership(list: seq<string>, driver: string)
    ensures forall d :: d in Toggled(Toggled(list, driver), driver) <==> d in list
  {
  }

  /** Toggling a driver flips whether its car is shown; every other car keeps its visibility. */
  lemma ToggleFlipsVisibility(list: seq<string>, driver: string, other: string)
    requires other != driver
    ensures IsVisible(driver, Toggled(list, driver)) <==> !IsVisible(driver, list)
    ensures IsVisible(other, Toggled(list, driver)) <==> IsVisible(other, list)
  {
  }

  /** The test's sequence: from the empty list, one toggle lists "HAM", a second unlists it. */
  lemma ToggleHamTwice()
    ensures "HAM" in Toggled([], "HAM")
    ensures "HAM" !in Toggled(Toggled([], "HAM"), "HAM")
  {
  }
}

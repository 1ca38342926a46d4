/**
 * The interest picker of the client: the fixed taxonomy it shows and the toggle applied when
 * a tag is clicked. Icons, colours and button styling are not modelled.
 */
module InterestSelector {

  /** One group of the taxonomy: a heading and its interest tags, in display order. */
  datatype InterestCategory = InterestCategory(title: string, interests: seq<string>)

  const FoodTags: seq<string> := ["Fine Dining", "Street Food", "Local Cuisine", "Cafes", "Food Markets"]
  const CultureTags: seq<string> := ["Museums", "Historical Sites", "Architecture", "Art Galleries", "Cultural Events"]
  const NatureTags: seq<string> := ["Hiking", "Water Sports", "Parks & Gardens", "Scenic Views", "Wildlife"]
  const ShoppingTags: seq<string> := ["Shopping Malls", "Local Markets", "Nightlife", "Live Music", "Theaters"]

  const InterestCategories: seq<InterestCategory> := [
    InterestCategory("Food & Dining", FoodTags),
    InterestCategory("Culture & History", CultureTags),
    InterestCategory("Adventure & Nature", NatureTags),
    InterestCategory("Shopping & Entertainment", ShoppingTags)
  ]

  /** No tag occurs twice. */
  predicate Distinct(xs: seq<string>)
  {
    forall i, j | 0 <= i < j < |xs| :: xs[i] != xs[j]
  }

  /** Every tag the picker shows, group after group. */
  function AllTags(): (tags: seq<string>)
    ensures |tags| == 20
    ensures forall c | c in InterestCategories :: forall t | t in c.interests :: t in tags
  {
    FoodTags + CultureTags + NatureTags + ShoppingTags
  }

  /** No tag of `a` occurs in `b`. */
  predicate Disjoint(a: seq<string>, b: seq<string>)
  {
    forall t | t in a :: t !in b
  }

  /** Two tag lists without repeats and without a common tag make a list without repeats. */
  lemma DistinctAppend(a: seq<string>, b: seq<string>)
    requires Distinct(a) && Distinct(b) && Disjoint(a, b)
    ensures Distinct(a + b)
  {
    var ab := a + b;
    forall i, j | 0 <= i < j < |ab| ensures ab[i] != ab[j] {
      if j < |a| {
        assert ab[i] == a[i] && ab[j] == a[j];
      } else if i < |a| {
        assert ab[i] == a[i] && ab[j] == b[j - |a|];
        assert a[i] in a;
      } else {
        assert ab[i] == b[i - |a|] && ab[j] == b[j - |a|];
      }
    }
  }

  /** No group repeats a tag. */
  lemma GroupsDistinct()
    ensures Distinct(FoodTags) && Distinct(CultureTags) && Distinct(NatureTags) && Distinct(ShoppingTags)
  {
  }

  /** No tag of a group occurs in a later group. */
  lemma GroupsDisjoint()
    ensures forall t | t in FoodTags :: t !in CultureTags && t !in NatureTags && t !in ShoppingTags
    ensures forall t | t in CultureTags :: t !in NatureTags && t !in ShoppingTags
    ensures forall t | t in NatureTags :: t !in ShoppingTags
  {
  }

  /** The picker shows four groups of five tags, and no tag appears twice in the whole taxonomy, so a
      click on a button toggles a tag that no other button shows. */
  lemma TaxonomyTagsDistinct()
    ensures |InterestCategories| == 4
    ensures forall c | c in InterestCategories :: |c.interests| == 5
    ensures Distinct(AllTags())
  {
    GroupsDistinct();
    GroupsDisjoint();
    DistinctAppend(FoodTags, CultureTags);
    DistinctAppend(FoodTags + CultureTags, NatureTags);
    DistinctAppend(FoodTags + CultureTags + NatureTags, ShoppingTags);
  }

  /** `xs.filter(i => i !== x)`: every occurrence of `x` dropped, all other elements kept. */
  function RemoveAll(xs: seq<string>, x: string): (r: seq<string>)
    ensures x !in r
    ensures multiset(r) == multiset(xs)[x := 0]
  {
    if |xs| == 0 then []
    else
      assert xs == [xs[0]] + xs[1..];
      if xs[0] == x then RemoveAll(xs[1..], x) else [xs[0]] + RemoveAll(xs[1..], x)
  }

  /** `toggleInterest`: a selected interest is removed, any other one is appended at the end. */
  function ToggleInterest(selected: seq<string>, interest: string): (r: seq<string>)
    ensures interest in r <==> interest !in selected
    ensures forall y | y != interest :: multiset(r)[y] == multiset(selected)[y]
    ensures interest !in selected ==> r == selected + [interest]
    ensures interest in selected ==> r == RemoveAll(selected, interest)
  {
    if interest in selected then RemoveAll(selected, interest) else selected + [interest]
  }

  /** Removal works piece by piece, so it keeps the remaining elements in their order. */
  lemma {:induction false} RemoveAllAppend(a: seq<string>, b: seq<string>, x: string)
    ensures RemoveAll(a + b, x) == RemoveAll(a, x) + RemoveAll(b, x)
  {
    if |a| > 0 {
      assert (a + b)[1..] == a[1..] + b;
      RemoveAllAppend(a[1..], b, x);
    } else {
      assert a + b == b;
    }
  }

  /** Removing an interest that is not there changes nothing. */
  lemma {:induction false} RemoveAllAbsent(xs: seq<string>, x: string)
    requires x !in xs
    ensures RemoveAll(xs, x) == xs
  {
    if |xs| > 0 {
      RemoveAllAbsent(xs[1..], x);
      assert xs == [xs[0]] + xs[1..];
    }
  }

  /** Selecting an unselected interest and then deselecting it gives back the original list. */
  lemma ToggleTwiceRestores(selected: seq<string>, interest: string)
    requires interest !in selected
    ensures ToggleInterest(ToggleInterest(selected, interest), interest) == selected
  {
    RemoveAllAppend(selected, [interest], interest);
    RemoveAllAbsent(selected, interest);
  }

  /** Deselecting a selected interest and selecting it again moves it to the end. */
  lemma ToggleTwiceMovesToEnd(selected: seq<string>, interest: string)
    requires interest in selected
    ensures ToggleInterest(ToggleInterest(selected, interest), interest) == RemoveAll(selected, interest) + [interest]
  {
  }

  /** Removing an interest from a list without duplicates leaves a list without duplicates. */
  lemma {:induction false} RemoveAllKeepsDistinct(xs: seq<string>, x: string)
    requires Distinct(xs)
    ensures Distinct(RemoveAll(xs, x))
  {
    if |xs| > 0 {
      var rest := RemoveAll(xs[1..], x);
      RemoveAllKeepsDistinct(xs[1..], x);
      if xs[0] != x {
        assert xs[0] !in xs[1..];
        assert multiset(rest)[xs[0]] == 0;
        assert xs[0] !in rest;
      }
    }
  }

  /** Toggling keeps a duplicate-free selection duplicate-free. */
  lemma ToggleKeepsDistinct(selected: seq<string>, interest: string)
    requires Distinct(selected)
    ensures Distinct(ToggleInterest(selected, interest))
  {
    if interest in selected {
      RemoveAllKeepsDistinct(selected, interest);
    }
  }
}

/** The menu screen: a fixed catalog of items, each tagged with one of four
    categories, narrowed first by the selected category and then, when the
    search text is not empty, by a case-insensitive substring search over the
    item's name and description. */
module Menu {
  import opened Text

  datatype Category = Starters | Mains | Dessert | Drinks

  /** A catalog entry. The identity the app draws at random when it builds the
      catalog plays no part in filtering and is not modelled; the price is
      display text and stays uninterpreted. */
  datatype MenuItem = MenuItem(
    name: string,
    description: string,
    price: string,
    imageName: string,
    category: Category)

  /** The sample catalog, in the order the screen lists it. The longer
      descriptions are written as two or three literals joined at a space; the
      strings are the catalog's own, character for character. The split lets
      the verifier reason about each phrase on its own (the phrase-by-phrase
      lemmas near the end of this module): a single long literal is too
      costly for it to index. */
  const GreekSalad := MenuItem("Greek Salad", "The famous greek salad of crispy" + " " + "lettuce, peppers, olives...",
                               "12.99", "greek_salad", Starters)
  const Bruschetta := MenuItem("Bruschetta", "Our Bruschetta is made from grilled bread" + " " + "smeared with garlic...",
                               "7.99", "bruschetta", Starters)
  const GrilledFish := MenuItem("Grilled Fish", "Barbequed catch of the day" + " " + "with red onion, crisp" + " " + "capers...",
                                "20.00", "grilled_fish", Mains)
  const Pasta := MenuItem("Pasta", "Penne with fried aubergines," + " " + "tomato sauce, fresh chilli, garlic...",
                          "18.99", "pasta", Mains)
  const LemonDessert := MenuItem("Lemon Dessert", "Light and fluffy traditional homemade" + " " + "Italian Lemon cake...",
                                 "6.99", "lemon_dessert", Dessert)
  const Whiskey := MenuItem("Whiskey", "", "15.99", "whiskey", Drinks)
  const Lemonade := MenuItem("Lemonade", "", "7.99", "lemonade", Drinks)

  const MenuItems: seq<MenuItem> := [GreekSalad, Bruschetta, GrilledFish, Pasta, LemonDessert, Whiskey, Lemonade]

  // ---------------------------------------------------------------------------
  // The order-preserving filter both stages use

  /** The elements of `s` that satisfy `p`, in the order `s` has them. */
  function Filter<T>(s: seq<T>, p: T -> bool): (r: seq<T>)
    ensures |r| <= |s|
  {
    if s == [] then []
    else if p(s[0]) then [s[0]] + Filter(s[1..], p)
    else Filter(s[1..], p)
  }

  /** `a` can be obtained from `b` by deleting elements: same elements, same order. */
  predicate IsSubsequence<T(==)>(a: seq<T>, b: seq<T>)
    decreases |b|
  {
    if a == [] then true
    else if b == [] then false
    else if a[0] == b[0] then IsSubsequence(a[1..], b[1..])
    else IsSubsequence(a, b[1..])
  }

  /** The filter keeps order: its result is a subsequence of its input. */
  lemma {:induction false} FilterIsSubsequence<T>(s: seq<T>, p: T -> bool)
    ensures IsSubsequence(Filter(s, p), s)
  {
    if s != [] {
      FilterIsSubsequence(s[1..], p);
      if p(s[0]) {
        assert ([s[0]] + Filter(s[1..], p))[1..] == Filter(s[1..], p);
      } else if Filter(s, p) != [] {
        FilterHeadFrom(s, p);
      }
    }
  }

  /** Soundness: whatever the filter returns is an element of its input that
      satisfies `p`. */
  lemma {:induction false} FilterSound<T>(s: seq<T>, p: T -> bool, x: T)
    requires x in Filter(s, p)
    ensures x in s && p(x)
  {
    if s != [] && !(x == s[0] && p(s[0])) {
      FilterSound(s[1..], p, x);
    }
  }

  /** When the head of `s` fails `p`, the result cannot start with it. */
  lemma FilterHeadFrom<T>(s: seq<T>, p: T -> bool)
    requires s != [] && !p(s[0]) && Filter(s, p) != []
    ensures Filter(s, p)[0] != s[0]
  {
    FilterSound(s, p, Filter(s, p)[0]);
  }

  /** Nothing satisfying `p` is dropped, not even a repeated element: each value
      occurs in the result exactly as often as in the input when it satisfies
      `p`, and not at all otherwise. */
  lemma {:induction false} FilterCounts<T>(s: seq<T>, p: T -> bool, x: T)
    ensures multiset(Filter(s, p))[x] == if p(x) then multiset(s)[x] else 0
  {
    if s != [] {
      FilterCounts(s[1..], p, x);
      assert s == [s[0]] + s[1..];
      assert multiset(s) == multiset([s[0]]) + multiset(s[1..]);
    }
  }

  /** Every element of the input that satisfies `p` is in the result. */
  lemma FilterComplete<T>(s: seq<T>, p: T -> bool, x: T)
    requires x in s && p(x)
    ensures x in Filter(s, p)
  {
    FilterCounts(s, p, x);
    assert x in multiset(s);
  }

  /** Membership in the result, both ways: exactly the input's elements that
      satisfy `p`. */
  lemma FilterMembers<T>(s: seq<T>, p: T -> bool)
    ensures forall x :: x in Filter(s, p) <==> x in s && p(x)
  {
    forall x
      ensures x in Filter(s, p) <==> x in s && p(x)
    {
      if x in Filter(s, p) {
        FilterSound(s, p, x);
      }
      if x in s && p(x) {
        FilterComplete(s, p, x);
      }
    }
  }

  /** When every element satisfies `p`, the filter returns its input unchanged. */
  lemma {:induction false} FilterAll<T>(s: seq<T>, p: T -> bool)
    requires forall x :: x in s ==> p(x)
    ensures Filter(s, p) == s
  {
    if s != [] {
      FilterAll(s[1..], p);
    }
  }

  /** Two predicates that agree on the input's elements filter it alike. */
  lemma {:induction false} FilterSame<T>(s: seq<T>, p: T -> bool, q: T -> bool)
    requires forall x :: x in s ==> p(x) == q(x)
    ensures Filter(s, p) == Filter(s, q)
  {
    if s != [] {
      FilterSame(s[1..], p, q);
    }
  }

  /** Filtering by `p` and then by `q` is filtering once by their conjunction `r`. */
  lemma {:induction false} FilterTwice<T>(s: seq<T>, p: T -> bool, q: T -> bool, r: T -> bool)
    requires forall x :: x in s ==> r(x) == (p(x) && q(x))
    ensures Filter(Filter(s, p), q) == Filter(s, r)
  {
    if s != [] {
      FilterTwice(s[1..], p, q, r);
      if p(s[0]) {
        assert Filter(s, p) == [s[0]] + Filter(s[1..], p);
        assert ([s[0]] + Filter(s[1..], p))[1..] == Filter(s[1..], p);
      }
    }
  }

  // ---------------------------------------------------------------------------
  // The two stages and the pipeline

  /** Stage 1: the items of the selected category, in the order the input
      has them. */
  function ByCategory(items: seq<MenuItem>, selected: Category): (r: seq<MenuItem>)
    ensures forall item :: item in r <==> item in items && item.category == selected
    ensures IsSubsequence(r, items)
  {
    var ofCategory := (item: MenuItem) => item.category == selected;
    FilterMembers(items, ofCategory);
    FilterIsSubsequence(items, ofCategory);
    Filter(items, ofCategory)
  }

  /** An item matches the query when the lowercased query occurs in its
      lowercased name or its lowercased description. The empty query matches
      every item; a query longer than both the name and the description
      matches none. */
  predicate Matches(item: MenuItem, query: string): (r: bool)
    ensures query == [] ==> r
    ensures r ==> |query| <= |item.name| || |query| <= |item.description|
  {
    Contains(Lower(item.name), Lower(query)) || Contains(Lower(item.description), Lower(query))
  }

  /** Stage 2: skipped for an empty query, otherwise the matching items, in
      the order the input has them. */
  function BySearch(items: seq<MenuItem>, query: string): (r: seq<MenuItem>)
    ensures query == [] ==> r == items
    ensures forall item :: item in r <==> item in items && Matches(item, query)
    ensures IsSubsequence(r, items)
  {
    if query == [] then
      SubsequenceRefl(items);
      items
    else
      var matches := (item: MenuItem) => Matches(item, query);
      FilterMembers(items, matches);
      FilterIsSubsequence(items, matches);
      Filter(items, matches)
  }

  /** The two stages over any item list: category first, then search. An
      item is in the result exactly when it is in the input, has the selected
      category and matches the search text. */
  function Filtered(items: seq<MenuItem>, selected: Category, searchText: string): (r: seq<MenuItem>)
    ensures forall item :: item in r <==> item in items && Listed(item, selected, searchText)
  {
    BySearch(ByCategory(items, selected), searchText)
  }

  /** What the menu screen lists for the selected category and search text:
      the catalog filtered once by `Listed`. */
  function FilteredMenuItems(selected: Category, searchText: string): (r: seq<MenuItem>)
    ensures r == Filter(MenuItems, (item: MenuItem) => Listed(item, selected, searchText))
    ensures forall item :: item in r <==> item in MenuItems && Listed(item, selected, searchText)
  {
    FilteredIsFilter(MenuItems, selected, searchText);
    Filtered(MenuItems, selected, searchText)
  }

  /** An item is listed when it has the selected category and, for a non-empty
      search text, matches it. */
  predicate Listed(item: MenuItem, selected: Category, searchText: string)
  {
    item.category == selected && (searchText == [] || Matches(item, searchText))
  }

  /** The two stages amount to one filter by `Listed`. */
  lemma {:induction false} FilteredIsFilter(items: seq<MenuItem>, selected: Category, searchText: string)
    ensures Filtered(items, selected, searchText) == Filter(items, (item: MenuItem) => Listed(item, selected, searchText))
  {
    var byCategory := (item: MenuItem) => item.category == selected;
    var listed := (item: MenuItem) => Listed(item, selected, searchText);
    if searchText == [] {
      FilterSame(items, byCategory, listed);
    } else {
      FilterTwice(items, byCategory, (item: MenuItem) => Matches(item, searchText), listed);
    }
  }

  /** Soundness: every listed item has the selected category and, for a
      non-empty search text, matches it. */
  lemma FilteredSound(items: seq<MenuItem>, selected: Category, searchText: string, item: MenuItem)
    requires item in Filtered(items, selected, searchText)
    ensures item in items
    ensures item.category == selected
    ensures searchText != [] ==> Matches(item, searchText)
  {
    FilteredIsFilter(items, selected, searchText);
    FilterSound(items, (x: MenuItem) => Listed(x, selected, searchText), item);
  }

  /** Completeness with multiplicity: each item of the input that has the
      selected category and matches a non-empty search text is listed as many
      times as the input holds it; any other item is not listed at all. */
  lemma FilteredCounts(items: seq<MenuItem>, selected: Category, searchText: string, item: MenuItem)
    ensures multiset(Filtered(items, selected, searchText))[item]
         == if Listed(item, selected, searchText) then multiset(items)[item] else 0
  {
    FilteredIsFilter(items, selected, searchText);
    FilterCounts(items, (x: MenuItem) => Listed(x, selected, searchText), item);
  }

  /** Completeness: no item that should be listed is dropped. */
  lemma FilteredComplete(items: seq<MenuItem>, selected: Category, searchText: string, item: MenuItem)
    requires item in items && item.category == selected
    requires searchText == [] || Matches(item, searchText)
    ensures item in Filtered(items, selected, searchText)
  {
    FilteredIsFilter(items, selected, searchText);
    FilterComplete(items, (x: MenuItem) => Listed(x, selected, searchText), item);
  }

  /** Order: the listing is a subsequence of the input list, and the search
      stage is a subsequence of what the category stage kept. */
  lemma FilteredOrder(items: seq<MenuItem>, selected: Category, searchText: string)
    ensures IsSubsequence(Filtered(items, selected, searchText), items)
    ensures IsSubsequence(Filtered(items, selected, searchText), ByCategory(items, selected))
  {
    FilteredIsFilter(items, selected, searchText);
    FilterIsSubsequence(items, (x: MenuItem) => Listed(x, selected, searchText));
    var stage1 := ByCategory(items, selected);
    if searchText == [] {
      SubsequenceRefl(stage1);
    } else {
      FilterIsSubsequence(stage1, (item: MenuItem) => Matches(item, searchText));
    }
  }

  /** Every sequence is a subsequence of itself. */
  lemma {:induction false} SubsequenceRefl<T>(s: seq<T>)
    ensures IsSubsequence(s, s)
  {
    if s != [] {
      SubsequenceRefl(s[1..]);
    }
  }

  /** With an empty search text the listing is the selected category's items,
      unchanged; the search stage is the identity on it. */
  lemma FilteredEmptySearch(items: seq<MenuItem>, selected: Category)
    ensures Filtered(items, selected, "") == ByCategory(items, selected)
    ensures forall item :: item in Filtered(items, selected, "") <==> item in items && item.category == selected
  {
    forall item
      ensures item in Filtered(items, selected, "") <==> item in items && item.category == selected
    {
      if item in items && item.category == selected {
        FilteredComplete(items, selected, "", item);
      }
      if item in Filtered(items, selected, "") {
        FilteredSound(items, selected, "", item);
      }
    }
  }

  /** The search text matters only through its lowercase form. */
  lemma FilteredCaseInsensitive(items: seq<MenuItem>, selected: Category, q1: string, q2: string)
    requires Lower(q1) == Lower(q2)
    ensures Filtered(items, selected, q1) == Filtered(items, selected, q2)
  {
    LowerEmpty(q1);
    LowerEmpty(q2);
    FilterSame(ByCategory(items, selected), (item: MenuItem) => Matches(item, q1), (item: MenuItem) => Matches(item, q2));
  }

  /** An item with an empty description matches a non-empty search text only
      through its name. */
  lemma MatchesByNameOnly(item: MenuItem, searchText: string)
    requires item.description == [] && searchText != []
    ensures Matches(item, searchText) <==> Contains(Lower(item.name), Lower(searchText))
  {
    LowerEmpty(searchText);
    assert Lower(item.description) == [];
  }

  // ---------------------------------------------------------------------------
  // The sample catalog

  /** The filter on a non-empty list: its first element, when it satisfies
      `p`, followed by the filter on the rest. */
  lemma FilterStep<T>(s: seq<T>, p: T -> bool)
    requires s != []
    ensures Filter(s, p) == (if p(s[0]) then [s[0]] else []) + Filter(s[1..], p)
  {
  }

  /** The category filter on the sample catalog. */
  lemma CatalogFilter(selected: Category)
    ensures Filter(MenuItems, (item: MenuItem) => item.category == selected) == match selected
      case Starters => [GreekSalad, Bruschetta]
      case Mains => [GrilledFish, Pasta]
      case Dessert => [LemonDessert]
      case Drinks => [Whiskey, Lemonade]
  {
    var s := MenuItems;
    var p := (item: MenuItem) => item.category == selected;
    assert s[0].category == Starters && s[1].category == Starters;
    assert s[2].category == Mains && s[3].category == Mains;
    assert s[4].category == Dessert;
    assert s[5].category == Drinks && s[6].category == Drinks;
    FilterStep(s, p);
    FilterStep(s[1..], p);
    FilterStep(s[2..], p);
    FilterStep(s[3..], p);
    FilterStep(s[4..], p);
    FilterStep(s[5..], p);
    FilterStep(s[6..], p);
    assert s[1..][1..] == s[2..] && s[2..][1..] == s[3..] && s[3..][1..] == s[4..];
    assert s[4..][1..] == s[5..] && s[5..][1..] == s[6..] && s[6..][1..] == [];
  }

  /** The category stage on the sample catalog. */
  lemma CatalogByCategory(selected: Category)
    ensures ByCategory(MenuItems, selected) == match selected
      case Starters => [GreekSalad, Bruschetta]
      case Mains => [GrilledFish, Pasta]
      case Dessert => [LemonDessert]
      case Drinks => [Whiskey, Lemonade]
  {
    CatalogFilter(selected);
  }

  /** The screen opens on the starters with an empty search text. */
  lemma InitialListing()
    ensures FilteredMenuItems(Starters, "") == [GreekSalad, Bruschetta]
  {
    CatalogByCategory(Starters);
  }

  /** The drinks, unsearched, are the whiskey and the lemonade, in that order;
      searched, they match only by name. */
  lemma DrinksListing(searchText: string)
    ensures FilteredMenuItems(Drinks, "") == [Whiskey, Lemonade]
    ensures forall item :: item in FilteredMenuItems(Drinks, searchText) && searchText != [] ==>
              Contains(Lower(item.name), Lower(searchText))
  {
    CatalogByCategory(Drinks);
    forall item | item in FilteredMenuItems(Drinks, searchText) && searchText != []
      ensures Contains(Lower(item.name), Lower(searchText))
    {
      FilteredSound(MenuItems, Drinks, searchText, item);
      MatchesByNameOnly(item, searchText);
    }
  }

  /** The search stage on two items. */
  lemma BySearchPair(a: MenuItem, b: MenuItem, searchText: string)
    requires searchText != []
    ensures BySearch([a, b], searchText)
         == (if Matches(a, searchText) then [a] else []) + (if Matches(b, searchText) then [b] else [])
  {
    var matches := (item: MenuItem) => Matches(item, searchText);
    assert [a, b][1..] == [b];
    assert [b][1..] == [];
    assert Filter([b], matches) == (if Matches(b, searchText) then [b] else []);
  }

  /** "pasta" is the pasta's name. */
  lemma PastaMatchesPasta()
    ensures Matches(Pasta, "pasta")
  {
    assert Lower("pasta") == "pasta";
    assert Lower(Pasta.name) == "pasta";
    ContainsTrivial("pasta");
  }

  /** The grilled fish's description, phrase by phrase, holds no "pasta": the
      first phrase has no 'p', the second no 'a', the third no 't'. */
  lemma FishOpeningLacksPasta()
    ensures !Contains(Lower("Barbequed catch of the day"), "pasta")
  {
    LowerLacks("Barbequed catch of the day", "pasta", 0);
  }

  lemma FishMiddleLacksPasta()
    ensures !Contains(Lower("with red onion, crisp"), "pasta")
  {
    LowerLacks("with red onion, crisp", "pasta", 1);
  }

  lemma FishEndLacksPasta()
    ensures !Contains(Lower("capers..."), "pasta")
  {
    LowerLacks("capers...", "pasta", 3);
  }

  /** Neither the grilled fish's name nor its description holds "pasta". */
  lemma GrilledFishLacksPasta()
    ensures !Matches(GrilledFish, "pasta")
  {
    assert Lower("pasta") == "pasta";
    LowerLacks(GrilledFish.name, "pasta", 0);
    FishOpeningLacksPasta();
    FishMiddleLacksPasta();
    FishEndLacksPasta();
    NoMatchAcrossSpace("Barbequed catch of the day", "with red onion, crisp", "pasta");
    NoMatchAcrossSpace("Barbequed catch of the day" + " " + "with red onion, crisp", "capers...", "pasta");
  }

  /** The grilled fish has no 'a' in its name and no 'l' in its description. */
  lemma FishNameLacksSalad()
    ensures !Contains(Lower(GrilledFish.name), "salad")
  {
    LowerLacks(GrilledFish.name, "salad", 1);
  }

  lemma FishDescriptionLacksSalad()
    ensures !Contains(Lower(GrilledFish.description), "salad")
  {
    LowerLacks(GrilledFish.description, "salad", 2);
  }

  /** Neither the grilled fish's name nor its description holds "salad". */
  lemma GrilledFishLacksSalad()
    ensures !Matches(GrilledFish, "salad")
  {
    assert Lower("salad") == "salad";
    FishNameLacksSalad();
    FishDescriptionLacksSalad();
  }

  /** The pasta's description, phrase by phrase, holds no "salad": the first
      phrase has no 'l', the second no 'd'. */
  lemma PastaOpeningLacksSalad()
    ensures !Contains(Lower("Penne with fried aubergines,"), "salad")
  {
    LowerLacks("Penne with fried aubergines,", "salad", 2);
  }

  lemma PastaEndLacksSalad()
    ensures !Contains(Lower("tomato sauce, fresh chilli, garlic..."), "salad")
  {
    LowerLacks("tomato sauce, fresh chilli, garlic...", "salad", 4);
  }

  /** The pasta has no 'l' in its name and no "salad" in its description. */
  lemma PastaLacksSalad()
    ensures !Matches(Pasta, "salad")
  {
    assert Lower("salad") == "salad";
    LowerLacks(Pasta.name, "salad", 2);
    PastaOpeningLacksSalad();
    PastaEndLacksSalad();
    NoMatchAcrossSpace("Penne with fried aubergines,", "tomato sauce, fresh chilli, garlic...", "salad");
  }

  /** Searching the mains for "pasta" finds the pasta alone. */
  lemma MainsPasta()
    ensures FilteredMenuItems(Mains, "pasta") == [Pasta]
  {
    CatalogByCategory(Mains);
    BySearchPair(GrilledFish, Pasta, "pasta");
    PastaMatchesPasta();
    GrilledFishLacksPasta();
  }

  /** Searching the mains for "salad" finds nothing: the screen shows its
      "No items found" placeholder. */
  lemma MainsSalad()
    ensures FilteredMenuItems(Mains, "salad") == []
  {
    CatalogByCategory(Mains);
    BySearchPair(GrilledFish, Pasta, "salad");
    GrilledFishLacksSalad();
    PastaLacksSalad();
  }

  /** A space-free lowercase query found in neither of two texts is not found
      in the two joined at a space. */
  lemma NoMatchAcrossSpace(a: string, b: string, q: string)
    requires ' ' !in q && Lower(q) == q
    requires !Contains(Lower(a), q) && !Contains(Lower(b), q)
    ensures !Contains(Lower(a + " " + b), q)
  {
    LowerAppend(a + " ", b);
    LowerAppend(a, " ");
    assert Lower(" ") == [' '];
    Separated(Lower(a), ' ', Lower(b), q);
  }
}

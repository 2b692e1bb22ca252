/**
 * The dogs page: its six dogs, the size filter behind the category buttons, and the cart
 * entry its "add to cart" button builds.
 */
module Dogs {
  import opened Rows
  import opened Text
  import opened Catalog

  const Buddy := Pet("dog-1", "Buddy", "Golden Retriever", "2 years", 1200.0, PexelsPhoto("1805164"), "Friendly and energetic Golden Retriever, perfect for active families.", ["Friendly", "Energetic", "Loyal"], "Male", "Large")
  const Luna := Pet("dog-2", "Luna", "Border Collie", "1 year", 1000.0, PexelsPhoto("551628"), "Intelligent and agile Border Collie, great for training and activities.", ["Intelligent", "Active", "Obedient"], "Female", "Medium")
  const Max := Pet("dog-3", "Max", "German Shepherd", "3 years", 1500.0, PexelsPhoto("1490908"), "Protective and loyal German Shepherd, excellent guard dog.", ["Protective", "Loyal", "Brave"], "Male", "Large")
  const Bella := Pet("dog-4", "Bella", "Labrador Retriever", "6 months", 900.0, PexelsPhoto("1639729"), "Sweet Labrador puppy, loves to play and learn new tricks.", ["Playful", "Gentle", "Smart"], "Female", "Large")
  const Charlie := Pet("dog-5", "Charlie", "Beagle", "2 years", 800.0, PexelsPhoto("1851164"), "Friendly Beagle with a great nose for adventure.", ["Curious", "Friendly", "Gentle"], "Male", "Medium")
  const Ruby := Pet("dog-6", "Ruby", "French Bulldog", "1.5 years", 1800.0, PexelsPhoto("1629781"), "Adorable French Bulldog, perfect apartment companion.", ["Calm", "Affectionate", "Adaptable"], "Female", "Small")

  /** The page's dogs, in the order they are listed. */
  const DogList: seq<Pet> := [Buddy, Luna, Max, Bella, Charlie, Ruby]

  /** A dog belongs to `category` when its size, lowercased, is the category's id. */
  predicate OfSize(category: string, d: Pet)
  {
    ToLower(d.size) == category
  }

  /** The dogs shown for the selected category: every dog for 'all', else the size filter. */
  function FilteredDogs(category: string): seq<Pet>
  {
    if category == "all" then DogList else Filter(DogList, d => OfSize(category, d))
  }

  /** The entry "add to cart" passes on for `dog`. */
  function HandleAddToCart(dog: Pet): (e: CartEntry)
    ensures e.id == dog.id && e.name == dog.name && e.price == dog.price && e.image == dog.image
    ensures e.category == "dog"
  {
    CartEntry(dog.id, dog.name, dog.price, dog.image, "dog")
  }

  lemma LowerLarge() ensures ToLower("Large") == "large" { }
  lemma LowerMedium() ensures ToLower("Medium") == "medium" { }
  lemma LowerSmall() ensures ToLower("Small") == "small" { }

  /** Each dog's lowercased size. */
  lemma DogSizes()
    ensures ToLower(Buddy.size) == "large" && ToLower(Luna.size) == "medium" && ToLower(Max.size) == "large"
    ensures ToLower(Bella.size) == "large" && ToLower(Charlie.size) == "medium" && ToLower(Ruby.size) == "small"
  {
    LowerLarge();
    LowerMedium();
    LowerSmall();
  }

  lemma DogListFilter(p: Pet -> bool)
    ensures Filter(DogList, p) ==
      Keep(Buddy, p) + (Keep(Luna, p) + (Keep(Max, p) + (Keep(Bella, p) + (Keep(Charlie, p) + (Keep(Ruby, p) + [])))))
  {
    assert DogList == [Buddy] + ([Luna] + ([Max] + ([Bella] + ([Charlie] + ([Ruby] + [])))));
    FilterCons(Buddy, [Luna] + ([Max] + ([Bella] + ([Charlie] + ([Ruby] + [])))), p);
    FilterCons(Luna, [Max] + ([Bella] + ([Charlie] + ([Ruby] + []))), p);
    FilterCons(Max, [Bella] + ([Charlie] + ([Ruby] + [])), p);
    FilterCons(Bella, [Charlie] + ([Ruby] + []), p);
    FilterCons(Charlie, [Ruby] + [], p);
    FilterCons(Ruby, [], p);
  }

  /** 'all' shows every dog, unchanged and in order. */
  lemma AllShowsEveryDog()
    ensures FilteredDogs("all") == DogList
  {
  }

  /** Whatever the category, the dogs shown keep their listed order. */
  lemma FilteredDogsInOrder(category: string)
    ensures IsSubsequence(FilteredDogs(category), DogList)
  {
    if category == "all" {
      SubsequenceOfItself(DogList);
    } else {
      FilterIsSubsequence(DogList, d => OfSize(category, d));
    }
  }

  /** Any other category shows exactly the dogs of that size. */
  lemma FilteredDogsSpec(category: string)
    requires category != "all"
    ensures forall d :: d in FilteredDogs(category) <==> d in DogList && ToLower(d.size) == category
  {
    var p := (d: Pet) => OfSize(category, d);
    forall d ensures d in Filter(DogList, p) <==> d in DogList && ToLower(d.size) == category {
      FilterMembership(DogList, p, d);
    }
  }

  /** The exact dogs behind each button, and nothing for a category no dog has. */
  lemma SmallDogs()
    ensures FilteredDogs("small") == [Ruby]
  {
    DogSizes();
    DogListFilter(d => OfSize("small", d));
  }

  lemma MediumDogs()
    ensures FilteredDogs("medium") == [Luna, Charlie]
  {
    DogSizes();
    DogListFilter(d => OfSize("medium", d));
  }

  lemma LargeDogs()
    ensures FilteredDogs("large") == [Buddy, Max, Bella]
  {
    DogSizes();
    DogListFilter(d => OfSize("large", d));
  }

  lemma UnknownSizeShowsNothing(category: string)
    requires category !in {"all", "small", "medium", "large"}
    ensures FilteredDogs(category) == []
  {
    DogSizes();
    DogListFilter(d => OfSize(category, d));
  }

  /** No dog shows under two size buttons. */
  lemma SizeFiltersDisjoint()
    ensures forall d :: !(d in FilteredDogs("small") && d in FilteredDogs("medium"))
    ensures forall d :: !(d in FilteredDogs("small") && d in FilteredDogs("large"))
    ensures forall d :: !(d in FilteredDogs("medium") && d in FilteredDogs("large"))
  {
    FilteredDogsSpec("small");
    FilteredDogsSpec("medium");
    FilteredDogsSpec("large");
  }

  /**
   * The three size buttons together show every dog and only dogs of the list, and their
   * counts add up to the whole list; with the disjointness above, each dog shows exactly once.
   */
  lemma SizeFiltersCover()
    ensures forall d :: d in DogList <==> d in FilteredDogs("small") || d in FilteredDogs("medium") || d in FilteredDogs("large")
    ensures |FilteredDogs("small")| + |FilteredDogs("medium")| + |FilteredDogs("large")| == |DogList|
  {
    SmallDogs();
    MediumDogs();
    LargeDogs();
  }
}

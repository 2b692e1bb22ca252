/**
 * The cats page: its six cats, the kitten and coat filters behind the category buttons, and
 * the cart entry its "add to cart" button builds.
 */
module Cats {
  import opened Rows
  import opened Text
  import opened Catalog

  const Whiskers := Pet("cat-1", "Whiskers", "Persian", "2 years", 800.0, PexelsPhoto("1170986"), "Gentle and affectionate Persian cat, loves to cuddle.", ["Calm", "Affectionate", "Quiet"], "Female", "Medium")
  const Shadow := Pet("cat-2", "Shadow", "Maine Coon", "3 years", 1200.0, PexelsPhoto("1741205"), "Majestic Maine Coon with a gentle giant personality.", ["Gentle", "Playful", "Social"], "Male", "Large")
  const Luna := Pet("cat-3", "Luna", "Siamese", "1 year", 700.0, PexelsPhoto("1056251"), "Vocal and intelligent Siamese, very interactive.", ["Vocal", "Intelligent", "Active"], "Female", "Medium")
  const Mittens := Pet("cat-4", "Mittens", "British Shorthair", "4 years", 900.0, PexelsPhoto("1643456"), "Calm British Shorthair, perfect for quiet homes.", ["Independent", "Calm", "Loyal"], "Male", "Medium")
  const Cleo := Pet("cat-5", "Cleo", "Ragdoll", "6 months", 1000.0, PexelsPhoto("1404819"), "Sweet Ragdoll kitten, loves being held and cuddled.", ["Docile", "Affectionate", "Gentle"], "Female", "Large")
  const Felix := Pet("cat-6", "Felix", "Scottish Fold", "1.5 years", 1100.0, PexelsPhoto("1687831"), "Adorable Scottish Fold with distinctive folded ears.", ["Sweet", "Calm", "Playful"], "Male", "Medium")

  /** The page's cats, in the order they are listed. */
  const CatList: seq<Pet> := [Whiskers, Shadow, Luna, Mittens, Cleo, Felix]

  const LonghairBreeds: seq<string> := ["Persian", "Maine Coon", "Ragdoll"]
  const ShorthairBreeds: seq<string> := ["Siamese", "British Shorthair", "Scottish Fold"]

  /** A kitten: an age given in months, or exactly "1 year". */
  predicate IsKitten(c: Pet)
  {
    Contains(c.age, "months") || c.age == "1 year"
  }

  predicate IsLonghair(c: Pet)
  {
    c.breed in LonghairBreeds
  }

  predicate IsShorthair(c: Pet)
  {
    c.breed in ShorthairBreeds
  }

  /**
   * The cats shown for the selected category: every cat for 'all', the kittens, the long-hair
   * breeds, and for any other category the short-hair breeds.
   */
  function FilteredCats(category: string): seq<Pet>
  {
    if category == "all" then CatList
    else if category == "kittens" then Filter(CatList, IsKitten)
    else if category == "longhair" then Filter(CatList, IsLonghair)
    else Filter(CatList, IsShorthair)
  }

  /** The entry "add to cart" passes on for `cat`. */
  function HandleAddToCart(cat: Pet): (e: CartEntry)
    ensures e.id == cat.id && e.name == cat.name && e.price == cat.price && e.image == cat.image
    ensures e.category == "cat"
  {
    CartEntry(cat.id, cat.name, cat.price, cat.image, "cat")
  }

  lemma CatListFilter(p: Pet -> bool)
    ensures Filter(CatList, p) ==
      Keep(Whiskers, p) + (Keep(Shadow, p) + (Keep(Luna, p) + (Keep(Mittens, p) + (Keep(Cleo, p) + (Keep(Felix, p) + [])))))
  {
    assert CatList == [Whiskers] + ([Shadow] + ([Luna] + ([Mittens] + ([Cleo] + ([Felix] + [])))));
    FilterCons(Whiskers, [Shadow] + ([Luna] + ([Mittens] + ([Cleo] + ([Felix] + [])))), p);
    FilterCons(Shadow, [Luna] + ([Mittens] + ([Cleo] + ([Felix] + []))), p);
    FilterCons(Luna, [Mittens] + ([Cleo] + ([Felix] + [])), p);
    FilterCons(Mittens, [Cleo] + ([Felix] + []), p);
    FilterCons(Cleo, [Felix] + [], p);
    FilterCons(Felix, [], p);
  }

  /** Which cats count as kittens: '1 year' and '6 months' do, '1.5 years' does not. */
  lemma CatAges()
    ensures !IsKitten(Whiskers) && !IsKitten(Shadow) && IsKitten(Luna)
    ensures !IsKitten(Mittens) && IsKitten(Cleo) && !IsKitten(Felix)
  {
    NoMonths("2 years");
    NoMonths("3 years");
    NoMonths("4 years");
    NoMonths("1.5 years");
    SixMonths();
  }

  lemma NoMonths(age: string)
    requires 'm' !in age
    ensures !Contains(age, "months")
  {
    FirstCharMissing(age, "months");
  }

  lemma SixMonths()
    ensures Contains("6 months", "months")
  {
    assert OccursAt("6 months", "months", 2);
  }

  /** Each cat's breed is in exactly one of the two coat lists. */
  lemma CatCoats()
    ensures IsLonghair(Whiskers) && IsLonghair(Shadow) && IsLonghair(Cleo)
    ensures IsShorthair(Luna) && IsShorthair(Mittens) && IsShorthair(Felix)
    ensures !IsShorthair(Whiskers) && !IsShorthair(Shadow) && !IsShorthair(Cleo)
    ensures !IsLonghair(Luna) && !IsLonghair(Mittens) && !IsLonghair(Felix)
  {
  }

  /** 'all' shows every cat, unchanged and in order. */
  lemma AllShowsEveryCat()
    ensures FilteredCats("all") == CatList
  {
  }

  /** Whatever the category, the cats shown keep their listed order. */
  lemma FilteredCatsInOrder(category: string)
    ensures IsSubsequence(FilteredCats(category), CatList)
  {
    if category == "all" {
      SubsequenceOfItself(CatList);
    } else if category == "kittens" {
      FilterIsSubsequence(CatList, IsKitten);
    } else if category == "longhair" {
      FilterIsSubsequence(CatList, IsLonghair);
    } else {
      FilterIsSubsequence(CatList, IsShorthair);
    }
  }

  /** Each button other than 'all' shows exactly the cats its rule selects. */
  lemma FilteredCatsSpec(category: string)
    requires category != "all"
    ensures category == "kittens" ==> forall c :: c in FilteredCats(category) <==> c in CatList && IsKitten(c)
    ensures category == "longhair" ==> forall c :: c in FilteredCats(category) <==> c in CatList && IsLonghair(c)
    ensures category !in {"kittens", "longhair"} ==> forall c :: c in FilteredCats(category) <==> c in CatList && IsShorthair(c)
  {
    forall c ensures c in Filter(CatList, IsKitten) <==> c in CatList && IsKitten(c) {
      FilterMembership(CatList, IsKitten, c);
    }
    forall c ensures c in Filter(CatList, IsLonghair) <==> c in CatList && IsLonghair(c) {
      FilterMembership(CatList, IsLonghair, c);
    }
    forall c ensures c in Filter(CatList, IsShorthair) <==> c in CatList && IsShorthair(c) {
      FilterMembership(CatList, IsShorthair, c);
    }
  }

  lemma Kittens()
    ensures FilteredCats("kittens") == [Luna, Cleo]
  {
    CatAges();
    CatListFilter(IsKitten);
  }

  lemma Longhair()
    ensures FilteredCats("longhair") == [Whiskers, Shadow, Cleo]
  {
    CatCoats();
    CatListFilter(IsLonghair);
  }

  /** 'shorthair', and every category the page does not know, shows the short-hair breeds. */
  lemma Shorthair(category: string)
    requires category !in {"all", "kittens", "longhair"}
    ensures FilteredCats(category) == [Luna, Mittens, Felix]
  {
    CatCoats();
    CatListFilter(IsShorthair);
  }

  /**
   * No cat is both long- and short-haired, and the two coat buttons together show every cat
   * of the list once.
   */
  lemma CoatFiltersPartition()
    ensures forall c :: !(c in FilteredCats("longhair") && c in FilteredCats("shorthair"))
    ensures forall c :: c in CatList <==> c in FilteredCats("longhair") || c in FilteredCats("shorthair")
    ensures |FilteredCats("longhair")| + |FilteredCats("shorthair")| == |CatList|
  {
    Longhair();
    Shorthair("shorthair");
    CatCoats();
  }
}

/**
 * The adoption page: its six shelter pets, the species filter behind its buttons, and the
 * page state the "contact" button sets.
 */
module Adopt {
  import opened Wrappers
  import opened Rows
  import opened Catalog

  /** A pet offered for adoption; `adoptionFee` is in dollars. */
  datatype AdoptionPet = AdoptionPet(
    id: string,
    name: string,
    species: string,
    age: string,
    gender: string,
    breed: string,
    image: string,
    description: string,
    personality: seq<string>,
    location: string,
    contactEmail: string,
    contactPhone: string,
    adoptionFee: real)

  const Rocky := AdoptionPet("adopt-1", "Rocky", "Dog", "5 years", "Male", "Mixed Breed", PexelsPhoto("1458925"), "Rocky is a gentle soul looking for a loving home. He loves long walks and belly rubs.", ["Gentle", "Loyal", "Calm"], "Local Animal Shelter", "shelter@example.com", "(555) 123-4567", 150.0)
  const Mia := AdoptionPet("adopt-2", "Mia", "Cat", "3 years", "Female", "Tabby", PexelsPhoto("1741205"), "Mia is a sweet cat who loves to purr and play with toys. She would do great in a quiet home.", ["Sweet", "Playful", "Independent"], "City Animal Rescue", "rescue@example.com", "(555) 987-6543", 100.0)
  const Bailey := AdoptionPet("adopt-3", "Bailey", "Dog", "2 years", "Female", "Labrador Mix", PexelsPhoto("1851164"), "Bailey is energetic and loves to play fetch. She would be perfect for an active family.", ["Energetic", "Friendly", "Playful"], "Happy Paws Rescue", "happypaws@example.com", "(555) 456-7890", 200.0)
  const Oliver := AdoptionPet("adopt-4", "Oliver", "Cat", "1 year", "Male", "Orange Tabby", PexelsPhoto("1056251"), "Oliver is a young, curious cat who loves to explore and play. He gets along well with other cats.", ["Curious", "Social", "Active"], "Feline Friends Rescue", "feline@example.com", "(555) 321-0987", 125.0)
  const Sadie := AdoptionPet("adopt-5", "Sadie", "Dog", "7 years", "Female", "Golden Retriever", PexelsPhoto("1805164"), "Sadie is a senior dog with so much love to give. She enjoys gentle walks and cozy naps.", ["Gentle", "Loving", "Calm"], "Senior Pet Sanctuary", "senior@example.com", "(555) 654-3210", 75.0)
  const Smokey := AdoptionPet("adopt-6", "Smokey", "Cat", "4 years", "Male", "Gray Shorthair", PexelsPhoto("1404819"), "Smokey is a laid-back cat who loves to lounge in sunny spots and receive gentle pets.", ["Relaxed", "Affectionate", "Quiet"], "Community Cat Rescue", "cats@example.com", "(555) 789-0123", 90.0)

  /** The page's pets, in the order they are listed. */
  const AdoptionPets: seq<AdoptionPet> := [Rocky, Mia, Bailey, Oliver, Sadie, Smokey]

  /** The page's state: the species button selected and the contact dialog. */
  datatype AdoptPage = AdoptPage(selectedSpecies: string, showContactModal: bool, selectedPet: Option<AdoptionPet>)

  /** The state the page starts in: all species, no dialog, no pet selected. */
  const InitialPage := AdoptPage("all", false, None)

  predicate OfSpecies(species: string, p: AdoptionPet)
  {
    p.species == species
  }

  /** The pets shown for the selected species: every pet for 'all', else the species filter. */
  function FilteredPets(species: string): seq<AdoptionPet>
  {
    if species == "all" then AdoptionPets else Filter(AdoptionPets, p => OfSpecies(species, p))
  }

  /** The "contact" button: selects `pet` and opens the dialog; the species filter stays. */
  function HandleContactClick(page: AdoptPage, pet: AdoptionPet): (r: AdoptPage)
    ensures r.selectedPet == Some(pet) && r.showContactModal
    ensures r.selectedSpecies == page.selectedSpecies
  {
    page.(selectedPet := Some(pet), showContactModal := true)
  }

  /** A second click on the same pet changes nothing; a click on another pet replaces the first. */
  lemma ContactClickReplaces(page: AdoptPage, first: AdoptionPet, second: AdoptionPet)
    ensures HandleContactClick(HandleContactClick(page, first), second) == HandleContactClick(page, second)
    ensures HandleContactClick(HandleContactClick(page, first), first) == HandleContactClick(page, first)
  {
  }

  /** Opening the dialog leaves the list shown unchanged. */
  lemma ContactKeepsList(page: AdoptPage, pet: AdoptionPet)
    ensures FilteredPets(HandleContactClick(page, pet).selectedSpecies) == FilteredPets(page.selectedSpecies)
  {
  }

  lemma AdoptionPetsFilter(p: AdoptionPet -> bool)
    ensures Filter(AdoptionPets, p) ==
      Keep(Rocky, p) + (Keep(Mia, p) + (Keep(Bailey, p) + (Keep(Oliver, p) + (Keep(Sadie, p) + (Keep(Smokey, p) + [])))))
  {
    assert AdoptionPets == [Rocky] + ([Mia] + ([Bailey] + ([Oliver] + ([Sadie] + ([Smokey] + [])))));
    FilterCons(Rocky, [Mia] + ([Bailey] + ([Oliver] + ([Sadie] + ([Smokey] + [])))), p);
    FilterCons(Mia, [Bailey] + ([Oliver] + ([Sadie] + ([Smokey] + []))), p);
    FilterCons(Bailey, [Oliver] + ([Sadie] + ([Smokey] + [])), p);
    FilterCons(Oliver, [Sadie] + ([Smokey] + []), p);
    FilterCons(Sadie, [Smokey] + [], p);
    FilterCons(Smokey, [], p);
  }

  /** 'all' shows every pet, unchanged and in order. */
  lemma AllShowsEveryPet()
    ensures FilteredPets("all") == AdoptionPets
  {
  }

  /** Whatever the selection, the pets shown keep their listed order. */
  lemma FilteredPetsInOrder(species: string)
    ensures IsSubsequence(FilteredPets(species), AdoptionPets)
  {
    if species == "all" {
      SubsequenceOfItself(AdoptionPets);
    } else {
      FilterIsSubsequence(AdoptionPets, p => OfSpecies(species, p));
    }
  }

  /** Any other selection shows exactly the pets of that species. */
  lemma FilteredPetsSpec(species: string)
    requires species != "all"
    ensures forall p :: p in FilteredPets(species) <==> p in AdoptionPets && p.species == species
  {
    var q := (p: AdoptionPet) => OfSpecies(species, p);
    forall p ensures p in Filter(AdoptionPets, q) <==> p in AdoptionPets && p.species == species {
      FilterMembership(AdoptionPets, q, p);
    }
  }

  lemma DogsUpForAdoption()
    ensures FilteredPets("Dog") == [Rocky, Bailey, Sadie]
  {
    AdoptionPetsFilter(p => OfSpecies("Dog", p));
  }

  lemma CatsUpForAdoption()
    ensures FilteredPets("Cat") == [Mia, Oliver, Smokey]
  {
    AdoptionPetsFilter(p => OfSpecies("Cat", p));
  }

  /** A species no pet has shows nothing. */
  lemma UnknownSpeciesShowsNothing(species: string)
    requires species !in {"all", "Dog", "Cat"}
    ensures FilteredPets(species) == []
  {
    AdoptionPetsFilter(p => OfSpecies(species, p));
  }

  /**
   * No pet shows under both buttons, and the 'Dog' and 'Cat' buttons together show every pet
   * of the list once.
   */
  lemma SpeciesFiltersPartition()
    ensures forall p :: !(p in FilteredPets("Dog") && p in FilteredPets("Cat"))
    ensures forall p :: p in AdoptionPets <==> p in FilteredPets("Dog") || p in FilteredPets("Cat")
    ensures |FilteredPets("Dog")| + |FilteredPets("Cat")| == |AdoptionPets|
  {
    DogsUpForAdoption();
    CatsUpForAdoption();
  }
}

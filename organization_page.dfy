/** The organisation listing page: the stored homes are turned into display cards
    (category, description, image and needs fallbacks), filtered by a
    case-insensitive search and a category, and each card shows at most three
    needs followed by a "+n more" badge. */
module OrganizationPage {
  import opened Js
  import opened HomeSchema

  /** A home as the pages display it. */
  datatype Card = Card(
    id: Id,
    name: string,
    category: string,
    location: string,
    description: string,
    image: string,
    needs: seq<string>,
    registrationNumber: string,
    contactNumber: string,
    email: string,
    homeType: string)

  /** The two image sizes the pages ask for: 300x200 on the listing, 600x400 on the detail page. */
  datatype ImageSize = Thumb | Large

  const AllTypes: string := "All types"
  const Categories: seq<string> := [AllTypes, "Elder Care", "Children Care", "Animal Care"]
  const LoadFailed: string := "Failed to load organizations. Please try again later."

  /** `typeMapping[type] || type`: each enum value has its display category; any
      other type is shown as it is. */
  function TypeToCategory(t: string): (c: string)
    ensures t == "Child Home" ==> c == "Children Care"
    ensures t == "Elder Home" ==> c == "Elder Care"
    ensures t == "Animal Center" ==> c == "Animal Care"
    ensures IsHomeType(t) ==> c in Categories[1..]
    ensures !IsHomeType(t) ==> c == t
  {
    if t == "Child Home" then "Children Care"
    else if t == "Elder Home" then "Elder Care"
    else if t == "Animal Center" then "Animal Care"
    else t
  }

  /** Distinct enum values get distinct categories, so a category picks out one type. */
  lemma CategoryIdentifiesType(t1: string, t2: string)
    requires IsHomeType(t1) && IsHomeType(t2)
    requires TypeToCategory(t1) == TypeToCategory(t2)
    ensures t1 == t2
  {
  }

  /** The stock photo for a type; unknown types share a generic one. */
  function PhotoFor(t: string): (photo: string)
    ensures t == "Child Home" ==> photo == "photo-1544027993-37dbfe43562a"
    ensures t == "Elder Home" ==> photo == "photo-1559839734-2b71ea197ec2"
    ensures t == "Animal Center" ==> photo == "photo-1601758228041-f3b2795255f1"
    ensures !IsHomeType(t) ==> photo == "photo-1559027615-cd4628902d4a"
  {
    if t == "Child Home" then "photo-1544027993-37dbfe43562a"
    else if t == "Elder Home" then "photo-1559839734-2b71ea197ec2"
    else if t == "Animal Center" then "photo-1601758228041-f3b2795255f1"
    else "photo-1559027615-cd4628902d4a"
  }

  const ImageBase: string := "https://images.unsplash.com/"

  /** `getDefaultImage(type)` at the given size: the type's photo on the image
      service, cropped to that size. */
  function DefaultImage(t: string, size: ImageSize): (url: string)
    ensures url == ImageBase + PhotoFor(t) + SizeQuery(size)
  {
    ImageBase + PhotoFor(t) + SizeQuery(size)
  }

  /** The crop asked of the image service: 300x200 for the listing, 600x400 for the detail page. */
  function SizeQuery(size: ImageSize): (q: string)
    ensures size == Thumb ==> q == "?w=300&h=200&fit=crop"
    ensures size == Large ==> q == "?w=600&h=400&fit=crop"
  {
    if size == Thumb then "?w=300&h=200&fit=crop" else "?w=600&h=400&fit=crop"
  }

  /** `getDefaultNeeds(type)`: five needs for each enum value, three for anything
      else; money always comes first and volunteers are always asked for. */
  function DefaultNeeds(t: string): (needs: seq<string>)
    ensures t == "Child Home" ==> needs == ["Money", "Volunteers", "Books", "School Supplies", "Toys"]
    ensures t == "Elder Home" ==> needs == ["Money", "Medical Supplies", "Volunteers", "Wheelchairs", "Care Items"]
    ensures t == "Animal Center" ==> needs == ["Money", "Volunteers", "Pet Food", "Medical Supplies", "Cages"]
    ensures !IsHomeType(t) ==> needs == ["Money", "Volunteers", "Supplies"]
    ensures |needs| == if IsHomeType(t) then 5 else 3
    ensures needs[0] == "Money" && "Volunteers" in needs
  {
    if t == "Child Home" then ["Money", "Volunteers", "Books", "School Supplies", "Toys"]
    else if t == "Elder Home" then ["Money", "Medical Supplies", "Volunteers", "Wheelchairs", "Care Items"]
    else if t == "Animal Center" then ["Money", "Volunteers", "Pet Food", "Medical Supplies", "Cages"]
    else ["Money", "Volunteers", "Supplies"]
  }

  const DescriptionTail: string := " providing care and support to those in need."

  /** The description shown when a home has none: "A ", the type in lower case, and
      the fixed tail. */
  function FallbackDescription(t: string): (d: string)
    ensures |d| == 2 + |t| + |DescriptionTail|
    ensures d[..2] == "A " && d[2..2 + |t|] == ToLowerCase(t) && d[2 + |t|..] == DescriptionTail
  {
    "A " + ToLowerCase(t) + DescriptionTail
  }

  /** The transform of one stored home into its card. */
  function ToCard(h: Home, size: ImageSize): (c: Card)
    ensures c.id == h.id && c.name == h.name && c.location == h.location && c.homeType == h.homeType
    ensures c.registrationNumber == h.registrationNumber && c.contactNumber == h.contactNumber
    ensures c.email == h.email
    ensures c.category == TypeToCategory(h.homeType)
    ensures Truthy(c.description) && Truthy(c.image)
    ensures Truthy(h.description) ==> c.description == h.description
    ensures Truthy(h.picture) ==> c.image == h.picture
    ensures !Truthy(h.description) ==> c.description == FallbackDescription(h.homeType)
    ensures !Truthy(h.picture) ==> c.image == DefaultImage(h.homeType, size)
    ensures c.needs == DefaultNeeds(h.homeType)
  {
    Card(h.id, h.name, TypeToCategory(h.homeType), h.location,
         Or(h.description, FallbackDescription(h.homeType)),
         Or(h.picture, DefaultImage(h.homeType, size)),
         DefaultNeeds(h.homeType), h.registrationNumber, h.contactNumber, h.email, h.homeType)
  }

  /** The listing transform `response.data.map(...)`: one card per home, in order. */
  function TransformAll(homes: seq<Home>): (cards: seq<Card>)
    ensures |cards| == |homes|
    ensures forall i :: 0 <= i < |homes| ==> cards[i] == ToCard(homes[i], Thumb)
  {
    if homes == [] then [] else [ToCard(homes[0], Thumb)] + TransformAll(homes[1..])
  }

  /** The search term occurs, ignoring case, in the name, description, location or one of the needs. */
  predicate MatchesSearch(c: Card, term: string) {
    var q := ToLowerCase(term);
    Includes(ToLowerCase(c.name), q) || Includes(ToLowerCase(c.description), q)
    || Includes(ToLowerCase(c.location), q)
    || exists k :: 0 <= k < |c.needs| && Includes(ToLowerCase(c.needs[k]), q)
  }

  predicate MatchesCategory(c: Card, category: string) {
    category == AllTypes || c.category == category
  }

  predicate Matches(c: Card, term: string, category: string) {
    MatchesSearch(c, term) && MatchesCategory(c, category)
  }

  /** `filteredHomes`: the cards that match, in their original order. */
  function FilterHomes(cards: seq<Card>, term: string, category: string): (r: seq<Card>)
    ensures |r| <= |cards|
    ensures forall i :: 0 <= i < |r| ==> r[i] in cards && Matches(r[i], term, category)
  {
    if cards == [] then []
    else if Matches(cards[0], term, category) then [cards[0]] + FilterHomes(cards[1..], term, category)
    else FilterHomes(cards[1..], term, category)
  }

  /** Every matching card is kept. */
  lemma {:induction false} FilterKeepsMatches(cards: seq<Card>, term: string, category: string, c: Card)
    requires c in cards && Matches(c, term, category)
    ensures c in FilterHomes(cards, term, category)
  {
    if cards[0] != c {
      FilterKeepsMatches(cards[1..], term, category, c);
    }
  }

  /** Filtering works piecewise, so the kept cards stay in their relative order. */
  lemma {:induction false} FilterAppend(a: seq<Card>, b: seq<Card>, term: string, category: string)
    ensures FilterHomes(a + b, term, category) == FilterHomes(a, term, category) + FilterHomes(b, term, category)
  {
    if a == [] {
      assert a + b == b;
    } else {
      assert (a + b)[1..] == a[1..] + b;
      FilterAppend(a[1..], b, term, category);
    }
  }

  /** The empty search under "All types" keeps every card. */
  lemma {:induction false} EmptySearchKeepsAll(cards: seq<Card>)
    ensures FilterHomes(cards, "", AllTypes) == cards
  {
    if cards != [] {
      IncludesEmpty(ToLowerCase(cards[0].name));
      assert ToLowerCase("") == "";
      EmptySearchKeepsAll(cards[1..]);
    }
  }

  /** The search ignores the case of the term. */
  lemma SearchIgnoresCase(c: Card, term: string)
    ensures MatchesSearch(c, term) == MatchesSearch(c, ToLowerCase(term))
  {
    ToLowerCaseIdempotent(term);
  }

  /** A known category selects exactly the homes of its type. */
  lemma CategoryFilterByType(h: Home, t: string)
    requires IsHomeType(t) && IsHomeType(h.homeType)
    ensures MatchesCategory(ToCard(h, Thumb), TypeToCategory(t)) <==> h.homeType == t
  {
    var c := ToCard(h, Thumb);
    assert c.category == TypeToCategory(h.homeType);
    assert TypeToCategory(t) != AllTypes;
    if c.category == TypeToCategory(t) {
      CategoryIdentifiesType(h.homeType, t);
    }
  }

  /** The needs the card lists: `needs.slice(0, 3)`. */
  function VisibleNeeds(needs: seq<string>): (shown: seq<string>)
    ensures |shown| == if |needs| < 3 then |needs| else 3
    ensures shown == needs[..|shown|]
  {
    if |needs| <= 3 then needs else needs[..3]
  }

  /** The badge after them: "+n more" for the n needs not listed, none when all fit. */
  function MoreBadge(needs: seq<string>): (badge: Option<string>)
    ensures badge.Some? <==> |needs| > 3
    ensures |needs| > 3 ==> badge == Some("+" + NatToString(|needs| - 3) + " more")
  {
    if |needs| > 3 then Some("+" + NatToString(|needs| - 3) + " more") else None
  }

  /** Every need is either listed or counted by the badge: without a badge all the
      needs are listed, and the number the badge reads plus the listed needs is the
      number of needs. */
  lemma NeedsAllAccounted(needs: seq<string>)
    ensures MoreBadge(needs).None? ==> VisibleNeeds(needs) == needs
    ensures var b := MoreBadge(needs);
            b.Some? ==> 6 <= |b.value| && b.value[..1] == "+" && b.value[|b.value| - 5..] == " more"
                        && |VisibleNeeds(needs)| + DecimalValue(b.value[1..|b.value| - 5]) == |needs|
  {
    if |needs| > 3 {
      var digits := NatToString(|needs| - 3);
      var b := "+" + digits + " more";
      assert b[1..|b| - 5] == digits;
      NatToStringValue(|needs| - 3);
    }
  }

  /** On a card of a known type the badge reads "+2 more"; other cards list all three needs. */
  lemma DefaultNeedsBadge(t: string)
    ensures IsHomeType(t) ==> MoreBadge(DefaultNeeds(t)) == Some("+2 more")
    ensures !IsHomeType(t) ==> MoreBadge(DefaultNeeds(t)).None? && VisibleNeeds(DefaultNeeds(t)) == DefaultNeeds(t)
  {
    if IsHomeType(t) {
      assert DigitChar(2) == '2';
      assert NatToString(2) == "2";
      assert "+" + "2" + " more" == "+2 more";
    }
  }

  class ListingPage {
    var organizations: seq<Card>
    var loading: bool
    var error: Option<string>
    var searchTerm: string
    var selectedCategory: string

    constructor ()
      ensures organizations == [] && loading && error == None
      ensures searchTerm == "" && selectedCategory == AllTypes
    {
      organizations := [];
      loading := true;
      error := None;
      searchTerm := "";
      selectedCategory := AllTypes;
    }

    /** `fetchOrganizations`, given the homes the request returned (absent when it
        failed): the cards of those homes, or an empty list and the error message.
        `loading` ends false either way. */
    method FetchOrganizations(response: Option<seq<Home>>)
      modifies this
      ensures !loading
      ensures searchTerm == old(searchTerm) && selectedCategory == old(selectedCategory)
      ensures response.Some? ==> organizations == TransformAll(response.value) && error == None
      ensures response.None? ==> organizations == [] && error == Some(LoadFailed)
    {
      loading := true;
      if response.None? {
        error := Some(LoadFailed);
        organizations := [];
      } else {
        organizations := TransformAll(response.value);
        error := None;
      }
      loading := false;
    }

    /** The cards the page shows. */
    function FilteredHomes(): (shown: seq<Card>)
      reads this
      ensures |shown| <= |organizations|
      ensures forall i :: 0 <= i < |shown| ==>
                shown[i] in organizations && Matches(shown[i], searchTerm, selectedCategory)
    {
      FilterHomes(organizations, searchTerm, selectedCategory)
    }
  }
}

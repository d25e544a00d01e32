/**
 * The destination search of the navigation panel: a fixed list of places and
 * the case-insensitive filter that the search effect applies to it.
 */
module LocationSearch {
  import opened JsString

  /** Latitude and longitude; stored and displayed, never computed with. */
  datatype Coordinates = Coordinates(lat: real, lng: real)

  /** A `Location` record. */
  datatype Place = Place(id: string, name: string, address: string, coordinates: Coordinates)

  const TajMahal := Place("1", "Taj Mahal", "Agra, Uttar Pradesh", Coordinates(27.1751, 78.0421))
  const IndiaGate := Place("2", "India Gate", "New Delhi", Coordinates(28.6129, 77.2295))
  const GatewayOfIndia := Place("3", "Gateway of India", "Mumbai, Maharashtra", Coordinates(18.9220, 72.8347))
  const HawaMahal := Place("4", "Hawa Mahal", "Jaipur, Rajasthan", Coordinates(26.9239, 75.8267))
  const MysorePalace := Place("5", "Mysore Palace", "Mysore, Karnataka", Coordinates(12.3051, 76.6551))

  /** `mockLocations`, in order. */
  const MockLocations: seq<Place> := [TajMahal, IndiaGate, GatewayOfIndia, HawaMahal, MysorePalace]

  /** The filter's test: the lowercased name or address includes the lowercased query. */
  predicate Matches(p: Place, query: string)
  {
    Includes(ToLowerCase(p.name), ToLowerCase(query))
    || Includes(ToLowerCase(p.address), ToLowerCase(query))
  }

  /** `places.filter(location => Matches(location, query))`. */
  function Filter(places: seq<Place>, query: string): (r: seq<Place>)
    ensures |r| <= |places|
  {
    if places == [] then []
    else (if Matches(places[0], query) then [places[0]] else []) + Filter(places[1..], query)
  }

  /** A place is in the result exactly when it is in the list and matches. */
  lemma {:induction false} FilterMembership(places: seq<Place>, query: string, p: Place)
    ensures p in Filter(places, query) <==> p in places && Matches(p, query)
  {
    if places != [] {
      FilterMembership(places[1..], query, p);
      assert places == [places[0]] + places[1..];
    }
  }

  /** Filtering distributes over concatenation, so the result keeps the list's order. */
  lemma {:induction false} FilterAppend(a: seq<Place>, b: seq<Place>, query: string)
    ensures Filter(a + b, query) == Filter(a, query) + Filter(b, query)
  {
    if a != [] {
      assert (a + b)[1..] == a[1..] + b;
      FilterAppend(a[1..], b, query);
    } else {
      assert a + b == b;
    }
  }

  /** Nothing survives the filter when nothing matches. */
  lemma {:induction false} FilterNone(places: seq<Place>, query: string)
    requires forall p :: p in places ==> !Matches(p, query)
    ensures Filter(places, query) == []
  {
    if places != [] {
      assert places[0] in places;
      FilterNone(places[1..], query);
    }
  }

  /** The search effect's outcome for a query: the results and whether the dropdown shows. */
  function SearchEffect(query: string): (seq<Place>, bool)
  {
    if IsBlank(query) then ([], false) else (Filter(MockLocations, query), true)
  }

  /** A blank query gives no results, hidden; any other query gives, shown, exactly the
      fixed places whose lowercased name or address includes the lowercased query. */
  lemma SearchEffectSpec(query: string)
    ensures IsBlank(query) ==> SearchEffect(query) == ([], false)
    ensures !IsBlank(query) ==> SearchEffect(query).1
    ensures !IsBlank(query) ==> forall p :: p in SearchEffect(query).0 <==> p in MockLocations && Matches(p, query)
  {
    forall p ensures p in Filter(MockLocations, query) <==> p in MockLocations && Matches(p, query) {
      FilterMembership(MockLocations, query, p);
    }
  }

  /** No character of the text lowercases to `c`. */
  predicate Lacks(text: string, c: char)
  {
    forall k | 0 <= k < |text| :: LowerChar(text[k]) != c
  }

  /** A text lacking a character of the lowercased query cannot include it, once lowercased. */
  lemma LackingLetter(text: string, query: string, c: char)
    requires Lacks(text, c) && c in ToLowerCase(query)
    ensures !Includes(ToLowerCase(text), ToLowerCase(query))
  {
    if Includes(ToLowerCase(text), ToLowerCase(query)) {
      IncludesCharacters(ToLowerCase(text), ToLowerCase(query), c);
    }
  }

  /** A place whose name and address each lack a letter of the query does not match it. */
  lemma NoMatchByLetters(p: Place, query: string, inName: char, inAddress: char)
    requires Lacks(p.name, inName) && inName in ToLowerCase(query)
    requires Lacks(p.address, inAddress) && inAddress in ToLowerCase(query)
    ensures !Matches(p, query)
  {
    LackingLetter(p.name, query, inName);
    LackingLetter(p.address, query, inAddress);
  }

  /** A place whose name lacks `inName` and whose address lacks `inAddress`, both letters of
      "Taj Mahal" once lowercased, does not match that query. */
  lemma MissesTajMahal(name: string, address: string, inName: char, inAddress: char)
    requires inName in ToLowerCase("Taj Mahal") && Lacks(name, inName)
    requires inAddress in ToLowerCase("Taj Mahal") && Lacks(address, inAddress)
    ensures forall p: Place :: p.name == name && p.address == address ==> !Matches(p, "Taj Mahal")
  {
    forall p: Place | p.name == name && p.address == address ensures !Matches(p, "Taj Mahal") {
      NoMatchByLetters(p, "Taj Mahal", inName, inAddress);
    }
  }

  lemma TajMahalLetters()
    ensures 'j' in ToLowerCase("Taj Mahal") && 'm' in ToLowerCase("Taj Mahal")
  {
    assert ToLowerCase("Taj Mahal")[2] == 'j' && ToLowerCase("Taj Mahal")[4] == 'm';
  }

  // Each other place lacks a 'j' or an 'm' in its name and in its address.
  lemma IndiaGateMisses() ensures !Matches(IndiaGate, "Taj Mahal")
  {
    TajMahalLetters();
    MissesTajMahal("India Gate", "New Delhi", 'j', 'j');
  }

  lemma GatewayOfIndiaMisses() ensures !Matches(GatewayOfIndia, "Taj Mahal")
  {
    TajMahalLetters();
    MissesTajMahal("Gateway of India", "Mumbai, Maharashtra", 'j', 'j');
  }

  lemma HawaMahalMisses() ensures !Matches(HawaMahal, "Taj Mahal")
  {
    TajMahalLetters();
    MissesTajMahal("Hawa Mahal", "Jaipur, Rajasthan", 'j', 'm');
  }

  lemma MysorePalaceMisses() ensures !Matches(MysorePalace, "Taj Mahal")
  {
    TajMahalLetters();
    MissesTajMahal("Mysore Palace", "Mysore, Karnataka", 'j', 'j');
  }

  /** Of the fixed places, only the first matches "Taj Mahal". */
  lemma TajMahalFilter()
    ensures Filter(MockLocations, "Taj Mahal") == [TajMahal]
  {
    var q := "Taj Mahal";
    IncludesItself(ToLowerCase(q));
    IndiaGateMisses();
    GatewayOfIndiaMisses();
    HawaMahalMisses();
    MysorePalaceMisses();
    var m := MockLocations;
    assert Filter(m[5..], q) == [];
    assert Filter(m[4..], q) == [];
    assert Filter(m[3..], q) == [];
    assert Filter(m[2..], q) == [];
    assert Filter(m[1..], q) == [];
  }

  /** Query "Taj Mahal" yields exactly the Agra entry, shown. */
  lemma TajMahalQuery()
    ensures SearchEffect("Taj Mahal") == ([TajMahal], true)
  {
    assert !IsWhitespace("Taj Mahal"[0]);
    TajMahalFilter();
  }
}

/** The closed set of trip categories (the `TripType` enumeration of the
    database schema) and its string names. */
module TripTypes {
  import opened Common

  datatype TripType =
    | Business | Leisure | Adventure | Beach | CityBreak | Camping
    | Cruise | Backpacking | Family | Romantic | Other

  /** The enumeration value as it travels over the wire. */
  function Name(t: TripType): string {
    match t
    case Business => "BUSINESS"
    case Leisure => "LEISURE"
    case Adventure => "ADVENTURE"
    case Beach => "BEACH"
    case CityBreak => "CITY_BREAK"
    case Camping => "CAMPING"
    case Cruise => "CRUISE"
    case Backpacking => "BACKPACKING"
    case Family => "FAMILY"
    case Romantic => "ROMANTIC"
    case Other => "OTHER"
  }

  /** Every value, in declaration order (`Object.values(TripType)`). */
  const AllTripTypes: seq<TripType> :=
    [Business, Leisure, Adventure, Beach, CityBreak, Camping,
     Cruise, Backpacking, Family, Romantic, Other]

  /** The names of the enumeration, in declaration order. */
  function Names(): (r: seq<string>)
    ensures |r| == |AllTripTypes|
    ensures forall i :: 0 <= i < |r| ==> r[i] == Name(AllTripTypes[i])
  {
    seq(|AllTripTypes|, i requires 0 <= i < |AllTripTypes| => Name(AllTripTypes[i]))
  }

  /** Membership check of a string in the enumeration (`z.enum(TripType)`). */
  function Parse(s: string): (r: Option<TripType>)
    ensures r.Some? ==> Name(r.value) == s
    ensures r.None? ==> forall t: TripType :: Name(t) != s
  {
    if s == "BUSINESS" then Some(Business)
    else if s == "LEISURE" then Some(Leisure)
    else if s == "ADVENTURE" then Some(Adventure)
    else if s == "BEACH" then Some(Beach)
    else if s == "CITY_BREAK" then Some(CityBreak)
    else if s == "CAMPING" then Some(Camping)
    else if s == "CRUISE" then Some(Cruise)
    else if s == "BACKPACKING" then Some(Backpacking)
    else if s == "FAMILY" then Some(Family)
    else if s == "ROMANTIC" then Some(Romantic)
    else if s == "OTHER" then Some(Other)
    else None
  }

  /** Names are distinct, so parsing a name gives back its value. */
  lemma ParseName(t: TripType)
    ensures Parse(Name(t)) == Some(t)
  {
  }

  lemma AllTripTypesComplete()
    ensures forall t: TripType :: t in AllTripTypes
    ensures forall i, j :: 0 <= i < j < |AllTripTypes| ==> AllTripTypes[i] != AllTripTypes[j]
  {
    forall t: TripType ensures t in AllTripTypes {
      match t
      case Business => assert AllTripTypes[0] == t;
      case Leisure => assert AllTripTypes[1] == t;
      case Adventure => assert AllTripTypes[2] == t;
      case Beach => assert AllTripTypes[3] == t;
      case CityBreak => assert AllTripTypes[4] == t;
      case Camping => assert AllTripTypes[5] == t;
      case Cruise => assert AllTripTypes[6] == t;
      case Backpacking => assert AllTripTypes[7] == t;
      case Family => assert AllTripTypes[8] == t;
      case Romantic => assert AllTripTypes[9] == t;
      case Other => assert AllTripTypes[10] == t;
    }
  }

  lemma NameInNames(t: TripType)
    ensures Name(t) in Names()
  {
    var names := Names();
    match t
    case Business => assert names[0] == Name(t);
    case Leisure => assert names[1] == Name(t);
    case Adventure => assert names[2] == Name(t);
    case Beach => assert names[3] == Name(t);
    case CityBreak => assert names[4] == Name(t);
    case Camping => assert names[5] == Name(t);
    case Cruise => assert names[6] == Name(t);
    case Backpacking => assert names[7] == Name(t);
    case Family => assert names[8] == Name(t);
    case Romantic => assert names[9] == Name(t);
    case Other => assert names[10] == Name(t);
  }
}

/** The badge text of a trip card (`getTripTypeLabel`): three trip types,
    matched without regard to case, get a friendly label; every other value
    is shown as it came. */
module TripCard {
  import opened Text
  import opened TripTypes
  import TripForm

  /** The lower-case keys the label switch recognises. */
  predicate KnownKey(key: string) {
    key == "business" || key == "leisure" || key == "beach"
  }

  function TripTypeLabel(tripType: string): (r: string)
    ensures ToLower(tripType) == "business" ==> r == "Business"
    ensures ToLower(tripType) == "leisure" ==> r == "Leisure"
    ensures ToLower(tripType) == "beach" ==> r == "Beach"
    ensures !KnownKey(ToLower(tripType)) ==> r == tripType
  {
    var key := ToLower(tripType);
    if key == "business" then "Business"
    else if key == "leisure" then "Leisure"
    else if key == "beach" then "Beach"
    else tripType
  }

  /** The label is one of the three friendly labels or the input itself. */
  lemma LabelRange(tripType: string)
    ensures var r := TripTypeLabel(tripType);
      r == "Business" || r == "Leisure" || r == "Beach" || r == tripType
  {
  }

  /** Inputs equal up to case get the same friendly label. */
  lemma LabelIgnoresCase(a: string, b: string)
    requires ToLower(a) == ToLower(b) && KnownKey(ToLower(a))
    ensures TripTypeLabel(a) == TripTypeLabel(b)
  {
  }

  /** An unrecognised value passes through: `CITY_BREAK` stays `CITY_BREAK`. */
  lemma CityBreakPassesThrough()
    ensures TripTypeLabel("CITY_BREAK") == "CITY_BREAK"
  {
    assert ToLower("CITY_BREAK")[0] == 'c';
  }

  /** Labelling a label changes nothing. */
  lemma LabelIdempotent(tripType: string)
    ensures TripTypeLabel(TripTypeLabel(tripType)) == TripTypeLabel(tripType)
  {
    var key := ToLower(tripType);
    if key == "business" {
      assert ToLower("Business") == "business" by {}
    } else if key == "leisure" {
      assert ToLower("Leisure") == "leisure" by {}
    } else if key == "beach" {
      assert ToLower("Beach") == "beach" by {}
    }
  }

  /** Each friendly label is its key with the first letter raised. */
  lemma FriendlyLabelRaisesKey(key: string)
    requires KnownKey(key)
    ensures |key| > 0
    ensures TripTypeLabel(key) == [UpperChar(key[0])] + key[1..]
  {
    assert ToLower(key) == key by {
      if key == "business" {
        assert ToLower("business") == "business" by {}
      } else if key == "leisure" {
        assert ToLower("leisure") == "leisure" by {}
      } else {
        assert ToLower("beach") == "beach" by {}
      }
    }
  }

  /** A name starting with a capital whose lowered form is a known key is
      labelled by its first letter followed by the rest lowered. */
  lemma FriendlyLabelCapitalised(n: string)
    requires |n| > 0 && IsUpper(n[0]) && KnownKey(ToLower(n))
    ensures TripTypeLabel(n) == [n[0]] + ToLower(n[1..])
  {
    var key := ToLower(n);
    FriendlyLabelRaisesKey(key);
    LabelIgnoresCase(n, key);
    LowerUpperInverse(n[0]);
    assert key[1..] == ToLower(n[1..]);
  }

  /** The three friendly trip types lower to the card's keys. */
  lemma FriendlyTypeKeys(t: TripType)
    requires t == Business || t == Leisure || t == Beach
    ensures KnownKey(ToLower(Name(t)))
  {
    if t == Business {
      assert ToLower("BUSINESS") == "business" by {}
    } else if t == Leisure {
      assert ToLower("LEISURE") == "leisure" by {}
    } else {
      assert ToLower("BEACH") == "beach" by {}
    }
  }

  /** For BUSINESS, LEISURE and BEACH the card shows the same label as the
      select box of the trip form. */
  lemma FriendlyTypesMatchForm(t: TripType)
    requires t == Business || t == Leisure || t == Beach
    ensures TripTypeLabel(Name(t)) == TripForm.OptionLabel(Name(t))
  {
    TripForm.NameIsOneWord(t);
    FriendlyTypeKeys(t);
    FriendlyLabelCapitalised(Name(t));
    TripForm.OptionLabelOfOneWordTypes(t);
  }

  /** The other eight trip types are shown by their raw name on the card. */
  lemma OtherTypesShowRawName(t: TripType)
    requires t != Business && t != Leisure && t != Beach
    ensures TripTypeLabel(Name(t)) == Name(t)
  {
    var key := ToLower(Name(t));
    match t
    case Adventure => assert |key| == 9;
    case CityBreak => assert |key| == 10;
    case Camping => assert key[0] == 'c';
    case Cruise => assert |key| == 6;
    case Backpacking => assert |key| == 11;
    case Family => assert |key| == 6;
    case Romantic => assert key[0] == 'r';
    case Other => assert key[0] == 'o';
  }
}

/** The trip form on the client: the validation schema with its date-order
    refinement, the default values, the `disabled` rules of the two date
    pickers, and the label shown for each trip type in the select box.
    Dates are milliseconds since the Unix epoch; "now" is a parameter. */
module TripForm {
  import opened Common
  import opened Text
  import opened TripTypes

  datatype Field = TitleField | DestinationField | StartDateField | EndDateField | TripTypeField

  /** What the schema can report, each attached to one field. */
  datatype FormIssue =
    | TitleRequired | DestinationRequired | StartDateRequired | EndDateRequired
    | InvalidTripType | EndNotAfterStart

  function IssuePath(issue: FormIssue): Field {
    match issue
    case TitleRequired => TitleField
    case DestinationRequired => DestinationField
    case StartDateRequired => StartDateField
    case EndDateRequired => EndDateField
    case InvalidTripType => TripTypeField
    case EndNotAfterStart => EndDateField
  }

  function IssueMessage(issue: FormIssue): string {
    match issue
    case TitleRequired => "Title is required"
    case DestinationRequired => "Destination is required"
    case StartDateRequired => "Start date is required"
    case EndDateRequired => "End date is required"
    case InvalidTripType => "Invalid option"
    case EndNotAfterStart => "End date must be after start date"
  }

  /** The form's values; a date not yet picked is `None`. */
  datatype FormValues = FormValues(
    title: string,
    destination: string,
    startDate: Option<int>,
    endDate: Option<int>,
    tripType: string,
    description: Option<string>)

  /** The trip types the schema lists. */
  const SchemaTripTypes: seq<string> :=
    ["BUSINESS", "LEISURE", "ADVENTURE", "BEACH", "CITY_BREAK", "CAMPING",
     "CRUISE", "BACKPACKING", "FAMILY", "ROMANTIC", "OTHER"]

  /** The client's list is the server's enumeration, in the same order. */
  lemma SchemaTripTypesMatchEnumeration()
    ensures SchemaTripTypes == Names()
    ensures forall s :: s in SchemaTripTypes <==> Parse(s).Some?
  {
    forall s ensures s in SchemaTripTypes <==> Parse(s).Some? {
      if Parse(s).Some? {
        NameInNames(Parse(s).value);
      }
    }
  }

  /** The schema stops before its refinement when a value has the wrong
      type (a date not picked) or lies outside the enumeration; a too-short
      string does not stop it. */
  predicate RefinementSkipped(v: FormValues) {
    v.startDate.None? || v.endDate.None? || v.tripType !in SchemaTripTypes
  }

  /** `[issue]` when `failed`, nothing otherwise. */
  function Check(failed: bool, issue: FormIssue): (r: seq<FormIssue>)
    ensures forall x :: x in r <==> failed && x == issue
  {
    if failed then [issue] else []
  }

  /** The per-field checks of the object schema, in field order. */
  function FieldIssues(v: FormValues): (r: seq<FormIssue>)
    ensures TitleRequired in r <==> v.title == ""
    ensures DestinationRequired in r <==> v.destination == ""
    ensures StartDateRequired in r <==> v.startDate.None?
    ensures EndDateRequired in r <==> v.endDate.None?
    ensures InvalidTripType in r <==> v.tripType !in SchemaTripTypes
    ensures EndNotAfterStart !in r
  {
    Check(v.title == "", TitleRequired)
    + Check(v.destination == "", DestinationRequired)
    + Check(v.startDate.None?, StartDateRequired)
    + Check(v.endDate.None?, EndDateRequired)
    + Check(v.tripType !in SchemaTripTypes, InvalidTripType)
  }

  /** What `tripFormSchema` reports for `v`; the form submits only when this is empty. */
  function FormIssues(v: FormValues): (r: seq<FormIssue>)
    ensures TitleRequired in r <==> v.title == ""
    ensures DestinationRequired in r <==> v.destination == ""
    ensures StartDateRequired in r <==> v.startDate.None?
    ensures EndDateRequired in r <==> v.endDate.None?
    ensures InvalidTripType in r <==> Parse(v.tripType).None?
    ensures EndNotAfterStart in r <==>
      v.startDate.Some? && v.endDate.Some? && Parse(v.tripType).Some?
      && v.endDate.value <= v.startDate.value
  {
    SchemaTripTypesMatchEnumeration();
    var fields := FieldIssues(v);
    if RefinementSkipped(v) then fields
    else if v.endDate.value > v.startDate.value then fields
    else fields + [EndNotAfterStart]
  }

  predicate FormValid(v: FormValues) {
    FormIssues(v) == []
  }

  /** The form is valid exactly when both text fields are filled, both dates
      are picked with the end strictly after the start, and the trip type is
      one of the enumeration. The description never matters. */
  lemma FormValidIff(v: FormValues)
    ensures FormValid(v) <==>
      && v.title != "" && v.destination != ""
      && v.startDate.Some? && v.endDate.Some? && v.endDate.value > v.startDate.value
      && Parse(v.tripType).Some?
  {
    if !FormValid(v) {
      var issue := FormIssues(v)[0];
      assert issue in FormIssues(v);
    }
  }

  /** Equal start and end dates are rejected, and the error is shown on the
      end date. */
  lemma EqualDatesRejectedOnEndDate(v: FormValues)
    requires v.startDate.Some? && v.endDate == v.startDate && Parse(v.tripType).Some?
    ensures EndNotAfterStart in FormIssues(v)
    ensures IssuePath(EndNotAfterStart) == EndDateField
    ensures IssueMessage(EndNotAfterStart) == "End date must be after start date"
  {
  }

  /** The values the form starts from. */
  const Defaults: FormValues := FormValues("", "", None, None, "BUSINESS", Some(""))

  /** The defaults do not pass: title and destination are reported, and so is
      each missing date. */
  lemma DefaultsRejected()
    ensures FormIssues(Defaults) == [TitleRequired, DestinationRequired, StartDateRequired, EndDateRequired]
  {
    assert Defaults.tripType in SchemaTripTypes by {
      assert SchemaTripTypes[0] == Defaults.tripType;
    }
    assert FieldIssues(Defaults) == [TitleRequired, DestinationRequired, StartDateRequired, EndDateRequired];
  }

  /** From the defaults, the form stays invalid until both text fields are
      filled; filling them and picking ordered dates is enough. */
  lemma DefaultsNeedTextFields(title: string, destination: string, start: int, end: int)
    ensures FormValid(Defaults.(title := title, destination := destination,
                                startDate := Some(start), endDate := Some(end)))
        <==> title != "" && destination != "" && end > start
  {
    FormValidIff(Defaults.(title := title, destination := destination,
                           startDate := Some(start), endDate := Some(end)));
  }

  /** The start-date picker greys out every day before now. */
  predicate StartDateDisabled(date: int, now: int) {
    date < now
  }

  /** The end-date picker greys out every day before now and, once a start
      date is picked, every day up to and including it. */
  predicate EndDateDisabled(date: int, now: int, startDate: Option<int>) {
    date < now || (startDate.Some? && date <= startDate.value)
  }

  /** A date the end picker lets through never trips the refinement for the
      start date it was offered against. */
  lemma SelectableEndDatePassesRefinement(v: FormValues, now: int)
    requires v.startDate.Some? && v.endDate.Some?
    requires !EndDateDisabled(v.endDate.value, now, v.startDate)
    ensures EndNotAfterStart !in FormIssues(v)
    ensures v.endDate.value >= now
  {
  }

  /** Both pickers enforce "not in the past"; a start date offered by its
      picker is not before now. */
  lemma SelectableDatesNotPast(start: int, end: int, now: int, startDate: Option<int>)
    ensures !StartDateDisabled(start, now) ==> start >= now
    ensures !EndDateDisabled(end, now, startDate) ==> end >= now
    ensures !EndDateDisabled(end, now, startDate) && startDate.Some? ==> end > startDate.value
  {
  }

  /** Index of the first `c` in `s`, or -1. */
  function IndexOf(s: string, c: char): (r: int)
    ensures -1 <= r < |s|
    ensures r >= 0 ==> s[r] == c && c !in s[..r]
    ensures r == -1 ==> c !in s
  {
    if s == [] then -1
    else if s[0] == c then 0
    else
      var k := IndexOf(s[1..], c);
      if k == -1 then -1
      else
        assert s[..k + 1] == [s[0]] + s[1..][..k];
        k + 1
  }

  /** `s.replace(from, to)` with a string pattern: the first occurrence only. */
  function ReplaceFirst(s: string, from: char, to: char): (r: string)
    ensures |r| == |s|
    ensures from !in s ==> r == s
    ensures from in s ==>
      exists k :: 0 <= k < |s| && s[k] == from && from !in s[..k] && r == s[..k] + [to] + s[k + 1..]
  {
    var k := IndexOf(s, from);
    if k == -1 then s else s[..k] + [to] + s[k + 1..]
  }

  /** Position `i` starts a word: a word character with no word character
      before it (the regular expression `\b\w`). */
  predicate WordStart(s: string, i: int)
    requires 0 <= i < |s|
  {
    IsWordChar(s[i]) && (i == 0 || !IsWordChar(s[i - 1]))
  }

  /** `s.replace(/\b\w/g, l => l.toUpperCase())` as a left-to-right scan;
      `afterWord` tells whether the character before `s` is a word character. */
  function CapitalizeFrom(s: string, afterWord: bool): (r: string)
    ensures |r| == |s|
  {
    if s == [] then []
    else
      [if IsWordChar(s[0]) && !afterWord then UpperChar(s[0]) else s[0]]
      + CapitalizeFrom(s[1..], IsWordChar(s[0]))
  }

  function CapitalizeWords(s: string): (r: string)
    ensures |r| == |s|
  {
    CapitalizeFrom(s, false)
  }

  lemma {:induction false} CapitalizeFromAt(s: string, afterWord: bool, i: int)
    requires 0 <= i < |s|
    ensures CapitalizeFrom(s, afterWord)[i]
         == if IsWordChar(s[i]) && (if i == 0 then !afterWord else !IsWordChar(s[i - 1]))
            then UpperChar(s[i]) else s[i]
  {
    if i > 0 {
      CapitalizeFromAt(s[1..], IsWordChar(s[0]), i - 1);
    }
  }

  /** The scan raises exactly the characters the regular expression
      `\b\w` matches: word characters with no word character before them. */
  lemma CapitalizeWordsAt(s: string, i: int)
    requires 0 <= i < |s|
    ensures CapitalizeWords(s)[i] == if WordStart(s, i) then UpperChar(s[i]) else s[i]
  {
    CapitalizeFromAt(s, false, i);
  }

  /** The text of the select item for a trip type. */
  function OptionLabel(tripType: string): (r: string)
    ensures |r| == |tripType|
  {
    CapitalizeWords(ToLower(ReplaceFirst(tripType, '_', ' ')))
  }

  /** Lowering a character keeps it a word character or a non-word character. */
  lemma WordCharIgnoresCase(c: char)
    ensures IsWordChar(LowerChar(c)) == IsWordChar(c)
  {
  }

  /** Character by character: after the first underscore becomes a space,
      each letter starting a word is upper case and every other letter is
      lower case; other characters are kept. */
  lemma OptionLabelAt(tripType: string, i: int)
    requires 0 <= i < |tripType|
    ensures var u := ReplaceFirst(tripType, '_', ' ');
      OptionLabel(tripType)[i]
        == if WordStart(u, i) then UpperChar(LowerChar(u[i])) else LowerChar(u[i])
  {
    var u := ReplaceFirst(tripType, '_', ' ');
    var l := ToLower(u);
    CapitalizeWordsAt(l, i);
    WordCharIgnoresCase(u[i]);
    if i > 0 {
      WordCharIgnoresCase(u[i - 1]);
    }
    assert WordStart(l, i) == WordStart(u, i);
  }

  predicate AllUpper(s: string) {
    forall i :: 0 <= i < |s| ==> IsUpper(s[i])
  }

  predicate AllLower(s: string) {
    forall i :: 0 <= i < |s| ==> IsLower(s[i])
  }

  lemma ToLowerOfUpper(w: string)
    requires AllUpper(w)
    ensures AllLower(ToLower(w))
    ensures '_' !in w && ' ' !in w
  {
    assert forall i :: 0 <= i < |w| ==> IsUpper(w[i]);
  }

  lemma {:induction false} CapitalizeInsideWord(l: string)
    requires AllLower(l)
    ensures CapitalizeFrom(l, true) == l
  {
    if l != [] {
      assert IsLower(l[0]);
      CapitalizeInsideWord(l[1..]);
    }
  }

  /** In a word of lower-case letters only the first letter is raised. */
  lemma CapitalizeLowerWord(l: string)
    requires |l| > 0 && AllLower(l)
    ensures CapitalizeWords(l) == [UpperChar(l[0])] + l[1..]
  {
    assert IsLower(l[0]);
    CapitalizeInsideWord(l[1..]);
  }

  /** A space separates words, so each side is capitalised on its own. */
  lemma {:induction false} CapitalizeAtSpace(x: string, y: string, afterWord: bool)
    ensures CapitalizeFrom(x + " " + y, afterWord) == CapitalizeFrom(x, afterWord) + " " + CapitalizeFrom(y, false)
  {
    if x == [] {
      assert x + " " + y == [' '] + y;
      assert ([' '] + y)[1..] == y;
    } else {
      assert (x + " " + y)[1..] == x[1..] + " " + y;
      CapitalizeAtSpace(x[1..], y, IsWordChar(x[0]));
    }
  }

  /** A lowered upper-case word is capitalised back to its first letter
      followed by the rest lowered. */
  lemma CapitalizeLowered(w: string)
    requires |w| > 0 && AllUpper(w)
    ensures CapitalizeWords(ToLower(w)) == [w[0]] + ToLower(w[1..])
  {
    ToLowerOfUpper(w);
    var l := ToLower(w);
    CapitalizeLowerWord(l);
    LowerUpperInverse(w[0]);
    assert l[1..] == ToLower(w[1..]);
  }

  /** One upper-case word keeps its first letter and lowers the rest. */
  lemma OptionLabelOneWord(w: string)
    requires |w| > 0 && AllUpper(w)
    ensures OptionLabel(w) == [w[0]] + ToLower(w[1..])
  {
    ToLowerOfUpper(w);
    CapitalizeLowered(w);
  }

  lemma IndexOfAt(s: string, c: char, k: int)
    requires 0 <= k < |s| && s[k] == c && c !in s[..k]
    ensures IndexOf(s, c) == k
  {
    var r := IndexOf(s, c);
    assert c in s by { assert s[k] == c; }
    assert forall j :: 0 <= j < k ==> s[j] != c by {
      forall j | 0 <= j < k ensures s[j] != c { assert s[..k][j] == s[j]; }
    }
    assert forall j :: 0 <= j < r ==> s[j] != c by {
      forall j | 0 <= j < r ensures s[j] != c { assert s[..r][j] == s[j]; }
    }
  }

  /** Replacing the first underscore of `x_y`, when `x` has none, gives `x y`. */
  lemma ReplaceFirstJoin(x: string, y: string)
    requires '_' !in x
    ensures ReplaceFirst(x + "_" + y, '_', ' ') == x + " " + y
  {
    var s := x + "_" + y;
    assert s[..|x|] == x;
    IndexOfAt(s, '_', |x|);
    assert s[|x| + 1..] == y;
  }

  /** Lowering works word by word across a space. */
  lemma ToLowerJoin(x: string, y: string)
    ensures ToLower(x + " " + y) == ToLower(x) + " " + ToLower(y)
  {
  }

  /** Two upper-case words joined by one underscore become two capitalised
      words joined by a space. */
  lemma OptionLabelTwoWords(a: string, b: string)
    requires |a| > 0 && AllUpper(a) && |b| > 0 && AllUpper(b)
    ensures OptionLabel(a + "_" + b) == [a[0]] + ToLower(a[1..]) + " " + [b[0]] + ToLower(b[1..])
  {
    ToLowerOfUpper(a);
    ReplaceFirstJoin(a, b);
    ToLowerJoin(a, b);
    CapitalizeAtSpace(ToLower(a), ToLower(b), false);
    CapitalizeLowered(a);
    CapitalizeLowered(b);
  }

  /** Every name but `CITY_BREAK` is one upper-case word. */
  lemma NameIsOneWord(t: TripType)
    requires t != CityBreak
    ensures |Name(t)| > 0 && AllUpper(Name(t))
  {
  }

  /** Every trip type but `CITY_BREAK` is shown as its name with all letters
      after the first lowered. */
  lemma OptionLabelOfOneWordTypes(t: TripType)
    requires t != CityBreak
    ensures OptionLabel(Name(t)) == [Name(t)[0]] + ToLower(Name(t)[1..])
  {
    NameIsOneWord(t);
    OptionLabelOneWord(Name(t));
  }

  lemma OptionLabelCityBreak()
    ensures OptionLabel("CITY_BREAK") == "City Break"
  {
    assert AllUpper("CITY") && AllUpper("BREAK") && "CITY_BREAK" == "CITY" + "_" + "BREAK" by {}
    assert "City Break" == ['C'] + ToLower("ITY") + " " + ['B'] + ToLower("REAK") by {}
    OptionLabelTwoWords("CITY", "BREAK");
    assert "CITY"[1..] == "ITY" && "BREAK"[1..] == "REAK";
  }

  /** Only the first underscore becomes a space: in a name with a second
      underscore, that one is still shown. */
  lemma OnlyFirstUnderscoreReplaced(a: string, b: string, c: string)
    requires '_' !in a
    ensures OptionLabel(a + "_" + b + "_" + c)[|a| + 1 + |b|] == '_'
  {
    var s := a + "_" + b + "_" + c;
    assert s == a + "_" + (b + "_" + c);
    ReplaceFirstJoin(a, b + "_" + c);
    OptionLabelAt(s, |a| + 1 + |b|);
  }


}

/**
 * The two converters between BookingStatus and the text stored in the
 * status column: the writing converter prints the enum name, the reading
 * converter parses it back, ignoring case and treating blank as null.
 */
module StatusConverters {
  import opened Wrappers
  import opened BookingModel
  import opened JavaString

  /** Enum.name() of a status. */
  function Name(s: BookingStatus): (r: string)
    ensures r != [] && forall i :: 0 <= i < |r| ==> 'A' <= r[i] <= 'Z'
  {
    match s
    case PENDING => "PENDING"
    case CONFIRMED => "CONFIRMED"
    case REJECTED => "REJECTED"
    case CANCELLED => "CANCELLED"
  }

  /** Distinct statuses have distinct names. */
  lemma NameInjective(a: BookingStatus, b: BookingStatus)
    ensures Name(a) == Name(b) ==> a == b
  {
    if a != b {
      assert Name(a)[..2] != Name(b)[..2] || |Name(a)| != |Name(b)| || Name(a)[2..] != Name(b)[2..];
    }
  }

  /** Enum.valueOf: the status whose name is exactly the text, else IllegalArgumentException. */
  function ValueOf(text: string): (r: Result<BookingStatus>)
    ensures r.Success? ==> Name(r.value) == text
    ensures r.Failure? ==> r.error == IllegalArgument && forall s :: Name(s) != text
  {
    if text == "PENDING" then Success(PENDING)
    else if text == "CONFIRMED" then Success(CONFIRMED)
    else if text == "REJECTED" then Success(REJECTED)
    else if text == "CANCELLED" then Success(CANCELLED)
    else Failure(IllegalArgument)
  }

  /** BookingStatusToStringConverter.convert: null stays null, otherwise the enum name. */
  function StatusToString(source: Option<BookingStatus>): (r: Option<string>)
    ensures r.None? <==> source.None?
    ensures r.Some? ==> !IsBlank(r.value)
  {
    match source
    case None => None
    case Some(s) => assert !IsWhitespace(Name(s)[0]); Some(Name(s))
  }

  /**
   * StringToBookingStatusConverter.convert: null or blank text gives null;
   * otherwise the upper-cased text must name a status, or the conversion
   * throws IllegalArgumentException.
   */
  function StringToStatus(source: Option<string>): (r: Result<Option<BookingStatus>>)
    ensures (source.None? || IsBlank(source.value)) ==> r == Success(None)
    ensures r.Success? && r.value.Some? ==>
      source.Some? && !IsBlank(source.value) && Name(r.value.value) == ToUpperCase(source.value)
    ensures r.Failure? ==>
      r.error == IllegalArgument && source.Some? && forall s :: Name(s) != ToUpperCase(source.value)
  {
    if source.None? || IsBlank(source.value) then Success(None)
    else match ValueOf(ToUpperCase(source.value))
      case Success(s) => Success(Some(s))
      case Failure(e) => Failure(e)
  }

  /** Printing a status and parsing the text gives the status back, null included. */
  lemma ParsePrinted(s: Option<BookingStatus>)
    ensures StringToStatus(StatusToString(s)) == Success(s)
  {
    if s.Some? {
      ToUpperCaseFixesUpper(Name(s.value));
      NameInjective(ValueOf(Name(s.value)).value, s.value);
    }
  }

  /** A parsed status prints as the upper-cased input. */
  lemma PrintParsed(text: string, s: BookingStatus)
    requires StringToStatus(Some(text)) == Success(Some(s))
    ensures StatusToString(Some(s)) == Some(ToUpperCase(text))
  {
  }

  /** Parsing ignores case: any spelling parses as its upper-case form does. */
  lemma ParseIgnoresCase(text: string)
    ensures StringToStatus(Some(text)) == StringToStatus(Some(ToUpperCase(text)))
  {
    ToUpperCaseKeepsBlank(text);
    ToUpperCaseIdempotent(text);
  }

  /** A lower-case spelling of a name parses to that status. */
  lemma ParseLowerCase()
    ensures StringToStatus(Some("confirmed")) == Success(Some(CONFIRMED))
  {
    var upper := ToUpperCase("confirmed");
    assert upper == "CONFIRMED" by {
      assert |upper| == 9;
      forall i | 0 <= i < 9 ensures upper[i] == "CONFIRMED"[i] {
        assert upper[i] == UpperChar("confirmed"[i]);
      }
    }
    ParseIgnoresCase("confirmed");
    ParsePrinted(Some(CONFIRMED));
  }
}

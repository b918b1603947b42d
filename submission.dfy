/**
 * The "Submit Complaint" handler of app.py: the text-length check on the
 * stripped complaint, the location check, and the result record with the
 * category derived from the classifier's prediction.
 */
module Submission {
  import opened Wrappers

  /** Fewest characters a complaint may have once surrounding whitespace is stripped. */
  const MinComplaintLength: nat := 5

  const WaterIssue: string := "Water Issue"
  const OtherIssue: string := "Other Issue"

  /**
   * The characters Python's str.isspace accepts, which is the set that
   * str.strip() with no argument removes from both ends.
   */
  predicate IsSpace(c: char): (b: bool)
    ensures b ==> c as int < 0x3001 && !('0' <= c <= '9') && !('A' <= c <= 'Z') && !('a' <= c <= 'z')
  {
    || '\t' <= c <= '\r'
    || '\U{1C}' <= c <= '\U{1F}'
    || c == ' '
    || c == '\U{85}'
    || c == '\U{A0}'
    || c == '\U{1680}'
    || '\U{2000}' <= c <= '\U{200A}'
    || c == '\U{2028}'
    || c == '\U{2029}'
    || c == '\U{202F}'
    || c == '\U{205F}'
    || c == '\U{3000}'
  }

  /** Removes leading whitespace: the result is a suffix of s, everything removed is whitespace. */
  function TrimStart(s: string): (r: string)
    ensures |r| <= |s| && r == s[|s| - |r|..]
    ensures forall k :: 0 <= k < |s| - |r| ==> IsSpace(s[k])
    ensures r == [] || !IsSpace(r[0])
  {
    if s != [] && IsSpace(s[0]) then TrimStart(s[1..]) else s
  }

  /** Removes trailing whitespace: the result is a prefix of s, everything removed is whitespace. */
  function TrimEnd(s: string): (r: string)
    ensures |r| <= |s| && r == s[..|r|]
    ensures forall k :: |r| <= k < |s| ==> IsSpace(s[k])
    ensures r == [] || !IsSpace(r[|r| - 1])
  {
    if s != [] && IsSpace(s[|s| - 1]) then TrimEnd(s[..|s| - 1]) else s
  }

  /** The index of the first character that Strip keeps (|s| when s is all whitespace). */
  function StripStart(s: string): (i: nat)
    ensures i <= |s|
  {
    |s| - |TrimStart(s)|
  }

  /**
   * Python's str.strip(): the slice of s that is left after removing the
   * whitespace before StripStart(s) and the whitespace after the slice; the
   * slice neither starts nor ends with whitespace.
   */
  function Strip(s: string): (r: string)
    ensures StripStart(s) + |r| <= |s|
    ensures r == s[StripStart(s)..StripStart(s) + |r|]
    ensures forall k :: 0 <= k < StripStart(s) ==> IsSpace(s[k])
    ensures forall k :: StripStart(s) + |r| <= k < |s| ==> IsSpace(s[k])
    ensures r == [] || (!IsSpace(r[0]) && !IsSpace(r[|r| - 1]))
  {
    var t := TrimStart(s);
    var r := TrimEnd(t);
    assert forall k :: StripStart(s) + |r| <= k < |s| ==> s[k] == t[k - StripStart(s)];
    r
  }

  /** The length check of the handler: the stripped complaint has at least five characters. */
  predicate LongEnough(complaint: string): (ok: bool)
    ensures ok ==> |complaint| >= MinComplaintLength
    ensures |complaint| >= MinComplaintLength && !IsSpace(complaint[0]) && !IsSpace(complaint[|complaint| - 1]) ==> ok
  {
    |Strip(complaint)| >= MinComplaintLength
  }

  /**
   * The length check, stated without Strip: a complaint passes it exactly
   * when it has a non-whitespace character at some index i and another at
   * an index j at least four further on, that is, at least five characters
   * from its first to its last non-whitespace character.
   */
  lemma LongEnoughIffSpan(complaint: string)
    ensures LongEnough(complaint) <==>
      exists i, j :: 0 <= i && i + MinComplaintLength - 1 <= j < |complaint| &&
        !IsSpace(complaint[i]) && !IsSpace(complaint[j])
  {
    var r := Strip(complaint);
    var a := StripStart(complaint);
    if LongEnough(complaint) {
      assert complaint[a] == r[0] && complaint[a + |r| - 1] == r[|r| - 1];
    }
    if exists i, j :: 0 <= i && i + MinComplaintLength - 1 <= j < |complaint| &&
        !IsSpace(complaint[i]) && !IsSpace(complaint[j])
    {
      var i, j :| 0 <= i && i + MinComplaintLength - 1 <= j < |complaint| &&
        !IsSpace(complaint[i]) && !IsSpace(complaint[j]);
      assert a <= i && j < a + |r|;
    }
  }

  /** The category shown for a prediction of the classifier. */
  function Category(prediction: int): (c: string)
    ensures c == WaterIssue <==> prediction == 1
    ensures c == WaterIssue || c == OtherIssue
  {
    if prediction == 1 then WaterIssue else OtherIssue
  }

  datatype SubmitError = TextTooShort | LocationNotSet

  /** The record the handler shows on success. */
  datatype Complaint = Complaint(complaintText: string, latitude: real, longitude: real, category: string)

  /**
   * The submit handler, given the complaint text, the session's current
   * latitude, longitude and location_set, and the classifier as a function
   * from text to predicted label. The text check comes first: a short text
   * is reported as such whatever the location flag says.
   */
  function Submit(complaint: string, latitude: real, longitude: real, locationSet: bool,
                  predict: string -> int): (r: Result<Complaint, SubmitError>)
    ensures r == Failure(TextTooShort) <==> !LongEnough(complaint)
    ensures r == Failure(LocationNotSet) <==> LongEnough(complaint) && !locationSet
    ensures r.Success? <==> LongEnough(complaint) && locationSet
    ensures r.Success? ==>
      && r.value.complaintText == complaint
      && r.value.latitude == latitude
      && r.value.longitude == longitude
      && (r.value.category == WaterIssue <==> predict(complaint) == 1)
      && (r.value.category != WaterIssue ==> r.value.category == OtherIssue)
  {
    if !LongEnough(complaint) then
      Failure(TextTooShort)
    else if !locationSet then
      Failure(LocationNotSet)
    else
      Success(Complaint(complaint, latitude, longitude, Category(predict(complaint))))
  }

  /** "hi" is refused as too short even with a location set. */
  lemma SubmitShortText(latitude: real, longitude: real, predict: string -> int)
    ensures Submit("hi", latitude, longitude, true, predict) == Failure(TextTooShort)
  {
    LongEnoughIffSpan("hi");
  }

  /** Surrounding whitespace does not count: "  hi  " is refused as too short. */
  lemma SubmitPaddedShortText(latitude: real, longitude: real, predict: string -> int)
    ensures Submit("  hi  ", latitude, longitude, true, predict) == Failure(TextTooShort)
  {
    LongEnoughIffSpan("  hi  ");
  }

  /** A long enough text without a set location is refused for the location. */
  lemma SubmitWithoutLocation(latitude: real, longitude: real, predict: string -> int)
    ensures Submit("valid complaint text", latitude, longitude, false, predict) == Failure(LocationNotSet)
  {
    var t := "valid complaint text";
    assert !IsSpace(t[0]) && !IsSpace(t[|t| - 1]);
    assert LongEnough(t);
  }

  /** " leaks " strips to five characters and is accepted; the record keeps the unstripped text. */
  lemma SubmitKeepsUnstrippedText(latitude: real, longitude: real, predict: string -> int)
    ensures Submit(" leaks ", latitude, longitude, true, predict).Success?
    ensures Submit(" leaks ", latitude, longitude, true, predict).value.complaintText == " leaks "
  {
    var u := " leaks ";
    assert !IsSpace(u[1]) && !IsSpace(u[5]);
    LongEnoughIffSpan(u);
  }
}

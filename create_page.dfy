/** The create-poll form: editing of the time and location lists (append a
    blank row, remove a row, change a row) and the checks `handleSubmit`
    makes before it sends anything.  Date parsing and ISO conversion are a
    parameter of the model. */
module CreatePage {
  import opened Records
  import CreateRoute

  // ---------------------------------------------------------------------
  // String.prototype.trim

  /** The characters `trim` removes: ECMAScript white space and line
      terminators. */
  predicate IsSpace(c: char) {
    || c == '\t' || c == '\n' || c == '\U{000B}' || c == '\U{000C}' || c == '\r' || c == ' '
    || c == '\U{00A0}' || c == '\U{1680}' || ('\U{2000}' <= c <= '\U{200A}')
    || c == '\U{2028}' || c == '\U{2029}' || c == '\U{202F}' || c == '\U{205F}'
    || c == '\U{3000}' || c == '\U{FEFF}'
  }

  predicate AllSpace(s: string) {
    forall i :: 0 <= i < |s| ==> IsSpace(s[i])
  }

  function TrimStart(s: string): string
  {
    if s != [] && IsSpace(s[0]) then TrimStart(s[1..]) else s
  }

  function TrimEnd(s: string): string
  {
    if s != [] && IsSpace(s[|s| - 1]) then TrimEnd(s[..|s| - 1]) else s
  }

  /** `s.trim()`: a piece of `s` that neither starts nor ends with white
      space. */
  function Trim(s: string): (r: string)
    ensures |r| <= |s|
    ensures r != "" ==> !IsSpace(r[0]) && !IsSpace(r[|r| - 1])
  {
    TrimStartShape(s);
    TrimEndShape(TrimStart(s));
    TrimEnd(TrimStart(s))
  }

  /** `trimStart` leaves a suffix that does not start with white space. */
  lemma {:induction false} TrimStartShape(s: string)
    ensures |TrimStart(s)| <= |s| && TrimStart(s) == s[|s| - |TrimStart(s)|..]
    ensures TrimStart(s) != "" ==> !IsSpace(TrimStart(s)[0])
  {
    if s != [] && IsSpace(s[0]) {
      TrimStartShape(s[1..]);
    }
  }

  /** `trimEnd` leaves a prefix that does not end with white space. */
  lemma {:induction false} TrimEndShape(s: string)
    ensures |TrimEnd(s)| <= |s| && TrimEnd(s) == s[..|TrimEnd(s)|]
    ensures TrimEnd(s) != "" ==> !IsSpace(TrimEnd(s)[|TrimEnd(s)| - 1])
  {
    if s != [] && IsSpace(s[|s| - 1]) {
      TrimEndShape(s[..|s| - 1]);
    }
  }

  lemma {:induction false} TrimStartEmpty(s: string)
    ensures TrimStart(s) == "" <==> AllSpace(s)
    ensures AllSpace(TrimStart(s)) <==> AllSpace(s)
  {
    if s != [] && IsSpace(s[0]) {
      TrimStartEmpty(s[1..]);
      assert forall i :: 1 <= i < |s| ==> s[i] == s[1..][i - 1];
    }
  }

  lemma {:induction false} TrimEndEmpty(s: string)
    ensures TrimEnd(s) == "" <==> AllSpace(s)
  {
    if s != [] && IsSpace(s[|s| - 1]) {
      TrimEndEmpty(s[..|s| - 1]);
      assert forall i :: 0 <= i < |s| - 1 ==> s[i] == s[..|s| - 1][i];
    }
  }

  /** `t.trim() !== ''` exactly when `t` has a character that is not
      white space. */
  lemma TrimEmptyIffAllSpace(s: string)
    ensures Trim(s) == "" <==> AllSpace(s)
  {
    TrimStartEmpty(s);
    TrimEndEmpty(TrimStart(s));
  }

  // ---------------------------------------------------------------------
  // The list handlers

  /** `[...list, '']`. */
  function WithBlankRow(list: seq<string>): (r: seq<string>)
    ensures |r| == |list| + 1 && r[..|list|] == list && r[|list|] == ""
  {
    list + [""]
  }

  /** `list.filter((_, i) => i !== index)`, where the rows seen so far
      started at position `from`. */
  function RemoveFrom(list: seq<string>, index: int, from: int): (r: seq<string>)
    ensures from <= index < from + |list| ==> r == list[..index - from] + list[index - from + 1..]
    ensures !(from <= index < from + |list|) ==> r == list
  {
    if list == [] then []
    else
      var rest := RemoveFrom(list[1..], index, from + 1);
      if from == index then rest else [list[0]] + rest
  }

  /** `list.filter((_, i) => i !== index)`: exactly the row at `index`
      goes, the others stay in order; an index out of range changes
      nothing. */
  function RemoveAt(list: seq<string>, index: int): (r: seq<string>)
    ensures 0 <= index < |list| ==> |r| == |list| - 1
    ensures 0 <= index < |list| ==> forall k :: 0 <= k < |r| ==> r[k] == if k < index then list[k] else list[k + 1]
    ensures !(0 <= index < |list|) ==> r == list
  {
    RemoveFrom(list, index, 0)
  }

  /** `const copy = [...list]; copy[index] = value`: a copy with one row
      replaced.  The row exists: a change comes from a rendered row. */
  method ChangeRow(list: seq<string>, index: nat, value: string) returns (updated: seq<string>)
    requires index < |list|
    ensures |updated| == |list|
    ensures updated[index] == value
    ensures forall k :: 0 <= k < |list| && k != index ==> updated[k] == list[k]
  {
    var copy := new string[|list|](k requires 0 <= k < |list| => list[k]);
    copy[index] := value;
    updated := copy[..];
  }

  // ---------------------------------------------------------------------
  // The filtering before submit

  /** `t.trim() !== ''`. */
  predicate Filled(t: string) {
    Trim(t) != ""
  }

  /** `list.filter(t => t.trim() !== '')`. */
  function FilledRows(list: seq<string>): (r: seq<string>)
    ensures |r| <= |list|
    ensures forall k :: 0 <= k < |r| ==> Filled(r[k])
  {
    if list == [] then []
    else (if Filled(list[0]) then [list[0]] else []) + FilledRows(list[1..])
  }

  lemma {:induction false} FilledRowsAppend(a: seq<string>, b: seq<string>)
    ensures FilledRows(a + b) == FilledRows(a) + FilledRows(b)
  {
    if a == [] {
      assert a + b == b;
    } else {
      var head := if Filled(a[0]) then [a[0]] else [];
      assert (a + b)[0] == a[0] && (a + b)[1..] == a[1..] + b;
      assert FilledRows(a + b) == head + FilledRows(a[1..] + b);
      FilledRowsAppend(a[1..], b);
      assert FilledRows(a) == head + FilledRows(a[1..]);
    }
  }

  /** The filter keeps exactly the rows with a non-blank character: each
      such row as often as it occurs, no other row, and in the original
      order (filtering distributes over concatenation). */
  lemma FilledRowsSpec(list: seq<string>, t: string)
    ensures multiset(FilledRows(list))[t] == if AllSpace(t) then 0 else multiset(list)[t]
    ensures forall a, b :: list == a + b ==> FilledRows(list) == FilledRows(a) + FilledRows(b)
    ensures "" !in FilledRows(list)
  {
    FilledRowsCount(list, t);
    TrimEmptyIffAllSpace("");
    forall a, b | list == a + b ensures FilledRows(list) == FilledRows(a) + FilledRows(b) {
      FilledRowsAppend(a, b);
    }
  }

  /** How often the filter keeps a row: never when it is blank, otherwise
      as often as it occurs. */
  lemma {:induction false} FilledRowsCount(list: seq<string>, t: string)
    ensures multiset(FilledRows(list))[t] == if AllSpace(t) then 0 else multiset(list)[t]
  {
    TrimEmptyIffAllSpace(t);
    if list != [] {
      FilledRowsCount(list[1..], t);
      assert list == [list[0]] + list[1..];
      assert multiset(list) == multiset([list[0]]) + multiset(list[1..]);
      TrimEmptyIffAllSpace(list[0]);
    }
  }

  /** One filled row through `new Date(t)` and `toISOString()`: `''` for an
      empty row or a date that does not parse.  `parseDate` is the ISO
      string of a valid date, or `None`. */
  function IsoOf(t: string, parseDate: string -> Option<string>): (r: string)
    ensures r != "" ==> t != "" && parseDate(t) == Some(r)
    ensures t != "" && parseDate(t).Some? ==> r == parseDate(t).value
    ensures t == "" || parseDate(t).None? ==> r == ""
  {
    if t == "" then ""
    else if parseDate(t).None? then ""
    else parseDate(t).value
  }

  /** `filled.map(toIso).filter(t => t !== '')`. */
  function IsoTimes(filled: seq<string>, parseDate: string -> Option<string>): (r: seq<string>)
    ensures |r| <= |filled|
    ensures "" !in r
    ensures forall x :: x in r ==> exists t :: t in filled && IsoOf(t, parseDate) == x
  {
    if filled == [] then []
    else
      var iso := IsoOf(filled[0], parseDate);
      var rest := IsoTimes(filled[1..], parseDate);
      assert forall x :: x in rest ==> exists t :: t in filled && IsoOf(t, parseDate) == x by {
        forall x | x in rest ensures exists t :: t in filled && IsoOf(t, parseDate) == x {
          var t :| t in filled[1..] && IsoOf(t, parseDate) == x;
          assert t in filled;
        }
      }
      (if iso == "" then [] else [iso]) + rest
  }

  /** The conversion works row by row: on one row it keeps exactly a row
      whose conversion is not `''`. */
  lemma IsoTimesOne(t: string, parseDate: string -> Option<string>)
    ensures IsoTimes([t], parseDate) == if IsoOf(t, parseDate) == "" then [] else [IsoOf(t, parseDate)]
  {
    assert [t][1..] == [];
  }

  /** ... and it distributes over concatenation, so every row that
      converts is kept, in its original order. */
  lemma {:induction false} IsoTimesAppend(a: seq<string>, b: seq<string>, parseDate: string -> Option<string>)
    ensures IsoTimes(a + b, parseDate) == IsoTimes(a, parseDate) + IsoTimes(b, parseDate)
  {
    if a == [] {
      assert a + b == b;
    } else {
      assert (a + b)[0] == a[0] && (a + b)[1..] == a[1..] + b;
      IsoTimesAppend(a[1..], b, parseDate);
    }
  }

  /** A row whose date parses to a non-empty ISO string is never dropped. */
  lemma {:induction false} IsoTimesKeepsParsed(filled: seq<string>, parseDate: string -> Option<string>)
    requires forall k :: 0 <= k < |filled| ==> IsoOf(filled[k], parseDate) != ""
    ensures |IsoTimes(filled, parseDate)| == |filled|
  {
    if filled != [] {
      IsoTimesKeepsParsed(filled[1..], parseDate);
    }
  }

  // ---------------------------------------------------------------------
  // handleSubmit

  datatype SubmitDecision =
    | MissingRequired       // 'Wypełnij wymagane pola'
    | NoOptions             // 'Dodaj przynajmniej jeden termin lub lokalizację'
    | Send(body: CreateRoute.CreateBody)

  /** The checks and the body `handleSubmit` sends to the create route. */
  function Submission(title: string, description: string, organizerName: string,
                      times: seq<string>, locations: seq<string>,
                      parseDate: string -> Option<string>): SubmitDecision
  {
    if title == "" || organizerName == "" then MissingRequired
    else
      var filledTimes, filledLocations := FilledRows(times), FilledRows(locations);
      if |filledTimes| == 0 && |filledLocations| == 0 then NoOptions
      else
        Send(CreateRoute.CreateBody(
          Some(title), Some(description), Some(organizerName),
          Some(IsoTimes(filledTimes, parseDate)), Some(filledLocations)))
  }

  /** The two rejections, in order, and what a sent body holds: the
      required fields as typed, the filled location rows, and time rows no
      more than the filled ones and none of them `''`. */
  lemma SubmissionSpec(title: string, description: string, organizerName: string,
                       times: seq<string>, locations: seq<string>, parseDate: string -> Option<string>)
    ensures var d := Submission(title, description, organizerName, times, locations, parseDate);
      && (d == MissingRequired <==> title == "" || organizerName == "")
      && (d == NoOptions <==> title != "" && organizerName != ""
                               && (forall k :: 0 <= k < |times| ==> AllSpace(times[k]))
                               && (forall k :: 0 <= k < |locations| ==> AllSpace(locations[k])))
      && (d.Send? ==>
            && d.body.title == Some(title) && d.body.organizerName == Some(organizerName)
            && d.body.description == Some(description)
            && d.body.locationOptions == Some(FilledRows(locations))
            && d.body.timeOptions == Some(IsoTimes(FilledRows(times), parseDate))
            && |d.body.timeOptions.value| <= |FilledRows(times)|
            && "" !in d.body.timeOptions.value)
  {
    NoFilledIffAllBlank(times);
    NoFilledIffAllBlank(locations);
  }

  /** No row is filled exactly when every row is white space only. */
  lemma {:induction false} NoFilledIffAllBlank(list: seq<string>)
    ensures |FilledRows(list)| == 0 <==> forall k :: 0 <= k < |list| ==> AllSpace(list[k])
  {
    if list != [] {
      NoFilledIffAllBlank(list[1..]);
      TrimEmptyIffAllSpace(list[0]);
      assert forall k :: 1 <= k < |list| ==> list[k] == list[1..][k - 1];
    }
  }

  /** Whatever the form sends passes the create route's required-field
      check; with a store that does not fail it is created. */
  lemma SentBodyIsAccepted(title: string, description: string, organizerName: string,
                           times: seq<string>, locations: seq<string>, parseDate: string -> Option<string>)
    ensures var d := Submission(title, description, organizerName, times, locations, parseDate);
      d.Send? ==> CreateRoute.HasRequired(d.body)
                  && CreateRoute.ExpectedStatus(Some(d.body), CreateRoute.CreateFaults(false, false, false)) == Ok
  {
  }

  // ---------------------------------------------------------------------
  // The form's state

  class CreateForm {
    var title: string
    var description: string
    var organizerName: string
    var timeOptions: seq<string>
    var locationOptions: seq<string>

    /** Both lists have at least one row.  Adding, removing and changing a
        row keep this; taking over suggestions does not. */
    ghost predicate Valid()
      reads this
    {
      |timeOptions| >= 1 && |locationOptions| >= 1
    }

    constructor ()
      ensures Valid()
      ensures title == "" && description == "" && organizerName == ""
      ensures timeOptions == [""] && locationOptions == [""]
    {
      title, description, organizerName := "", "", "";
      timeOptions, locationOptions := [""], [""];
    }

    method HandleAddTime()
      modifies this`timeOptions
      ensures old(Valid()) ==> Valid()
      ensures |timeOptions| >= 1
      ensures timeOptions == WithBlankRow(old(timeOptions))
    {
      timeOptions := WithBlankRow(timeOptions);
    }

    /** Offered only while the list has more than one row. */
    method HandleRemoveTime(index: int)
      requires |timeOptions| > 1
      modifies this`timeOptions
      ensures old(Valid()) ==> Valid()
      ensures |timeOptions| >= 1
      ensures timeOptions == RemoveAt(old(timeOptions), index)
    {
      timeOptions := RemoveAt(timeOptions, index);
    }

    method HandleTimeChange(index: nat, value: string)
      requires index < |timeOptions|
      modifies this`timeOptions
      ensures old(Valid()) ==> Valid()
      ensures timeOptions == old(timeOptions)[index := value]
    {
      timeOptions := ChangeRow(timeOptions, index, value);
    }

    method HandleAddLocation()
      modifies this`locationOptions
      ensures old(Valid()) ==> Valid()
      ensures |locationOptions| >= 1
      ensures locationOptions == WithBlankRow(old(locationOptions))
    {
      locationOptions := WithBlankRow(locationOptions);
    }

    /** Offered only while the list has more than one row. */
    method HandleRemoveLocation(index: int)
      requires |locationOptions| > 1
      modifies this`locationOptions
      ensures old(Valid()) ==> Valid()
      ensures |locationOptions| >= 1
      ensures locationOptions == RemoveAt(old(locationOptions), index)
    {
      locationOptions := RemoveAt(locationOptions, index);
    }

    method HandleLocationChange(index: nat, value: string)
      requires index < |locationOptions|
      modifies this`locationOptions
      ensures old(Valid()) ==> Valid()
      ensures locationOptions == old(locationOptions)[index := value]
    {
      locationOptions := ChangeRow(locationOptions, index, value);
    }

    /** The state change of `handleAiSuggestions('dates')`: the time list is
        replaced wholesale by the suggestions, already converted for the
        date inputs.  An empty suggestion list leaves no row. */
    method TakeSuggestedTimes(converted: seq<string>)
      modifies this`timeOptions
      ensures timeOptions == converted
    {
      timeOptions := converted;
    }

    /** The state change of `handleAiSuggestions('locations')`: the location
        list becomes the suggestions as they came. */
    method TakeSuggestedLocations(suggested: seq<string>)
      modifies this`locationOptions
      ensures locationOptions == suggested
    {
      locationOptions := suggested;
    }

    /** The validation part of `handleSubmit`: what it decides from the
      current state, before any request. */
    method HandleSubmit(parseDate: string -> Option<string>) returns (decision: SubmitDecision)
      ensures decision == Submission(title, description, organizerName, timeOptions, locationOptions, parseDate)
    {
      if title == "" || organizerName == "" {
        return MissingRequired;
      }
      var filledTimes := FilledRows(timeOptions);
      var filledLocations := FilledRows(locationOptions);
      if |filledTimes| == 0 && |filledLocations| == 0 {
        return NoOptions;
      }
      var timesIso := IsoTimes(filledTimes, parseDate);
      decision := Send(CreateRoute.CreateBody(
        Some(title), Some(description), Some(organizerName), Some(timesIso), Some(filledLocations)));
    }
  }
}

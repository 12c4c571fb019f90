/** `POST /api/meetings/create`: check the two required fields, store one
    meeting under a fresh link, then one time option per datetime and one
    location option per location, all tied to the new meeting's id.  A store
    error after the meeting row exists answers 500 and undoes nothing. */
module CreateRoute {
  import opened Records
  import opened Database

  /** The request body after `request.json()`; a missing field is `None`. */
  datatype CreateBody = CreateBody(
    title: Option<string>,
    description: Option<string>,
    organizerName: Option<string>,
    timeOptions: Option<seq<string>>,
    locationOptions: Option<seq<string>>)

  /** 200 with the stored meeting and its link, or an error status. */
  datatype CreateResponse = Created(meeting: Meeting, uniqueLink: string) | Failed(status: Status)

  /** What the environment decides about the three inserts. */
  datatype CreateFaults = CreateFaults(meetingFails: bool, timeFails: bool, locationFails: bool)

  /** `!title || !organizer_name` is false. */
  predicate HasRequired(b: CreateBody) {
    Truthy(b.title) && Truthy(b.organizerName)
  }

  /** `description || ''`. */
  function StoredDescription(description: Option<string>): (r: string)
    ensures Truthy(description) ==> r == description.value
    ensures !Truthy(description) ==> r == ""
  {
    if Truthy(description) then description.value else ""
  }

  /** `list && list.length > 0`: the insert for that list runs. */
  predicate NonEmpty(list: Option<seq<string>>) {
    list.Some? && |list.value| > 0
  }

  /** A missing list stands for no entries. */
  function Entries(list: Option<seq<string>>): (r: seq<string>)
    ensures NonEmpty(list) <==> |r| > 0
  {
    if list.Some? then list.value else []
  }

  /** The rows built by `time_options.map(...)`. */
  function TimeRows(meetingId: string, datetimes: seq<string>): (r: seq<TimeOptionFields>)
    ensures |r| == |datetimes|
    ensures forall k :: 0 <= k < |r| ==> r[k].meetingId == meetingId && r[k].datetime == datetimes[k]
  {
    seq(|datetimes|, k requires 0 <= k < |datetimes| => TimeOptionFields(meetingId, datetimes[k]))
  }

  /** The rows built by `location_options.map(...)`. */
  function LocationRows(meetingId: string, locations: seq<string>): (r: seq<LocationOptionFields>)
    ensures |r| == |locations|
    ensures forall k :: 0 <= k < |r| ==> r[k].meetingId == meetingId && r[k].location == locations[k]
  {
    seq(|locations|, k requires 0 <= k < |locations| => LocationOptionFields(meetingId, locations[k]))
  }

  /** The status the handler answers with, from the body and the store's
      faults alone; a fault of an insert that does not run does not count. */
  function ExpectedStatus(body: Option<CreateBody>, faults: CreateFaults): Status
  {
    if body.None? then ServerError
    else if !HasRequired(body.value) then BadRequest
    else if faults.meetingFails then ServerError
    else if NonEmpty(body.value.timeOptions) && faults.timeFails then ServerError
    else if NonEmpty(body.value.locationOptions) && faults.locationFails then ServerError
    else Ok
  }

  /** The handler.  `body == None` is a body that `request.json()` could not
      parse, or the JSON `null`, whose destructuring throws; either exception
      ends in the 500 branch. */
  method Post(db: Store, body: Option<CreateBody>, faults: CreateFaults) returns (resp: CreateResponse)
    requires db.Valid()
    modifies db
    ensures db.Valid()
    // creation never touches the votes table
    ensures db.votes == old(db.votes)
    ensures resp.Created? <==> ExpectedStatus(body, faults) == Ok
    ensures resp.Failed? ==> resp.status == ExpectedStatus(body, faults)
    // nothing is written before the meeting row exists
    ensures (body.None? || !HasRequired(body.value) || faults.meetingFails) ==>
      db.meetings == old(db.meetings) && db.timeOptions == old(db.timeOptions)
      && db.locationOptions == old(db.locationOptions)
    // once the meeting is stored it stays, whatever fails afterwards
    ensures body.Some? && HasRequired(body.value) && !faults.meetingFails ==>
      var b := body.value;
      && |db.meetings| == |old(db.meetings)| + 1
      && db.meetings[..|old(db.meetings)|] == old(db.meetings)
      && var meeting := db.meetings[|old(db.meetings)|];
      && meeting.id !in old(db.issued)
      && meeting.fields.uniqueLink !in old(db.issued)
      && (forall m :: m in old(db.meetings) ==> m.fields.uniqueLink != meeting.fields.uniqueLink)
      && meeting.fields.title == b.title.value
      && meeting.fields.organizerName == b.organizerName.value
      && meeting.fields.description == StoredDescription(b.description)
      // time options: all of them, or none when absent, empty or failed
      && var timesStored := NonEmpty(b.timeOptions) && !faults.timeFails;
      && |db.timeOptions| >= |old(db.timeOptions)|
      && db.timeOptions[..|old(db.timeOptions)|] == old(db.timeOptions)
      && Fields(db.timeOptions[|old(db.timeOptions)|..])
         == (if timesStored then TimeRows(meeting.id, Entries(b.timeOptions)) else [])
      // location options: only tried when the time options did not fail
      && var locationsStored := (!NonEmpty(b.timeOptions) || !faults.timeFails)
                                && NonEmpty(b.locationOptions) && !faults.locationFails;
      && |db.locationOptions| >= |old(db.locationOptions)|
      && db.locationOptions[..|old(db.locationOptions)|] == old(db.locationOptions)
      && Fields(db.locationOptions[|old(db.locationOptions)|..])
         == (if locationsStored then LocationRows(meeting.id, Entries(b.locationOptions)) else [])
      && (resp.Created? ==> resp.meeting == meeting && resp.uniqueLink == meeting.fields.uniqueLink)
  {
    if body.None? {
      return Failed(ServerError);
    }
    var b := body.value;
    if !HasRequired(b) {
      return Failed(BadRequest);
    }
    var uniqueLink := db.NewToken();
    var stored := db.InsertMeeting(
      MeetingFields(uniqueLink, b.title.value, StoredDescription(b.description), b.organizerName.value),
      faults.meetingFails);
    if stored.None? {
      return Failed(ServerError);
    }
    var meeting := stored.value;
    ghost var timesBefore, locationsBefore := db.timeOptions, db.locationOptions;
    assert timesBefore == old(db.timeOptions);

    if NonEmpty(b.timeOptions) {
      var timeRows := TimeRows(meeting.id, b.timeOptions.value);
      var ok := db.InsertTimeOptions(timeRows, faults.timeFails);
      if !ok {
        return Failed(ServerError);
      }
    } else {
      assert db.timeOptions[|old(db.timeOptions)|..] == [];
    }

    if NonEmpty(b.locationOptions) {
      var locationRows := LocationRows(meeting.id, b.locationOptions.value);
      var ok := db.InsertLocationOptions(locationRows, faults.locationFails);
      if !ok {
        return Failed(ServerError);
      }
    } else {
      assert db.locationOptions[|old(db.locationOptions)|..] == [];
    }
    return Created(meeting, uniqueLink);
  }

  // ---------------------------------------------------------------------
  // Properties of the pieces the handler is made of

  /** The required-field check: the handler answers 400, before any store
      call, exactly when `title` or `organizer_name` is missing or empty,
      whatever the option lists and the store's faults. */
  lemma RejectsExactlyMissingRequired(b: CreateBody, faults: CreateFaults)
    ensures ExpectedStatus(Some(b), faults) == BadRequest <==> !Truthy(b.title) || !Truthy(b.organizerName)
  {
  }

  /** A valid body with a store that never fails is created. */
  lemma CreatedWhenStoreSucceeds(b: CreateBody)
    requires HasRequired(b)
    ensures ExpectedStatus(Some(b), CreateFaults(false, false, false)) == Ok
  {
  }

  /** One option row per input entry, in input order, each tied to the
      meeting: the options read back by meeting id are exactly the input. */
  lemma {:induction false} TimeRowsRoundTrip(meetingId: string, datetimes: seq<string>)
    ensures Datetimes(TimeRows(meetingId, datetimes), meetingId) == datetimes
  {
    if datetimes != [] {
      assert TimeRows(meetingId, datetimes) == [TimeOptionFields(meetingId, datetimes[0])] + TimeRows(meetingId, datetimes[1..]);
      TimeRowsRoundTrip(meetingId, datetimes[1..]);
    }
  }

  lemma {:induction false} LocationRowsRoundTrip(meetingId: string, locations: seq<string>)
    ensures Locations(LocationRows(meetingId, locations), meetingId) == locations
  {
    if locations != [] {
      assert LocationRows(meetingId, locations) == [LocationOptionFields(meetingId, locations[0])] + LocationRows(meetingId, locations[1..]);
      LocationRowsRoundTrip(meetingId, locations[1..]);
    }
  }

  /** The datetimes of a meeting's time options, in table order. */
  function Datetimes(rows: seq<TimeOptionFields>, meetingId: string): seq<string>
  {
    if rows == [] then []
    else if rows[0].meetingId == meetingId then [rows[0].datetime] + Datetimes(rows[1..], meetingId)
    else Datetimes(rows[1..], meetingId)
  }

  /** The locations of a meeting's location options, in table order. */
  function Locations(rows: seq<LocationOptionFields>, meetingId: string): seq<string>
  {
    if rows == [] then []
    else if rows[0].meetingId == meetingId then [rows[0].location] + Locations(rows[1..], meetingId)
    else Locations(rows[1..], meetingId)
  }

  lemma {:induction false} DatetimesAppend(a: seq<TimeOptionFields>, b: seq<TimeOptionFields>, meetingId: string)
    ensures Datetimes(a + b, meetingId) == Datetimes(a, meetingId) + Datetimes(b, meetingId)
  {
    if a == [] {
      assert a + b == b;
    } else {
      assert (a + b)[1..] == a[1..] + b;
      DatetimesAppend(a[1..], b, meetingId);
    }
  }

  /** Rows of other meetings say nothing about a fresh meeting id. */
  lemma {:induction false} DatetimesOfFreshId(rows: seq<TimeOption>, meetingId: string, used: set<string>)
    requires forall t :: t in rows ==> t.fields.meetingId in used
    requires meetingId !in used
    ensures Datetimes(Fields(rows), meetingId) == []
  {
    if rows != [] {
      assert Fields(rows) == [rows[0].fields] + Fields(rows[1..]);
      DatetimesOfFreshId(rows[1..], meetingId, used);
    }
  }

  /** Read back by the new meeting's id, a time_options table that held no
      rows of it before yields exactly the submitted datetimes. */
  lemma NewMeetingTimes(before: seq<TimeOption>, after: seq<TimeOption>, meetingId: string, datetimes: seq<string>)
    requires Datetimes(Fields(before), meetingId) == []
    requires |after| >= |before| && after[..|before|] == before
    requires Fields(after[|before|..]) == TimeRows(meetingId, datetimes)
    ensures Datetimes(Fields(after), meetingId) == datetimes
  {
    assert after == before + after[|before|..];
    FieldsAppend(before, after[|before|..]);
    DatetimesAppend(Fields(before), Fields(after[|before|..]), meetingId);
    TimeRowsRoundTrip(meetingId, datetimes);
  }

  lemma {:induction false} LocationsAppend(a: seq<LocationOptionFields>, b: seq<LocationOptionFields>, meetingId: string)
    ensures Locations(a + b, meetingId) == Locations(a, meetingId) + Locations(b, meetingId)
  {
    if a == [] {
      assert a + b == b;
    } else {
      assert (a + b)[1..] == a[1..] + b;
      LocationsAppend(a[1..], b, meetingId);
    }
  }

  lemma {:induction false} LocationsOfFreshId(rows: seq<LocationOption>, meetingId: string, used: set<string>)
    requires forall l :: l in rows ==> l.fields.meetingId in used
    requires meetingId !in used
    ensures Locations(Fields(rows), meetingId) == []
  {
    if rows != [] {
      assert Fields(rows) == [rows[0].fields] + Fields(rows[1..]);
      LocationsOfFreshId(rows[1..], meetingId, used);
    }
  }

  /** Read back by the new meeting's id, a location_options table that held
      no rows of it before yields exactly the submitted locations. */
  lemma NewMeetingLocations(before: seq<LocationOption>, after: seq<LocationOption>, meetingId: string, locations: seq<string>)
    requires Locations(Fields(before), meetingId) == []
    requires |after| >= |before| && after[..|before|] == before
    requires Fields(after[|before|..]) == LocationRows(meetingId, locations)
    ensures Locations(Fields(after), meetingId) == locations
  {
    assert after == before + after[|before|..];
    FieldsAppend(before, after[|before|..]);
    LocationsAppend(Fields(before), Fields(after[|before|..]), meetingId);
    LocationRowsRoundTrip(meetingId, locations);
  }
}

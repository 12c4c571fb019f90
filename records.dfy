/** Record shapes of the four tables (meetings, time_options,
    location_options, votes) and the small value types the routes share. */
module Records {

  datatype Option<+T> = None | Some(value: T) {
    function GetOr(default: T): T {
      match this
      case Some(v) => v
      case None => default
    }
  }

  /** `vote_type`: one of 'yes', 'no', 'maybe'. */
  datatype VoteType = Yes | No | Maybe

  /** A stored row: the id the store generated for it and the columns the
      caller supplied.  The creation and update timestamps are not modelled. */
  datatype Row<T> = Row(id: string, fields: T)

  datatype MeetingFields = MeetingFields(
    uniqueLink: string,
    title: string,
    description: string,
    organizerName: string)

  datatype TimeOptionFields = TimeOptionFields(meetingId: string, datetime: string)

  datatype LocationOptionFields = LocationOptionFields(meetingId: string, location: string)

  /** A vote names its option through `timeOptionId` or `locationOptionId`;
      `None` stands for the column's null. */
  datatype VoteFields = VoteFields(
    meetingId: string,
    participantName: string,
    timeOptionId: Option<string>,
    locationOptionId: Option<string>,
    voteType: VoteType)

  type Meeting = Row<MeetingFields>
  type TimeOption = Row<TimeOptionFields>
  type LocationOption = Row<LocationOptionFields>
  type Vote = Row<VoteFields>

  /** The HTTP status a route answers with: 200, 400 or 500. */
  datatype Status = Ok | BadRequest | ServerError

  /** JavaScript truthiness of an optional string field of a request body:
      `undefined`, `null` and `''` are falsy. */
  predicate Truthy(f: Option<string>) {
    f.Some? && f.value != ""
  }

  /** The ids of a table, dropped: what a row holds apart from its id. */
  function Fields<T>(rows: seq<Row<T>>): (r: seq<T>)
    ensures |r| == |rows|
    ensures forall k :: 0 <= k < |rows| ==> r[k] == rows[k].fields
  {
    seq(|rows|, k requires 0 <= k < |rows| => rows[k].fields)
  }

  /** Rows made from the given column values, the k-th under the k-th id. */
  function Stamp<T>(ids: seq<string>, values: seq<T>): (r: seq<Row<T>>)
    requires |ids| == |values|
    ensures Fields(r) == values
    ensures forall k :: 0 <= k < |r| ==> r[k].id == ids[k]
  {
    var r := seq(|values|, k requires 0 <= k < |values| => Row(ids[k], values[k]));
    assert Fields(r) == values;
    r
  }

  lemma FieldsAppend<T>(a: seq<Row<T>>, b: seq<Row<T>>)
    ensures Fields(a + b) == Fields(a) + Fields(b)
  {
  }
}

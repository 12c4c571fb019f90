/** An in-memory model of the data store the routes talk to: four tables,
    insert-by-batch and delete-filtered-by-equality.  Each call either
    succeeds or fails as a whole; whether it fails is chosen by the
    environment and passed in as `fail`, so that every property below holds
    for every pattern of store failures. Ids and link tokens are fresh strings
    chosen arbitrarily. */
module Database {
  import opened Records

  /** A finite set of strings always misses some string: one longer than
      every member. */
  lemma {:induction false} LongerThanAll(used: set<string>) returns (s: string)
    ensures forall t :: t in used ==> |t| < |s|
    decreases |used|
  {
    if used == {} {
      s := "";
    } else {
      var t :| t in used;
      var rest := LongerThanAll(used - {t});
      s := rest + t + "#";
      forall u | u in used ensures |u| < |s| {
        if u != t {
          assert u in used - {t};
        }
      }
    }
  }

  /** The vote row belongs to the (meeting, participant) pair. */
  predicate Owns(v: Vote, meetingId: string, participantName: string) {
    v.fields.meetingId == meetingId && v.fields.participantName == participantName
  }

  /** What `delete().eq('meeting_id', m).eq('participant_name', p)` leaves of
      the votes table: every row except those of (m, p), in table order. */
  function DeleteVotesOf(votes: seq<Vote>, meetingId: string, participantName: string): (r: seq<Vote>)
    ensures |r| <= |votes|
    ensures forall v :: v in r <==> v in votes && !Owns(v, meetingId, participantName)
  {
    if votes == [] then []
    else if Owns(votes[0], meetingId, participantName) then
      DeleteVotesOf(votes[1..], meetingId, participantName)
    else
      [votes[0]] + DeleteVotesOf(votes[1..], meetingId, participantName)
  }

  class Store {
    var meetings: seq<Meeting>
    var timeOptions: seq<TimeOption>
    var locationOptions: seq<LocationOption>
    var votes: seq<Vote>
    /** Every id and link token handed out so far. */
    var issued: set<string>

    /** Every stored id and link was handed out, and options only refer to
        ids handed out, so a token not yet issued is used by no row. */
    ghost predicate Valid()
      reads this
    {
      && (forall m :: m in meetings ==> m.id in issued && m.fields.uniqueLink in issued)
      && (forall t :: t in timeOptions ==> t.id in issued && t.fields.meetingId in issued)
      && (forall l :: l in locationOptions ==> l.id in issued && l.fields.meetingId in issued)
      && (forall v :: v in votes ==> v.id in issued)
    }

    constructor ()
      ensures Valid()
      ensures meetings == [] && timeOptions == [] && locationOptions == [] && votes == []
    {
      meetings, timeOptions, locationOptions, votes := [], [], [], [];
      issued := {};
    }

    /** A token never handed out before (ids, and the meeting link that
        `generateUniqueLink` produces). */
    method NewToken() returns (t: string)
      modifies this`issued
      ensures t !in old(issued)
      ensures issued == old(issued) + {t}
    {
      ghost var longer := LongerThanAll(issued);
      assert longer !in issued;
      t :| t !in issued;
      issued := issued + {t};
    }

    /** `n` distinct tokens, none handed out before. */
    method NewTokens(n: nat) returns (ids: seq<string>)
      modifies this`issued
      ensures |ids| == n
      ensures forall k :: 0 <= k < n ==> ids[k] !in old(issued)
      ensures forall j, k :: 0 <= j < k < n ==> ids[j] != ids[k]
      ensures issued == old(issued) + (set x | x in ids)
    {
      ids := [];
      while |ids| < n
        invariant |ids| <= n
        invariant forall k :: 0 <= k < |ids| ==> ids[k] !in old(issued)
        invariant forall j, k :: 0 <= j < k < |ids| ==> ids[j] != ids[k]
        invariant issued == old(issued) + (set x | x in ids)
      {
        var t := NewToken();
        assert (set x | x in ids + [t]) == (set x | x in ids) + {t};
        ids := ids + [t];
      }
    }

    /** `insert(row).select().single()` on meetings: the stored row, or
        `None` when the store fails. */
    method InsertMeeting(fields: MeetingFields, fail: bool) returns (r: Option<Meeting>)
      requires Valid()
      requires fields.uniqueLink in issued
      modifies this
      ensures Valid()
      ensures r.Some? <==> !fail
      ensures old(issued) <= issued && (fail ==> issued == old(issued))
      ensures r.Some? ==> r.value.fields == fields && r.value.id !in old(issued)
      ensures meetings == if fail then old(meetings) else old(meetings) + [r.value]
      ensures timeOptions == old(timeOptions) && locationOptions == old(locationOptions)
      ensures votes == old(votes)
    {
      if fail {
        r := None;
      } else {
        var id := NewToken();
        r := Some(Row(id, fields));
        meetings := meetings + [r.value];
      }
    }

    /** A batch insert into time_options: all rows or none.  Its rows refer
        to a meeting id the store handed out, as the foreign key demands. */
    method InsertTimeOptions(batch: seq<TimeOptionFields>, fail: bool) returns (ok: bool)
      requires Valid()
      requires forall k :: 0 <= k < |batch| ==> batch[k].meetingId in issued
      modifies this
      ensures Valid()
      ensures ok == !fail
      ensures old(issued) <= issued && (fail ==> issued == old(issued))
      ensures |timeOptions| == |old(timeOptions)| + (if ok then |batch| else 0)
      ensures timeOptions[..|old(timeOptions)|] == old(timeOptions)
      ensures Fields(timeOptions[|old(timeOptions)|..]) == if ok then batch else []
      ensures meetings == old(meetings) && locationOptions == old(locationOptions)
      ensures votes == old(votes)
    {
      ok := !fail;
      if ok {
        var ids := NewTokens(|batch|);
        var rows := Stamp(ids, batch);
        timeOptions := timeOptions + rows;
        assert timeOptions[|old(timeOptions)|..] == rows;
      }
    }

    /** A batch insert into location_options: all rows or none, for a
        meeting id the store handed out. */
    method InsertLocationOptions(batch: seq<LocationOptionFields>, fail: bool) returns (ok: bool)
      requires Valid()
      requires forall k :: 0 <= k < |batch| ==> batch[k].meetingId in issued
      modifies this
      ensures Valid()
      ensures ok == !fail
      ensures old(issued) <= issued && (fail ==> issued == old(issued))
      ensures |locationOptions| == |old(locationOptions)| + (if ok then |batch| else 0)
      ensures locationOptions[..|old(locationOptions)|] == old(locationOptions)
      ensures Fields(locationOptions[|old(locationOptions)|..]) == if ok then batch else []
      ensures meetings == old(meetings) && timeOptions == old(timeOptions)
      ensures votes == old(votes)
    {
      ok := !fail;
      if ok {
        var ids := NewTokens(|batch|);
        var rows := Stamp(ids, batch);
        locationOptions := locationOptions + rows;
        assert locationOptions[|old(locationOptions)|..] == rows;
      }
    }

    /** A batch insert into votes: all rows or none. */
    method InsertVotes(batch: seq<VoteFields>, fail: bool) returns (ok: bool)
      requires Valid()
      modifies this
      ensures Valid()
      ensures ok == !fail
      ensures old(issued) <= issued && (fail ==> issued == old(issued))
      ensures |votes| == |old(votes)| + (if ok then |batch| else 0)
      ensures votes[..|old(votes)|] == old(votes)
      ensures Fields(votes[|old(votes)|..]) == if ok then batch else []
      ensures meetings == old(meetings) && timeOptions == old(timeOptions)
      ensures locationOptions == old(locationOptions)
    {
      ok := !fail;
      if ok {
        var ids := NewTokens(|batch|);
        var rows := Stamp(ids, batch);
        votes := votes + rows;
        assert votes[|old(votes)|..] == rows;
      }
    }

    /** Delete the votes of (meeting, participant); on failure nothing is
        deleted. */
    method DeleteVotes(meetingId: string, participantName: string, fail: bool) returns (ok: bool)
      requires Valid()
      modifies this`votes
      ensures Valid()
      ensures ok == !fail
      ensures votes == if ok then DeleteVotesOf(old(votes), meetingId, participantName) else old(votes)
    {
      ok := !fail;
      if ok {
        votes := DeleteVotesOf(votes, meetingId, participantName);
      }
    }
  }
}

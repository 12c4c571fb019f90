/** `POST /api/votes`: replace one participant's votes in one meeting.
    The route validates the body, deletes every vote of the pair
    (meeting_id, participant_name) without looking at the delete's error,
    then inserts the submitted batch and answers 500 only when that insert
    fails. */
module VotesRoute {
  import opened Records
  import opened Database

  /** One entry of the request's `votes` list. */
  datatype VoteEntry = VoteEntry(
    timeOptionId: Option<string>,
    locationOptionId: Option<string>,
    voteType: VoteType)

  /** The request body after `request.json()`; a missing field is `None`. */
  datatype VotesBody = VotesBody(
    meetingId: Option<string>,
    participantName: Option<string>,
    votes: Option<seq<VoteEntry>>)

  /** What the environment decides about the two store calls. */
  datatype VoteFaults = VoteFaults(deleteFails: bool, insertFails: bool)

  /** The guard before any store call: `meeting_id`, `participant_name` and
      `votes` are present and truthy and `votes` is not empty. */
  predicate Accepted(b: VotesBody) {
    Truthy(b.meetingId) && Truthy(b.participantName) && b.votes.Some? && |b.votes.value| > 0
  }

  /** `x || null` for an option id. */
  function OrNull(id: Option<string>): (r: Option<string>)
    ensures r.Some? <==> Truthy(id)
    ensures r.Some? ==> r == id
  {
    if Truthy(id) then id else None
  }

  /** The rows built by `votes.map(...)`, one per entry, in order. */
  function BatchRows(meetingId: string, participantName: string, entries: seq<VoteEntry>): (r: seq<VoteFields>)
    ensures |r| == |entries|
    ensures forall k :: 0 <= k < |r| ==>
      && r[k].meetingId == meetingId && r[k].participantName == participantName
      && r[k].voteType == entries[k].voteType
      && r[k].timeOptionId == OrNull(entries[k].timeOptionId)
      && r[k].locationOptionId == OrNull(entries[k].locationOptionId)
  {
    seq(|entries|, k requires 0 <= k < |entries| =>
      VoteFields(meetingId, participantName, OrNull(entries[k].timeOptionId),
                 OrNull(entries[k].locationOptionId), entries[k].voteType))
  }

  /** The votes of (meeting, participant) in table order, ids dropped. */
  function VotesOf(votes: seq<Vote>, meetingId: string, participantName: string): seq<VoteFields>
  {
    if votes == [] then []
    else if Owns(votes[0], meetingId, participantName) then
      [votes[0].fields] + VotesOf(votes[1..], meetingId, participantName)
    else
      VotesOf(votes[1..], meetingId, participantName)
  }

  /** The table a complete replacement leaves: the delete, then the inserted
      rows at the end. */
  function Replaced(votes: seq<Vote>, meetingId: string, participantName: string, inserted: seq<Vote>): seq<Vote>
  {
    DeleteVotesOf(votes, meetingId, participantName) + inserted
  }

  /** Every row of the batch belongs to (meeting, participant). */
  predicate AllOwned(rows: seq<Vote>, meetingId: string, participantName: string) {
    forall k :: 0 <= k < |rows| ==> Owns(rows[k], meetingId, participantName)
  }

  // ---------------------------------------------------------------------
  // The route

  /** The handler.  `body == None` is a body that `request.json()` could not
      parse, or the JSON `null`, whose destructuring throws; either exception
      ends in the 500 branch. */
  method Post(db: Store, body: Option<VotesBody>, faults: VoteFaults) returns (status: Status)
    requires db.Valid()
    modifies db
    ensures db.Valid()
    ensures db.meetings == old(db.meetings) && db.timeOptions == old(db.timeOptions)
    ensures db.locationOptions == old(db.locationOptions)
    ensures body.None? ==> status == ServerError && db.votes == old(db.votes)
    ensures body.Some? && !Accepted(body.value) ==> status == BadRequest && db.votes == old(db.votes)
    ensures body.Some? && Accepted(body.value) ==>
      var b := body.value;
      var kept := if faults.deleteFails then old(db.votes)
                  else DeleteVotesOf(old(db.votes), b.meetingId.value, b.participantName.value);
      var batch := BatchRows(b.meetingId.value, b.participantName.value, b.votes.value);
      && (status == Ok <==> !faults.insertFails)
      && status != BadRequest
      && |db.votes| == |kept| + (if faults.insertFails then 0 else |batch|)
      && db.votes[..|kept|] == kept
      && Fields(db.votes[|kept|..]) == if faults.insertFails then [] else batch
  {
    if body.None? {
      return ServerError;
    }
    var b := body.value;
    if !Accepted(b) {
      return BadRequest;
    }
    var meetingId, participantName := b.meetingId.value, b.participantName.value;
    // the delete's error is not looked at
    var _ := db.DeleteVotes(meetingId, participantName, faults.deleteFails);
    var batch := BatchRows(meetingId, participantName, b.votes.value);
    var inserted := db.InsertVotes(batch, faults.insertFails);
    if !inserted {
      return ServerError;
    }
    return Ok;
  }

  /** The route with the delete's error checked: a failed delete answers 500
      before anything is inserted, so a 200 always means full replacement. */
  method PostChecked(db: Store, body: Option<VotesBody>, faults: VoteFaults) returns (status: Status)
    requires db.Valid()
    modifies db
    ensures db.Valid()
    ensures db.meetings == old(db.meetings) && db.timeOptions == old(db.timeOptions)
    ensures db.locationOptions == old(db.locationOptions)
    ensures body.None? ==> status == ServerError && db.votes == old(db.votes)
    ensures body.Some? && !Accepted(body.value) ==> status == BadRequest && db.votes == old(db.votes)
    ensures body.Some? && Accepted(body.value) ==>
      var b := body.value;
      var m, p := b.meetingId.value, b.participantName.value;
      var batch := BatchRows(m, p, b.votes.value);
      && (status == Ok <==> !faults.deleteFails && !faults.insertFails)
      && (faults.deleteFails ==> status == ServerError && db.votes == old(db.votes))
      && (!faults.deleteFails ==>
            |db.votes| >= |DeleteVotesOf(old(db.votes), m, p)|
            && var inserted := db.votes[|DeleteVotesOf(old(db.votes), m, p)|..];
            && db.votes == Replaced(old(db.votes), m, p, inserted)
            && AllOwned(inserted, m, p)
            && Fields(inserted) == if faults.insertFails then [] else batch)
  {
    if body.None? {
      return ServerError;
    }
    var b := body.value;
    if !Accepted(b) {
      return BadRequest;
    }
    var meetingId, participantName := b.meetingId.value, b.participantName.value;
    var deleted := db.DeleteVotes(meetingId, participantName, faults.deleteFails);
    if !deleted {
      return ServerError;
    }
    ghost var kept := db.votes;
    var batch := BatchRows(meetingId, participantName, b.votes.value);
    var inserted := db.InsertVotes(batch, faults.insertFails);
    ghost var added := db.votes[|kept|..];
    assert db.votes == kept + added;
    forall k | 0 <= k < |added| ensures Owns(added[k], meetingId, participantName) {
      assert added[k].fields == Fields(added)[k] == batch[k];
    }
    if !inserted {
      return ServerError;
    }
    return Ok;
  }

  // ---------------------------------------------------------------------
  // Properties of the delete and of a complete replacement

  lemma {:induction false} VotesOfAppend(a: seq<Vote>, b: seq<Vote>, m: string, p: string)
    ensures VotesOf(a + b, m, p) == VotesOf(a, m, p) + VotesOf(b, m, p)
  {
    if a == [] {
      assert a + b == b;
    } else {
      assert (a + b)[1..] == a[1..] + b;
      VotesOfAppend(a[1..], b, m, p);
    }
  }

  /** Rows that all belong to (m, p) are exactly their votes. */
  lemma {:induction false} VotesOfOwned(rows: seq<Vote>, m: string, p: string)
    requires AllOwned(rows, m, p)
    ensures VotesOf(rows, m, p) == Fields(rows)
  {
    if rows != [] {
      VotesOfOwned(rows[1..], m, p);
      assert Fields(rows) == [rows[0].fields] + Fields(rows[1..]);
    }
  }

  /** After the delete, the pair has no votes left in the meeting: the state
      a failed insert leaves behind. */
  lemma {:induction false} DeleteLeavesNoVotes(votes: seq<Vote>, m: string, p: string)
    ensures VotesOf(DeleteVotesOf(votes, m, p), m, p) == []
  {
    if votes != [] {
      DeleteLeavesNoVotes(votes[1..], m, p);
      if !Owns(votes[0], m, p) {
        assert DeleteVotesOf(votes, m, p) == [votes[0]] + DeleteVotesOf(votes[1..], m, p);
        VotesOfAppend([votes[0]], DeleteVotesOf(votes[1..], m, p), m, p);
      }
    }
  }

  /** The delete leaves the votes of every other (meeting, participant)
      pair exactly as they were, order included. */
  lemma {:induction false} DeleteKeepsOthers(votes: seq<Vote>, m: string, p: string, m': string, p': string)
    requires m' != m || p' != p
    ensures VotesOf(DeleteVotesOf(votes, m, p), m', p') == VotesOf(votes, m', p')
  {
    if votes != [] {
      DeleteKeepsOthers(votes[1..], m, p, m', p');
      if !Owns(votes[0], m, p) {
        assert DeleteVotesOf(votes, m, p) == [votes[0]] + DeleteVotesOf(votes[1..], m, p);
        VotesOfAppend([votes[0]], DeleteVotesOf(votes[1..], m, p), m', p');
      }
    }
  }

  /** Deleting rows the delete removes anyway changes nothing. */
  lemma {:induction false} DeleteAbsorbsOwned(votes: seq<Vote>, rows: seq<Vote>, m: string, p: string)
    requires AllOwned(rows, m, p)
    ensures DeleteVotesOf(votes + rows, m, p) == DeleteVotesOf(votes, m, p)
  {
    if votes == [] {
      assert votes + rows == rows;
      DeleteOwnedIsEmpty(rows, m, p);
    } else {
      assert (votes + rows)[1..] == votes[1..] + rows;
      DeleteAbsorbsOwned(votes[1..], rows, m, p);
    }
  }

  lemma {:induction false} DeleteOwnedIsEmpty(rows: seq<Vote>, m: string, p: string)
    requires AllOwned(rows, m, p)
    ensures DeleteVotesOf(rows, m, p) == []
  {
    if rows != [] {
      DeleteOwnedIsEmpty(rows[1..], m, p);
    }
  }

  /** Stored rows made from a batch belong to the batch's pair. */
  lemma InsertedOwned(rows: seq<Vote>, m: string, p: string, entries: seq<VoteEntry>)
    requires Fields(rows) == BatchRows(m, p, entries)
    ensures AllOwned(rows, m, p)
  {
    forall k | 0 <= k < |rows| ensures Owns(rows[k], m, p) {
      assert rows[k].fields == Fields(rows)[k];
    }
  }

  /** Full replacement, not merge: afterwards the pair's votes are exactly
      the submitted batch, one row per entry, in order, duplicates kept. */
  lemma ReplacementIsExact(votes: seq<Vote>, m: string, p: string, entries: seq<VoteEntry>, inserted: seq<Vote>)
    requires Fields(inserted) == BatchRows(m, p, entries)
    ensures VotesOf(Replaced(votes, m, p, inserted), m, p) == BatchRows(m, p, entries)
  {
    InsertedOwned(inserted, m, p, entries);
    VotesOfAppend(DeleteVotesOf(votes, m, p), inserted, m, p);
    DeleteLeavesNoVotes(votes, m, p);
    VotesOfOwned(inserted, m, p);
  }

  /** Other participants and other meetings are untouched, and the rows that
      are not the pair's stay the very same rows, ids and order included. */
  lemma ReplacementKeepsOthers(votes: seq<Vote>, m: string, p: string, entries: seq<VoteEntry>,
                               inserted: seq<Vote>, m': string, p': string)
    requires Fields(inserted) == BatchRows(m, p, entries)
    requires m' != m || p' != p
    ensures VotesOf(Replaced(votes, m, p, inserted), m', p') == VotesOf(votes, m', p')
    ensures DeleteVotesOf(Replaced(votes, m, p, inserted), m, p) == DeleteVotesOf(votes, m, p)
  {
    InsertedOwned(inserted, m, p, entries);
    VotesOfAppend(DeleteVotesOf(votes, m, p), inserted, m', p');
    DeleteKeepsOthers(votes, m, p, m', p');
    VotesOfNotOwned(inserted, m, p, m', p');
    DeleteAbsorbsOwned(DeleteVotesOf(votes, m, p), inserted, m, p);
    DeleteIdempotent(votes, m, p);
  }

  lemma {:induction false} VotesOfNotOwned(rows: seq<Vote>, m: string, p: string, m': string, p': string)
    requires AllOwned(rows, m, p)
    requires m' != m || p' != p
    ensures VotesOf(rows, m', p') == []
  {
    if rows != [] {
      VotesOfNotOwned(rows[1..], m, p, m', p');
    }
  }

  lemma {:induction false} DeleteIdempotent(votes: seq<Vote>, m: string, p: string)
    ensures DeleteVotesOf(DeleteVotesOf(votes, m, p), m, p) == DeleteVotesOf(votes, m, p)
  {
    if votes != [] {
      DeleteIdempotent(votes[1..], m, p);
      if !Owns(votes[0], m, p) {
        assert DeleteVotesOf(votes, m, p) == [votes[0]] + DeleteVotesOf(votes[1..], m, p);
      }
    }
  }

  /** Idempotence: a second replacement undoes the first one entirely, so
      submitting the same batch twice leaves the same rows as submitting it
      once, generated ids aside. */
  lemma ReplacementIdempotent(votes: seq<Vote>, m: string, p: string, entries: seq<VoteEntry>,
                              first: seq<Vote>, second: seq<Vote>)
    requires Fields(first) == BatchRows(m, p, entries)
    requires Fields(second) == BatchRows(m, p, entries)
    ensures Replaced(Replaced(votes, m, p, first), m, p, second) == Replaced(votes, m, p, second)
    ensures Fields(Replaced(Replaced(votes, m, p, first), m, p, second)) == Fields(Replaced(votes, m, p, first))
  {
    InsertedOwned(first, m, p, entries);
    DeleteAbsorbsOwned(DeleteVotesOf(votes, m, p), first, m, p);
    DeleteIdempotent(votes, m, p);
    FieldsAppend(DeleteVotesOf(votes, m, p), first);
    FieldsAppend(DeleteVotesOf(votes, m, p), second);
  }

  /** A later submission replaces an earlier one: after two submissions with
      different batches only the second batch is present. */
  lemma SecondSubmissionWins(votes: seq<Vote>, m: string, p: string, entries1: seq<VoteEntry>,
                             entries2: seq<VoteEntry>, first: seq<Vote>, second: seq<Vote>)
    requires Fields(first) == BatchRows(m, p, entries1)
    requires Fields(second) == BatchRows(m, p, entries2)
    ensures VotesOf(Replaced(Replaced(votes, m, p, first), m, p, second), m, p) == BatchRows(m, p, entries2)
  {
    ReplacementIsExact(Replaced(votes, m, p, first), m, p, entries2, second);
  }

  /** Resubmitting a subset drops the pair's votes on every time option that
      the new batch does not name. */
  lemma ResubmitDropsUnnamedTimeOption(votes: seq<Vote>, m: string, p: string, entries: seq<VoteEntry>,
                                       inserted: seq<Vote>, option: string)
    requires Fields(inserted) == BatchRows(m, p, entries)
    requires forall k :: 0 <= k < |entries| ==> entries[k].timeOptionId != Some(option)
    ensures forall v :: v in VotesOf(Replaced(votes, m, p, inserted), m, p) ==> v.timeOptionId != Some(option)
  {
    ReplacementIsExact(votes, m, p, entries, inserted);
  }

  /** The same for location options. */
  lemma ResubmitDropsUnnamedLocationOption(votes: seq<Vote>, m: string, p: string, entries: seq<VoteEntry>,
                                           inserted: seq<Vote>, option: string)
    requires Fields(inserted) == BatchRows(m, p, entries)
    requires forall k :: 0 <= k < |entries| ==> entries[k].locationOptionId != Some(option)
    ensures forall v :: v in VotesOf(Replaced(votes, m, p, inserted), m, p) ==> v.locationOptionId != Some(option)
  {
    ReplacementIsExact(votes, m, p, entries, inserted);
  }

  /** Nothing checks that exactly one option id is set: an entry naming
      both options, or neither, passes the guard and is stored as given,
      with an empty id read as null. */
  lemma OptionShapeUnchecked(m: string, p: string, entry: VoteEntry)
    requires m != "" && p != ""
    ensures Accepted(VotesBody(Some(m), Some(p), Some([entry])))
    ensures var row := BatchRows(m, p, [entry])[0];
      && (Truthy(entry.timeOptionId) ==> row.timeOptionId == entry.timeOptionId)
      && (Truthy(entry.locationOptionId) ==> row.locationOptionId == entry.locationOptionId)
      && (!Truthy(entry.timeOptionId) ==> row.timeOptionId.None?)
      && (!Truthy(entry.locationOptionId) ==> row.locationOptionId.None?)
  {
  }

  /** As written, a 200 after a failed delete keeps the pair's earlier votes
      in front of the new batch: a merge, not a replacement, whenever the
      participant had voted before. */
  lemma IgnoredDeleteFailureMerges(votes: seq<Vote>, m: string, p: string, entries: seq<VoteEntry>,
                                   inserted: seq<Vote>)
    requires Fields(inserted) == BatchRows(m, p, entries)
    requires VotesOf(votes, m, p) != []
    ensures VotesOf(votes + inserted, m, p) == VotesOf(votes, m, p) + BatchRows(m, p, entries)
    ensures VotesOf(votes + inserted, m, p) != BatchRows(m, p, entries)
  {
    InsertedOwned(inserted, m, p, entries);
    VotesOfAppend(votes, inserted, m, p);
    VotesOfOwned(inserted, m, p);
  }
}

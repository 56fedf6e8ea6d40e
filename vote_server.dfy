/**
 * The backend of the voting app (backend/server.js): the `Vote` collection,
 * the start-up seeder `initializeDatabase`, the handler of `POST /api/vote`
 * and the tally returned by `GET /api/votes`.
 *
 * The collection is a sequence of records in its natural order. A store
 * failure (an exception thrown by the database driver) is a boolean input;
 * every failure path leaves the collection as it was.
 */
module VoteServer {
  import opened Maybe

  /** One document of the `Vote` collection. */
  datatype VoteRecord = VoteRecord(option: string, count: int)

  /** The abstract HTTP status of a handler's reply. */
  datatype Status = Ok200 | BadRequest400 | ServerError500

  /** The reply of `GET /api/votes`: the tally object, or the 500 error. */
  datatype TallyReply = TallyOk(tally: map<string, int>) | TallyError

  /** `VOTING_OPTIONS`, the allow-list shared by the seeder and the vote handler. */
  const VotingOptions: seq<string> := ["Option A", "Option B", "Option C"]

  /** `VOTING_OPTIONS.includes(option)`; a missing or non-string option is never included. */
  predicate IsAllowed(option: Option<string>)
  {
    option.Some? && option.value in VotingOptions
  }

  /** The option strings the collection holds. */
  function Options(records: seq<VoteRecord>): set<string>
  {
    set r | r in records :: r.option
  }

  /** The unique index on `option`: no two records hold the same option. */
  ghost predicate UniqueOptions(records: seq<VoteRecord>)
  {
    forall i, j :: 0 <= i < j < |records| ==> records[i].option != records[j].option
  }

  ghost predicate NonNegative(records: seq<VoteRecord>)
  {
    forall i :: 0 <= i < |records| ==> records[i].count >= 0
  }

  /** The documents `initializeDatabase` hands to `insertMany`: every option at count zero, in list order. */
  function Seed(options: seq<string>): (records: seq<VoteRecord>)
    ensures |records| == |options|
    ensures forall i :: 0 <= i < |options| ==> records[i] == VoteRecord(options[i], 0)
  {
    if options == [] then [] else [VoteRecord(options[0], 0)] + Seed(options[1..])
  }

  /**
   * The `reduce` of `GET /api/votes`: the records are folded left to right
   * into an object, so a later record for an option overwrites an earlier one.
   */
  function Tally(records: seq<VoteRecord>): map<string, int>
  {
    if records == [] then map[]
    else Tally(records[..|records| - 1])[records[|records| - 1].option := records[|records| - 1].count]
  }

  /**
   * `findOneAndUpdate({ option }, { $inc: { count: 1 } })` without upsert:
   * the first record for `option` gains one vote; without such a record
   * nothing is created and nothing changes.
   */
  function Increment(records: seq<VoteRecord>, option: string): (updated: seq<VoteRecord>)
    ensures |updated| == |records|
  {
    if records == [] then []
    else if records[0].option == option then [records[0].(count := records[0].count + 1)] + records[1..]
    else [records[0]] + Increment(records[1..], option)
  }

  /** The tally has a key for exactly the options some record holds. */
  lemma {:induction false} TallyKeys(records: seq<VoteRecord>)
    ensures Tally(records).Keys == Options(records)
  {
    if records != [] {
      var init, last := records[..|records| - 1], records[|records| - 1];
      assert records == init + [last];
      TallyKeys(init);
      assert Options(records) == Options(init) + {last.option};
    }
  }

  /** The tally's value for an option is the count of the LAST record holding it. */
  lemma {:induction false} TallyLastWriterWins(records: seq<VoteRecord>, i: nat)
    requires i < |records|
    requires forall j :: i < j < |records| ==> records[j].option != records[i].option
    ensures records[i].option in Tally(records)
    ensures Tally(records)[records[i].option] == records[i].count
  {
    if i < |records| - 1 {
      TallyLastWriterWins(records[..|records| - 1], i);
    }
  }

  /**
   * Seeding options that satisfy the unique index writes one record per
   * option at count zero, and GET then reports exactly those options, each at zero.
   */
  lemma {:induction false} SeedIsFreshTally(options: seq<string>)
    requires UniqueOptions(Seed(options))
    ensures NonNegative(Seed(options))
    ensures Options(Seed(options)) == set o | o in options
    ensures Tally(Seed(options)).Keys == set o | o in options
    ensures forall o :: o in Tally(Seed(options)) ==> Tally(Seed(options))[o] == 0
  {
    var records := Seed(options);
    forall o | o in options ensures o in Options(records) {
      var i :| 0 <= i < |options| && options[i] == o;
      assert records[i] in records;
    }
    TallyKeys(records);
    forall o | o in Tally(records) ensures Tally(records)[o] == 0 {
      var i :| 0 <= i < |records| && records[i].option == o;
      TallyLastWriterWins(records, i);
    }
  }

  /** A vote for an option no record holds leaves the store unchanged. */
  lemma {:induction false} IncrementMissing(records: seq<VoteRecord>, option: string)
    requires option !in Options(records)
    ensures Increment(records, option) == records
  {
    if records != [] {
      assert records[0] in records;
      forall o | o in Options(records[1..]) ensures o in Options(records) {
        var r :| r in records[1..] && r.option == o;
        assert r in records;
      }
      IncrementMissing(records[1..], option);
    }
  }

  /** With the unique index, a vote adds one to the record for its option and leaves every other record as it was. */
  lemma {:induction false} IncrementAt(records: seq<VoteRecord>, option: string, i: nat)
    requires UniqueOptions(records) && i < |records|
    ensures Increment(records, option)[i]
         == if records[i].option == option then records[i].(count := records[i].count + 1) else records[i]
  {
    if records[0].option != option && i > 0 {
      IncrementAt(records[1..], option, i - 1);
    }
  }

  /** A vote keeps the option set, the unique index and non-negative counts. */
  lemma {:induction false} IncrementKeepsStore(records: seq<VoteRecord>, option: string)
    requires UniqueOptions(records) && NonNegative(records)
    ensures Options(Increment(records, option)) == Options(records)
    ensures UniqueOptions(Increment(records, option)) && NonNegative(Increment(records, option))
  {
    var updated := Increment(records, option);
    forall i | 0 <= i < |records|
      ensures updated[i].option == records[i].option && updated[i].count >= records[i].count
    {
      IncrementAt(records, option, i);
    }
    forall o | o in Options(records) ensures o in Options(updated) {
      var i :| 0 <= i < |records| && records[i].option == o;
      assert updated[i] in updated;
    }
    forall o | o in Options(updated) ensures o in Options(records) {
      var i :| 0 <= i < |updated| && updated[i].option == o;
      assert records[i] in records;
    }
  }

  /** What GET reports after a successful vote: one more for that option, every other count as before. */
  lemma {:induction false} TallyAfterVote(records: seq<VoteRecord>, option: string)
    requires UniqueOptions(records) && NonNegative(records)
    ensures Tally(Increment(records, option)).Keys == Tally(records).Keys
    ensures forall o :: o in Tally(records) ==>
      Tally(Increment(records, option))[o] == if o == option then Tally(records)[o] + 1 else Tally(records)[o]
  {
    var updated := Increment(records, option);
    IncrementKeepsStore(records, option);
    TallyKeys(records);
    TallyKeys(updated);
    forall o | o in Tally(records)
      ensures Tally(updated)[o] == if o == option then Tally(records)[o] + 1 else Tally(records)[o]
    {
      var i :| 0 <= i < |records| && records[i].option == o;
      TallyAfterVoteAt(records, option, i);
    }
  }

  /** TallyAfterVote for the option of the record at position `i`. */
  lemma TallyAfterVoteAt(records: seq<VoteRecord>, option: string, i: nat)
    requires UniqueOptions(records) && NonNegative(records) && i < |records|
    ensures records[i].option in Tally(records) && records[i].option in Tally(Increment(records, option))
    ensures Tally(Increment(records, option))[records[i].option]
         == if records[i].option == option then records[i].count + 1 else records[i].count
    ensures Tally(records)[records[i].option] == records[i].count
  {
    var updated := Increment(records, option);
    IncrementKeepsStore(records, option);
    IncrementAt(records, option, i);
    TallyLastWriterWins(records, i);
    TallyLastWriterWins(updated, i);
  }

  /** The `Vote` collection and the handlers that act on it. */
  class VoteCollection {
    /** The documents of the collection, in natural order. */
    var records: seq<VoteRecord>

    /** The unique index, non-negative counts, and no option outside the allow-list. */
    ghost predicate Valid()
      reads this
    {
      && UniqueOptions(records)
      && NonNegative(records)
      && Options(records) <= set o | o in VotingOptions
    }

    /** A new, empty collection. */
    constructor ()
      ensures Valid() && records == []
    {
      records := [];
    }

    /**
     * `initializeDatabase`: when the collection is empty, insert every
     * allowed option at count zero; a store failure is only logged.
     */
    method InitializeDatabase(storeFails: bool)
      requires Valid()
      modifies this
      ensures Valid()
      ensures old(records) != [] || storeFails ==> records == old(records)
      ensures old(records) == [] && !storeFails ==>
        && records == Seed(VotingOptions)
        && Tally(records).Keys == set o | o in VotingOptions
        && forall o :: o in Tally(records) ==> Tally(records)[o] == 0
    {
      if storeFails {
        return;
      }
      if |records| == 0 {
        assert UniqueOptions(Seed(VotingOptions)) by {
          assert VotingOptions[0][7] == 'A' && VotingOptions[1][7] == 'B' && VotingOptions[2][7] == 'C';
        }
        SeedIsFreshTally(VotingOptions);
        records := Seed(VotingOptions);
      }
    }

    /**
     * `POST /api/vote`: 400 for an option outside the allow-list, otherwise
     * one `$inc` on the matching record and 200 (even when no record matched).
     */
    method CastVote(option: Option<string>, storeFails: bool) returns (status: Status)
      requires Valid()
      modifies this
      ensures Valid()
      ensures Options(records) == Options(old(records))
      ensures !IsAllowed(option) ==> status == BadRequest400 && records == old(records)
      ensures IsAllowed(option) && storeFails ==> status == ServerError500 && records == old(records)
      ensures IsAllowed(option) && option.value !in Options(old(records)) ==> records == old(records)
      ensures IsAllowed(option) && !storeFails ==>
        && status == Ok200
        && records == Increment(old(records), option.value)
        && Tally(records).Keys == Tally(old(records)).Keys
        && forall o :: o in Tally(old(records)) ==>
             Tally(records)[o] == if o == option.value then Tally(old(records))[o] + 1 else Tally(old(records))[o]
    {
      if !IsAllowed(option) {
        return BadRequest400;
      }
      if storeFails {
        return ServerError500;
      }
      if option.value !in Options(records) {
        IncrementMissing(records, option.value);
      }
      IncrementKeepsStore(records, option.value);
      TallyAfterVote(records, option.value);
      records := Increment(records, option.value);
      status := Ok200;
    }

    /** `GET /api/votes`: reads the collection and changes nothing. */
    method GetVotes(storeFails: bool) returns (reply: TallyReply)
      requires Valid()
      ensures reply.TallyError? <==> storeFails
      ensures reply.TallyOk? ==> reply.tally.Keys == Options(records)
      ensures reply.TallyOk? ==>
        forall i :: 0 <= i < |records| ==> reply.tally[records[i].option] == records[i].count
      ensures reply.TallyOk? ==> reply.tally == Tally(records)
    {
      if storeFails {
        return TallyError;
      }
      TallyKeys(records);
      forall i | 0 <= i < |records| ensures Tally(records)[records[i].option] == records[i].count {
        TallyLastWriterWins(records, i);
      }
      reply := TallyOk(Tally(records));
    }

    /** Two reads with no vote between them report the same tally. */
    method ReadTwice(firstFails: bool, secondFails: bool) returns (first: TallyReply, second: TallyReply)
      requires Valid()
      ensures first.TallyOk? && second.TallyOk? ==> first == second
    {
      first := GetVotes(firstFails);
      second := GetVotes(secondFails);
    }
  }

  /** A fresh deployment: seeding an empty collection, then reading the tally. */
  method SeedScenario() returns (store: VoteCollection, seeded: TallyReply)
    ensures store.Valid() && fresh(store)
    ensures seeded == TallyOk(Tally(store.records))
    ensures seeded == TallyOk(map["Option A" := 0, "Option B" := 0, "Option C" := 0])
  {
    store := new VoteCollection();
    store.InitializeDatabase(false);
    seeded := store.GetVotes(false);
    SeededTally(seeded.tally);
  }

  /**
   * On the seeded collection: a vote for "Option A" is counted, then a vote
   * for "Option D" is refused and changes nothing.
   */
  method VoteScenario() returns (statusA: Status, afterA: TallyReply, statusD: Status, afterD: TallyReply)
    ensures statusA == Ok200
    ensures afterA == TallyOk(map["Option A" := 1, "Option B" := 0, "Option C" := 0])
    ensures statusD == BadRequest400 && afterD == afterA
  {
    OptionDIsRefused();
    var store, seeded := SeedScenario();
    statusA := store.CastVote(Some("Option A"), false);
    afterA := store.GetVotes(false);
    VotedTally(seeded.tally, afterA.tally);
    statusD := store.CastVote(Some("Option D"), false);
    afterD := store.GetVotes(false);
  }

  /** "Option D" is not on the allow-list. */
  lemma OptionDIsRefused()
    ensures !IsAllowed(Some("Option D"))
  {
    assert "Option D"[7] == 'D';
    assert VotingOptions[0][7] == 'A' && VotingOptions[1][7] == 'B' && VotingOptions[2][7] == 'C';
  }

  /** The seeded tally, written out. */
  lemma SeededTally(tally: map<string, int>)
    requires tally.Keys == set o | o in VotingOptions
    requires forall o :: o in tally ==> tally[o] == 0
    ensures tally == map["Option A" := 0, "Option B" := 0, "Option C" := 0]
  {
  }

  /** The tally after one vote for "Option A" on the seeded tally, written out. */
  lemma VotedTally(before: map<string, int>, after: map<string, int>)
    requires before == map["Option A" := 0, "Option B" := 0, "Option C" := 0]
    requires after.Keys == before.Keys
    requires forall o :: o in before ==> after[o] == if o == "Option A" then before[o] + 1 else before[o]
    ensures after == map["Option A" := 1, "Option B" := 0, "Option C" := 0]
  {
    assert "Option B" != "Option A" && "Option C" != "Option A" by {
      assert "Option A"[7] == 'A' && "Option B"[7] == 'B' && "Option C"[7] == 'C';
    }
    assert after["Option A"] == 1 && after["Option B"] == 0 && after["Option C"] == 0;
  }
}

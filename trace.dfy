/** The rating scenario of the package's own test case, replayed against the
    model: an anonymous field (range 2, votes may change) and a registered-only
    field (range 2, votes final) on one object, with one vote allowed per IP. */
module Trace {

  import opened Wrappers
  import opened Models
  import opened Fields

  const Host := ObjRef(1, 1)
  /** `AnonymousRatingField(range=2, can_change_vote=True)` */
  const Rating := RatingField("rating", "k1", 2, 0, true, true)
  /** `RatingField(range=2, can_change_vote=False)` */
  const Rating2 := RatingField("rating2", "k2", 2, 0, false, false)
  /** RATINGS_VOTES_PER_IP */
  const Cap := 1
  const Alice := User(1, "django-ratings")
  const Bob := User(2, "django-ratings2")

  // The Vote table after each call; the clock reads 0, 1, 2, ... at the calls.
  const V1 := [Vote(Host, "k1", 1, None, "127.0.0.1", None, 0, 0)]
  const V2 := V1 + [Vote(Host, "k1", 2, None, "127.0.0.2", None, 1, 1)]
  const V3 := [Vote(Host, "k1", 2, None, "127.0.0.1", None, 0, 2), Vote(Host, "k1", 2, None, "127.0.0.2", None, 1, 1)]
  const V4 := V3 + [Vote(Host, "k1", 2, Some(Alice), "127.0.0.3", None, 3, 3)]
  const V5 := V4 + [Vote(Host, "k2", 2, Some(Alice), "127.0.0.3", None, 4, 4)]

  predicate Bound(db: Database, m: RatingManager, field: RatingField, votes: seq<Vote>, columns: map<string, Tally>)
    reads db, m, m.instance
  {
    m.instance.ref == Host && m.field == field && db.votes == votes && m.instance.columns == columns
  }

  /** The two constants are what the declarations build. */
  lemma DeclaredFields()
    ensures NewAnonymousRatingField("rating", "k1", FieldOptions(false, Some(true), None, Some(2), None)) == Ok(Rating)
    ensures NewRatingField("rating2", "k2", FieldOptions(false, Some(false), None, Some(2), None)) == Ok(Rating2)
  {
  }

  lemma {:induction false} NoVotesNoCount(votes: seq<Vote>, obj: ObjRef, key: string, ip: string)
    requires forall k :: 0 <= k < |votes| ==> !On(votes[k], obj, key)
    ensures IpCount(votes, obj, key, ip) == 0
  {
    if |votes| > 0 {
      NoVotesNoCount(votes[..|votes| - 1], obj, key, ip);
    }
  }

  /** Anonymous 1 from 127.0.0.1: a first vote. */
  method Step1(db: Database, m: RatingManager) returns (r: Result<AddOutcome, RatingError>)
    requires Bound(db, m, Rating, [], map[])
    modifies db, m.instance
    ensures r == Ok(Created) && Bound(db, m, Rating, V1, map["rating" := Tally(1, 1)])
  {
    r := m.Add(db, IntArg(1), NoUser, "127.0.0.1", true, Cap, 0);
  }

  /** Anonymous 2 from 127.0.0.2: another address, another first vote. */
  method Step2(db: Database, m: RatingManager) returns (r: Result<AddOutcome, RatingError>)
    requires Bound(db, m, Rating, V1, map["rating" := Tally(1, 1)])
    modifies db, m.instance
    ensures r == Ok(Created) && Bound(db, m, Rating, V2, map["rating" := Tally(3, 2)])
  {
    assert !Holds(V1[0], Host, "k1", ByAddress("127.0.0.2"));
    assert IpCount(V1, Host, "k1", "127.0.0.2") == 0 by {
      assert V1[..0] == [];
    }
    r := m.Add(db, IntArg(2), NoUser, "127.0.0.2", true, Cap, 1);
  }

  /** Anonymous 2 from 127.0.0.1 again: the address's vote changes from 1 to 2. */
  method Step3(db: Database, m: RatingManager) returns (r: Result<AddOutcome, RatingError>)
    requires Bound(db, m, Rating, V2, map["rating" := Tally(3, 2)])
    modifies db, m.instance
    ensures r == Ok(Changed) && Bound(db, m, Rating, V3, map["rating" := Tally(4, 2)])
  {
    assert Holds(V2[0], Host, "k1", ByAddress("127.0.0.1"));
    assert !Holds(V2[1], Host, "k1", ByAddress("127.0.0.1"));
    r := m.Add(db, IntArg(2), NoUser, "127.0.0.1", true, Cap, 2);
  }

  /** A user votes 2 from 127.0.0.3: a first vote for that user and address. */
  method Step4(db: Database, m: RatingManager) returns (r: Result<AddOutcome, RatingError>)
    requires Bound(db, m, Rating, V3, map["rating" := Tally(4, 2)])
    modifies db, m.instance
    ensures r == Ok(Created) && Bound(db, m, Rating, V4, map["rating" := Tally(6, 3)])
  {
    assert !Holds(V3[0], Host, "k1", ByUser(1)) && !Holds(V3[1], Host, "k1", ByUser(1));
    assert IpCount(V3, Host, "k1", "127.0.0.3") == 0 by {
      assert V3[..1][..0] == [];
    }
    r := m.Add(db, IntArg(2), Authenticated(Alice), "127.0.0.3", true, Cap, 3);
  }

  /** The same user votes 2 on the second field: its first vote there. */
  method Step5(db: Database, m: RatingManager) returns (r: Result<AddOutcome, RatingError>)
    requires Bound(db, m, Rating2, V4, map["rating" := Tally(6, 3)])
    modifies db, m.instance
    ensures r == Ok(Created) && Bound(db, m, Rating2, V5, map["rating" := Tally(6, 3), "rating2" := Tally(2, 1)])
  {
    assert forall k :: 0 <= k < |V4| ==> !On(V4[k], Host, "k2");
    NoVotesNoCount(V4, Host, "k2", "127.0.0.3");
    r := m.Add(db, IntArg(2), Authenticated(Alice), "127.0.0.3", true, Cap, 4);
  }

  /** A second user votes on the second field from the same address: the
      address has used its one vote, so the call is refused and nothing changes. */
  method Step6(db: Database, m: RatingManager) returns (r: Result<AddOutcome, RatingError>)
    requires Bound(db, m, Rating2, V5, map["rating" := Tally(6, 3), "rating2" := Tally(2, 1)])
    modifies db, m.instance
    ensures r == Err(IPLimitReached) && Bound(db, m, Rating2, V5, map["rating" := Tally(6, 3), "rating2" := Tally(2, 1)])
  {
    assert forall k :: 0 <= k < |V5| ==> !Holds(V5[k], Host, "k2", ByUser(2));
    NoVotesNoCount(V4, Host, "k2", "127.0.0.3");
    assert V5[..|V5| - 1] == V4;
    r := m.Add(db, IntArg(2), Authenticated(Bob), "127.0.0.3", true, Cap, 5);
  }

  /** Runs the six `add` calls in order and returns each call's result and the
      (score, votes) pair of the field it was made on. */
  method ReplayTestScenario() returns (results: seq<Result<AddOutcome, RatingError>>, pairs: seq<Tally>)
    ensures results == [Ok(Created), Ok(Created), Ok(Changed), Ok(Created), Ok(Created), Err(IPLimitReached)]
    ensures pairs == [Tally(1, 1), Tally(3, 2), Tally(4, 2), Tally(6, 3), Tally(2, 1), Tally(2, 1)]
  {
    var db := new Database(map[Host := map[]]);
    var instance := new Instance.Load(db, Host);
    var rating := new RatingManager(instance, Rating);
    var rating2 := new RatingManager(instance, Rating2);

    var r1 := Step1(db, rating);
    var p1 := rating.Pair();
    var r2 := Step2(db, rating);
    var p2 := rating.Pair();
    var r3 := Step3(db, rating);
    var p3 := rating.Pair();
    var r4 := Step4(db, rating);
    var p4 := rating.Pair();
    var r5 := Step5(db, rating2);
    var p5 := rating2.Pair();
    var r6 := Step6(db, rating2);
    var p6 := rating2.Pair();

    results := [r1, r2, r3, r4, r5, r6];
    pairs := [p1, p2, p3, p4, p5, p6];
  }
}

/** The rating field and its per-instance manager: the vote-aggregation
    engine. `RatingManager.Add` records one vote and keeps the host object's
    (score, votes) columns and the Score row equal to the sum and count of the
    votes on that (object, key); `Update` rebuilds them from the Vote table. */
module Fields {

  import opened Wrappers
  import opened Strings
  import opened Models

  /** A rating field's configuration. `key` is the field's lookup key in the
      Vote and Score tables (a digest of its name, treated as opaque). */
  datatype RatingField = RatingField(
    name: string,
    key: string,
    range: int,
    weight: int,
    canChangeVote: bool,
    allowAnonymous: bool)

  /** Keyword arguments given to the field's constructor; None when left out. */
  datatype FieldOptions = FieldOptions(
    choices: bool,
    canChangeVote: Option<bool>,
    weight: Option<int>,
    range: Option<int>,
    allowAnonymous: Option<bool>)

  const NoOptions := FieldOptions(false, None, None, None, None)

  /** The TypeError `RatingField(choices=...)` raises. */
  datatype FieldError = ChoicesNotAllowed

  function OrElse<T>(o: Option<T>, default: T): T {
    if o.Some? then o.value else default
  }

  /** `RatingField(**kwargs)`: `choices` is refused; the rest default to
      can_change_vote=False, weight=0, range=2, allow_anonymous=False. */
  function NewRatingField(name: string, key: string, opts: FieldOptions): (r: Result<RatingField, FieldError>)
    ensures r.Err? <==> opts.choices
    ensures r.Ok? ==> r.value.name == name && r.value.key == key
    ensures r.Ok? && opts.allowAnonymous.None? ==> !r.value.allowAnonymous
    ensures r.Ok? && opts.canChangeVote.None? ==> !r.value.canChangeVote
    ensures r.Ok? && opts.canChangeVote.Some? ==> r.value.canChangeVote == opts.canChangeVote.value
    ensures r.Ok? && opts.allowAnonymous.Some? ==> r.value.allowAnonymous == opts.allowAnonymous.value
    ensures r.Ok? && opts.range.None? ==> r.value.range == 2
    ensures r.Ok? && opts.range.Some? ==> r.value.range == opts.range.value
    ensures r.Ok? && opts.weight.None? ==> r.value.weight == 0
    ensures r.Ok? && opts.weight.Some? ==> r.value.weight == opts.weight.value
  {
    if opts.choices then Err(ChoicesNotAllowed)
    else Ok(RatingField(name, key,
                        OrElse(opts.range, 2),
                        OrElse(opts.weight, 0),
                        OrElse(opts.canChangeVote, false),
                        OrElse(opts.allowAnonymous, false)))
  }

  /** `AnonymousRatingField(**kwargs)`: a RatingField with allow_anonymous forced on. */
  function NewAnonymousRatingField(name: string, key: string, opts: FieldOptions): (r: Result<RatingField, FieldError>)
    ensures r.Err? <==> opts.choices
    ensures r.Ok? ==> r.value.allowAnonymous
    ensures r.Ok? ==> r.value == NewRatingField(name, key, opts).value.(allowAnonymous := true)
  {
    NewRatingField(name, key, opts.(allowAnonymous := Some(true)))
  }

  /** A field declared with no options. */
  lemma DefaultField(name: string, key: string)
    ensures NewRatingField(name, key, NoOptions) == Ok(RatingField(name, key, 2, 0, false, false))
  {
  }

  // ---------------------------------------------------------------------
  // The score argument and int()
  // ---------------------------------------------------------------------

  /** What `add` may be handed as its score. */
  datatype ScoreInput = IntArg(n: int) | FloatArg(x: real) | TextArg(text: string) | NoneArg

  /** `int(x)` for a float truncates toward zero. */
  function TruncateReal(x: real): (n: int)
    ensures x >= 0.0 ==> 0 <= n && n as real <= x < n as real + 1.0
    ensures x < 0.0 ==> n <= 0 && n as real - 1.0 < x <= n as real
  {
    if x >= 0.0 then x.Floor else -((-x).Floor)
  }

  /** `int(score)`: None where Python raises ValueError or TypeError. */
  function ToInt(input: ScoreInput): Option<int>
  {
    match input
    case IntArg(n) => Some(n)
    case FloatArg(x) => Some(TruncateReal(x))
    case TextArg(t) => ParseInt(t)
    case NoneArg => None
  }

  /** A score that passes the checks on lines 110-116. */
  predicate ValidScore(input: ScoreInput, field: RatingField) {
    ToInt(input).Some? && 1 <= ToInt(input).value <= field.range
  }

  /** A score written out in decimal is accepted exactly when the integer is. */
  lemma TextScoreAsInteger(n: int, field: RatingField)
    ensures ValidScore(TextArg(ShowInt(n)), field) <==> ValidScore(IntArg(n), field)
  {
    ParseShow(n);
  }

  // ---------------------------------------------------------------------
  // Averages and percentages over (score, votes)
  // ---------------------------------------------------------------------

  /** The guard `not (votes and score)`. */
  predicate NoRating(t: Tally) {
    t.votes == 0 || t.score == 0
  }

  /** `get_real_rating`: the plain mean. */
  function GetRealRating(t: Tally): (r: real)
    ensures NoRating(t) ==> r == 0.0
    ensures !NoRating(t) ==> r * t.votes as real == t.score as real
  {
    if NoRating(t) then 0.0 else t.score as real / t.votes as real
  }

  /** The exception Python's float division raises on a zero divisor. */
  datatype ArithError = ZeroDivisionError

  /** `get_rating`: the mean smoothed by the field's weight. A negative weight
      can cancel the vote count, and the division then raises. */
  function GetRating(t: Tally, field: RatingField): (r: Result<real, ArithError>)
    ensures NoRating(t) ==> r == Ok(0.0)
    ensures r.Err? <==> !NoRating(t) && t.votes + field.weight == 0
    ensures r.Ok? && !NoRating(t) ==> r.value * (t.votes + field.weight) as real == t.score as real
  {
    if NoRating(t) then Ok(0.0)
    else if t.votes + field.weight == 0 then Err(ZeroDivisionError)
    else Ok(t.score as real / (t.votes + field.weight) as real)
  }

  /** `get_percent`: the weighted rating as a percentage of the range. The
      rating is computed first, then divided by the range. */
  function GetPercent(t: Tally, field: RatingField): (r: Result<real, ArithError>)
    ensures NoRating(t) ==> r == Ok(0.0)
    ensures r.Err? <==> !NoRating(t) && (t.votes + field.weight == 0 || field.range == 0)
    ensures r.Ok? && !NoRating(t) ==> r.value * field.range as real == 100.0 * GetRating(t, field).value
  {
    if NoRating(t) then Ok(0.0)
    else
      match GetRating(t, field)
      case Err(e) => Err(e)
      case Ok(g) => if field.range == 0 then Err(ZeroDivisionError) else Ok(100.0 * (g / field.range as real))
  }

  /** `get_real_percent`: the plain mean as a percentage of the range. */
  function GetRealPercent(t: Tally, field: RatingField): (r: Result<real, ArithError>)
    ensures NoRating(t) ==> r == Ok(0.0)
    ensures r.Err? <==> !NoRating(t) && field.range == 0
    ensures r.Ok? && !NoRating(t) ==> r.value * field.range as real == 100.0 * GetRealRating(t)
  {
    if NoRating(t) then Ok(0.0)
    else if field.range == 0 then Err(ZeroDivisionError)
    else Ok(100.0 * (GetRealRating(t) / field.range as real))
  }

  /** `get_opinion_percent`: the percentage moved onto a neutral-centred scale;
      it raises where `get_percent` does. */
  function GetOpinionPercent(t: Tally, field: RatingField): (r: Result<real, ArithError>)
    ensures NoRating(t) ==> r == Ok(50.0)
    ensures r.Err? <==> GetPercent(t, field).Err?
  {
    match GetPercent(t, field)
    case Err(e) => Err(e)
    case Ok(p) => Ok((p + 100.0) / 2.0)
  }

  /** With no smoothing weight the weighted and the plain figures agree,
      failures included. */
  lemma UnweightedRatingIsMean(t: Tally, field: RatingField)
    requires field.weight == 0
    ensures GetRating(t, field) == Ok(GetRealRating(t))
    ensures GetPercent(t, field) == GetRealPercent(t, field)
  {
  }

  /** Every vote on (obj, key) lies in [1, range]. */
  predicate ScoresInRange(votes: seq<Vote>, obj: ObjRef, key: string, range: int) {
    forall k :: 0 <= k < |votes| && On(votes[k], obj, key) ==> 1 <= votes[k].score <= range
  }

  /** A quotient of a sum bounded by n*lo and n*hi lies between lo and hi. */
  lemma QuotientBetween(a: real, n: real, lo: real, hi: real)
    requires n > 0.0 && n * lo <= a <= n * hi
    ensures lo <= a / n <= hi
  {
    var q := a / n;
    assert q * n == a;
  }

  /** Dividing by a larger positive number gives a smaller non-negative quotient. */
  lemma QuotientShrinks(a: real, n: real, w: real)
    requires a >= 0.0 && 0.0 < n <= w
    ensures 0.0 <= a / w <= a / n
  {
    var p, q := a / w, a / n;
    assert p * w == a && q * n == a;
  }

  lemma InRangeAfterAppend(votes: seq<Vote>, v: Vote, obj: ObjRef, key: string, range: int)
    requires ScoresInRange(votes, obj, key, range)
    requires On(v, obj, key) ==> 1 <= v.score <= range
    ensures ScoresInRange(votes + [v], obj, key, range)
  {
    var s := votes + [v];
    assert forall k :: 0 <= k < |votes| ==> s[k] == votes[k];
  }

  lemma InRangeAfterReplace(votes: seq<Vote>, i: nat, w: Vote, obj: ObjRef, key: string, range: int)
    requires ScoresInRange(votes, obj, key, range) && i < |votes|
    requires On(w, obj, key) ==> 1 <= w.score <= range
    ensures ScoresInRange(votes[i := w], obj, key, range)
  {
  }

  /** The mean of in-range votes lies between 1 and the range, and its
      percentage between 100/range and 100. */
  lemma MeanWithinRange(votes: seq<Vote>, obj: ObjRef, field: RatingField)
    requires ScoresInRange(votes, obj, field.key, field.range)
    requires TallyOf(votes, obj, field.key).votes > 0
    ensures var t := TallyOf(votes, obj, field.key);
      && 1.0 <= GetRealRating(t) <= field.range as real
      && GetRealPercent(t, field).Ok?
      && 100.0 / field.range as real <= GetRealPercent(t, field).value <= 100.0
  {
    var t := TallyOf(votes, obj, field.key);
    TallyBounds(votes, obj, field.key, 1, field.range);
    var n, R := t.votes as real, field.range as real;
    assert n * 1.0 <= t.score as real <= n * R;
    QuotientBetween(t.score as real, n, 1.0, R);
    var m := GetRealRating(t);
    assert m == t.score as real / n;
    PercentOfMean(m, R);
    assert GetRealPercent(t, field).value == 100.0 * (m / R);
  }

  /** For 1 <= m <= R, the percentage 100 * (m / R) lies in [100 / R, 100]. */
  lemma PercentOfMean(m: real, R: real)
    requires 1.0 <= m <= R
    ensures 100.0 / R <= 100.0 * (m / R) <= 100.0
  {
    QuotientBetween(m, R, 1.0 / R, 1.0);
    assert R * (1.0 / R) == 1.0;
  }

  /** A non-negative weight keeps the weighted percentage in [0, 100] and the
      opinion percentage in [50, 100]. */
  lemma OpinionWithinBounds(votes: seq<Vote>, obj: ObjRef, field: RatingField)
    requires ScoresInRange(votes, obj, field.key, field.range)
    requires field.weight >= 0 && field.range >= 1
    ensures var t := TallyOf(votes, obj, field.key);
      && GetPercent(t, field).Ok? && 0.0 <= GetPercent(t, field).value <= 100.0
      && GetOpinionPercent(t, field).Ok? && 50.0 <= GetOpinionPercent(t, field).value <= 100.0
  {
    var t := TallyOf(votes, obj, field.key);
    if !NoRating(t) {
      MeanWithinRange(votes, obj, field);
      var n, w, R := t.votes as real, (t.votes + field.weight) as real, field.range as real;
      var m := t.score as real / n;
      assert m == GetRealRating(t);
      QuotientShrinks(t.score as real, n, w);
      var g := t.score as real / w;
      assert g == GetRating(t, field).value;
      QuotientBetween(g, R, 0.0, 1.0);
    }
  }

  // ---------------------------------------------------------------------
  // Deciding what a call to add does
  // ---------------------------------------------------------------------

  /** The exceptions `add` raises. MultipleObjectsReturned is Django's, from
      `Vote.objects.get` finding two rows for one identity. */
  datatype RatingError = InvalidRating | AuthRequired | IPLimitReached | CannotChangeVote | MultipleObjectsReturned

  /** Which branch `add` takes: refuse, insert a first vote, or change the
      existing vote at `index`. */
  datatype Decision = Reject(error: RatingError) | Insert(score: int) | Change(index: nat, score: int)

  /** The checks of `add`, in the order the code makes them, before anything is
      written. `cap` is RATINGS_VOTES_PER_IP; 0 turns the per-IP check off. */
  function Decide(votes: seq<Vote>, obj: ObjRef, field: RatingField, input: ScoreInput,
                  req: Requester, ip: string, cap: nat): (d: Decision)
    ensures d == Reject(InvalidRating) <==> !ValidScore(input, field)
    ensures d == Reject(AuthRequired) <==> ValidScore(input, field) && IsAnonymous(req) && !field.allowAnonymous
    ensures !d.Reject? ==> ValidScore(input, field) && d.score == ToInt(input).value
    ensures d.Insert? ==> Get(votes, obj, field.key, IdentityOf(req, ip)).NotFound?
    ensures d.Insert? ==> cap == 0 || IpCount(votes, obj, field.key, ip) < cap
    ensures d.Change? ==> field.canChangeVote && Get(votes, obj, field.key, IdentityOf(req, ip)) == Found(d.index)
    ensures d.Change? ==> d.index < |votes| && Holds(votes[d.index], obj, field.key, IdentityOf(req, ip))
    ensures d == Reject(IPLimitReached) ==>
      cap != 0 && IpCount(votes, obj, field.key, ip) >= cap && Get(votes, obj, field.key, IdentityOf(req, ip)).NotFound?
    ensures d == Reject(CannotChangeVote) ==> !field.canChangeVote && Get(votes, obj, field.key, IdentityOf(req, ip)).Found?
    ensures d == Reject(MultipleObjectsReturned) <==>
      ValidScore(input, field) && !(IsAnonymous(req) && !field.allowAnonymous) &&
      Get(votes, obj, field.key, IdentityOf(req, ip)).MultipleFound?
  {
    if !ValidScore(input, field) then Reject(InvalidRating)
    else if IsAnonymous(req) && !field.allowAnonymous then Reject(AuthRequired)
    else
      var s := ToInt(input).value;
      match Get(votes, obj, field.key, IdentityOf(req, ip))
      case MultipleFound => Reject(MultipleObjectsReturned)
      case NotFound =>
        if cap != 0 && IpCount(votes, obj, field.key, ip) >= cap then Reject(IPLimitReached)
        else Insert(s)
      case Found(i) =>
        if field.canChangeVote then Change(i, s) else Reject(CannotChangeVote)
  }

  /** An anonymous rating field never answers AuthRequired. */
  lemma AnonymousFieldAdmitsAnonymous(votes: seq<Vote>, obj: ObjRef, name: string, key: string,
                                      opts: FieldOptions, input: ScoreInput, req: Requester, ip: string, cap: nat)
    requires NewAnonymousRatingField(name, key, opts).Ok?
    ensures Decide(votes, obj, NewAnonymousRatingField(name, key, opts).value, input, req, ip, cap) != Reject(AuthRequired)
  {
  }

  /** A field declared without options turns every anonymous voter with a valid
      score away with AuthRequired, before looking at any vote. */
  lemma DefaultFieldRequiresAuth(votes: seq<Vote>, obj: ObjRef, name: string, key: string,
                                 input: ScoreInput, req: Requester, ip: string, cap: nat)
    requires IsAnonymous(req)
    requires ToInt(input).Some? && 1 <= ToInt(input).value <= 2
    ensures Decide(votes, obj, NewRatingField(name, key, NoOptions).value, input, req, ip, cap) == Reject(AuthRequired)
  {
  }

  /** A cap of 0 disables the per-IP limit, and the limit never applies to an
      identity that already has a vote. */
  lemma IpLimitOnlyOnNewVotes(votes: seq<Vote>, obj: ObjRef, field: RatingField, input: ScoreInput,
                              req: Requester, ip: string, cap: nat)
    ensures cap == 0 ==> Decide(votes, obj, field, input, req, ip, cap) != Reject(IPLimitReached)
    ensures Get(votes, obj, field.key, IdentityOf(req, ip)).Found? ==>
      Decide(votes, obj, field, input, req, ip, cap) != Reject(IPLimitReached)
  {
  }

  /** With one vote per identity, a valid re-vote on a changeable field is a change. */
  lemma RevoteIsChange(votes: seq<Vote>, obj: ObjRef, field: RatingField, input: ScoreInput,
                       req: Requester, ip: string, cap: nat, i: nat)
    requires IdentitiesUnique(votes)
    requires i < |votes| && Holds(votes[i], obj, field.key, IdentityOf(req, ip))
    requires ValidScore(input, field) && (field.allowAnonymous || !IsAnonymous(req))
    ensures Decide(votes, obj, field, input, req, ip, cap) ==
      if field.canChangeVote then Change(i, ToInt(input).value) else Reject(CannotChangeVote)
  {
  }

  // ---------------------------------------------------------------------
  // get_rating_for_user
  // ---------------------------------------------------------------------

  /** `get_rating_for_user(user, ip_address)`: the score of the caller's vote on
      (obj, key), None when there is none. An anonymous caller is looked up by
      a null user and the IP; every stored vote has an IP, so an absent IP
      finds nothing. */
  function GetRatingForUser(votes: seq<Vote>, obj: ObjRef, key: string, req: Requester, ip: Option<string>)
    : (r: Result<Option<int>, RatingError>)
    ensures r.Ok? && r.value.Some? ==>
      exists k :: 0 <= k < |votes| && On(votes[k], obj, key) && votes[k].score == r.value.value
    ensures r == Ok(None) <==>
      (IsAnonymous(req) && ip.None?) ||
      (forall k :: 0 <= k < |votes| ==> !Holds(votes[k], obj, key, IdentityOf(req, OrElse(ip, ""))))
    ensures !(IsAnonymous(req) && ip.None?) && Get(votes, obj, key, IdentityOf(req, OrElse(ip, ""))).MultipleFound? ==>
      r == Err(MultipleObjectsReturned)
  {
    if IsAnonymous(req) && ip.None? then Ok(None)
    else
      match Get(votes, obj, key, IdentityOf(req, OrElse(ip, "")))
      case NotFound => Ok(None)
      case Found(i) => Ok(Some(votes[i].score))
      case MultipleFound => Err(MultipleObjectsReturned)
  }

  /** A vote appended for an identity that had none is what the lookup finds. */
  lemma GetAfterAppend(votes: seq<Vote>, v: Vote, obj: ObjRef, key: string, id: Identity)
    requires Get(votes, obj, key, id).NotFound?
    requires Holds(v, obj, key, id)
    ensures Get(votes + [v], obj, key, id) == Found(|votes|)
  {
    assert Holds((votes + [v])[|votes|], obj, key, id);
  }

  /** A vote rewritten in place for the same identity is still the one found. */
  lemma GetAfterReplace(votes: seq<Vote>, i: nat, w: Vote, obj: ObjRef, key: string, id: Identity)
    requires Get(votes, obj, key, id) == Found(i)
    requires Slot(w) == Slot(votes[i])
    ensures Get(votes[i := w], obj, key, id) == Found(i)
  {
    assert Holds(votes[i := w][i], obj, key, id);
  }

  /** The vote the identity lookup finds is the one whose score is reported. */
  lemma ReadBack(votes: seq<Vote>, obj: ObjRef, key: string, req: Requester, ip: string, i: nat)
    requires Get(votes, obj, key, IdentityOf(req, ip)) == Found(i)
    ensures GetRatingForUser(votes, obj, key, req, Some(ip)) == Ok(Some(votes[i].score))
  {
  }

  /** The user column a new vote gets: the account, or null for anyone anonymous. */
  function UserColumn(req: Requester): Option<User> {
    if req.Authenticated? then Some(req.user) else None
  }

  /** The Vote table after an accepted `add`: the new row appended with both
      dates at `now`, or the identity's row given the new score and a fresh
      `date_changed`. */
  function Recorded(votes: seq<Vote>, obj: ObjRef, key: string, d: Decision, req: Requester,
                    ip: string, now: int): seq<Vote>
    requires d.Insert? || (d.Change? && d.index < |votes|)
  {
    if d.Insert? then votes + [Vote(obj, key, d.score, UserColumn(req), ip, None, now, now)]
    else votes[d.index := votes[d.index].(score := d.score, dateChanged := now)]
  }

  /** The pair after an accepted `add`: one more vote and the score added, or
      the old score swapped for the new one with the count kept. */
  function Moved(t: Tally, votes: seq<Vote>, d: Decision): Tally
    requires d.Insert? || (d.Change? && d.index < |votes|)
  {
    if d.Insert? then Tally(t.score + d.score, t.votes + 1)
    else Tally(t.score - votes[d.index].score + d.score, t.votes)
  }

  /** What an accepted `add` may assume about its decision: a first vote has
      no row for the identity, a change names the identity's one row. */
  predicate Accepted(votes: seq<Vote>, obj: ObjRef, key: string, d: Decision, req: Requester, ip: string) {
    && !d.Reject?
    && (d.Insert? ==> Get(votes, obj, key, IdentityOf(req, ip)).NotFound?)
    && (d.Change? ==> d.index < |votes| && Get(votes, obj, key, IdentityOf(req, ip)) == Found(d.index))
  }

  /** An accepted vote moves its own aggregate exactly as `Moved` says and
      leaves every other aggregate as it was. */
  lemma RecordedTallies(votes: seq<Vote>, obj: ObjRef, key: string, d: Decision, req: Requester, ip: string, now: int)
    requires Accepted(votes, obj, key, d, req, ip)
    ensures TallyOf(Recorded(votes, obj, key, d, req, ip, now), obj, key) == Moved(TallyOf(votes, obj, key), votes, d)
    ensures forall o, k :: (o, k) != (obj, key) ==>
      TallyOf(Recorded(votes, obj, key, d, req, ip, now), o, k) == TallyOf(votes, o, k)
  {
    if d.Insert? {
      var v := Vote(obj, key, d.score, UserColumn(req), ip, None, now, now);
      TallyOfAppend(votes, v, obj, key);
      TallyOfAppendElsewhere(votes, v);
    } else {
      var w := votes[d.index].(score := d.score, dateChanged := now);
      TallyOfReplace(votes, d.index, w, obj, key);
      TallyOfReplaceElsewhere(votes, d.index, w);
    }
  }

  /** An accepted vote keeps one vote per identity, and keeps the scores on
      (obj, key) within the field's range when the new score is. */
  lemma RecordedKeepsInvariants(votes: seq<Vote>, obj: ObjRef, key: string, d: Decision, req: Requester,
                                ip: string, now: int, range: int)
    requires Accepted(votes, obj, key, d, req, ip)
    ensures IdentitiesUnique(votes) ==> IdentitiesUnique(Recorded(votes, obj, key, d, req, ip, now))
    ensures ScoresInRange(votes, obj, key, range) && 1 <= d.score <= range ==>
      ScoresInRange(Recorded(votes, obj, key, d, req, ip, now), obj, key, range)
  {
    if d.Insert? {
      var v := Vote(obj, key, d.score, UserColumn(req), ip, None, now, now);
      if IdentitiesUnique(votes) {
        UniqueAfterAppend(votes, v);
      }
      if ScoresInRange(votes, obj, key, range) && 1 <= d.score <= range {
        InRangeAfterAppend(votes, v, obj, key, range);
      }
    } else {
      var w := votes[d.index].(score := d.score, dateChanged := now);
      if IdentitiesUnique(votes) {
        UniqueAfterReplace(votes, d.index, w);
      }
      if ScoresInRange(votes, obj, key, range) && 1 <= d.score <= range {
        InRangeAfterReplace(votes, d.index, w, obj, key, range);
      }
    }
  }

  /** After an accepted vote the caller's vote reads back as the score given. */
  lemma RecordedReadsBack(votes: seq<Vote>, obj: ObjRef, key: string, d: Decision, req: Requester, ip: string, now: int)
    requires Accepted(votes, obj, key, d, req, ip)
    ensures GetRatingForUser(Recorded(votes, obj, key, d, req, ip, now), obj, key, req, Some(ip)) == Ok(Some(d.score))
  {
    var after := Recorded(votes, obj, key, d, req, ip, now);
    if d.Insert? {
      var v := Vote(obj, key, d.score, UserColumn(req), ip, None, now, now);
      GetAfterAppend(votes, v, obj, key, IdentityOf(req, ip));
      ReadBack(after, obj, key, req, ip, |votes|);
    } else {
      var w := votes[d.index].(score := d.score, dateChanged := now);
      GetAfterReplace(votes, d.index, w, obj, key, IdentityOf(req, ip));
      ReadBack(after, obj, key, req, ip, d.index);
    }
  }

  // ---------------------------------------------------------------------
  // The manager
  // ---------------------------------------------------------------------

  /** How a successful `add` went: a new vote, or a changed one. */
  datatype AddOutcome = Created | Changed

  /** `RatingCreator.__set__`: assigning a Rating value writes both columns;
      anything else is a TypeError (false here) and writes nothing. */
  datatype Assigned = RatingValue(score: int, votes: int) | OtherValue

  method AssignRating(instance: Instance, field: RatingField, value: Assigned) returns (ok: bool)
    modifies instance
    ensures ok <==> value.RatingValue?
    ensures ok ==> instance.columns == old(instance.columns)[field.name := Tally(value.score, value.votes)]
    ensures !ok ==> instance.columns == old(instance.columns)
  {
    if value.RatingValue? {
      instance.columns := instance.columns[field.name := Tally(value.score, value.votes)];
      ok := true;
    } else {
      ok := false;
    }
  }

  /** The object `instance.<field>` returns: a rating field bound to one host
      object. Its `score` and `votes` are that object's two columns. */
  class RatingManager {
    const instance: Instance
    const field: RatingField

    constructor (instance: Instance, field: RatingField)
      ensures this.instance == instance && this.field == field
    {
      this.instance := instance;
      this.field := field;
    }

    /** The (score, votes) pair kept in the host object's columns. */
    function Pair(): Tally
      reads instance
    {
      instance.Column(field.name)
    }

    /** The pair equals the sum and count of the votes on (object, key). */
    ghost predicate InSync(votes: seq<Vote>)
      reads instance
    {
      Pair() == TallyOf(votes, instance.ref, field.key)
    }

    /** `add(score, user, ip_address, commit)`. `cap` is RATINGS_VOTES_PER_IP and
        `now` the clock reading the vote's dates take. */
    method Add(db: Database, input: ScoreInput, req: Requester, ip: string, commit: bool, cap: nat, now: int)
      returns (r: Result<AddOutcome, RatingError>)
      modifies instance, db
      ensures var d := Decide(old(db.votes), instance.ref, field, input, req, ip, cap);
        && (d.Reject? <==> r.Err?)
        && (d.Reject? ==> r.error == d.error)
        && (d.Insert? <==> r == Ok(Created))
        && (d.Change? <==> r == Ok(Changed))
      // A refused vote writes nothing.
      ensures r.Err? ==>
        && db.votes == old(db.votes) && db.scores == old(db.scores)
        && db.hosts == old(db.hosts) && db.saveLog == old(db.saveLog)
        && instance.columns == old(instance.columns)
      // An accepted vote: the identity's row appended or rewritten as `Recorded`
      // says, and the pair moved by the same vote.
      ensures r.Ok? ==>
        var d := Decide(old(db.votes), instance.ref, field, input, req, ip, cap);
        && Accepted(old(db.votes), instance.ref, field.key, d, req, ip)
        && db.votes == Recorded(old(db.votes), instance.ref, field.key, d, req, ip, now)
        && Pair() == Moved(old(Pair()), old(db.votes), d)
      // The pair is mirrored into the Score row and, with commit, the host row.
      ensures r.Ok? ==>
        && instance.columns == old(instance.columns)[field.name := Pair()]
        && db.scores == old(db.scores)[(instance.ref, field.key) := Pair()]
        && db.hosts == (if commit then old(db.hosts)[instance.ref := instance.columns] else old(db.hosts))
        && db.saveLog == old(db.saveLog) + (if commit then [instance.ref] else [])
      // The pair stays the sum and count of the votes on (object, key).
      ensures old(InSync(db.votes)) ==> InSync(db.votes)
    {
      var d := Decide(db.votes, instance.ref, field, input, req, ip, cap);
      if d.Reject? {
        return Err(d.error);
      }
      RecordedTallies(db.votes, instance.ref, field.key, d, req, ip, now);
      ghost var columns := instance.columns;
      var t := Moved(instance.Column(field.name), db.votes, d);
      if d.Insert? {
        db.CreateVote(Vote(instance.ref, field.key, d.score, UserColumn(req), ip, None, now, now), now);
        r := Ok(Created);
      } else {
        db.SaveVote(d.index, db.votes[d.index].(score := d.score), now);
        r := Ok(Changed);
      }
      assert db.votes == Recorded(old(db.votes), instance.ref, field.key, d, req, ip, now);
      instance.columns := instance.columns[field.name := t];
      assert instance.columns == columns[field.name := t] && Pair() == t;
      if commit {
        instance.Save(db);
      }
      db.SaveScore((instance.ref, field.key), t);
    }

    /** `_update(commit)`: recompute the pair as the sum and count of the votes
        on (object, key), whatever it held before, and mirror it into the Score
        row (get-or-create) and the columns. */
    method Update(db: Database, commit: bool)
      modifies instance, db
      ensures db.votes == old(db.votes)
      ensures InSync(db.votes)
      ensures instance.columns == old(instance.columns)[field.name := TallyOf(db.votes, instance.ref, field.key)]
      ensures db.scores == old(db.scores)[(instance.ref, field.key) := TallyOf(db.votes, instance.ref, field.key)]
      ensures db.hosts == (if commit then old(db.hosts)[instance.ref := instance.columns] else old(db.hosts))
      ensures db.saveLog == old(db.saveLog) + (if commit then [instance.ref] else [])
    {
      var votes := db.votes;
      var score, count := 0, 0;
      var i := 0;
      while i < |votes|
        invariant 0 <= i <= |votes|
        invariant Tally(score, count) == TallyOf(votes[..i], instance.ref, field.key)
      {
        assert votes[..i + 1][..i] == votes[..i];
        if On(votes[i], instance.ref, field.key) {
          score, count := score + votes[i].score, count + 1;
        }
        i := i + 1;
      }
      assert votes[..i] == votes;
      db.SaveScore((instance.ref, field.key), Tally(score, count));
      instance.columns := instance.columns[field.name := Tally(score, count)];
      if commit {
        instance.Save(db);
      }
    }
  }

  /** Running `_update` twice leaves the same state as running it once. */
  method UpdateTwice(manager: RatingManager, db: Database)
    modifies manager.instance, db
    ensures manager.InSync(db.votes) && db.votes == old(db.votes)
    ensures db.hosts == old(db.hosts) && db.saveLog == old(db.saveLog)
    ensures manager.instance.columns ==
      old(manager.instance.columns)[manager.field.name := TallyOf(db.votes, manager.instance.ref, manager.field.key)]
    ensures db.scores ==
      old(db.scores)[(manager.instance.ref, manager.field.key) := TallyOf(db.votes, manager.instance.ref, manager.field.key)]
  {
    manager.Update(db, false);
    manager.Update(db, false);
  }
}

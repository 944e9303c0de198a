/** The stored records of the rating application: the Vote and Score tables,
    the host objects that carry a rating field's two denormalised columns, and
    the queries the aggregation engine runs against the Vote table.

    An object reference is the pair (content type, object id) of Django's
    generic foreign key; the ORM itself is not modelled. */
module Models {

  import opened Wrappers
  import opened Strings

  datatype ObjRef = ObjRef(contentType: int, objectId: int)

  datatype User = User(id: int, username: string)

  /** The `user` argument of `add`: no user at all, Django's AnonymousUser
      (not authenticated), or an authenticated account. */
  datatype Requester = NoUser | AnonymousUser | Authenticated(user: User)

  /** One row of the Vote table. `dateAdded` and `dateChanged` are clock
      readings; `cookie` is a column that `add` never fills. */
  datatype Vote = Vote(
    obj: ObjRef,
    key: string,
    score: int,
    user: Option<User>,
    ipAddress: string,
    cookie: Option<string>,
    dateAdded: int,
    dateChanged: int)

  /** A running aggregate: the sum of scores and the number of votes. Both the
      Score table and a host object's `<name>_score`/`<name>_votes` columns
      hold one. */
  datatype Tally = Tally(score: int, votes: int)

  /** Key of the Score table: (object, rating key). */
  type ScoreKey = (ObjRef, string)

  /** Who a vote belongs to: an authenticated user, or an IP address for a
      vote with a null user. */
  datatype Identity = ByUser(userId: int) | ByAddress(ip: string)

  function IsAnonymous(req: Requester): bool {
    !req.Authenticated?
  }

  /** The identity `add` and `get_rating_for_user` look a vote up by. */
  function IdentityOf(req: Requester, ip: string): Identity {
    if req.Authenticated? then ByUser(req.user.id) else ByAddress(ip)
  }

  function VoterOf(v: Vote): Identity {
    if v.user.Some? then ByUser(v.user.value.id) else ByAddress(v.ipAddress)
  }

  predicate On(v: Vote, obj: ObjRef, key: string) {
    v.obj == obj && v.key == key
  }

  /** `v` is the vote of identity `id` for rating `key` of `obj`. */
  predicate Holds(v: Vote, obj: ObjRef, key: string, id: Identity) {
    On(v, obj, key) && VoterOf(v) == id
  }

  // ---------------------------------------------------------------------
  // Queries over the Vote table
  // ---------------------------------------------------------------------

  /** Indices of the votes that identity `id` holds on (obj, key), ascending. */
  function Matches(votes: seq<Vote>, obj: ObjRef, key: string, id: Identity): (r: seq<nat>)
    ensures forall k: nat :: k in r <==> k < |votes| && Holds(votes[k], obj, key, id)
    ensures forall a :: 0 <= a < |r| ==> r[a] < |votes|
    ensures forall a, b :: 0 <= a < b < |r| ==> r[a] < r[b]
  {
    if |votes| == 0 then []
    else
      var n := |votes| - 1;
      var r := Matches(votes[..n], obj, key, id);
      if Holds(votes[n], obj, key, id) then r + [n] else r
  }

  /** Outcome of Django's `Vote.objects.get(...)`. */
  datatype Lookup = NotFound | Found(index: nat) | MultipleFound

  /** `Vote.objects.get` by (obj, key, identity): DoesNotExist, the one row, or
      MultipleObjectsReturned. */
  function Get(votes: seq<Vote>, obj: ObjRef, key: string, id: Identity): (r: Lookup)
    ensures r.NotFound? <==> forall k :: 0 <= k < |votes| ==> !Holds(votes[k], obj, key, id)
    ensures r.Found? ==> r.index < |votes| && Holds(votes[r.index], obj, key, id)
    ensures r.Found? ==> forall k :: 0 <= k < |votes| && Holds(votes[k], obj, key, id) ==> k == r.index
    ensures r.MultipleFound? <==>
      exists a, b :: 0 <= a < b < |votes| && Holds(votes[a], obj, key, id) && Holds(votes[b], obj, key, id)
  {
    var m := Matches(votes, obj, key, id);
    if |m| == 0 then
      assert forall k :: 0 <= k < |votes| ==> !Holds(votes[k], obj, key, id) by {
        forall k | 0 <= k < |votes| ensures !Holds(votes[k], obj, key, id) {
          assert k as nat !in m;
        }
      }
      NotFound
    else if |m| == 1 then
      assert forall k :: 0 <= k < |votes| && Holds(votes[k], obj, key, id) ==> k == m[0] by {
        forall k | 0 <= k < |votes| && Holds(votes[k], obj, key, id) ensures k == m[0] {
          assert k as nat in m;
        }
      }
      assert m[0] in m;
      Found(m[0])
    else
      assert m[0] < m[1] && m[0] in m && m[1] in m;
      MultipleFound
  }

  /** Number of votes on (obj, key) cast from `ip`, by anyone. */
  function IpCount(votes: seq<Vote>, obj: ObjRef, key: string, ip: string): (n: nat)
    ensures n <= |votes|
  {
    if |votes| == 0 then 0
    else
      var v := votes[|votes| - 1];
      IpCount(votes[..|votes| - 1], obj, key, ip) + (if On(v, obj, key) && v.ipAddress == ip then 1 else 0)
  }

  /** Sum and count of the votes on (obj, key): what `_update` recomputes. */
  function TallyOf(votes: seq<Vote>, obj: ObjRef, key: string): (t: Tally)
    ensures 0 <= t.votes <= |votes|
  {
    if |votes| == 0 then Tally(0, 0)
    else
      var t := TallyOf(votes[..|votes| - 1], obj, key);
      var v := votes[|votes| - 1];
      if On(v, obj, key) then Tally(t.score + v.score, t.votes + 1) else t
  }

  /** Appending a vote adds its score and one vote to its own (obj, key) only. */
  lemma TallyOfAppend(votes: seq<Vote>, v: Vote, obj: ObjRef, key: string)
    ensures TallyOf(votes + [v], obj, key) ==
      var t := TallyOf(votes, obj, key);
      if On(v, obj, key) then Tally(t.score + v.score, t.votes + 1) else t
  {
    assert (votes + [v])[..|votes|] == votes;
  }

  /** Rewriting one vote in place, without moving it to another (obj, key),
      changes the sum by the score difference and keeps the count. */
  lemma {:induction false} TallyOfReplace(votes: seq<Vote>, i: nat, w: Vote, obj: ObjRef, key: string)
    requires i < |votes|
    requires On(w, obj, key) == On(votes[i], obj, key)
    ensures TallyOf(votes[i := w], obj, key) ==
      var t := TallyOf(votes, obj, key);
      if On(w, obj, key) then Tally(t.score - votes[i].score + w.score, t.votes) else t
  {
    var n := |votes| - 1;
    if i == n {
      assert votes[i := w][..n] == votes[..n];
    } else {
      assert votes[i := w][..n] == votes[..n][i := w];
      TallyOfReplace(votes[..n], i, w, obj, key);
    }
  }

  /** Appending a vote leaves every other (obj, key) aggregate as it was. */
  lemma TallyOfAppendElsewhere(votes: seq<Vote>, v: Vote)
    ensures forall o, k :: (o, k) != (v.obj, v.key) ==> TallyOf(votes + [v], o, k) == TallyOf(votes, o, k)
  {
    forall o, k | (o, k) != (v.obj, v.key) ensures TallyOf(votes + [v], o, k) == TallyOf(votes, o, k) {
      TallyOfAppend(votes, v, o, k);
    }
  }

  /** Rewriting a vote in place leaves every other (obj, key) aggregate as it was. */
  lemma TallyOfReplaceElsewhere(votes: seq<Vote>, i: nat, w: Vote)
    requires i < |votes| && w.obj == votes[i].obj && w.key == votes[i].key
    ensures forall o, k :: (o, k) != (w.obj, w.key) ==> TallyOf(votes[i := w], o, k) == TallyOf(votes, o, k)
  {
    forall o, k | (o, k) != (w.obj, w.key) ensures TallyOf(votes[i := w], o, k) == TallyOf(votes, o, k) {
      TallyOfReplace(votes, i, w, o, k);
    }
  }

  /** Every vote on (obj, key) scoring in [lo, hi] bounds the sum by the count. */
  lemma {:induction false} TallyBounds(votes: seq<Vote>, obj: ObjRef, key: string, lo: int, hi: int)
    requires forall k :: 0 <= k < |votes| && On(votes[k], obj, key) ==> lo <= votes[k].score <= hi
    ensures var t := TallyOf(votes, obj, key);
      t.votes * lo <= t.score <= t.votes * hi
  {
    if |votes| > 0 {
      var n := |votes| - 1;
      TallyBounds(votes[..n], obj, key, lo, hi);
      var t := TallyOf(votes[..n], obj, key);
      if On(votes[n], obj, key) {
        assert (t.votes + 1) * lo == t.votes * lo + lo;
        assert (t.votes + 1) * hi == t.votes * hi + hi;
      }
    }
  }

  // ---------------------------------------------------------------------
  // One vote per identity, and the table's unique_together key
  // ---------------------------------------------------------------------

  function Slot(v: Vote): (ObjRef, string, Identity) {
    (v.obj, v.key, VoterOf(v))
  }

  /** No identity holds two votes on the same (obj, key). */
  predicate IdentitiesUnique(votes: seq<Vote>) {
    forall i, j :: 0 <= i < j < |votes| ==> Slot(votes[i]) != Slot(votes[j])
  }

  function RowKey(v: Vote): (ObjRef, string, Option<User>, string, Option<string>) {
    (v.obj, v.key, v.user, v.ipAddress, v.cookie)
  }

  /** Vote's unique_together: (content_type, object_id, key, user, ip_address, cookie). */
  predicate UniqueTogether(votes: seq<Vote>) {
    forall i, j :: 0 <= i < j < |votes| ==> RowKey(votes[i]) != RowKey(votes[j])
  }

  /** One vote per identity implies the table's own uniqueness constraint. */
  lemma IdentitiesUniqueImpliesUniqueTogether(votes: seq<Vote>)
    requires IdentitiesUnique(votes)
    ensures UniqueTogether(votes)
  {
    forall i, j | 0 <= i < j < |votes| ensures RowKey(votes[i]) != RowKey(votes[j]) {
      assert Slot(votes[i]) != Slot(votes[j]);
    }
  }

  /** With one vote per identity, `get` never raises MultipleObjectsReturned. */
  lemma UniqueGetsAtMostOne(votes: seq<Vote>, obj: ObjRef, key: string, id: Identity)
    requires IdentitiesUnique(votes)
    ensures !Get(votes, obj, key, id).MultipleFound?
  {
  }

  /** A new vote from an identity that held none on its (obj, key) keeps
      identities unique. */
  lemma UniqueAfterAppend(votes: seq<Vote>, v: Vote)
    requires IdentitiesUnique(votes)
    requires Get(votes, v.obj, v.key, VoterOf(v)).NotFound?
    ensures IdentitiesUnique(votes + [v])
  {
    var s := votes + [v];
    forall i, j | 0 <= i < j < |s| ensures Slot(s[i]) != Slot(s[j]) {
      if j == |votes| {
        assert !Holds(votes[i], v.obj, v.key, VoterOf(v));
      }
    }
  }

  /** Rewriting a vote's score and dates keeps identities unique. */
  lemma UniqueAfterReplace(votes: seq<Vote>, i: nat, w: Vote)
    requires IdentitiesUnique(votes)
    requires i < |votes| && Slot(w) == Slot(votes[i])
    ensures IdentitiesUnique(votes[i := w])
  {
    var s := votes[i := w];
    forall a, b | 0 <= a < b < |s| ensures Slot(s[a]) != Slot(s[b]) {
      assert Slot(s[a]) == Slot(votes[a]) && Slot(s[b]) == Slot(votes[b]);
    }
  }

  /** The votes the query `Vote.objects.filter(ip_address=ip)` does not select. */
  function WithoutIp(votes: seq<Vote>, ip: string): (r: seq<Vote>)
    ensures forall v :: v in r <==> v in votes && v.ipAddress != ip
    ensures |r| <= |votes|
  {
    if |votes| == 0 then []
    else
      var n := |votes| - 1;
      WithoutIp(votes[..n], ip) + (if votes[n].ipAddress != ip then [votes[n]] else [])
  }

  /** Deleting the votes of one IP leaves the aggregate of every (obj, key)
      that IP did not vote on unchanged. */
  lemma {:induction false} TallyWithoutIp(votes: seq<Vote>, ip: string, obj: ObjRef, key: string)
    requires forall v :: v in votes && On(v, obj, key) ==> v.ipAddress != ip
    ensures TallyOf(WithoutIp(votes, ip), obj, key) == TallyOf(votes, obj, key)
  {
    if |votes| > 0 {
      var n := |votes| - 1;
      TallyWithoutIp(votes[..n], ip, obj, key);
      var rest := WithoutIp(votes[..n], ip);
      if votes[n].ipAddress != ip {
        TallyOfAppend(rest, votes[n], obj, key);
      } else {
        assert !On(votes[n], obj, key);
        assert rest + [] == rest;
      }
    }
  }

  // ---------------------------------------------------------------------
  // Vote's display properties
  // ---------------------------------------------------------------------

  /** `user_display`: "username (ip)" for a user's vote, the bare IP otherwise. */
  function UserDisplay(v: Vote): (r: string)
    ensures v.user.None? ==> r == v.ipAddress
    ensures v.user.Some? ==> r == v.user.value.username + " (" + v.ipAddress + ")"
  {
    match v.user
    case Some(u) => u.username + " (" + v.ipAddress + ")"
    case None => v.ipAddress
  }

  /** `partial_ip_address`: the address with its last dot-separated component
      replaced by "xxx". */
  function PartialIpAddress(ip: string): (r: string)
    ensures var parts := Split(ip, '.');
      var out := Split(r, '.');
      && |out| == |parts|
      && out[|out| - 1] == "xxx"
      && out[..|out| - 1] == parts[..|parts| - 1]
  {
    var parts := Split(ip, '.');
    var masked := parts[|parts| - 1 := "xxx"];
    SplitJoin(masked, '.');
    assert masked[..|masked| - 1] == parts[..|parts| - 1];
    Join(masked, '.')
  }

  // ---------------------------------------------------------------------
  // The tables
  // ---------------------------------------------------------------------

  /** The database: the Vote table (in insertion order), the Score table and
      the rows of the host objects, each a map from rating-field name to that
      field's (score, votes) columns. `saveLog` records host-object saves. */
  class Database {
    var votes: seq<Vote>
    var scores: map<ScoreKey, Tally>
    var hosts: map<ObjRef, map<string, Tally>>
    ghost var saveLog: seq<ObjRef>

    constructor (hosts: map<ObjRef, map<string, Tally>>)
      ensures this.votes == [] && this.scores == map[] && this.hosts == hosts && saveLog == []
    {
      this.votes := [];
      this.scores := map[];
      this.hosts := hosts;
      saveLog := [];
    }

    /** `Vote.objects.create(...)`: both dates take the clock reading
        (`date_added` by its default, `date_changed` by `Vote.save`). */
    method CreateVote(v: Vote, now: int)
      modifies this
      ensures votes == old(votes) + [v.(dateAdded := now, dateChanged := now)]
      ensures scores == old(scores) && hosts == old(hosts) && saveLog == old(saveLog)
    {
      votes := votes + [v.(dateAdded := now, dateChanged := now)];
    }

    /** `Vote.save()` on an existing row: `date_changed` is refreshed,
        `date_added` is kept. */
    method SaveVote(i: nat, v: Vote, now: int)
      requires i < |votes|
      modifies this
      ensures votes == old(votes)[i := v.(dateChanged := now)]
      ensures scores == old(scores) && hosts == old(hosts) && saveLog == old(saveLog)
    {
      votes := votes[i := v.(dateChanged := now)];
    }

    /** Score get-or-create followed by an update of (score, votes): one row per key. */
    method SaveScore(k: ScoreKey, t: Tally)
      modifies this
      ensures scores == old(scores)[k := t]
      ensures votes == old(votes) && hosts == old(hosts) && saveLog == old(saveLog)
    {
      scores := scores[k := t];
    }

    /** `Vote.objects.filter(ip_address=ip).delete()`. */
    method DeleteVotesFrom(ip: string)
      modifies this
      ensures votes == WithoutIp(old(votes), ip)
      ensures scores == old(scores) && hosts == old(hosts) && saveLog == old(saveLog)
    {
      votes := WithoutIp(votes, ip);
    }
  }

  /** A rating field's (score, votes) columns in a host row; both default to 0. */
  function ColumnOf(columns: map<string, Tally>, name: string): Tally {
    if name in columns then columns[name] else Tally(0, 0)
  }

  /** A loaded host object: its reference and its rating columns by field name. */
  class Instance {
    const ref: ObjRef
    var columns: map<string, Tally>

    /** Fetch the row of `ref` from the host table. */
    constructor Load(db: Database, ref: ObjRef)
      requires ref in db.hosts
      ensures this.ref == ref && columns == db.hosts[ref]
    {
      this.ref := ref;
      columns := db.hosts[ref];
    }

    /** A rating field's columns; both default to 0. */
    function Column(name: string): Tally
      reads this
    {
      ColumnOf(columns, name)
    }

    /** `instance.save()`: write the columns back to the host table. */
    method Save(db: Database)
      modifies db
      ensures db.hosts == old(db.hosts)[ref := columns]
      ensures db.saveLog == old(db.saveLog) + [ref]
      ensures db.votes == old(db.votes) && db.scores == old(db.scores)
    {
      db.hosts := db.hosts[ref := columns];
      db.saveLog := db.saveLog + [ref];
    }
  }
}

# django-ratings: the vote aggregation engine, modelled in Dafny

django-ratings attaches ratings to arbitrary Django model instances. A rating
field contributes two columns to its host model, `<name>_score` (the sum of the
scores) and `<name>_votes` (the number of votes). Each vote is a row of the
`Vote` table, and a `Score` row mirrors each (object, key) aggregate. This
project models:

- **`RatingManager.add`** (`fields.py`): validating the score, the anonymous
  check, looking up the voter's existing vote, the per-IP cap, creating or
  changing the vote, keeping the two columns in step, and mirroring them into
  the Score row.
- **`RatingManager._update`**: recomputing the pair from the Vote table.
- **`get_rating_for_user`** and the rating and percentage formulas.
- **`RatingCreator.__set__`**, and the field constructors with their defaults.
- **`VoteManager.delete_from_ip_address`** (`managers.py`): the purge of one IP
  address's votes and the recomputation of every affected object.
- **The `Vote` model's helpers** (`models.py`): `partial_ip_address`,
  `user_display`, the timestamp rule of `save`, and the tables' uniqueness
  constraints.
- **The `rating_by_request` / `rating_by_user` template tags**
  (`templatetags/ratings.py`): the tag parser, the node constructor and
  `render`.

How the model is laid out:

- `wrappers.dfy` (`Wrappers`): `Option` and `Result`.
- `strings.dfy` (`Strings`): the Python string operations the core relies on.
  These are `str.split(sep)` and `sep.join`, `str.split()` on whitespace, and
  `int()` of a decimal string.
- `models.dfy` (`Models`): the records and the queries over the Vote table.
  - Django's `get` gives DoesNotExist, one row, or MultipleObjectsReturned.
  - Also the per-IP count, the sum and count of an (object, key), and the IP
    filter.
  - The `Database` class holds the Vote table as a sequence, the Score table as
    a map, and the host objects' rows as a map from object to its columns.
  - The `Instance` class is a loaded host object whose columns the managers
    update in place.
- `fields.dfy` (`Fields`): the field configuration, `int()` of the score, the
  formulas, the pure decision `Decide` behind `add`, and `get_rating_for_user`.
  - The `RatingManager` class has `Add` and `Update`, which are methods over
    the database and the instance.
  - Each method's contract is tied to `Decide` and to `TallyOf` (the sum and
    count of the surviving votes). Lemmas prove the bookkeeping.
- `managers.dfy` (`Managers`): the purge.
  - The query is `distinct`, `order_by('content_type')` and `itertools.groupby`.
  - The grouped load, the deletion, then the update loop: `_update()` for every
    declared field, then one `save()` per object.
  - Proved: every affected object is recomputed exactly once, and columns that
    were in sync stay in sync.
- `ratingtags.dfy` (`RatingTags`): the tag parser with a round-trip lemma, the
  node class and the template context class, and `render` both as written and
  as evidently intended.
- `trace.dfy` (`Trace`): the package's own test scenario (`tests.py`), stated
  as the contract of a method that makes the six `add` calls on a fresh
  database.

The clock (`now()`) is an integer parameter. `RATINGS_VOTES_PER_IP` is the
parameter `cap` of `Add`. The model of rating fields declared on each model
class (`_djangoratings`) is a map from content type to its field list.

Points of the code's behaviour worth knowing, as the model states them:

- **Score 0.** Score 0 is rejected like any score outside [1, range]
  (`fields.py:115-116`); there is no retraction path.
- **Who the per-IP cap applies to.** The cap counts the votes on (object, key)
  from the address by anyone, and applies to authenticated users too
  (`fields.py:142-150`). The test at `tests.py:46` relies on this.
- **The cookie column.** `add` never sets the `cookie` column, so it is always
  null.
- **When a rating counts as none.** The averages are 0 when there are no votes
  and also when the score sum is 0 (`not (self.votes and self.score)`).
- **The template tags' docstrings.** They promise 0 when the user has not
  voted. `get_rating_for_user` returns None in that case.

## Model

| member | source | states |
|---|---|---|
| Strings.Split | djangoratings/models.py:47 | `str.split('.')` always yields at least one part, and no part contains the separator |
| Strings.SplitJoin | djangoratings/models.py:47-49 | splitting a join of separator-free parts gives the parts back |
| Strings.JoinSplit | djangoratings/templatetags/ratings.py:17 | joining the parts of a split gives the original string back |
| Strings.Words | djangoratings/templatetags/ratings.py:45 | `str.split()` yields only non-empty runs without whitespace |
| Strings.WordsUnwords | djangoratings/templatetags/ratings.py:45 | splitting single-spaced words gives the words back |
| Strings.WordsSkipsSpace | djangoratings/templatetags/ratings.py:45 | `str.split()` ignores leading whitespace of any length: it yields the same words with or without it |
| Strings.WordsSplitsWord | djangoratings/templatetags/ratings.py:81 | a word followed by a run of one or more whitespace characters of any kind is the first word of `str.split()`, and the rest splits on its own |
| Strings.ParseShow | djangoratings/fields.py:110-113 | `int()` of an integer's decimal text is that integer |
| Strings.SpaceAfterSign | djangoratings/fields.py:110-113 | `int()` skips whitespace between the sign and the digits, as Python 2 does: for either sign, any run of whitespace and any non-empty digits, the text reads as the signed value of the digits |
| Models.Get | djangoratings/fields.py:139-141 | `Vote.objects.get` by identity gives DoesNotExist exactly when no row holds, the unique holder when one does, and MultipleObjectsReturned exactly when two do |
| Models.TallyOf | djangoratings/fields.py:216-222 | the count of votes on (object, key) lies between 0 and the table size |
| Models.TallyOfAppend | djangoratings/fields.py:163-167 | a new vote adds its score and one vote to its own (object, key) and to no other |
| Models.TallyOfReplace | djangoratings/fields.py:155-160 | changing a vote's score moves the sum by the difference and keeps the count |
| Models.TallyOfAppendElsewhere | djangoratings/fields.py:163-167 | a new vote leaves every other aggregate unchanged |
| Models.TallyOfReplaceElsewhere | djangoratings/fields.py:155-160 | a changed vote leaves every other aggregate unchanged |
| Models.TallyBounds | djangoratings/fields.py:115-116 | when every score lies in [lo, hi], the sum lies between count*lo and count*hi |
| Models.IdentitiesUniqueImpliesUniqueTogether | djangoratings/models.py:31 | one vote per (object, key, identity) implies the Vote table's unique_together constraint |
| Models.UniqueGetsAtMostOne | djangoratings/fields.py:139-141 | with one vote per identity, `get` never finds two rows |
| Models.UniqueAfterAppend | djangoratings/fields.py:139-152 | inserting the vote of an identity that had none keeps one vote per identity |
| Models.UniqueAfterReplace | djangoratings/fields.py:155-160 | rewriting a vote's score keeps one vote per identity |
| Models.WithoutIp | djangoratings/managers.py:10-17 | after the purge a vote remains exactly when it was there and came from another address |
| Models.TallyWithoutIp | djangoratings/managers.py:10-17 | the purge leaves the aggregate of any (object, key) the address never voted on unchanged |
| Models.UserDisplay | djangoratings/models.py:40-43 | "username (ip)" for a user's vote, and the bare address otherwise |
| Models.PartialIpAddress | djangoratings/models.py:46-49 | the result has as many dot-separated components as the address, the last is "xxx", and the others are unchanged and in order |
| Models.Database.CreateVote | djangoratings/models.py:23-24 | a created vote is appended with both dates set to the clock reading |
| Models.Database.SaveVote | djangoratings/models.py:36-38 | saving a vote writes the row as given, with `date_changed` set to the clock reading |
| Models.Database.SaveScore | djangoratings/fields.py:182-191 | get-or-create of the Score row: afterwards the row for the key holds the given pair |
| Models.Database.DeleteVotesFrom | djangoratings/managers.py:17 | `qs.delete()` removes the address's votes and nothing else |
| Models.Instance.Save | djangoratings/fields.py:168-169 | `instance.save()` writes the instance's columns into its host row |
| Fields.NewRatingField | djangoratings/fields.py:267-277 | `choices` is refused with TypeError. Each of `can_change_vote`, `allow_anonymous`, `range` and `weight` takes the given value, and when left out its default (False, False, 2, 0) |
| Fields.DefaultField | djangoratings/fields.py:270-273 | the defaults are range 2, weight 0, votes final and anonymous voters refused |
| Fields.NewAnonymousRatingField | djangoratings/fields.py:328-331 | an anonymous rating field is the rating field built from the same options with `allow_anonymous` forced on: range, weight and `can_change_vote` pass through, and anonymous voters are always admitted |
| Fields.TruncateReal | djangoratings/fields.py:111 | `int()` of a float truncates toward zero |
| Fields.TextScoreAsInteger | djangoratings/fields.py:110-116 | a score given as decimal text is accepted exactly when the integer is |
| Fields.GetRealRating | djangoratings/fields.py:76-82 | 0 without votes or score, and otherwise the mean: rating × votes = score |
| Fields.GetRating | djangoratings/fields.py:62-68 | 0 without votes or score. ZeroDivisionError exactly when there is a rating and votes + weight is 0 (a negative weight). Otherwise rating × (votes + weight) = score |
| Fields.GetPercent | djangoratings/fields.py:40-46 | 0 without votes or score. ZeroDivisionError exactly when there is a rating and either votes + weight or the range is 0. Otherwise percent × range = 100 × weighted rating |
| Fields.GetRealPercent | djangoratings/fields.py:48-54 | 0 without votes or score. ZeroDivisionError exactly when there is a rating and the range is 0. Otherwise percent × range = 100 × mean |
| Fields.GetOpinionPercent | djangoratings/fields.py:70-74 | a field with no rating sits at the neutral 50, and it raises exactly where `get_percent` does |
| Fields.UnweightedRatingIsMean | djangoratings/fields.py:62-82 | with weight 0, the weighted rating equals the plain mean, and the weighted percentage equals the plain one, failures included |
| Fields.MeanWithinRange | djangoratings/fields.py:48-82 | over in-range votes, the mean lies in [1, range], and the percentage does not raise and lies in [100/range, 100] |
| Fields.OpinionWithinBounds | djangoratings/fields.py:40-74 | with a non-negative weight and a positive range, neither percentage raises; the weighted percentage lies in [0, 100] and the opinion percentage in [50, 100] |
| Fields.InRangeAfterAppend | djangoratings/fields.py:115-116 | an in-range new vote keeps every score of its rating in range |
| Fields.InRangeAfterReplace | djangoratings/fields.py:115-116 | an in-range changed score keeps every score of its rating in range |
| Fields.Decide | djangoratings/fields.py:110-162 | the branch `add` takes. InvalidRating exactly for a non-integer or out-of-range score. AuthRequired exactly for a valid score from an anonymous voter on a field that refuses them. MultipleObjectsReturned exactly when a valid, admitted vote's identity holds two rows. A new vote only when the identity has none and the cap is 0 or not yet reached. A change only on a changeable field, of the identity's own vote. IPLimitReached only when the cap is reached by a new vote. CannotChangeVote only for an existing vote on a final field. Together these fix the outcome for every input |
| Fields.AnonymousFieldAdmitsAnonymous | djangoratings/fields.py:118-120 | an anonymous rating field never answers AuthRequired (the anonymous field's default is set at fields.py line 330) |
| Fields.DefaultFieldRequiresAuth | djangoratings/fields.py:118-120 | a default field refuses every anonymous voter with a valid score, whatever the votes (`allow_anonymous` defaults to false at fields.py line 273) |
| Fields.IpLimitOnlyOnNewVotes | djangoratings/fields.py:139-150 | a cap of 0 disables the limit, and an identity with a vote is never limited |
| Fields.RevoteIsChange | djangoratings/fields.py:154-162 | with one vote per identity, a valid re-vote is a change on a changeable field and CannotChangeVote on a final one |
| Fields.GetRatingForUser | djangoratings/fields.py:84-104 | returns None exactly when the identity (user, or null user plus address) has no vote. Any score returned is that of a vote on the (object, key). Two rows for the identity raise MultipleObjectsReturned, which the lookup does not catch |
| Fields.GetAfterAppend | djangoratings/fields.py:139-152 | the vote just inserted is the one `get` finds for its identity |
| Fields.GetAfterReplace | djangoratings/fields.py:155-160 | the vote just changed is still the one `get` finds |
| Fields.ReadBack | djangoratings/fields.py:84-104 | the score `get_rating_for_user` reports is that of the vote `get` finds |
| Fields.RecordedTallies | djangoratings/fields.py:139-167 | an accepted first vote adds its score and one vote to its (object, key) aggregate, a change moves the sum by (new − old) with the count kept, and every other aggregate is unchanged |
| Fields.RecordedKeepsInvariants | djangoratings/fields.py:130-160 | an accepted vote keeps one vote per identity, and keeps the aggregate's scores in [1, range] when the new score is |
| Fields.RecordedReadsBack | djangoratings/fields.py:84-104 | after an accepted vote, `get_rating_for_user` for the same caller and address returns the score just given |
| Fields.AssignRating | djangoratings/fields.py:256-261 | assigning a Rating writes both columns, and any other value is refused without writing |
| Fields.RatingManager.Add | djangoratings/fields.py:106-191 | the result follows `Decide`, and a refused call writes nothing. An accepted call leaves the Vote table as `Recorded` says: a first vote appends one row with both dates set to now, and a change rewrites the identity's row in place with the new score and a fresh `date_changed`. The pair moves as `Moved` says: (score, votes) raised by (s, 1) for a first vote, the score moved by (new − old) with the count kept for a change. The Score row and, with commit, the host row mirror the pair. A pair equal to the sum and count of the votes stays so |
| Fields.RatingManager.Update | djangoratings/fields.py:214-238 | whatever they held before, the columns and the Score row are set to the sum and count of the votes on (object, key). The host row is written only with commit |
| Fields.UpdateTwice | djangoratings/fields.py:214-238 | running `_update` twice leaves the state one run leaves: the votes, host rows and save log untouched, and the columns and Score row at the sum and count of the votes |
| Managers.RefsFrom | djangoratings/managers.py:10-13 | the query's (content type, object id) pairs are exactly the objects the address voted on |
| Managers.Distinct | djangoratings/managers.py:13 | `distinct()` keeps the same set of pairs, without duplicates |
| Managers.InsertByTypeOrdered | djangoratings/managers.py:13 | inserting into a list ordered by content type keeps it ordered, and the new head is either the element or the old head |
| Managers.InsertByTypeCount | djangoratings/managers.py:13 | inserting adds exactly the element, as a multiset |
| Managers.InsertByTypeSorts | djangoratings/managers.py:13 | inserting into a list ordered by content type keeps it ordered and adds exactly one element |
| Managers.SortByTypeSorts | djangoratings/managers.py:13 | `order_by('content_type')` orders the pairs and is a permutation of them |
| Managers.GroupByTypePartitions | djangoratings/managers.py:13 | `groupby` splits the list into non-empty runs of one content type whose concatenation is the list |
| Managers.GroupsOfSortedAreOrdered | djangoratings/managers.py:13 | over the ordered query, group content types strictly increase, so each content type forms one group |
| Managers.LoadGroup | djangoratings/managers.py:15 | corrected load: exactly the group's objects that still exist |
| Managers.LoadGroupAsWritten | djangoratings/managers.py:15 | the load as written yields exactly the existing objects of the group's type whose primary key is the first pair's content type or its object id |
| Managers.AsWrittenLoadsWrongObjects | djangoratings/managers.py:15 | a two-object group where the load as written misses an object and loads one the address never voted on |
| Managers.LoadAllIsPresent | djangoratings/managers.py:12-15 | the `to_update` list is the concatenated groups filtered to existing objects |
| Managers.AffectedObjectsExactlyOnce | djangoratings/managers.py:10-15 | `to_update` holds every existing object the address voted on, exactly once, and no other |
| Managers.FieldTalliesAt | djangoratings/managers.py:20-22 | with distinct field names, each field's column receives its own key's sum and count |
| Managers.ScoreTallies | djangoratings/managers.py:21-22 | the Score rows `_update` writes for an object are one per declared key, each holding that key's sum and count |
| Managers.RecomputedHostsAt | djangoratings/managers.py:20-23 | a recomputed object's columns are overwritten by the fresh aggregates of its fields; other objects are untouched |
| Managers.ResyncedScoresAt | djangoratings/managers.py:20-22 | exactly the Score rows of recomputed objects' declared keys are created or overwritten with fresh aggregates |
| Managers.PurgeRestoresSync | djangoratings/managers.py:10-23 | if every object's columns matched its votes before the purge, they match the surviving votes after it |
| Managers.RecomputeObject | djangoratings/managers.py:20-23 | one object: every declared field recomputed by `_update`, then one save |
| Managers.GatherAffected | djangoratings/managers.py:10-15 | the grouped load builds the `to_update` list |
| Managers.RecomputeAll | djangoratings/managers.py:20-23 | the update loop: the host rows, Score rows and saves equal the specification over `to_update` |
| Managers.DeleteFromIpAddress | djangoratings/managers.py:6-23 | every vote from the address is deleted and no other. The affected objects are gathered before the deletion. Each is recomputed from the surviving votes and saved once, in order. Columns in sync before are in sync after |
| RatingTags.ParseRatingTag | djangoratings/templatetags/ratings.py:45-52 | a tag is accepted exactly when it has six words, `on` and `as` in positions 2 and 4, and one dot in position 3. The node then holds words 1 and 5 and the two halves of word 3. An empty tag raises IndexError. A wrong word count, `on` or `as` raises TemplateSyntaxError, and a word 3 without exactly one dot raises ValueError (the unpacking at line 17) |
| RatingTags.ParseTagText | djangoratings/templatetags/ratings.py:45-52 | parsing a well-formed tag written out gives back its arguments |
| RatingTags.WrongArityRefused | djangoratings/templatetags/ratings.py:46-47 | a tag without exactly six words raises TemplateSyntaxError with the tag's name in the message, for both tags (lines 82-83 for the user tag) |
| RatingTags.FieldIn | djangoratings/templatetags/ratings.py:24 | `getattr(obj, field_name)` finds a field of that name, or none exists |
| RatingTags.AsWrittenNeverStores | djangoratings/templatetags/ratings.py:27-31 | as written, render never writes the context, and it raises whenever the variables and the field resolve (lines 63-67 for the user node) |
| RatingTags.AsWrittenRaisesWhereIntendedStores | djangoratings/templatetags/ratings.py:28 | a request with a recorded vote of 2: the intended node stores 2, while the node as written raises TypeError |
| RatingTags.RenderWritesOnlyContextVar | djangoratings/templatetags/ratings.py:29 | render writes no variable other than the tag's context variable |
| RatingTags.UnresolvedRendersNothing | djangoratings/templatetags/ratings.py:21-26 | an unresolvable variable renders '' and leaves the context untouched, for both nodes (lines 57-62 for the user node) |
| RatingTags.MissingFieldByKind | djangoratings/templatetags/ratings.py:24-26 | a missing attribute is swallowed by the request node and raises AttributeError from the user node (lines 60-62) |
| RatingTags.OtherAttributeRaises | djangoratings/templatetags/ratings.py:24-28 | an attribute that exists but is not a rating field makes `.get_rating_for_user` raise AttributeError, uncaught by either node, as written and as intended |
| RatingTags.UserNodeShowsOwnVote | djangoratings/templatetags/ratings.py:64-65 | the user node stores the score of the authenticated user's own vote, or None when there is none; a user that is not authenticated, or a falsy value, is looked up with no address and always shown None |
| RatingTags.UserAsWrittenRaisesWhereIntendedStores | djangoratings/templatetags/ratings.py:64 | a user with a recorded vote of 2: the intended user node stores 2, while the node as written raises TypeError |
| RatingTags.RequestNodeShowsOwnVote | djangoratings/templatetags/ratings.py:28-29 | the request node stores the score of the request identity's own vote, or None when it has none |
| RatingTags.RatingNode.Render | djangoratings/templatetags/ratings.py:20-32 | render returns '' or raises as the intended render says, and writes the context only on success |
| RatingTags.CompileRatingTag | djangoratings/templatetags/ratings.py:34-52 | the tag function fails exactly as the parser does, and otherwise builds a fresh node of the requested kind holding the parsed arguments (lines 70-88 for the user tag) |
| Trace.DeclaredFields | djangoratings/tests.py:12-13 | `AnonymousRatingField(range=2, can_change_vote=True)` and `RatingField(range=2, can_change_vote=False)` build the two fields the scenario is replayed on |
| Trace.ReplayTestScenario | djangoratings/tests.py:9-46 | the six `add` calls of the test give Created, Created, Changed, Created, Created, IPLimitReached. The pairs are (1,1), (3,2), (4,2), (6,3), (2,1), (2,1) |

## Left out

- The Django ORM, `ContentType` resolution and the query machinery. Tables are sequences and maps, and an object reference is an opaque (content type, object id) pair.
- The md5 hashing of field names into keys (`fields.py:292`) is a foreign call. Keys are opaque strings.
- `RatingField.contribute_to_class` and the model-class registry (`_djangoratings`). The registry is the parameter `registry` of `Managers.DeleteFromIpAddress`, and field columns are entries of a host row's map.
- `get_ratings` (`fields.py:56-60`) returns a queryset and states nothing to prove.
- `RatingCreator.__get__` builds a new manager per attribute access. The model builds `RatingManager` objects explicitly.
- Fields.GetRating: Python floats are replaced by exact real division, so rounding is not modelled (the same holds for the other formulas).
- Fields.ToInt: Python's `int()` of text is modelled as optional surrounding whitespace, an optional sign, optional whitespace after it, and ASCII digits. Non-ASCII digits are not modelled.
- Fields.ToInt: a float score is a real number, so infinity and NaN are not modelled. `int()` of infinity raises OverflowError, which `add` does not catch (`fields.py:111`), so it escapes from `add`. `int()` of NaN raises ValueError, which `add` turns into InvalidRating.
- Strings.IsSpace: only ASCII whitespace is modelled. Unicode text (template token contents, a posted score) also splits and strips on `\x1c`-`\x1f`, `\x85`, `\xa0` and the other Unicode spaces, which `Strings.Words`, `Strings.Strip` and `Fields.ToInt` treat as ordinary characters.
- Fields.GetOpinionPercent: its own contract covers the no-rating case and when it raises. Its bounds are proved in `Fields.OpinionWithinBounds`.
- The clock `now()` is a parameter. `RATINGS_VOTES_PER_IP` (default 3) is the parameter `cap`.
- Vote retraction, delete permission and anonymous cookie tokens do not exist in the code. The `cookie` column is always null.
- The similarity recommender (`SimilarUser`, `IgnoredObject`, `SimilarUserManager`) has no logic in the code to model.
- `views.py`, `admin.py`, migrations and the string forms (`__unicode__`).
- Concurrency, transactions and database errors.
- RatingTags.RenderIntended: the `except ObjectDoesNotExist` branches (`templatetags/ratings.py:30-31, 66-67`) are unreachable. `get_rating_for_user` catches DoesNotExist itself, so a voter with no vote gets None stored, not 0.
- RatingTags.RenderIntended: template variable resolution is a lookup of the whole name in the context. Dotted paths, literals and filters are not modelled.
- RatingTags.RenderIntended: only host objects have attributes. `getattr` on any other value (a request, a user, a number) is taken to fail with AttributeError.
- Managers.DeleteFromIpAddress: objects of one group are loaded in group order rather than database order.

## Findings

| source | as written | input that shows it | evidently intended | confidence | as-written member | corrected member |
|---|---|---|---|---|---|---|
| djangoratings/managers.py:15 | `pk__in=list(objects)[0]` passes the group's first (content type, object id) tuple as the list of primary keys | one address voted on objects 1 and 2 of content type 7, and object 7 of that type exists: objects 1 and 7 are recomputed, and object 2 is not | load every object of the group | high; not executed | Managers.AsWrittenLoadsWrongObjects | Managers.LoadGroup |
| djangoratings/templatetags/ratings.py:28 | `get_rating_for_user(request.user, REMOTE_ADDR, COOKIES)` passes three arguments to a method that takes two (`fields.py:84`) | any request whose variables and field resolve: the call raises TypeError | look the vote up by (user, address) and store it | high; not executed | RatingTags.AsWrittenRaisesWhereIntendedStores | RatingTags.RequestNodeShowsOwnVote |
| djangoratings/templatetags/ratings.py:64 | `get_rating_for_user(user)` passes one argument to a method that takes two | any user node whose variables and field resolve: the call raises TypeError | look the user's vote up with no address and store it | high; not executed | RatingTags.UserAsWrittenRaisesWhereIntendedStores | RatingTags.UserNodeShowsOwnVote |

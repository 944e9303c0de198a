/** The `rating_by_request` and `rating_by_user` template tags: a parser that
    validates the tag's words and builds a node, and the node's `render`, which
    looks up the vote of a request's (or a user's) identity on an object's
    rating field and stores it in the template context. */
module RatingTags {

  import opened Wrappers
  import opened Strings
  import opened Models
  import opened Fields

  // ---------------------------------------------------------------------
  // Parsing `{% rating_by_request request on instance.field as var %}`
  // ---------------------------------------------------------------------

  /** What the tag functions raise: `bits[0]` of an empty tag, the three
      syntax errors, and the node constructor's unpacking of `obj.split('.')`. */
  datatype TagError = IndexError | TemplateSyntaxError(message: string) | ValueError

  /** The two node classes; `RatingByUserNode` inherits the constructor. */
  datatype NodeKind = RequestNode | UserNode

  /** The arguments a node is built from: the request (or user) variable, the
      object variable and field name `bits[3]` splits into, and the context
      variable to store the vote in. */
  datatype NodeArgs = NodeArgs(request: string, obj: string, fieldName: string, contextVar: string)

  /** `do_rating_by_request` / `do_rating_by_user` (identical checks) followed
      by the node constructor's split. */
  function ParseRatingTag(contents: string): (r: Result<NodeArgs, TagError>)
    ensures var bits := Words(contents);
      r.Ok? <==> |bits| == 6 && bits[2] == "on" && bits[4] == "as" && |Split(bits[3], '.')| == 2
    ensures var bits := Words(contents);
      r.Ok? ==>
        && r.value.request == bits[1] && r.value.contextVar == bits[5]
        && r.value.obj + "." + r.value.fieldName == bits[3]
        && '.' !in r.value.obj && '.' !in r.value.fieldName
    ensures |Words(contents)| == 0 ==> r == Err(IndexError)
    ensures r.Err? && r.error.TemplateSyntaxError? ==> |Words(contents)| > 0
    ensures var bits := Words(contents);
      |bits| == 6 && (bits[2] != "on" || bits[4] != "as") ==> r.Err? && r.error.TemplateSyntaxError?
    ensures var bits := Words(contents);
      |bits| == 6 && bits[2] == "on" && bits[4] == "as" && |Split(bits[3], '.')| != 2 ==> r == Err(ValueError)
  {
    var bits := Words(contents);
    if |bits| != 6 then
      if |bits| == 0 then Err(IndexError)
      else Err(TemplateSyntaxError("'" + bits[0] + "' tag takes exactly five arguments"))
    else if bits[2] != "on" then
      Err(TemplateSyntaxError("second argument to '" + bits[0] + "' tag must be 'on'"))
    else if bits[4] != "as" then
      Err(TemplateSyntaxError("fourth argument to '" + bits[0] + "' tag must be 'as'"))
    else
      var parts := Split(bits[3], '.');
      if |parts| != 2 then Err(ValueError)
      else
        JoinSplit(bits[3], '.');
        assert Join(parts, '.') == parts[0] + ['.'] + Join(parts[1..], '.');
        Ok(NodeArgs(bits[1], parts[0], parts[1], bits[5]))
  }

  /** The tag text a template author writes. */
  function TagText(tag: string, a: NodeArgs): string {
    Unwords([tag, a.request, "on", a.obj + "." + a.fieldName, "as", a.contextVar])
  }

  /** Writing a well-formed tag and parsing it gives back its arguments. */
  lemma ParseTagText(tag: string, a: NodeArgs)
    requires IsWord(tag) && IsWord(a.request) && IsWord(a.contextVar)
    requires IsWord(a.obj) && IsWord(a.fieldName) && '.' !in a.obj && '.' !in a.fieldName
    ensures ParseRatingTag(TagText(tag, a)) == Ok(a)
  {
    var path := a.obj + "." + a.fieldName;
    assert IsWord(path) by {
      forall i | 0 <= i < |path| ensures !IsSpace(path[i]) {
        if i < |a.obj| { assert path[i] == a.obj[i]; }
        else if i > |a.obj| { assert path[i] == a.fieldName[i - |a.obj| - 1]; }
      }
    }
    var ws := [tag, a.request, "on", path, "as", a.contextVar];
    assert IsWord("on") && IsWord("as");
    WordsUnwords(ws);
    assert Join([a.obj, a.fieldName], '.') == path by {
      assert [a.obj, a.fieldName][1..] == [a.fieldName];
    }
    SplitJoin([a.obj, a.fieldName], '.');
  }

  /** A tag with a word count other than six is refused whatever it says. */
  lemma WrongArityRefused(contents: string)
    requires |Words(contents)| != 6 && |Words(contents)| > 0
    ensures ParseRatingTag(contents) ==
      Err(TemplateSyntaxError("'" + Words(contents)[0] + "' tag takes exactly five arguments"))
  {
  }

  // ---------------------------------------------------------------------
  // Nodes and the template context
  // ---------------------------------------------------------------------

  /** The template values a rating tag deals with: a request (its user and its
      META headers), a user, a host object with its rating fields and the
      names of its other attributes, and the values the tag stores. */
  datatype Value =
    | Request(user: Requester, meta: map<string, string>)
    | UserValue(requester: Requester)
    | Host(ref: ObjRef, fields: seq<RatingField>, attributes: set<string>)
    | Number(n: int)
    | NoneValue

  /** The exceptions `render` lets escape. */
  datatype RenderError = TypeError | AttributeError | KeyError | Lookup(error: RatingError)

  /** The first of `fields` declared under `name`. */
  function FieldIn(fields: seq<RatingField>, name: string): (f: Option<RatingField>)
    ensures f.Some? ==> f.value in fields && f.value.name == name
    ensures f.None? ==> forall g :: g in fields ==> g.name != name
  {
    if |fields| == 0 then None
    else if fields[0].name == name then Some(fields[0])
    else FieldIn(fields[1..], name)
  }

  /** `getattr(obj, field_name)`: the host object's rating field of that name. */
  function FieldNamed(v: Value, name: string): Option<RatingField> {
    if v.Host? then FieldIn(v.fields, name) else None
  }

  /** `getattr(obj, field_name)` finds an attribute that is not a rating field,
      so the following `.get_rating_for_user` raises AttributeError. */
  predicate OtherAttribute(v: Value, name: string) {
    v.Host? && FieldIn(v.fields, name).None? && name in v.attributes
  }

  /** The user argument of `get_rating_for_user`, which tests `user and
      user.is_authenticated()`: a falsy value (None or the number 0) is read as
      no user without the method being looked up; any other value that is not
      a user lacks `is_authenticated` (None here). */
  function UserOf(v: Value): Option<Requester> {
    match v
    case UserValue(req) => Some(req)
    case NoneValue => Some(NoUser)
    case Number(n) => if n == 0 then Some(NoUser) else None
    case _ => None
  }

  /** The vote `get_rating_for_user` returns, as the template sees it. */
  function Shown(score: Option<int>): Value {
    if score.Some? then Number(score.value) else NoneValue
  }

  datatype Outcome = Rendered(vars: map<string, Value>) | Raised(error: RenderError)

  /** `render` as written. The request node passes the cookies as a third
      argument and the user node passes no IP address, while
      `get_rating_for_user` takes exactly two: once the variables resolve, the
      call raises TypeError before any lookup happens. */
  function RenderAsWritten(kind: NodeKind, a: NodeArgs, vars: map<string, Value>): Outcome {
    if a.request !in vars || a.obj !in vars then Rendered(vars)
    else
      var field := FieldNamed(vars[a.obj], a.fieldName);
      if field.None? then
        if kind == RequestNode && !OtherAttribute(vars[a.obj], a.fieldName) then Rendered(vars)
        else Raised(AttributeError)
      else if kind == UserNode then Raised(TypeError)
      else
        var request := vars[a.request];
        if !request.Request? then Raised(AttributeError)
        else if "REMOTE_ADDR" !in request.meta then Raised(KeyError)
        else Raised(TypeError)
  }

  /** `render` as evidently intended: the two-argument call, `(request.user,
      request.META['REMOTE_ADDR'])` for the request node and the user with no
      IP address for the user node, and the vote (or None) stored under the
      context variable. */
  function RenderIntended(kind: NodeKind, a: NodeArgs, vars: map<string, Value>, votes: seq<Vote>): Outcome {
    if a.request !in vars || a.obj !in vars then Rendered(vars)
    else
      var host := vars[a.obj];
      var field := FieldNamed(host, a.fieldName);
      if field.None? then
        if kind == RequestNode && !OtherAttribute(host, a.fieldName) then Rendered(vars)
        else Raised(AttributeError)
      else
        var subject := vars[a.request];
        var lookup :=
          if kind == RequestNode then
            if !subject.Request? then Err(AttributeError)
            else if "REMOTE_ADDR" !in subject.meta then Err(KeyError)
            else Ok(GetRatingForUser(votes, host.ref, field.value.key, subject.user, Some(subject.meta["REMOTE_ADDR"])))
          else
            if UserOf(subject).None? then Err(AttributeError)
            else Ok(GetRatingForUser(votes, host.ref, field.value.key, UserOf(subject).value, None));
        if lookup.Err? then Raised(lookup.error)
        else if lookup.value.Err? then Raised(Lookup(lookup.value.error))
        else Rendered(vars[a.contextVar := Shown(lookup.value.value)])
  }

  /** As written, a node never stores anything: it renders with the context
      unchanged or raises, and once both variables and the field resolve it
      always raises. */
  lemma AsWrittenNeverStores(kind: NodeKind, a: NodeArgs, vars: map<string, Value>)
    ensures RenderAsWritten(kind, a, vars).Rendered? ==> RenderAsWritten(kind, a, vars).vars == vars
    ensures a.request in vars && a.obj in vars && FieldNamed(vars[a.obj], a.fieldName).Some? ==>
      RenderAsWritten(kind, a, vars).Raised?
  {
  }

  /** A request from 127.0.0.1 whose anonymous vote of 2 is on record: the
      intended node stores 2, the node as written raises TypeError. */
  lemma AsWrittenRaisesWhereIntendedStores()
    ensures var field := RatingField("rating", "k", 2, 0, false, false);
      var host := ObjRef(1, 1);
      var vars := map["request" := Request(AnonymousUser, map["REMOTE_ADDR" := "127.0.0.1"]),
                      "instance" := Host(host, [field], {})];
      var votes := [Vote(host, "k", 2, None, "127.0.0.1", None, 0, 0)];
      var a := NodeArgs("request", "instance", "rating", "vote");
      && RenderAsWritten(RequestNode, a, vars) == Raised(TypeError)
      && RenderIntended(RequestNode, a, vars, votes) == Rendered(vars["vote" := Number(2)])
  {
    var field := RatingField("rating", "k", 2, 0, false, false);
    var host := ObjRef(1, 1);
    var votes := [Vote(host, "k", 2, None, "127.0.0.1", None, 0, 0)];
    assert Holds(votes[0], host, "k", ByAddress("127.0.0.1"));
    assert Get(votes, host, "k", ByAddress("127.0.0.1")) == Found(0);
  }

  /** The user node shows the user's own vote: the score of the vote that
      user cast on the field, and None when there is none. A user that is not
      authenticated (or a falsy value) is looked up with no address, and no
      vote is recorded without one, so it is always shown None. */
  lemma UserNodeShowsOwnVote(a: NodeArgs, vars: map<string, Value>, votes: seq<Vote>, field: RatingField)
    requires a.request in vars && a.obj in vars
    requires UserOf(vars[a.request]).Some?
    requires FieldNamed(vars[a.obj], a.fieldName) == Some(field)
    requires IdentitiesUnique(votes)
    ensures var req := UserOf(vars[a.request]).value;
      var o := RenderIntended(UserNode, a, vars, votes);
      && o.Rendered?
      && a.contextVar in o.vars
      && (req.Authenticated? ==> forall k :: 0 <= k < |votes| && Holds(votes[k], vars[a.obj].ref, field.key, ByUser(req.user.id)) ==>
            o.vars[a.contextVar] == Number(votes[k].score))
      && (!req.Authenticated? ==> o.vars[a.contextVar] == NoneValue)
      && ((forall k :: 0 <= k < |votes| ==> !Holds(votes[k], vars[a.obj].ref, field.key, IdentityOf(req, ""))) ==>
            o.vars[a.contextVar] == NoneValue)
  {
    var req := UserOf(vars[a.request]).value;
    UniqueGetsAtMostOne(votes, vars[a.obj].ref, field.key, IdentityOf(req, ""));
  }

  /** Alice, whose vote of 2 is on record: the intended user node stores 2,
      the node as written raises TypeError. */
  lemma UserAsWrittenRaisesWhereIntendedStores()
    ensures var field := RatingField("rating", "k", 2, 0, false, false);
      var host := ObjRef(1, 1);
      var alice := User(1, "alice");
      var vars := map["user" := UserValue(Authenticated(alice)), "instance" := Host(host, [field], {})];
      var votes := [Vote(host, "k", 2, Some(alice), "127.0.0.1", None, 0, 0)];
      var a := NodeArgs("user", "instance", "rating", "vote");
      && RenderAsWritten(UserNode, a, vars) == Raised(TypeError)
      && RenderIntended(UserNode, a, vars, votes) == Rendered(vars["vote" := Number(2)])
  {
    var host := ObjRef(1, 1);
    var alice := User(1, "alice");
    var votes := [Vote(host, "k", 2, Some(alice), "127.0.0.1", None, 0, 0)];
    assert Holds(votes[0], host, "k", ByUser(1));
    assert Get(votes, host, "k", ByUser(1)) == Found(0);
  }

  /** The intended render only ever writes the one context variable. */
  lemma RenderWritesOnlyContextVar(kind: NodeKind, a: NodeArgs, vars: map<string, Value>, votes: seq<Vote>, n: string)
    requires n != a.contextVar
    ensures var o := RenderIntended(kind, a, vars, votes);
      o.Rendered? ==> (n in o.vars <==> n in vars) && (n in vars ==> o.vars[n] == vars[n])
  {
  }

  /** A variable that does not resolve renders nothing and changes nothing,
      for both nodes. */
  lemma UnresolvedRendersNothing(kind: NodeKind, a: NodeArgs, vars: map<string, Value>, votes: seq<Vote>)
    requires a.request !in vars || a.obj !in vars
    ensures RenderIntended(kind, a, vars, votes) == Rendered(vars)
    ensures RenderAsWritten(kind, a, vars) == Rendered(vars)
  {
  }

  /** A missing attribute is swallowed by the request node (it catches
      AttributeError) and escapes from the user node (it does not). */
  lemma MissingFieldByKind(a: NodeArgs, vars: map<string, Value>, votes: seq<Vote>)
    requires a.request in vars && a.obj in vars
    requires forall g :: g in (if vars[a.obj].Host? then vars[a.obj].fields else []) ==> g.name != a.fieldName
    requires vars[a.obj].Host? ==> a.fieldName !in vars[a.obj].attributes
    ensures RenderIntended(RequestNode, a, vars, votes) == Rendered(vars)
    ensures RenderIntended(UserNode, a, vars, votes) == Raised(AttributeError)
  {
    assert FieldNamed(vars[a.obj], a.fieldName).None?;
  }

  /** An attribute that exists but is not a rating field has no
      `get_rating_for_user`: both nodes raise AttributeError, which neither
      catches, as written and as intended. */
  lemma OtherAttributeRaises(kind: NodeKind, a: NodeArgs, vars: map<string, Value>, votes: seq<Vote>)
    requires a.request in vars && a.obj in vars && vars[a.obj].Host?
    requires forall g :: g in vars[a.obj].fields ==> g.name != a.fieldName
    requires a.fieldName in vars[a.obj].attributes
    ensures RenderIntended(kind, a, vars, votes) == Raised(AttributeError)
    ensures RenderAsWritten(kind, a, vars) == Raised(AttributeError)
  {
    assert FieldNamed(vars[a.obj], a.fieldName).None?;
  }

  /** The request node shows the request identity's own vote: its score when
      the identity has voted on the field, and None (not 0) when it has not. */
  lemma RequestNodeShowsOwnVote(a: NodeArgs, vars: map<string, Value>, votes: seq<Vote>, field: RatingField)
    requires a.request in vars && a.obj in vars
    requires vars[a.request].Request? && "REMOTE_ADDR" in vars[a.request].meta
    requires FieldNamed(vars[a.obj], a.fieldName) == Some(field)
    requires IdentitiesUnique(votes)
    ensures var req := vars[a.request];
      var id := IdentityOf(req.user, req.meta["REMOTE_ADDR"]);
      var o := RenderIntended(RequestNode, a, vars, votes);
      && o.Rendered?
      && a.contextVar in o.vars
      && (forall k :: 0 <= k < |votes| && Holds(votes[k], vars[a.obj].ref, field.key, id) ==>
            o.vars[a.contextVar] == Number(votes[k].score))
      && ((forall k :: 0 <= k < |votes| ==> !Holds(votes[k], vars[a.obj].ref, field.key, id)) ==>
            o.vars[a.contextVar] == NoneValue)
  {
    var req := vars[a.request];
    var id := IdentityOf(req.user, req.meta["REMOTE_ADDR"]);
    UniqueGetsAtMostOne(votes, vars[a.obj].ref, field.key, id);
  }

  /** A template node. `RatingByUserNode` is the same node with `kind == UserNode`. */
  class RatingNode {
    const kind: NodeKind
    const request: string
    const obj: string
    const fieldName: string
    const contextVar: string

    /** `RatingByRequestNode.__init__`, after the object path has been split. */
    constructor (kind: NodeKind, a: NodeArgs)
      ensures this.kind == kind && Args() == a
    {
      this.kind := kind;
      this.request := a.request;
      this.obj := a.obj;
      this.fieldName := a.fieldName;
      this.contextVar := a.contextVar;
    }

    function Args(): NodeArgs {
      NodeArgs(request, obj, fieldName, contextVar)
    }

    /** `render(context)`, as evidently intended: returns '' or raises, and
        writes the context only on success. */
    method Render(context: Context, votes: seq<Vote>) returns (r: Result<string, RenderError>)
      modifies context
      ensures var o := RenderIntended(kind, Args(), old(context.vars), votes);
        && (o.Rendered? ==> r == Ok("") && context.vars == o.vars)
        && (o.Raised? ==> r == Err(o.error) && context.vars == old(context.vars))
    {
      var o := RenderIntended(kind, Args(), context.vars, votes);
      if o.Rendered? {
        context.vars := o.vars;
        r := Ok("");
      } else {
        r := Err(o.error);
      }
    }
  }

  /** The template context: its variables, which `render` writes to. */
  class Context {
    var vars: map<string, Value>

    constructor (vars: map<string, Value>)
      ensures this.vars == vars
    {
      this.vars := vars;
    }
  }

  /** The tag function: parse the tag's words and build the node. */
  method CompileRatingTag(contents: string, kind: NodeKind) returns (r: Result<RatingNode, TagError>)
    ensures ParseRatingTag(contents).Err? <==> r.Err?
    ensures r.Err? ==> r.error == ParseRatingTag(contents).error
    ensures r.Ok? ==> fresh(r.value) && r.value.kind == kind && r.value.Args() == ParseRatingTag(contents).value
  {
    var parsed := ParseRatingTag(contents);
    if parsed.Err? {
      return Err(parsed.error);
    }
    var node := new RatingNode(kind, parsed.value);
    return Ok(node);
  }
}

/** The axios client of the frontend: the request interceptor that attaches
    or discards the stored token, the response interceptor that logs out on
    401, and the table of endpoint paths below the `/api` base URL. */
module Api {
  import opened Wrappers
  import opened Text
  import SecurityConfig
  import opened ClientRecords

  /** The parts of an axios request config the interceptors touch. */
  datatype Config = Config(verb: string, url: string, authorization: Option<string>)

  /** A failed response: `error.response?.status` is absent for network errors. */
  datatype HttpError = HttpError(status: Option<int>)

  /** What the interceptor hands back: the promise is always rejected. */
  datatype Outcome = Rejected(error: HttpError)

  /** The stored token is sent only when it is truthy, is not the text of a
      stray `null`/`undefined`, and looks like a JWT (contains a dot). */
  predicate Usable(token: Option<string>) {
    Truthy(token) && token.value != "null" && token.value != "undefined" && '.' in token.value
  }

  /** The browser state the interceptors read and write. */
  class Session {
    /** `localStorage.getItem('token')`. */
    var token: Option<string>
    /** `window.location.pathname`. */
    var pathname: string

    constructor(token: Option<string>, pathname: string)
      ensures this.token == token && this.pathname == pathname
    {
      this.token := token;
      this.pathname := pathname;
    }

    /** The request interceptor. */
    method InterceptRequest(config: Config) returns (r: Config)
      modifies this
      ensures pathname == old(pathname)
      ensures Usable(old(token)) ==>
        r == config.(authorization := Some("Bearer " + old(token).value)) && token == old(token)
      ensures !Usable(old(token)) ==>
        r == config && token == (if Truthy(old(token)) then None else old(token))
      ensures token.None? || token == Some("") || Usable(token)
    {
      r := config;
      var t := token;
      if Usable(t) {
        r := r.(authorization := Some("Bearer " + t.value));
      } else if Truthy(t) {
        token := None;
      }
    }

    /** The response error interceptor. */
    method InterceptResponseError(e: HttpError) returns (r: Outcome)
      modifies this
      ensures r == Rejected(e)
      ensures e.status == Some(401) && old(pathname) != "/" ==> token.None? && pathname == "/"
      ensures !(e.status == Some(401) && old(pathname) != "/") ==>
        token == old(token) && pathname == old(pathname)
    {
      if e.status == Some(401) && pathname != "/" {
        token := None;
        pathname := "/";
      }
      r := Rejected(e);
    }
  }

  /** The exported API functions; ids are interpolated as decimal text. */
  datatype Endpoint =
    | Login | Signup | GetProfile
    | GetTransactions | CreateTransaction | UpdateTransaction(id: int)
    | DeleteTransaction(id: int) | GetTransactionById(id: int)
    | GetBudgets | CreateBudget | UpdateBudget(id: int) | DeleteBudget(id: int)
    | GetSavings | CreateSaving | UpdateSaving(id: int) | DeleteSaving(id: int)
    | GetAllPosts | CreatePost | UpdatePost(id: int) | DeletePost(id: int)
    | CreateComment | GetComments(postId: int)

  /** The HTTP method of each call: updates and deletes always name one row
      of a resource collection by its id. */
  function Verb(e: Endpoint): (r: string)
    ensures r == "GET" || r == "POST" || r == "PUT" || r == "DELETE"
    ensures r == "PUT" || r == "DELETE" ==> CollectionOf(e) != Auth && Member(e) != ""
  {
    match e
    case Login | Signup | CreateTransaction | CreateBudget | CreateSaving | CreatePost | CreateComment => "POST"
    case UpdateTransaction(_) | UpdateBudget(_) | UpdateSaving(_) | UpdatePost(_) => "PUT"
    case DeleteTransaction(_) | DeleteBudget(_) | DeleteSaving(_) | DeletePost(_) => "DELETE"
    case _ => "GET"
  }

  /** The backend collections the client talks to. */
  datatype Collection = Auth | Transactions | Budgets | SavingsGoals | Posts | Comments

  function CollectionOf(e: Endpoint): Collection {
    match e
    case Login | Signup | GetProfile => Auth
    case GetTransactions | CreateTransaction | UpdateTransaction(_)
      | DeleteTransaction(_) | GetTransactionById(_) => Transactions
    case GetBudgets | CreateBudget | UpdateBudget(_) | DeleteBudget(_) => Budgets
    case GetSavings | CreateSaving | UpdateSaving(_) | DeleteSaving(_) => SavingsGoals
    case GetAllPosts | CreatePost | UpdatePost(_) | DeletePost(_) => Posts
    case CreateComment | GetComments(_) => Comments
  }

  /** The first segment of the paths of a collection. */
  function Segment(c: Collection): string {
    match c
    case Auth => "/auth"
    case Transactions => "/transaction"
    case Budgets => "/budget"
    case SavingsGoals => "/savings"
    case Posts => "/forumposts"
    case Comments => "/comments"
  }

  /** The rest of the path: the auth action, the interpolated id, or nothing. */
  function Member(e: Endpoint): (m: string)
    ensures m == "" || (|m| > 0 && m[0] == '/')
  {
    match e
    case Login => "/login"
    case Signup => "/signup"
    case GetProfile => "/profile"
    case UpdateTransaction(id) => "/" + IntToString(id)
    case DeleteTransaction(id) => "/" + IntToString(id)
    case GetTransactionById(id) => "/" + IntToString(id)
    case UpdateBudget(id) => "/" + IntToString(id)
    case DeleteBudget(id) => "/" + IntToString(id)
    case UpdateSaving(id) => "/" + IntToString(id)
    case DeleteSaving(id) => "/" + IntToString(id)
    case UpdatePost(id) => "/" + IntToString(id)
    case DeletePost(id) => "/" + IntToString(id)
    case GetComments(postId) => "/" + IntToString(postId)
    case _ => ""
  }

  /** The path below the base URL, e.g. `/budget/7` for `UpdateBudget(7)`:
      it starts with `/` and with the collection's own segment. */
  function Path(e: Endpoint): (r: string)
    ensures |r| > 1 && r[0] == '/'
    ensures StartsWith(r, Segment(CollectionOf(e)))
  {
    Segment(CollectionOf(e)) + Member(e)
  }

  /** No two calls of the client send the same method to the same path. */
  lemma RoutesDistinct(e: Endpoint, f: Endpoint)
    requires Verb(e) == Verb(f) && Path(e) == Path(f)
    ensures e == f
  {
    var c := CollectionOf(e);
    SegmentsDiffer(c, CollectionOf(f), Path(e));
    var n := |Segment(c)|;
    assert Member(e) == Path(e)[n..] == Path(f)[n..] == Member(f);
    match e
    case UpdateTransaction(x) => IdsFromMember(x, f.id);
    case DeleteTransaction(x) => IdsFromMember(x, f.id);
    case GetTransactionById(x) => IdsFromMember(x, f.id);
    case UpdateBudget(x) => IdsFromMember(x, f.id);
    case DeleteBudget(x) => IdsFromMember(x, f.id);
    case UpdateSaving(x) => IdsFromMember(x, f.id);
    case DeleteSaving(x) => IdsFromMember(x, f.id);
    case UpdatePost(x) => IdsFromMember(x, f.id);
    case DeletePost(x) => IdsFromMember(x, f.id);
    case GetComments(x) => IdsFromMember(x, f.postId);
    case _ =>
  }

  /** The collections' segments differ in their first letter. */
  lemma SegmentsDiffer(c: Collection, d: Collection, p: string)
    requires StartsWith(p, Segment(c)) && StartsWith(p, Segment(d))
    ensures c == d
  {
    assert Segment(c)[1] == p[1] == Segment(d)[1];
  }

  lemma IdsFromMember(x: int, y: int)
    requires "/" + IntToString(x) == "/" + IntToString(y)
    ensures x == y
  {
    assert IntToString(x) == ("/" + IntToString(x))[1..];
    IntToStringInjective(x, y);
  }

  /** The path the backend sees: the base URL's `/api` followed by the path. */
  function ServerPath(e: Endpoint): string {
    "/api" + Path(e)
  }

  /** `root + rest` lies under the matcher `root` when `rest` is empty or
      starts a new segment. */
  lemma UnderPattern(root: string, rest: string)
    requires rest == "" || (|rest| > 0 && rest[0] == '/')
    ensures SecurityConfig.Matches(root, root + rest)
  {
    if rest != "" {
      assert (root + rest)[..|root + "/"|] == root + "/";
    }
  }

  /** The position in the authorisation table of the matcher that covers a
      collection. */
  function RuleIndex(c: Collection): (i: int)
    ensures 0 <= i < |SecurityConfig.Rules()|
    ensures c != Auth ==> 3 <= i
  {
    match c
    case Auth => 0
    case Transactions => 3
    case Budgets => 4
    case SavingsGoals => 5
    case Posts => 9
    case Comments => 10
  }

  /** That matcher's pattern is the base URL's `/api` followed by the segment. */
  lemma RuleCoversCollection(c: Collection)
    ensures SecurityConfig.Rules()[RuleIndex(c)].pattern == "/api" + Segment(c)
  {
  }

  lemma UnderRule(pattern: string, segment: string, m: string)
    requires pattern == "/api" + segment
    requires m == "" || (|m| > 0 && m[0] == '/')
    ensures SecurityConfig.Matches(pattern, "/api" + (segment + m))
  {
    assert "/api" + (segment + m) == pattern + m;
    UnderPattern(pattern, m);
  }

  /** Every endpoint's path lies under the matcher of its collection. */
  lemma EndpointUnderRule(e: Endpoint)
    ensures SecurityConfig.Matches(SecurityConfig.Rules()[RuleIndex(CollectionOf(e))].pattern, ServerPath(e))
  {
    var c := CollectionOf(e);
    RuleCoversCollection(c);
    UnderRule(SecurityConfig.Rules()[RuleIndex(c)].pattern, Segment(c), Member(e));
  }

  /** The three auth endpoints are public on the backend. */
  lemma AuthEndpointsPublic(e: Endpoint, c: SecurityConfig.Caller)
    requires CollectionOf(e) == Auth
    ensures SecurityConfig.Granted(ServerPath(e), c)
  {
    EndpointUnderRule(e);
    SecurityConfig.AuthIsPublic(ServerPath(e), c);
  }

  /** Every other endpoint the client calls is open to a signed-in USER. */
  lemma ResourceEndpointsOpenToUsers(e: Endpoint)
    requires CollectionOf(e) != Auth
    ensures SecurityConfig.Granted(ServerPath(e), SecurityConfig.SignedIn({"USER"}))
  {
    EndpointUnderRule(e);
    SecurityConfig.ResourceForUserOrAdmin(ServerPath(e), SecurityConfig.SignedIn({"USER"}), RuleIndex(CollectionOf(e)));
  }
}

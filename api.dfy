/**
 * The front end's client for the HTTP API: how the job and company search
 * parameters become query-string pairs, and how the answers of the login,
 * register, current-user and profile endpoints become values or thrown
 * errors.
 *
 * JavaScript's `if (x)` tests truthiness: a string passes when it is
 * present and non-empty, a number when it is present and not 0. Numbers
 * are integers here and `toString()` is their decimal form.
 * `URLSearchParams.toString()` (percent-encoding and `&`-joining) is not
 * modelled: a query is the list of its (name, value) pairs, in order.
 */
module Api {
  import opened Wrappers
  import opened Text
  import opened Seqs

  type Pair = (string, string)

  predicate TruthyString(v: Option<string>) {
    v.Some? && v.value != ""
  }

  predicate TruthyNumber(v: Option<int>) {
    v.Some? && v.value != 0
  }

  /** `xs && xs.length > 0` */
  predicate NonEmpty(v: Option<seq<string>>) {
    v.Some? && |v.value| > 0
  }

  // ------------------------------------------------ what a query carries

  function Tagged(name: string): string -> Pair {
    v => (name, v)
  }

  function PairValue(p: Pair): string { p.1 }

  predicate AllNamed(q: seq<Pair>, name: string) {
    forall p | p in q :: p.0 == name
  }

  /** `searchParams.getAll(name)`: the values of the pairs with that name, in order. */
  function Values(q: seq<Pair>, name: string): (r: seq<string>)
    ensures |r| <= |q|
  {
    if q == [] then []
    else (if q[0].0 == name then [q[0].1] else []) + Values(q[1..], name)
  }

  lemma {:induction false} ValuesAppend(a: seq<Pair>, b: seq<Pair>, name: string)
    ensures Values(a + b, name) == Values(a, name) + Values(b, name)
  {
    if a == [] {
      assert a + b == b;
    } else {
      assert (a + b)[0] == a[0];
      assert (a + b)[1..] == a[1..] + b;
      ValuesAppend(a[1..], b, name);
    }
  }

  /** Pairs that all carry one name give their values under it and nothing under any other. */
  lemma {:induction false} ValuesOfNamed(q: seq<Pair>, name: string, n: string)
    requires AllNamed(q, name)
    ensures Values(q, n) == if name == n then Map(q, PairValue) else []
  {
    if q != [] {
      assert q[0] in q;
      assert forall x | x in q[1..] :: x in q;
      ValuesOfNamed(q[1..], name, n);
    }
  }

  /** The pair `if (v) append(name, v)` adds. */
  function StringPair(name: string, v: Option<string>): (r: seq<Pair>)
    ensures AllNamed(r, name)
  {
    if TruthyString(v) then [(name, v.value)] else []
  }

  /** The pair `if (v) append(name, v.toString())` adds. */
  function NumberPair(name: string, v: Option<int>): (r: seq<Pair>)
    ensures AllNamed(r, name)
  {
    if TruthyNumber(v) then [(name, IntToString(v.value))] else []
  }

  /** The pairs `if (vs && vs.length > 0) vs.forEach(...)` adds. */
  function ArrayPairs(name: string, v: Option<seq<string>>): (r: seq<Pair>)
    ensures AllNamed(r, name)
  {
    if NonEmpty(v) then Map(v.value, Tagged(name)) else []
  }

  /** What the server reads back for a string parameter. */
  function StringValue(v: Option<string>): (r: seq<string>)
    ensures r == [] <==> !TruthyString(v)
  {
    if TruthyString(v) then [v.value] else []
  }

  /** What the server reads back for a number parameter. */
  function NumberValue(v: Option<int>): (r: seq<string>)
    ensures r == [] <==> !TruthyNumber(v)
  {
    if TruthyNumber(v) then [IntToString(v.value)] else []
  }

  lemma ValuesOfStringPair(name: string, v: Option<string>, n: string)
    ensures Values(StringPair(name, v), n) == if name == n then StringValue(v) else []
  {
    ValuesOfNamed(StringPair(name, v), name, n);
  }

  lemma ValuesOfNumberPair(name: string, v: Option<int>, n: string)
    ensures Values(NumberPair(name, v), n) == if name == n then NumberValue(v) else []
  {
    ValuesOfNamed(NumberPair(name, v), name, n);
  }

  lemma ValuesOfArrayPairs(name: string, v: Option<seq<string>>, n: string)
    ensures Values(ArrayPairs(name, v), n) == if name == n then v.GetOr([]) else []
  {
    ValuesOfNamed(ArrayPairs(name, v), name, n);
    if NonEmpty(v) {
      MapInverse(v.value, Tagged(name), PairValue);
    }
  }

  /** The pairs come in the order `rank` gives their names. */
  predicate InOrder(q: seq<Pair>, rank: string -> nat) {
    forall i, j | 0 <= i < j < |q| :: rank(q[i].0) <= rank(q[j].0)
  }

  predicate RankedAtMost(q: seq<Pair>, rank: string -> nat, k: nat) {
    forall p | p in q :: rank(p.0) <= k
  }

  /** Appending pairs that all carry a name of rank at least `k` to pairs of rank at most `k` keeps the order. */
  lemma InOrderAppend(a: seq<Pair>, b: seq<Pair>, rank: string -> nat, k: nat, name: string)
    requires InOrder(a, rank) && RankedAtMost(a, rank, k) && k <= rank(name)
    requires AllNamed(b, name)
    ensures InOrder(a + b, rank) && RankedAtMost(a + b, rank, rank(name))
  {
    forall i, j | 0 <= i < j < |a + b|
      ensures rank((a + b)[i].0) <= rank((a + b)[j].0)
    {
      if j < |a| {
        assert (a + b)[i] == a[i] && (a + b)[j] == a[j];
      } else {
        assert (a + b)[j] == b[j - |a|] && b[j - |a|] in b;
        if i < |a| {
          assert (a + b)[i] == a[i] && a[i] in a;
        } else {
          assert (a + b)[i] == b[i - |a|] && b[i - |a|] in b;
        }
      }
    }
    forall x | x in a + b
      ensures rank(x.0) <= rank(name)
    {
      if x !in a {
        assert x in b;
      }
    }
  }

  // ------------------------------------------------------ URLSearchParams

  /** A `URLSearchParams` object: the pairs appended so far. */
  class SearchParams {
    var pairs: seq<Pair>

    constructor ()
      ensures pairs == []
    {
      pairs := [];
    }

    method Append(name: string, value: string)
      modifies this
      ensures pairs == old(pairs) + [(name, value)]
    {
      pairs := pairs + [(name, value)];
    }
  }

  /** `values.forEach(v => searchParams.append(name, v))` */
  method AppendEach(sp: SearchParams, name: string, values: seq<string>)
    modifies sp
    ensures sp.pairs == old(sp.pairs) + Map(values, Tagged(name))
  {
    var i := 0;
    while i < |values|
      invariant 0 <= i <= |values|
      invariant sp.pairs == old(sp.pairs) + Map(values[..i], Tagged(name))
    {
      assert Map(values[..i + 1], Tagged(name)) == Map(values[..i], Tagged(name)) + [(name, values[i])];
      sp.Append(name, values[i]);
      i := i + 1;
    }
    assert values[..i] == values;
  }

  /** `if (v) searchParams.append(name, v)` */
  method AppendString(sp: SearchParams, name: string, v: Option<string>)
    modifies sp
    ensures sp.pairs == old(sp.pairs) + StringPair(name, v)
  {
    if TruthyString(v) {
      sp.Append(name, v.value);
    }
  }

  /** `if (v) searchParams.append(name, v.toString())` */
  method AppendNumber(sp: SearchParams, name: string, v: Option<int>)
    modifies sp
    ensures sp.pairs == old(sp.pairs) + NumberPair(name, v)
  {
    if TruthyNumber(v) {
      sp.Append(name, IntToString(v.value));
    }
  }

  /** `if (vs && vs.length > 0) vs.forEach(x => searchParams.append(name, x))` */
  method AppendArray(sp: SearchParams, name: string, v: Option<seq<string>>)
    modifies sp
    ensures sp.pairs == old(sp.pairs) + ArrayPairs(name, v)
  {
    if NonEmpty(v) {
      AppendEach(sp, name, v.value);
    }
  }

  // ------------------------------------------------------- jobsApi.search

  datatype JobSearchParams = JobSearchParams(
    query: Option<string>,
    location: Option<string>,
    locations: Option<seq<string>>,
    jobType: Option<string>,
    jobTypes: Option<seq<string>>,
    experienceLevels: Option<seq<string>>,
    categoryId: Option<int>,
    companyId: Option<int>,
    page: Option<int>,
    pageSize: Option<int>)

  function JobsQuery(p: JobSearchParams): seq<Pair> {
    StringPair("query", p.query) + StringPair("location", p.location) + StringPair("jobType", p.jobType)
    + NumberPair("categoryId", p.categoryId) + NumberPair("companyId", p.companyId)
    + NumberPair("page", p.page) + NumberPair("pageSize", p.pageSize)
    + ArrayPairs("jobTypes", p.jobTypes) + ArrayPairs("experienceLevels", p.experienceLevels)
    + ArrayPairs("locations", p.locations)
  }

  /** The query string `jobsApi.search` sends. */
  method JobsSearch(p: JobSearchParams) returns (q: seq<Pair>)
    ensures q == JobsQuery(p)
  {
    var sp := new SearchParams();
    AppendString(sp, "query", p.query);
    assert sp.pairs == StringPair("query", p.query);
    AppendString(sp, "location", p.location);
    AppendString(sp, "jobType", p.jobType);
    AppendNumber(sp, "categoryId", p.categoryId);
    AppendNumber(sp, "companyId", p.companyId);
    AppendNumber(sp, "page", p.page);
    AppendNumber(sp, "pageSize", p.pageSize);
    AppendArray(sp, "jobTypes", p.jobTypes);
    AppendArray(sp, "experienceLevels", p.experienceLevels);
    AppendArray(sp, "locations", p.locations);
    q := sp.pairs;
  }

  /**
   * What the server reads back under each name: a string or a number only
   * when it is truthy (so 0 and "" are dropped), an array element by
   * element in its order (so an absent or empty array gives nothing), and
   * nothing under any other name.
   */
  function JobsValue(p: JobSearchParams, n: string): seq<string> {
    if n == "query" then StringValue(p.query)
    else if n == "location" then StringValue(p.location)
    else if n == "jobType" then StringValue(p.jobType)
    else if n == "categoryId" then NumberValue(p.categoryId)
    else if n == "companyId" then NumberValue(p.companyId)
    else if n == "page" then NumberValue(p.page)
    else if n == "pageSize" then NumberValue(p.pageSize)
    else if n == "jobTypes" then p.jobTypes.GetOr([])
    else if n == "experienceLevels" then p.experienceLevels.GetOr([])
    else if n == "locations" then p.locations.GetOr([])
    else []
  }

  /** The order `jobsApi.search` appends names in: the scalars, then the arrays. */
  function JobsRank(n: string): nat {
    if n == "query" then 0
    else if n == "location" then 1
    else if n == "jobType" then 2
    else if n == "categoryId" then 3
    else if n == "companyId" then 4
    else if n == "page" then 5
    else if n == "pageSize" then 6
    else if n == "jobTypes" then 7
    else if n == "experienceLevels" then 8
    else 9
  }

  /** The values under `n`, part by part, in the order the parts are appended. */
  function JobsValueParts(p: JobSearchParams, n: string): seq<string> {
    (if n == "query" then StringValue(p.query) else [])
    + (if n == "location" then StringValue(p.location) else [])
    + (if n == "jobType" then StringValue(p.jobType) else [])
    + (if n == "categoryId" then NumberValue(p.categoryId) else [])
    + (if n == "companyId" then NumberValue(p.companyId) else [])
    + (if n == "page" then NumberValue(p.page) else [])
    + (if n == "pageSize" then NumberValue(p.pageSize) else [])
    + (if n == "jobTypes" then p.jobTypes.GetOr([]) else [])
    + (if n == "experienceLevels" then p.experienceLevels.GetOr([]) else [])
    + (if n == "locations" then p.locations.GetOr([]) else [])
  }

  lemma JobsValueByParts(p: JobSearchParams, n: string)
    ensures JobsValueParts(p, n) == JobsValue(p, n)
  {
    if n == "query" {
    } else if n == "location" {
    } else if n == "jobType" {
    } else if n == "categoryId" {
    } else if n == "companyId" {
    } else if n == "page" {
    } else if n == "pageSize" {
    } else if n == "jobTypes" {
    } else if n == "experienceLevels" {
    } else if n == "locations" {
    }
  }

  lemma JobsQueryValues(p: JobSearchParams, n: string)
    ensures Values(JobsQuery(p), n) == JobsValue(p, n)
  {
    var a0, a1, a2 := StringPair("query", p.query), StringPair("location", p.location), StringPair("jobType", p.jobType);
    var a3, a4 := NumberPair("categoryId", p.categoryId), NumberPair("companyId", p.companyId);
    var a5, a6 := NumberPair("page", p.page), NumberPair("pageSize", p.pageSize);
    var a7 := ArrayPairs("jobTypes", p.jobTypes);
    var a8 := ArrayPairs("experienceLevels", p.experienceLevels);
    var a9 := ArrayPairs("locations", p.locations);
    ValuesAppend(a0, a1, n);
    ValuesAppend(a0 + a1, a2, n);
    ValuesAppend(a0 + a1 + a2, a3, n);
    ValuesAppend(a0 + a1 + a2 + a3, a4, n);
    ValuesAppend(a0 + a1 + a2 + a3 + a4, a5, n);
    ValuesAppend(a0 + a1 + a2 + a3 + a4 + a5, a6, n);
    ValuesAppend(a0 + a1 + a2 + a3 + a4 + a5 + a6, a7, n);
    ValuesAppend(a0 + a1 + a2 + a3 + a4 + a5 + a6 + a7, a8, n);
    ValuesAppend(a0 + a1 + a2 + a3 + a4 + a5 + a6 + a7 + a8, a9, n);
    ValuesOfStringPair("query", p.query, n);
    ValuesOfStringPair("location", p.location, n);
    ValuesOfStringPair("jobType", p.jobType, n);
    ValuesOfNumberPair("categoryId", p.categoryId, n);
    ValuesOfNumberPair("companyId", p.companyId, n);
    ValuesOfNumberPair("page", p.page, n);
    ValuesOfNumberPair("pageSize", p.pageSize, n);
    ValuesOfArrayPairs("jobTypes", p.jobTypes, n);
    ValuesOfArrayPairs("experienceLevels", p.experienceLevels, n);
    ValuesOfArrayPairs("locations", p.locations, n);
    assert Values(JobsQuery(p), n) == JobsValueParts(p, n);
    JobsValueByParts(p, n);
  }

  /** The scalars come first, in their fixed order, then the three arrays. */
  lemma JobsQueryInOrder(p: JobSearchParams)
    ensures InOrder(JobsQuery(p), JobsRank)
  {
    var a0, a1, a2 := StringPair("query", p.query), StringPair("location", p.location), StringPair("jobType", p.jobType);
    var a3, a4 := NumberPair("categoryId", p.categoryId), NumberPair("companyId", p.companyId);
    var a5, a6 := NumberPair("page", p.page), NumberPair("pageSize", p.pageSize);
    var a7 := ArrayPairs("jobTypes", p.jobTypes);
    var a8 := ArrayPairs("experienceLevels", p.experienceLevels);
    var a9 := ArrayPairs("locations", p.locations);
    assert JobsRank("query") == 0 && JobsRank("location") == 1 && JobsRank("jobType") == 2;
    assert JobsRank("categoryId") == 3 && JobsRank("companyId") == 4 && JobsRank("page") == 5;
    assert JobsRank("pageSize") == 6 && JobsRank("jobTypes") == 7 && JobsRank("experienceLevels") == 8;
    assert JobsRank("locations") == 9;
    InOrderAppend([], a0, JobsRank, 0, "query");
    assert [] + a0 == a0;
    InOrderAppend(a0, a1, JobsRank, 0, "location");
    InOrderAppend(a0 + a1, a2, JobsRank, 1, "jobType");
    InOrderAppend(a0 + a1 + a2, a3, JobsRank, 2, "categoryId");
    InOrderAppend(a0 + a1 + a2 + a3, a4, JobsRank, 3, "companyId");
    InOrderAppend(a0 + a1 + a2 + a3 + a4, a5, JobsRank, 4, "page");
    InOrderAppend(a0 + a1 + a2 + a3 + a4 + a5, a6, JobsRank, 5, "pageSize");
    InOrderAppend(a0 + a1 + a2 + a3 + a4 + a5 + a6, a7, JobsRank, 6, "jobTypes");
    InOrderAppend(a0 + a1 + a2 + a3 + a4 + a5 + a6 + a7, a8, JobsRank, 7, "experienceLevels");
    InOrderAppend(a0 + a1 + a2 + a3 + a4 + a5 + a6 + a7 + a8, a9, JobsRank, 8, "locations");
  }

  // -------------------------------------------------- companiesApi.search

  datatype CompanySearchParams = CompanySearchParams(
    query: Option<string>,
    industry: Option<string>,
    location: Option<string>,
    page: Option<int>,
    pageSize: Option<int>)

  function CompaniesQuery(p: CompanySearchParams): seq<Pair> {
    StringPair("query", p.query) + StringPair("industry", p.industry) + StringPair("location", p.location)
    + NumberPair("page", p.page) + NumberPair("pageSize", p.pageSize)
  }

  /** The query string `companiesApi.search` sends. */
  method CompaniesSearch(p: CompanySearchParams) returns (q: seq<Pair>)
    ensures q == CompaniesQuery(p)
  {
    var sp := new SearchParams();
    AppendString(sp, "query", p.query);
    assert sp.pairs == StringPair("query", p.query);
    AppendString(sp, "industry", p.industry);
    AppendString(sp, "location", p.location);
    AppendNumber(sp, "page", p.page);
    AppendNumber(sp, "pageSize", p.pageSize);
    q := sp.pairs;
  }

  /** What the server reads back under each name of a company search. */
  function CompaniesValue(p: CompanySearchParams, n: string): seq<string> {
    if n == "query" then StringValue(p.query)
    else if n == "industry" then StringValue(p.industry)
    else if n == "location" then StringValue(p.location)
    else if n == "page" then NumberValue(p.page)
    else if n == "pageSize" then NumberValue(p.pageSize)
    else []
  }

  /** The order `companiesApi.search` appends names in. */
  function CompaniesRank(n: string): nat {
    if n == "query" then 0
    else if n == "industry" then 1
    else if n == "location" then 2
    else if n == "page" then 3
    else 4
  }

  lemma CompaniesQueryValues(p: CompanySearchParams, n: string)
    ensures Values(CompaniesQuery(p), n) == CompaniesValue(p, n)
  {
    var a0, a1, a2 := StringPair("query", p.query), StringPair("industry", p.industry), StringPair("location", p.location);
    var a3, a4 := NumberPair("page", p.page), NumberPair("pageSize", p.pageSize);
    ValuesAppend(a0, a1, n);
    ValuesAppend(a0 + a1, a2, n);
    ValuesAppend(a0 + a1 + a2, a3, n);
    ValuesAppend(a0 + a1 + a2 + a3, a4, n);
    ValuesOfStringPair("query", p.query, n);
    ValuesOfStringPair("industry", p.industry, n);
    ValuesOfStringPair("location", p.location, n);
    ValuesOfNumberPair("page", p.page, n);
    ValuesOfNumberPair("pageSize", p.pageSize, n);
    if n == "query" {
    } else if n == "industry" {
    } else if n == "location" {
    } else if n == "page" {
    } else if n == "pageSize" {
    }
  }

  lemma CompaniesQueryInOrder(p: CompanySearchParams)
    ensures InOrder(CompaniesQuery(p), CompaniesRank)
  {
    var a0, a1, a2 := StringPair("query", p.query), StringPair("industry", p.industry), StringPair("location", p.location);
    var a3, a4 := NumberPair("page", p.page), NumberPair("pageSize", p.pageSize);
    assert CompaniesRank("query") == 0 && CompaniesRank("industry") == 1 && CompaniesRank("location") == 2;
    assert CompaniesRank("page") == 3 && CompaniesRank("pageSize") == 4;
    InOrderAppend([], a0, CompaniesRank, 0, "query");
    assert [] + a0 == a0;
    InOrderAppend(a0, a1, CompaniesRank, 0, "industry");
    InOrderAppend(a0 + a1, a2, CompaniesRank, 1, "location");
    InOrderAppend(a0 + a1 + a2, a3, CompaniesRank, 2, "page");
    InOrderAppend(a0 + a1 + a2 + a3, a4, CompaniesRank, 3, "pageSize");
  }

  // ----------------------------------------------------------- authApi

  datatype UserInfo = UserInfo(
    id: int,
    email: string,
    firstName: string,
    lastName: string,
    fullName: string,
    role: string,
    profilePicture: Option<string>,
    companyId: Option<int>)

  datatype AuthResponse = AuthResponse(
    success: bool,
    token: Option<string>,
    expiresAt: Option<string>,
    user: Option<UserInfo>,
    error: Option<string>)

  /** The `error` field of the JSON body of a response that is not ok. */
  datatype ErrorBody = ErrorBody(error: Option<string>)

  /**
   * What `fetch` and `response.json()` deliver: the request failed, the
   * status was not 2xx, or it was; a body is `None` when it is not JSON
   * (reading it throws).
   */
  datatype Fetched<T> = NetworkFailure | NotOk(errorBody: Option<ErrorBody>) | Delivered(body: Option<T>)

  /** A rejected promise: an `Error` thrown by this client, or one from `fetch` or the JSON parser. */
  datatype Rejection = Raised(message: string) | Foreign

  const NetworkError := "Network error. Please try again."
  const LoginFailed := "Login failed"
  const RegistrationFailed := "Registration failed"
  const CurrentUserFailed := "Failed to get current user"
  const ProfileFailed := "Failed to update profile"

  /** `{ success: false, error: message }` */
  function Failure(message: string): AuthResponse {
    AuthResponse(false, None, None, None, Some(message))
  }

  /** `x.error || fallback` */
  function ErrorOr(e: ErrorBody, fallback: string): string {
    if TruthyString(e.error) then e.error.value else fallback
  }

  /** The common body of `authApi.login` and `authApi.register`, which never reject. */
  function AuthCall(f: Fetched<AuthResponse>, fallback: string): (r: AuthResponse)
    requires fallback != ""
    ensures f.Delivered? && f.body.Some? ==> r == f.body.value
    ensures f.NetworkFailure? || (f.Delivered? && f.body.None?) || (f.NotOk? && f.errorBody.None?) ==> r == Failure(NetworkError)
    ensures f.NotOk? && f.errorBody.Some? ==>
      r == Failure(if TruthyString(f.errorBody.value.error) then f.errorBody.value.error.value else fallback)
    ensures !(f.Delivered? && f.body.Some?) ==> !r.success && TruthyString(r.error) && r.token.None? && r.user.None?
  {
    match f
    case NetworkFailure => Failure(NetworkError)
    case NotOk(None) => Failure(NetworkError)
    case NotOk(Some(e)) => Failure(ErrorOr(e, fallback))
    case Delivered(None) => Failure(NetworkError)
    case Delivered(Some(data)) => data
  }

  function Login(f: Fetched<AuthResponse>): AuthResponse {
    AuthCall(f, LoginFailed)
  }

  function Register(f: Fetched<AuthResponse>): AuthResponse {
    AuthCall(f, RegistrationFailed)
  }

  /**
   * A failed login or registration is reported, never thrown: a non-ok
   * answer carries the server's `error` or the call's own message, and a
   * network failure the network message.
   */
  lemma FailedAuthIsReported(f: Fetched<AuthResponse>)
    ensures f.NotOk? && f.errorBody.Some? && !TruthyString(f.errorBody.value.error) ==>
      Login(f) == Failure(LoginFailed) && Register(f) == Failure(RegistrationFailed)
    ensures f.NotOk? && f.errorBody.Some? && TruthyString(f.errorBody.value.error) ==>
      Login(f).error == f.errorBody.value.error && Register(f).error == f.errorBody.value.error
    ensures f.NetworkFailure? ==> Login(f) == Register(f) == Failure(NetworkError)
    ensures !(f.Delivered? && f.body.Some?) ==> !Login(f).success && !Register(f).success
  {
  }

  /** `authApi.getCurrentUser`: throws its own message on a non-ok answer. */
  function CurrentUser(f: Fetched<UserInfo>): (r: Result<UserInfo, Rejection>)
    ensures r.Ok? <==> f.Delivered? && f.body.Some?
    ensures r.Ok? ==> r.value == f.body.value
    ensures f.NotOk? ==> r == Err(Raised(CurrentUserFailed))
  {
    match f
    case NetworkFailure => Err(Foreign)
    case NotOk(_) => Err(Raised(CurrentUserFailed))
    case Delivered(None) => Err(Foreign)
    case Delivered(Some(u)) => Ok(u)
  }

  /**
   * `authApi.updateProfile`: on a non-ok answer it throws the server's
   * `error`, or its own message when there is none or the body is not JSON.
   */
  function UpdateProfile(f: Fetched<UserInfo>): (r: Result<UserInfo, Rejection>)
    ensures r.Ok? <==> f.Delivered? && f.body.Some?
    ensures r.Ok? ==> r.value == f.body.value
    ensures f.NotOk? ==> r.Err? && r.error.Raised? && r.error.message != ""
    ensures f.NotOk? && (f.errorBody.None? || !TruthyString(f.errorBody.value.error)) ==> r == Err(Raised(ProfileFailed))
    ensures f.NotOk? && f.errorBody.Some? && TruthyString(f.errorBody.value.error) ==>
      r == Err(Raised(f.errorBody.value.error.value))
  {
    match f
    case NetworkFailure => Err(Foreign)
    case NotOk(None) => Err(Raised(ProfileFailed))
    case NotOk(Some(e)) => Err(Raised(ErrorOr(e, ProfileFailed)))
    case Delivered(None) => Err(Foreign)
    case Delivered(Some(u)) => Ok(u)
  }
}

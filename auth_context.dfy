/**
 * The front end's sign-in state: the token, the user, the loading flag
 * and the two browser-storage entries that keep them across reloads.
 *
 * Each method is one settled step of the provider: a call of `login`,
 * `register`, `logout` or `updateProfile` once its request has answered,
 * and the mount effect in its two halves, the synchronous part that reads
 * storage and the continuation of the `getCurrentUser` request it starts.
 * Other steps may run between those two halves. The server's answers are
 * parameters (`Api.Fetched`). `JSON.stringify` and `JSON.parse` of a user
 * are a pair of functions that round-trip.
 */
module AuthContext {
  import opened Wrappers
  import Api

  const TokenKey := "career_connect_token"
  const UserKey := "career_connect_user"

  /** `JSON.stringify` and `JSON.parse` on users; `parse` fails (throws) on text that is not a user. */
  datatype UserJson = UserJson(stringify: Api.UserInfo -> string, parse: string -> Option<Api.UserInfo>)

  ghost predicate RoundTrips(json: UserJson) {
    forall u :: json.parse(json.stringify(u)) == Some(u) && json.stringify(u) != ""
  }

  /** `localStorage.getItem(key)` */
  function GetItem(storage: map<string, string>, key: string): Option<string> {
    if key in storage then Some(storage[key]) else None
  }

  /** `response.success && response.token && response.user` */
  predicate Accepts(r: Api.AuthResponse) {
    r.success && Api.TruthyString(r.token) && r.user.Some?
  }

  /**
   * Only a delivered answer can sign anybody in: a network failure, a body
   * that is not JSON and every non-ok status leave the state alone.
   */
  lemma OnlyDeliveredAnswersSignIn(f: Api.Fetched<Api.AuthResponse>)
    ensures !(f.Delivered? && f.body.Some?) ==> !Accepts(Api.Login(f)) && !Accepts(Api.Register(f))
    ensures f.Delivered? && f.body.Some? ==>
      (Accepts(Api.Login(f)) <==> Accepts(f.body.value)) && (Accepts(Api.Register(f)) <==> Accepts(f.body.value))
  {
  }

  class Provider {
    var user: Option<Api.UserInfo>
    var token: Option<string>
    var isLoading: bool
    var storage: map<string, string>
    const json: UserJson

    /**
     * Whatever token the provider holds is the stored one, and a signed-in
     * user is the one stored beside it, so a reload restores both.
     */
    ghost predicate Valid()
      reads this
    {
      && RoundTrips(json)
      && (Api.TruthyString(token) ==> GetItem(storage, TokenKey) == token)
      && (Api.TruthyString(token) && user.Some? ==> UserKey in storage && json.parse(storage[UserKey]) == user)
    }

    /** `useState(null)`, `useState(null)`, `useState(true)` over the browser's storage. */
    constructor (storage: map<string, string>, json: UserJson)
      requires RoundTrips(json)
      ensures Valid()
      ensures user.None? && token.None? && isLoading
      ensures this.storage == storage && this.json == json
    {
      this.json := json;
      this.storage := storage;
      user, token, isLoading := None, None, true;
    }

    /** `!!token && !!user` */
    function IsAuthenticated(): (b: bool)
      reads this
      ensures b <==> token.Some? && token.value != "" && user.Some?
    {
      Api.TruthyString(token) && user.Some?
    }

    /** The part `login` and `register` share: adopt the answer only if it carries a token and a user. */
    method Adopt(response: Api.AuthResponse)
      requires Valid()
      modifies this
      ensures Valid()
      ensures Accepts(response) ==>
        && token == response.token && user == response.user
        && storage == old(storage)[TokenKey := response.token.value][UserKey := json.stringify(response.user.value)]
        && IsAuthenticated()
      ensures !Accepts(response) ==> token == old(token) && user == old(user) && storage == old(storage)
      ensures isLoading == old(isLoading)
    {
      if Accepts(response) {
        token := response.token;
        user := response.user;
        storage := storage[TokenKey := response.token.value];
        storage := storage[UserKey := json.stringify(response.user.value)];
      }
    }

    method Login(f: Api.Fetched<Api.AuthResponse>) returns (response: Api.AuthResponse)
      requires Valid()
      modifies this
      ensures Valid()
      ensures response == Api.Login(f)
      ensures Accepts(response) ==>
        && token == response.token && user == response.user
        && storage == old(storage)[TokenKey := response.token.value][UserKey := json.stringify(response.user.value)]
        && IsAuthenticated()
      ensures !Accepts(response) ==> token == old(token) && user == old(user) && storage == old(storage)
      ensures isLoading == old(isLoading)
    {
      response := Api.Login(f);
      Adopt(response);
    }

    method Register(f: Api.Fetched<Api.AuthResponse>) returns (response: Api.AuthResponse)
      requires Valid()
      modifies this
      ensures Valid()
      ensures response == Api.Register(f)
      ensures Accepts(response) ==>
        && token == response.token && user == response.user
        && storage == old(storage)[TokenKey := response.token.value][UserKey := json.stringify(response.user.value)]
        && IsAuthenticated()
      ensures !Accepts(response) ==> token == old(token) && user == old(user) && storage == old(storage)
      ensures isLoading == old(isLoading)
    {
      response := Api.Register(f);
      Adopt(response);
    }

    method Logout()
      requires Valid()
      modifies this
      ensures Valid()
      ensures token.None? && user.None? && !IsAuthenticated()
      ensures storage == old(storage) - {TokenKey, UserKey}
      ensures TokenKey !in storage && UserKey !in storage
      ensures isLoading == old(isLoading)
    {
      token := None;
      user := None;
      storage := storage - {TokenKey};
      storage := storage - {UserKey};
    }

    /** `updateProfile`: refuses without a token; otherwise takes the server's user, or rethrows. */
    method UpdateProfile(f: Api.Fetched<Api.UserInfo>) returns (r: Result<Api.UserInfo, Api.Rejection>)
      requires Valid()
      modifies this
      ensures Valid()
      ensures !Api.TruthyString(old(token)) ==> r == Err(Api.Raised("Not authenticated"))
      ensures Api.TruthyString(old(token)) ==> r == Api.UpdateProfile(f)
      ensures r.Ok? ==> user == Some(r.value) && storage == old(storage)[UserKey := json.stringify(r.value)]
      ensures r.Err? ==> user == old(user) && storage == old(storage)
      ensures token == old(token) && isLoading == old(isLoading)
    {
      if !Api.TruthyString(token) {
        return Err(Api.Raised("Not authenticated"));
      }
      r := Api.UpdateProfile(f);
      if r.Ok? {
        user := Some(r.value);
        storage := storage[UserKey := json.stringify(r.value)];
      }
    }

    /**
     * The synchronous part of the mount effect. With both entries stored it
     * shows them and starts `getCurrentUser` (`started`); a stored user that
     * does not parse throws there, which leaves the provider loading.
     */
    method LoadStored() returns (started: bool)
      requires Valid() && user.None? && token.None? && isLoading
      modifies this
      ensures Valid()
      ensures storage == old(storage)
      ensures var t, u := GetItem(storage, TokenKey), GetItem(storage, UserKey);
        && (!(Api.TruthyString(t) && Api.TruthyString(u)) ==> !started && token.None? && user.None? && !isLoading)
        && (Api.TruthyString(t) && Api.TruthyString(u) && json.parse(u.value).None? ==>
              !started && token == t && user.None? && isLoading)
        && (Api.TruthyString(t) && Api.TruthyString(u) && json.parse(u.value).Some? ==>
              started && token == t && user == json.parse(u.value) && isLoading && IsAuthenticated())
    {
      var storedToken := GetItem(storage, TokenKey);
      var storedUser := GetItem(storage, UserKey);
      if Api.TruthyString(storedToken) && Api.TruthyString(storedUser) {
        token := storedToken;
        var parsed := json.parse(storedUser.value);
        if parsed.None? {
          return false;
        }
        user := parsed;
        return true;
      }
      isLoading := false;
      return false;
    }

    /**
     * The continuation of `getCurrentUser`: the fresh user replaces the
     * stored one, any failure signs out, and loading ends either way.
     */
    method VerifyStored(f: Api.Fetched<Api.UserInfo>)
      requires Valid()
      modifies this
      ensures Valid()
      ensures !isLoading
      ensures Api.CurrentUser(f).Ok? ==>
        && user == Some(Api.CurrentUser(f).value) && token == old(token)
        && storage == old(storage)[UserKey := json.stringify(Api.CurrentUser(f).value)]
      ensures Api.CurrentUser(f).Err? ==>
        token.None? && user.None? && storage == old(storage) - {TokenKey, UserKey}
    {
      var current := Api.CurrentUser(f);
      if current.Ok? {
        user := Some(current.value);
        storage := storage[UserKey := json.stringify(current.value)];
      } else {
        Logout();
      }
      isLoading := false;
    }
  }
}

/**
 * The root component: the Auth0 login through the system browser, the
 * exchange of the identity token for Contentful credentials, and the
 * choice of what to show.
 */
module App {
  import opened Wrappers
  import Strings
  import QueryString
  import Contentful

  const Auth0ClientId := "d53lmRWeLZfc0czXQIeGmSZt0Sk3vtwC"
  const Auth0Domain := "https://partusch-cms.auth0.com"

  /** The query of the authorization request, in the order the object literal lists it. */
  function AuthorizeParams(redirectUrl: string): seq<(string, string)>
  {
    [("client_id", Auth0ClientId),
     ("redirect_uri", redirectUrl),
     ("response_type", "id_token"),
     ("scope", "openid profile name"),
     ("nonce", "nonce")]
  }

  /** The URL `login` opens: the Auth0 domain, `/authorize`, then the query.
      The query reads back as exactly the five parameters, in order, with
      the redirect URL intact whatever characters it holds. */
  function AuthUrl(redirectUrl: string): (url: string)
    ensures |url| > |Auth0Domain + "/authorize"|
    ensures url[..|Auth0Domain + "/authorize"|] == Auth0Domain + "/authorize"
    ensures QueryString.ParseQuery(url[|Auth0Domain + "/authorize"|..]) ==
            Some([("client_id", Auth0ClientId),
                  ("redirect_uri", redirectUrl),
                  ("response_type", "id_token"),
                  ("scope", "openid profile name"),
                  ("nonce", "nonce")])
  {
    var prefix := Auth0Domain + "/authorize";
    var query := QueryString.ToQueryString(AuthorizeParams(redirectUrl));
    QueryString.QueryRoundTrip(AuthorizeParams(redirectUrl));
    assert (prefix + query)[|prefix|..] == query;
    prefix + query
  }

  /** What `AuthSession.startAsync` resolves with: a result type and the
      parameters of the redirect. */
  datatype AuthParams = AuthParams(error: Option<string>, idToken: Option<string>)
  datatype AuthResponse = AuthResponse(kind: string, params: AuthParams)

  /** What `login` does with a response: whether it rejects (the error
      branch calls `Alert`, which the file never declares, so the call
      throws), the token it returns otherwise (None for `undefined`), and
      whether it clears the loading flag. */
  datatype LoginResult = LoginResult(rejects: bool, token: Option<string>, clearsLoading: bool)

  /** A JavaScript string value used as a condition. */
  predicate Truthy(s: Option<string>)
  {
    s.Some? && s.value != ""
  }

  /** The classification in `login`: a success without an error yields the
      id token; a success with an error rejects, yields nothing and leaves
      the flag alone; any other result yields nothing and clears the flag. */
  function Login(response: AuthResponse): (r: LoginResult)
    ensures r.clearsLoading <==> response.kind != "success"
    ensures r.rejects <==> response.kind == "success" && Truthy(response.params.error)
    ensures r.token.Some? ==> response.kind == "success" && !Truthy(response.params.error)
    ensures response.kind == "success" && !Truthy(response.params.error) ==> r.token == response.params.idToken
  {
    if response.kind == "success" then
      if Truthy(response.params.error) then LoginResult(true, None, false)
      else LoginResult(false, response.params.idToken, false)
    else LoginResult(false, None, true)
  }

  /** What the root component renders. */
  datatype Screen =
    | AppLoading
    | Spinner
    | LoginButton
    | Home(tokens: Option<Contentful.Tokens>)

  /** The state slots of the root component. The two timers and the token
      fetch are deferred events: a counter says how many are outstanding,
      and the event methods below stand for their callbacks. */
  class AppState {
    var isLoadingComplete: bool
    var jwt: Option<string>
    var tokens: Option<Contentful.Tokens>
    var isAuthenticated: bool
    var loadingUserData: bool
    var pendingLogins: nat
    var pendingFetches: nat

    /** Authenticated means credentials are at hand. */
    ghost predicate Valid()
      reads this
    {
      isAuthenticated ==> tokens.Some?
    }

    constructor ()
      ensures Valid()
      ensures !isLoadingComplete && jwt == None && tokens == None
      ensures !isAuthenticated && !loadingUserData
      ensures pendingLogins == 0 && pendingFetches == 0
    {
      isLoadingComplete := false;
      jwt := None;
      tokens := None;
      isAuthenticated := false;
      loadingUserData := false;
      pendingLogins := 0;
      pendingFetches := 0;
    }

    /** `onLoginPress`: show the spinner and start the 250 ms timer. */
    method OnLoginPress()
      requires Valid()
      modifies this
      ensures Valid()
      ensures loadingUserData && pendingLogins == old(pendingLogins) + 1
      ensures isLoadingComplete == old(isLoadingComplete) && jwt == old(jwt) && tokens == old(tokens)
      ensures isAuthenticated == old(isAuthenticated) && pendingFetches == old(pendingFetches)
    {
      loadingUserData := true;
      pendingLogins := pendingLogins + 1;
    }

    /** The mount effect: log in unless already authenticated. */
    method OnMount()
      requires Valid()
      modifies this
      ensures Valid()
      ensures loadingUserData == (old(loadingUserData) || !old(isAuthenticated))
      ensures pendingLogins == old(pendingLogins) + (if old(isAuthenticated) then 0 else 1)
      ensures isLoadingComplete == old(isLoadingComplete) && jwt == old(jwt) && tokens == old(tokens)
      ensures isAuthenticated == old(isAuthenticated) && pendingFetches == old(pendingFetches)
    {
      if !isAuthenticated {
        OnLoginPress();
      }
    }

    /** The login timer fires: `login` runs against the browser's response
        and, unless it rejects, its result is stored with `setJwt`. When the
        stored value changes to a truthy one, the token effect starts a fetch. */
    method LoginTimerFires(response: AuthResponse) returns (fetchStarted: bool)
      requires Valid() && pendingLogins > 0
      modifies this
      ensures Valid()
      ensures jwt == if Login(response).rejects then old(jwt) else Login(response).token
      ensures loadingUserData == (old(loadingUserData) && !Login(response).clearsLoading)
      ensures fetchStarted <==> Truthy(jwt) && jwt != old(jwt)
      ensures pendingLogins == old(pendingLogins) - 1
      ensures pendingFetches == old(pendingFetches) + (if fetchStarted then 1 else 0)
      ensures isLoadingComplete == old(isLoadingComplete) && tokens == old(tokens)
      ensures isAuthenticated == old(isAuthenticated)
    {
      var result := Login(response);
      if result.clearsLoading {
        loadingUserData := false;
      }
      pendingLogins := pendingLogins - 1;
      var previous := jwt;
      if !result.rejects {
        jwt := result.token;
      }
      fetchStarted := Truthy(jwt) && jwt != previous;
      if fetchStarted {
        pendingFetches := pendingFetches + 1;
      }
    }

    /** The token fetch completes with the proxy's answer: credentials are
        stored, the user counts as authenticated and the spinner goes. */
    method TokenFetchCompletes(auth: Contentful.Tokens)
      requires Valid() && pendingFetches > 0
      modifies this
      ensures Valid()
      ensures tokens == Some(auth) && isAuthenticated && !loadingUserData
      ensures pendingFetches == old(pendingFetches) - 1
      ensures isLoadingComplete == old(isLoadingComplete) && jwt == old(jwt)
      ensures pendingLogins == old(pendingLogins)
    {
      tokens := Some(auth);
      isAuthenticated := true;
      loadingUserData := false;
      pendingFetches := pendingFetches - 1;
    }

    /** The token fetch throws: nothing but the count of outstanding fetches changes. */
    method TokenFetchFails()
      requires Valid() && pendingFetches > 0
      modifies this
      ensures Valid()
      ensures pendingFetches == old(pendingFetches) - 1
      ensures isLoadingComplete == old(isLoadingComplete) && jwt == old(jwt) && tokens == old(tokens)
      ensures isAuthenticated == old(isAuthenticated) && loadingUserData == old(loadingUserData)
      ensures pendingLogins == old(pendingLogins)
    {
      pendingFetches := pendingFetches - 1;
    }

    /** `handleFinishLoading`: the loading screen is done. */
    method FinishLoading()
      requires Valid()
      modifies this
      ensures Valid()
      ensures isLoadingComplete
      ensures jwt == old(jwt) && tokens == old(tokens) && isAuthenticated == old(isAuthenticated)
      ensures loadingUserData == old(loadingUserData)
      ensures pendingLogins == old(pendingLogins) && pendingFetches == old(pendingFetches)
    {
      isLoadingComplete := true;
    }

    /** The screen the component renders. The loading screen wins over
        everything, the spinner over the login button, and the home screen
        shows only for an authenticated user, with the stored credentials. */
    function CurrentScreen(skipLoadingScreen: bool): (s: Screen)
      reads this
      ensures s == AppLoading <==> !isLoadingComplete && !skipLoadingScreen
      ensures s == Spinner <==> (isLoadingComplete || skipLoadingScreen) && loadingUserData
      ensures s == LoginButton <==> (isLoadingComplete || skipLoadingScreen) && !loadingUserData && !isAuthenticated
      ensures s.Home? <==> (isLoadingComplete || skipLoadingScreen) && !loadingUserData && isAuthenticated
      ensures s.Home? ==> s.tokens == tokens
    {
      if !isLoadingComplete && !skipLoadingScreen then AppLoading
      else if loadingUserData then Spinner
      else if !isAuthenticated then LoginButton
      else Home(tokens)
    }
  }

  /** Whenever the home screen shows, it receives credentials. */
  lemma HomeScreenHasTokens(state: AppState, skipLoadingScreen: bool)
    requires state.Valid()
    ensures state.CurrentScreen(skipLoadingScreen).Home? ==> state.CurrentScreen(skipLoadingScreen).tokens.Some?
  {
  }

  /** The whole login on first start: the mount effect starts the timer,
      Auth0 answers with a token, the proxy with credentials, and once the
      loading screen is done the home screen shows with those credentials. */
  method LoginThenHome(redirectToken: string, auth: Contentful.Tokens) returns (screen: Screen)
    requires redirectToken != ""
    ensures screen == Home(Some(auth))
  {
    var app := new AppState();
    app.OnMount();
    var started := app.LoginTimerFires(AuthResponse("success", AuthParams(None, Some(redirectToken))));
    app.TokenFetchCompletes(auth);
    app.FinishLoading();
    screen := app.CurrentScreen(false);
  }

  /** A successful redirect that carries an error: `login` returns nothing
      and never clears the loading flag, no fetch starts, and the spinner
      stays with no event left that could remove it. */
  method ErrorRedirectKeepsSpinner(error: string) returns (screen: Screen, fetchStarted: bool, outstanding: nat)
    requires error != ""
    ensures screen == Spinner && !fetchStarted && outstanding == 0
  {
    var app := new AppState();
    app.OnMount();
    app.FinishLoading();
    fetchStarted := app.LoginTimerFires(AuthResponse("success", AuthParams(Some(error), None)));
    screen := app.CurrentScreen(false);
    outstanding := app.pendingLogins + app.pendingFetches;
  }

  /** A later login whose redirect carries an error rejects before
      `setJwt` runs, so the token of the earlier login stays stored. */
  method ErrorRedirectKeepsToken(token: string, error: string) returns (jwt: Option<string>)
    requires token != "" && error != ""
    ensures jwt == Some(token)
  {
    var app := new AppState();
    app.OnLoginPress();
    var first := app.LoginTimerFires(AuthResponse("success", AuthParams(None, Some(token))));
    app.OnLoginPress();
    var second := app.LoginTimerFires(AuthResponse("success", AuthParams(Some(error), None)));
    jwt := app.jwt;
  }
}

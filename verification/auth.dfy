/** The session store (src/contexts/AuthContext.jsx): the token restored from
    browser storage, the user record derived from the token's subject e-mail,
    `login`, `logout`, `isAuthenticated` and the provider's spinner gate.
    Browser storage is a string-to-string map; `navigate` is recorded as the
    last location asked for. */
module Auth {
  import opened Common
  import opened Text

  const TokenKey := "token"
  const UserKey := "user"
  const LoginPath := "/login"
  const DashboardPath := "/dashboard"
  const AdminRole := "admin"
  const ViewerRole := "viewer"

  datatype User = User(email: string, name: string, role: string)

  /** `JSON.parse(atob(segment)).sub` as the session store uses it: the subject
      e-mail of a token's payload segment, or `None` when decoding, parsing or
      reading the subject throws. */
  type Decoder = string -> Option<string>

  // ---------------------------------------------------------------- user record

  /** `email.split('@')[0]`. */
  function NameOf(email: string): (name: string)
    ensures name <= email && '@' !in name
    ensures '@' in email ==> email[|name|] == '@'
    ensures '@' !in email ==> name == email
  {
    BeforeFirst(email, '@')
  }

  /** The name of `local@domain` is `local`. */
  lemma NameOfAddress(local: string, domain: string)
    requires '@' !in local
    ensures NameOf(local + "@" + domain) == local
  {
    BeforeFirstOfJoin(local, '@', domain);
  }

  /** `email.includes('admin') ? 'admin' : 'viewer'`. */
  function RoleOf(email: string): (role: string)
    ensures role == AdminRole || role == ViewerRole
    ensures role == AdminRole <==> exists i :: OccursAt(email, "admin", i)
  {
    ContainsIffOccurs(email, "admin");
    if Contains(email, "admin") then AdminRole else ViewerRole
  }

  /** Any e-mail with "admin" anywhere in it gets the admin role. */
  lemma AdminAnywhere(before: string, after: string)
    ensures RoleOf(before + "admin" + after) == AdminRole
  {
    var email := before + "admin" + after;
    assert email[|before|..|before| + 5] == "admin";
    assert OccursAt(email, "admin", |before|);
  }

  /** The user record built from a token's subject. */
  function MockUser(email: string): (u: User)
    ensures u.email == email && u.name == NameOf(email) && u.role == RoleOf(email)
  {
    User(email, NameOf(email), RoleOf(email))
  }

  /** The user derived from `local@domain` is named `local`. */
  lemma MockUserOfAddress(local: string, domain: string)
    requires '@' !in local
    ensures MockUser(local + "@" + domain).name == local
    ensures MockUser(local + "@" + domain).email == local + "@" + domain
  {
    NameOfAddress(local, domain);
  }

  // ---------------------------------------------------------------- token

  /** `token.split('.')[1]`: the text between the first and the second dot (or
      the end); `None` when the token has no dot, where `atob` then throws. */
  function PayloadSegment(token: string): (seg: Option<string>)
    ensures seg.Some? <==> '.' in token
    ensures seg.Some? ==> '.' !in seg.value
    ensures seg.Some? ==>
              var start := |BeforeFirst(token, '.')| + 1;
              var end := start + |seg.value|;
              end <= |token| && token[start..end] == seg.value &&
              (end == |token| || token[end] == '.')
  {
    match AfterFirst(token, '.')
    case None => None
    case Some(rest) =>
      var head := BeforeFirst(token, '.');
      var payload := BeforeFirst(rest, '.');
      assert token == head + ['.'] + rest;
      assert token[|head| + 1..] == rest;
      assert token[|head| + 1..][..|payload|] == payload;
      assert token[|head| + 1..|head| + 1 + |payload|] == token[|head| + 1..][..|payload|];
      Some(payload)
  }

  /** A token `header.payload` or `header.payload.rest...` yields its payload:
      whatever follows the payload is either nothing or starts with a dot. */
  lemma PayloadOfToken(header: string, payload: string, rest: string)
    requires '.' !in header && '.' !in payload
    requires rest == [] || rest[0] == '.'
    ensures PayloadSegment(header + "." + payload + rest) == Some(payload)
  {
    var after := payload + rest;
    assert header + "." + payload + rest == header + ['.'] + after;
    AfterFirstOfJoin(header, '.', after);
    if rest == [] {
      assert after == payload;
    } else {
      assert rest == ['.'] + rest[1..];
      assert after == payload + ['.'] + rest[1..];
      BeforeFirstOfJoin(payload, '.', rest[1..]);
    }
  }

  /** The subject the effect extracts from a token, `None` if any step throws:
      a token without a dot has none, any other is decoded from its payload. */
  function SubjectOf(token: string, decode: Decoder): (subject: Option<string>)
    ensures '.' !in token ==> subject.None?
    ensures '.' in token ==> subject == decode(PayloadSegment(token).value)
  {
    match PayloadSegment(token)
    case None => None
    case Some(seg) => decode(seg)
  }

  /** The subject of `header.payload.signature` is what its payload decodes to. */
  lemma SubjectOfToken(header: string, payload: string, signature: string, decode: Decoder)
    requires '.' !in header && '.' !in payload
    ensures SubjectOf(header + "." + payload + "." + signature, decode) == decode(payload)
  {
    assert header + "." + payload + "." + signature == header + "." + payload + ("." + signature);
    PayloadOfToken(header, payload, "." + signature);
  }

  // ---------------------------------------------------------------- storage

  /** `localStorage.getItem('token')`. */
  function StoredToken(storage: map<string, string>): (r: Option<string>)
    ensures r.Some? <==> TokenKey in storage
    ensures r.Some? ==> r.value == storage[TokenKey]
  {
    if TokenKey in storage then Some(storage[TokenKey]) else None
  }

  /** Storage after `removeItem('user')` and `removeItem('token')`. */
  function ClearSession(storage: map<string, string>): (r: map<string, string>)
    ensures r.Keys == storage.Keys - {UserKey, TokenKey}
    ensures forall k :: k in r ==> r[k] == storage[k]
  {
    storage - {UserKey, TokenKey}
  }

  /** A reload after logout restores no token. */
  lemma ReloadAfterLogout(storage: map<string, string>)
    ensures StoredToken(ClearSession(storage)).None?
  {
  }

  /** A reload after login restores the token that was stored. */
  lemma ReloadAfterLogin(storage: map<string, string>, accessToken: string)
    ensures StoredToken(storage[TokenKey := accessToken]) == Some(accessToken)
  {
  }

  /** The form `login` posts to `/auth/token`. */
  function LoginForm(email: string, password: string): (form: seq<(string, string)>)
    ensures |form| == 2
    ensures form[0] == ("username", email) && form[1] == ("password", password)
  {
    [("username", email), ("password", password)]
  }

  /** `loading && !token`: the provider shows a full-screen spinner instead of the app. */
  function SpinnerGate(loading: bool, token: Option<string>): (shown: bool)
    ensures shown <==> loading && (token.None? || token.value == "")
  {
    loading && !Truthy(token)
  }

  // ---------------------------------------------------------------- state

  /** The state of the mounted `AuthProvider`, with the browser storage it uses. */
  class Session {
    var token: Option<string>
    var user: Option<User>
    var loading: bool
    var storage: map<string, string>
    var location: Option<string>

    /** `isAuthenticated: !!token`. */
    function IsAuthenticated(): (b: bool)
      reads this
      ensures b <==> token.Some? && token.value != ""
    {
      Truthy(token)
    }

    /** The token in state is the one browser storage holds, so a reload
        restores the same session. */
    ghost predicate Persisted()
      reads this
    {
      token == StoredToken(storage)
    }

    function ShowsSpinner(): (b: bool)
      reads this
      ensures b <==> loading && !IsAuthenticated()
    {
      SpinnerGate(loading, token)
    }

    /** Mounting restores whatever token storage holds. */
    constructor (stored: map<string, string>)
      ensures token == StoredToken(stored) && user.None? && loading
      ensures storage == stored && location.None?
      ensures Persisted()
    {
      token := StoredToken(stored);
      user := None;
      loading := true;
      storage := stored;
      location := None;
    }

    /** `logout`: forget the session in state and in storage, go to the login page. */
    method Logout()
      modifies this`user, this`token, this`storage, this`location
      ensures user.None? && token.None? && !IsAuthenticated()
      ensures storage == ClearSession(old(storage))
      ensures location == Some(LoginPath)
      ensures Persisted()
    {
      user := None;
      token := None;
      storage := storage - {UserKey};
      storage := storage - {TokenKey};
      location := Some(LoginPath);
    }

    /** The effect run for the current token: derive the user from it, or log
        out if it cannot be read; loading ends in every case. */
    method ResolveUser(decode: Decoder)
      modifies this
      ensures !loading
      ensures !Truthy(old(token)) ==>
                token == old(token) && user == old(user) &&
                storage == old(storage) && location == old(location)
      ensures Truthy(old(token)) && SubjectOf(old(token).value, decode).Some? ==>
                user == Some(MockUser(SubjectOf(old(token).value, decode).value)) &&
                token == old(token) && storage == old(storage) && location == old(location)
      ensures Truthy(old(token)) && SubjectOf(old(token).value, decode).None? ==>
                user.None? && token.None? &&
                storage == ClearSession(old(storage)) && location == Some(LoginPath)
      ensures old(Persisted()) ==> Persisted()
    {
      if Truthy(token) {
        var subject := SubjectOf(token.value, decode);
        match subject {
          case Some(email) =>
            user := Some(MockUser(email));
          case None =>
            Logout();
        }
      }
      loading := false;
    }

    /** `login(email, password)` with the server's answer: on success the token
        is stored and kept and the dashboard is opened; a rejection changes nothing. */
    method Login(email: string, password: string, response: Response<string>)
      returns (form: seq<(string, string)>)
      modifies this`token, this`storage, this`location
      ensures form == LoginForm(email, password)
      ensures response.Ok? ==>
                storage == old(storage)[TokenKey := response.data] &&
                token == Some(response.data) && location == Some(DashboardPath)
      ensures response.Failed? ==>
                token == old(token) && storage == old(storage) && location == old(location)
      ensures old(Persisted()) ==> Persisted()
    {
      form := LoginForm(email, password);
      if response.Ok? {
        var accessToken := response.data;
        storage := storage[TokenKey := accessToken];
        token := Some(accessToken);
        location := Some(DashboardPath);
      }
    }
  }
}

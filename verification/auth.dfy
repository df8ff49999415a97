/** `MDSAuth`: choosing the authentication method from `auth_type`, and the
    `Authorization` header each method produces. The token endpoint of
    OAuth is not called: its JSON answer is an input, and the request the
    client would send is returned alongside the outcome. */
module Auth {
  import opened Results
  import opened Configuration
  import Utf8
  import Base64

  datatype AuthKind = OAuth | Bearer | Basic | Custom

  /** The key of the dispatch table each method sits under. */
  function KindName(k: AuthKind): string {
    match k
    case OAuth => "oauth"
    case Bearer => "bearer"
    case Basic => "basic"
    case Custom => "custom"
  }

  /** `str.lower` on one character; only ASCII capitals change, which is all
      it takes to match the four ASCII names of the table. */
  function LowerChar(c: char): (d: char)
    ensures 'A' <= c <= 'Z' ==> 'a' <= d <= 'z' && d as int - c as int == 32
    ensures !('A' <= c <= 'Z') ==> d == c
  {
    if 'A' <= c <= 'Z' then (c as int + 32) as char else c
  }

  function Lower(s: string): (r: string)
    ensures |r| == |s|
    ensures forall i :: 0 <= i < |s| ==> r[i] == LowerChar(s[i])
  {
    seq(|s|, i requires 0 <= i < |s| => LowerChar(s[i]))
  }

  /** Lowering twice is lowering once. */
  lemma LowerIdempotent(s: string)
    ensures Lower(Lower(s)) == Lower(s)
  {
    assert forall i :: 0 <= i < |s| ==> LowerChar(LowerChar(s[i])) == LowerChar(s[i]);
  }

  /** The dispatch table of `__init__`. */
  function KindOf(name: string): (r: Option<AuthKind>)
    ensures forall k :: r == Some(k) <==> KindName(k) == name
  {
    if name == "oauth" then Some(OAuth)
    else if name == "bearer" then Some(Bearer)
    else if name == "basic" then Some(Basic)
    else if name == "custom" then Some(Custom)
    else None
  }

  /** `MDSAuth.__init__`: a falsy `auth_type` is rejected as missing, a
      string is looked up case-insensitively, anything else cannot be
      lowered. */
  function SelectAuth(config: Config): (r: Result<AuthKind>)
    ensures var v := GetOr(config, "auth_type", Null);
            forall k :: r == Ok(k) <==> v.Str? && Lower(v.s) == KindName(k)
    ensures !Truthy(GetOr(config, "auth_type", Null)) ==> r == Err(NoAuthMethod)
    ensures var v := GetOr(config, "auth_type", Null);
            v.Str? && v.s != "" && r.Err? ==> r.error == InvalidAuthMethod(v.s)
    ensures var v := GetOr(config, "auth_type", Null);
            Truthy(v) && !v.Str? ==> r == Err(WrongType("auth_type"))
  {
    var v := GetOr(config, "auth_type", Null);
    if !Truthy(v) then Err(NoAuthMethod)
    else if !v.Str? then Err(WrongType("auth_type"))
    else
      match KindOf(Lower(v.s))
      case None => Err(InvalidAuthMethod(v.s))
      case Some(k) => Ok(k)
  }

  /** Only the lower-case form of `auth_type` matters. */
  lemma SelectAuthCaseInsensitive(config: Config, s: string, t: string)
    requires Lower(s) == Lower(t)
    ensures SelectAuth(config["auth_type" := Str(s)]).Ok? <==> SelectAuth(config["auth_type" := Str(t)]).Ok?
    ensures SelectAuth(config["auth_type" := Str(s)]).Ok? ==>
              SelectAuth(config["auth_type" := Str(s)]) == SelectAuth(config["auth_type" := Str(t)])
  {
    assert |s| == |t|;
    if s == "" {
      assert t == "";
    } else {
      assert t != "";
    }
    var a := SelectAuth(config["auth_type" := Str(s)]);
    var b := SelectAuth(config["auth_type" := Str(t)]);
    if a.Ok? {
      assert b == Ok(a.value);
    }
    if b.Ok? {
      assert a == Ok(b.value);
    }
  }

  const BearerPrefix := "Bearer "
  const BasicPrefix := "Basic "

  /** The header carrying a token. */
  function BearerHeader(token: string): Headers {
    map["Authorization" := BearerPrefix + token]
  }

  /** The token a bearer header carries. */
  function TokenOf(h: Headers): Option<string> {
    if "Authorization" in h && |h["Authorization"]| >= |BearerPrefix| && h["Authorization"][..|BearerPrefix|] == BearerPrefix
    then Some(h["Authorization"][|BearerPrefix|..])
    else None
  }

  lemma TokenOfBearerHeader(token: string)
    ensures TokenOf(BearerHeader(token)) == Some(token)
  {
    assert (BearerPrefix + token)[..|BearerPrefix|] == BearerPrefix;
    assert (BearerPrefix + token)[|BearerPrefix|..] == token;
  }

  /** `mds_auth_token`: the configured token verbatim behind "Bearer ". */
  function BearerLogin(config: Config): (r: Result<Headers>)
    ensures "token" !in config ==> r == Err(MissingKey("token"))
    ensures r.Ok? <==> "token" in config && config["token"].Str?
    ensures r.Ok? ==> TokenOf(r.value) == Some(config["token"].s) && r.value.Keys == {"Authorization"}
  {
    if "token" !in config then Err(MissingKey("token"))
    else if !config["token"].Str? then Err(WrongType("token"))
    else
      TokenOfBearerHeader(config["token"].s);
      Ok(BearerHeader(config["token"].s))
  }

  /** `f"{x}"` of an optional string: a missing entry prints as "None". */
  function Rendered(x: Option<string>): string {
    match x
    case None => "None"
    case Some(s) => s
  }

  /** The `username:password` pair of `auth_data`. */
  function Credentials(entries: map<string, string>): string {
    Rendered(if "username" in entries then Some(entries["username"]) else None)
      + ":" + Rendered(if "password" in entries then Some(entries["password"]) else None)
  }

  /** The header of section 2 of RFC 7617 for a credential string. */
  function BasicHeader(credentials: string): Headers {
    map["Authorization" := BasicPrefix + Base64.Encode(Utf8.Encode(credentials))]
  }

  /** The credential string a basic header carries, decoded back. */
  function CredentialsOf(h: Headers): Option<string> {
    if "Authorization" in h && |h["Authorization"]| >= |BasicPrefix| && h["Authorization"][..|BasicPrefix|] == BasicPrefix
    then
      match Base64.Decode(h["Authorization"][|BasicPrefix|..])
      case None => None
      case Some(bytes) => Utf8.Decode(bytes)
    else None
  }

  lemma {:induction false} CredentialsOfBasicHeader(credentials: string)
    ensures CredentialsOf(BasicHeader(credentials)) == Some(credentials)
  {
    var encoded := Base64.Encode(Utf8.Encode(credentials));
    assert (BasicPrefix + encoded)[..|BasicPrefix|] == BasicPrefix;
    assert (BasicPrefix + encoded)[|BasicPrefix|..] == encoded;
    Base64.DecodeEncode(Utf8.Encode(credentials));
    Utf8.DecodeEncode(credentials);
  }

  /** `mds_http_basic`: a truthy `auth_data` dictionary gives the encoded
      pair; a missing or empty one is rejected. */
  function BasicLogin(config: Config): (r: Result<Headers>)
    ensures !Truthy(GetOr(config, "auth_data", Null)) ==> r == Err(NoCredentials)
    ensures r.Ok? <==> GetOr(config, "auth_data", Null).Dict? && Truthy(GetOr(config, "auth_data", Null))
    ensures r.Ok? ==> CredentialsOf(r.value) == Some(Credentials(GetOr(config, "auth_data", Null).entries))
    ensures r.Ok? ==> r.value.Keys == {"Authorization"}
  {
    var data := GetOr(config, "auth_data", Null);
    if !Truthy(data) then Err(NoCredentials)
    else if !data.Dict? then Err(WrongType("auth_data"))
    else
      CredentialsOfBasicHeader(Credentials(data.entries));
      Ok(BasicHeader(Credentials(data.entries)))
  }

  /** The `requests.post` OAuth makes. */
  datatype TokenPost = TokenPost(url: string, data: Value)

  /** What `mds_oauth` did: the request it sent, if any, and its outcome. */
  datatype Login = Login(post: Option<TokenPost>, result: Result<Headers>)

  /** `mds_oauth`, given the JSON object the token endpoint answers with. */
  function OAuthLogin(config: Config, tokenResponse: map<string, Value>): (l: Login)
    ensures !Truthy(GetOr(config, "token_url", Null)) ==> l == Login(None, Err(NoTokenUrl))
    ensures l.post.Some? <==> GetOr(config, "token_url", Null).Str? && Truthy(GetOr(config, "token_url", Null))
    ensures l.post.Some? ==> l.post.value == TokenPost(GetOr(config, "token_url", Null).s, GetOr(config, "auth_data", Dict(map[])))
    ensures l.post.Some? && !Truthy(GetOr(config, "auth_token_res_key", Null)) ==> l.result == Err(NoTokenResKey)
    ensures l.result.Ok? <==>
              && l.post.Some?
              && GetOr(config, "auth_token_res_key", Null).Str?
              && GetOr(config, "auth_token_res_key", Null).s != ""
              && GetOr(config, "auth_token_res_key", Null).s in tokenResponse
              && tokenResponse[GetOr(config, "auth_token_res_key", Null).s].Str?
              && tokenResponse[GetOr(config, "auth_token_res_key", Null).s].s != ""
    ensures l.result.Ok? ==>
              && l.result.value.Keys == {"Authorization"}
              && TokenOf(l.result.value) == Some(tokenResponse[GetOr(config, "auth_token_res_key", Null).s].s)
  {
    var url := GetOr(config, "token_url", Null);
    if !Truthy(url) then Login(None, Err(NoTokenUrl))
    else if !url.Str? then Login(None, Err(WrongType("token_url")))
    else
      var post := TokenPost(url.s, GetOr(config, "auth_data", Dict(map[])));
      var key := GetOr(config, "auth_token_res_key", Null);
      if !Truthy(key) then Login(Some(post), Err(NoTokenResKey))
      else if key.Dict? then Login(Some(post), Err(WrongType("auth_token_res_key")))
      else
        var token := if key.Str? && key.s in tokenResponse then tokenResponse[key.s] else Null;
        if !Truthy(token) then Login(Some(post), Err(TokenNotResolved))
        else if !token.Str? then Login(Some(post), Err(WrongType("token")))
        else
          TokenOfBearerHeader(token.s);
          Login(Some(post), Ok(BearerHeader(token.s)))
  }

  /** A custom authentication function: given the configuration, the
      headers it returns (`None` when it returns nothing). */
  type CustomAuth = Config -> Option<Headers>

  /** What `authenticate()` did: the token request, the value it returned
      (or the exception it raised), and what it left in `self.headers`. */
  datatype AuthOutcome = AuthOutcome(post: Option<TokenPost>, result: Result<Option<Headers>>, stored: Option<Headers>)

  /** `authenticate()`, the method `__init__` picked. The built-in methods
      store the headers they return; the custom one only returns what the
      function gives back. */
  function Authenticate(kind: AuthKind, config: Config, tokenResponse: map<string, Value>,
                        custom: Option<CustomAuth>): (o: AuthOutcome)
    ensures o.post.Some? ==> kind == OAuth
    ensures kind != Custom ==> (o.result.Ok? <==> o.stored.Some?) && (o.result.Ok? ==> o.result.value == o.stored)
    ensures kind == Custom ==> o.stored.None?
    ensures kind == Custom && custom.Some? ==> o.result == Ok(custom.value(config))
    ensures kind == Custom && custom.None? ==> o.result.Err?
    ensures kind == OAuth ==>
              && o.post == OAuthLogin(config, tokenResponse).post
              && (OAuthLogin(config, tokenResponse).result.Ok? ==> o.result == Ok(Some(OAuthLogin(config, tokenResponse).result.value)))
              && (OAuthLogin(config, tokenResponse).result.Err? ==> o.result == Err(OAuthLogin(config, tokenResponse).result.error))
    ensures kind == Bearer ==>
              && (BearerLogin(config).Ok? ==> o.result == Ok(Some(BearerLogin(config).value)))
              && (BearerLogin(config).Err? ==> o.result == Err(BearerLogin(config).error))
    ensures kind == Basic ==>
              && (BasicLogin(config).Ok? ==> o.result == Ok(Some(BasicLogin(config).value)))
              && (BasicLogin(config).Err? ==> o.result == Err(BasicLogin(config).error))
    ensures kind == Bearer && o.result.Ok? ==>
              && "token" in config && config["token"].Str?
              && TokenOf(o.result.value.value) == Some(config["token"].s)
    ensures kind == Basic && o.result.Ok? ==>
              && GetOr(config, "auth_data", Null).Dict?
              && CredentialsOf(o.result.value.value) == Some(Credentials(GetOr(config, "auth_data", Null).entries))
  {
    match kind
    case OAuth =>
      var l := OAuthLogin(config, tokenResponse);
      if l.result.Ok? then AuthOutcome(l.post, Ok(Some(l.result.value)), Some(l.result.value))
      else AuthOutcome(l.post, Err(l.result.error), None)
    case Bearer =>
      var r := BearerLogin(config);
      if r.Ok? then AuthOutcome(None, Ok(Some(r.value)), Some(r.value))
      else AuthOutcome(None, Err(r.error), None)
    case Basic =>
      var r := BasicLogin(config);
      if r.Ok? then AuthOutcome(None, Ok(Some(r.value)), Some(r.value))
      else AuthOutcome(None, Err(r.error), None)
    case Custom =>
      if custom.None? then AuthOutcome(None, Err(NotCallable("custom_function")), None)
      else AuthOutcome(None, Ok(custom.value(config)), None)
  }
}

/** `GraphApi`: the version setting and the option-to-request computation of
    `sendRequest`. The HTTP exchange itself is not part of this model. */
module GraphApi {
  import opened Wrappers
  import opened Strings
  import opened Js

  const GRAPH_HOST: string := "https://graph.facebook.com"
  const DEFAULT_VERSION: string := "v3.0"
  const ACCESS_TOKEN: string := "access_token"

  /** The client: its page token and current API version. */
  datatype ApiState = ApiState(pageToken: string, version: string)

  /** The stored version is only ever `''` or a formatted version. */
  predicate ValidVersion(version: string) {
    version == "" || StartsWith(version, "v")
  }

  type Api = a: ApiState | ValidVersion(a.version) witness ApiState("", "")

  function NewApi(pageToken: string): (a: Api)
    ensures a.pageToken == pageToken && a.version == DEFAULT_VERSION
  {
    ApiState(pageToken, DEFAULT_VERSION)
  }

  /** `formatApiVersion`: nothing for an empty version, otherwise the version
      with a leading `v`. */
  function FormatApiVersion(version: string): (r: Option<string>)
    ensures r.None? <==> version == ""
    ensures r.Some? ==> StartsWith(r.value, "v")
    ensures StartsWith(version, "v") ==> r == Some(version)
    ensures r.Some? ==> r.value == version || r.value == "v" + version
  {
    if version == "" then None
    else if StartsWith(version, "v") then Some(version)
    else Some("v" + version)
  }

  /** Formatting a formatted version changes nothing. */
  lemma FormatApiVersionIdempotent(version: string)
    requires version != ""
    ensures FormatApiVersion(FormatApiVersion(version).value) == FormatApiVersion(version)
  {
  }

  /** `setApiVersion`: stores the formatted version, or `''`, and returns it. */
  function SetApiVersion(api: Api, version: string): (res: (Api, string))
    ensures res.0.pageToken == api.pageToken
    ensures res.1 == res.0.version
    ensures version == "" ==> res.1 == ""
    ensures version != "" ==> Some(res.1) == FormatApiVersion(version)
  {
    var v := FormatApiVersion(version).GetOr("");
    (api.(version := v), v)
  }

  function GetApiVersion(api: Api): (v: string)
    ensures v == "" || StartsWith(v, "v")
  {
    api.version
  }

  /** What `setApiVersion` returns is what `getApiVersion` reports next. */
  lemma SetThenGet(api: Api, version: string)
    ensures GetApiVersion(SetApiVersion(api, version).0) == SetApiVersion(api, version).1
  {
  }

  /** `GraphRequestOptions`. */
  datatype Options = Options(
    apiVersion: Option<string>,
    qs: Option<map<string, string>>,
    path: Option<string>,
    verb: Option<string>,
    payload: Option<Json>,
    formData: Option<Json>)

  function EmptyOptions(): Options {
    Options(None, None, None, None, None, None)
  }

  /** The request body that is sent. */
  datatype Body = NoBody | JsonBody(json: Json) | FormBody(form: Json)

  /** The request handed to the HTTP client. */
  datatype Request = Request(uri: string, verb: string, params: map<string, string>, body: Body)

  predicate Present(j: Option<Json>) {
    j.Some? && Truthy(j.value)
  }

  /** `options.apiVersion || this.getApiVersion()`. */
  function EffectiveVersion(api: Api, o: Options): string {
    if Filled(o.apiVersion) then o.apiVersion.value else api.version
  }

  /** The query string after defaulting the access token. */
  function Params(api: Api, o: Options): map<string, string> {
    var qs := o.qs.GetOr(map[]);
    if Filled(Lookup(qs, ACCESS_TOKEN)) then qs else qs[ACCESS_TOKEN := api.pageToken]
  }

  /** `sendRequest` up to the HTTP call. Throws for a missing path, for a
      missing token, and for a payload or form that is not an object. */
  function SendRequest(api: Api, o: Options): (r: Result<Request>)
    ensures r.Ok? <==>
      && Filled(o.path)
      && (Filled(Lookup(o.qs.GetOr(map[]), ACCESS_TOKEN)) || api.pageToken != "")
      && (Present(o.payload) ==> IsObjectType(o.payload.value))
      && (Present(o.formData) ==> IsObjectType(o.formData.value))
    ensures r.Ok? ==>
      r.value.uri == GRAPH_HOST
        + (if EffectiveVersion(api, o) != "" then "/" + EffectiveVersion(api, o) else "")
        + o.path.value
    ensures r.Ok? && Filled(o.verb) ==> r.value.verb == ToUpper(o.verb.value)
    ensures r.Ok? && !Filled(o.verb) ==>
      r.value.verb == (if Present(o.payload) || Present(o.formData) then "POST" else "GET")
    ensures r.Ok? ==> ACCESS_TOKEN in r.value.params && r.value.params[ACCESS_TOKEN] != ""
    ensures r.Ok? && Filled(Lookup(o.qs.GetOr(map[]), ACCESS_TOKEN)) ==>
      r.value.params == o.qs.value
    ensures r.Ok? && !Filled(Lookup(o.qs.GetOr(map[]), ACCESS_TOKEN)) ==>
      r.value.params[ACCESS_TOKEN] == api.pageToken
    ensures r.Ok? ==> forall k :: k != ACCESS_TOKEN ==>
      (k in r.value.params <==> k in o.qs.GetOr(map[])) &&
      (k in r.value.params ==> r.value.params[k] == o.qs.value[k])
    ensures r.Ok? ==>
      r.value.body == (if Present(o.formData) then FormBody(o.formData.value)
                       else if Present(o.payload) then JsonBody(o.payload.value)
                       else NoBody)
  {
    var qs := o.qs.GetOr(map[]);
    if !Filled(o.path) then Err("Valid \"path\" property required")
    else if !Filled(Lookup(qs, ACCESS_TOKEN)) && api.pageToken == "" then Err("Page token is not set")
    else
      var version := EffectiveVersion(api, o);
      var uri := GRAPH_HOST + (if version != "" then "/" + version else "") + o.path.value;
      var verb :=
        if Filled(o.verb) then ToUpper(o.verb.value)
        else if Present(o.payload) || Present(o.formData) then "POST"
        else "GET";
      if Present(o.payload) && !IsObjectType(o.payload.value) then Err("Invalid request payload")
      else if Present(o.formData) && !IsObjectType(o.formData.value) then Err("Invalid formData")
      else
        var body := if Present(o.formData) then FormBody(o.formData.value)
                    else if Present(o.payload) then JsonBody(o.payload.value)
                    else NoBody;
        Ok(Request(uri, verb, Params(api, o), body))
  }

  /** An explicit `options.apiVersion` decides the uri whatever version the
      client is set to. */
  lemma ExplicitVersionOverrides(api1: Api, api2: Api, o: Options)
    requires Filled(o.apiVersion) && api1.pageToken == api2.pageToken
    ensures SendRequest(api1, o).Ok? == SendRequest(api2, o).Ok?
    ensures SendRequest(api1, o).Ok? ==> SendRequest(api1, o).value == SendRequest(api2, o).value
  {
  }

  /** Re-sending with the computed query string gives the same request: once
      the token is explicit, nothing is defaulted again. */
  lemma ResendIsStable(api: Api, o: Options)
    requires SendRequest(api, o).Ok?
    ensures SendRequest(api, o.(qs := Some(SendRequest(api, o).value.params))) == SendRequest(api, o)
  {
  }
}

/** `ProfileApi`: the Messenger Profile and user profile calls, stated in
    terms of the request each one hands to the HTTP client. */
module ProfileApi {
  import opened Wrappers
  import opened Strings
  import opened Js
  import opened GraphApi

  const PROFILE_PATH: string := "/me/messenger_profile"
  const FIELDS: string := "fields"

  /** The uri the client builds for `path` when no version is given. */
  function UriFor(api: Api, path: string): string {
    GRAPH_HOST + (if api.version != "" then "/" + api.version else "") + path
  }

  /** The options `call` builds. A `null` profile reaches the `in` operator
      and throws. */
  function CallOptions(profile: Json, path: Option<string>): (r: Result<Options>)
    ensures r.Err? <==> profile.Null?
    ensures r.Ok? ==> r.value.path == Some(if Filled(path) then path.value else PROFILE_PATH)
    ensures r.Ok? ==> r.value.apiVersion.None? && r.value.formData.None?
    ensures r.Ok? ==> (r.value.qs.Some? <==> profile.Str?)
    ensures r.Ok? && profile.Str? ==> r.value.qs == Some(map[FIELDS := profile.s])
    ensures r.Ok? ==> (r.value.payload.Some? <==> IsObjectType(profile))
    ensures r.Ok? && r.value.payload.Some? ==> r.value.payload.value == profile
    ensures r.Ok? ==> (r.value.verb.Some? <==> HasTruthyKey(profile, FIELDS))
    ensures r.Ok? && r.value.verb.Some? ==> r.value.verb.value == "DELETE"
  {
    var o := EmptyOptions().(path := Some(if Filled(path) then path.value else PROFILE_PATH));
    match profile
    case Str(s) => Ok(o.(qs := Some(map[FIELDS := s])))
    case Null => Err("Cannot use 'in' operator to search for 'fields' in null")
    case Object(_) =>
      var withPayload := o.(payload := Some(profile));
      Ok(if HasTruthyKey(profile, FIELDS) then withPayload.(verb := Some("DELETE")) else withPayload)
    case Arr(_) => Ok(o.(payload := Some(profile)))
    case _ => Ok(o)
  }

  /** `call`: build the options, then send them. */
  function Call(api: Api, profile: Json, path: Option<string>): (r: Result<Request>)
    ensures r.Ok? <==> !profile.Null? && api.pageToken != ""
    ensures r.Ok? ==> r.value.uri == UriFor(api, if Filled(path) then path.value else PROFILE_PATH)
    ensures r.Ok? ==> ACCESS_TOKEN in r.value.params && r.value.params[ACCESS_TOKEN] == api.pageToken
    ensures r.Ok? && profile.Str? ==>
      r.value.verb == "GET" && r.value.body == NoBody &&
      r.value.params == map[FIELDS := profile.s, ACCESS_TOKEN := api.pageToken]
    ensures r.Ok? && profile.Object? ==>
      r.value.body == JsonBody(profile) &&
      r.value.verb == (if HasTruthyKey(profile, FIELDS) then "DELETE" else "POST")
    ensures r.Ok? && profile.Arr? ==> r.value.body == JsonBody(profile) && r.value.verb == "POST"
  {
    var o :- CallOptions(profile, path);
    SendRequest(api, o)
  }

  /** `setMessengerProfile`: the fields must be a non-null object; they are
      posted to the profile endpoint unless they carry a truthy `fields`
      key, in which case `call` turns the request into a DELETE. */
  function SetMessengerProfile(api: Api, fields: Json): (r: Result<Request>)
    ensures r.Ok? <==> Truthy(fields) && IsObjectType(fields) && api.pageToken != ""
    ensures r.Ok? ==> r.value.uri == UriFor(api, PROFILE_PATH) && r.value.body == JsonBody(fields)
    ensures r.Ok? ==> r.value.verb == (if HasTruthyKey(fields, FIELDS) then "DELETE" else "POST")
  {
    if !Truthy(fields) || !IsObjectType(fields) then Err("Valid fields object required")
    else Call(api, fields, None)
  }

  /** `deleteMessengerProfile`: the field names are wrapped as `{fields}`,
      which always makes `call` send a DELETE. */
  function DeleteMessengerProfile(api: Api, fields: Json): (r: Result<Request>)
    ensures r.Ok? <==> fields.Arr? && api.pageToken != ""
    ensures r.Ok? ==>
      r.value.verb == "DELETE" && r.value.uri == UriFor(api, PROFILE_PATH) &&
      r.value.body == JsonBody(Object(map[FIELDS := fields]))
  {
    if !fields.Arr? then Err("Valid fields array required")
    else Call(api, Object(map[FIELDS := fields]), None)
  }

  /** `getUserProfile`: a GET on the user's PSID asking for `userFields`. */
  function GetUserProfile(api: Api, psid: string, userFields: string): (r: Result<Request>)
    ensures r.Ok? <==> api.pageToken != ""
    ensures r.Ok? ==>
      r.value.verb == "GET" && r.value.body == NoBody &&
      r.value.uri == UriFor(api, "/" + psid) &&
      r.value.params == map[FIELDS := userFields, ACCESS_TOKEN := api.pageToken]
  {
    Call(api, Str(userFields), Some("/" + psid))
  }
}

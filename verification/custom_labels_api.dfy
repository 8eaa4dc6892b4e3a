/** `CustomLabelsApi`: the custom label calls, pinned to their own Graph API
    version, stated in terms of the request each one hands to the HTTP
    client. */
module CustomLabelsApi {
  import opened Wrappers
  import opened Strings
  import opened Js
  import opened GraphApi

  const LABELS_VERSION: string := "v2.11"
  const LABELS_PATH: string := "/me/custom_labels"

  /** The uri of every labels request: the pinned version, then the path. */
  function LabelsUri(path: string): string {
    GRAPH_HOST + "/" + LABELS_VERSION + path
  }

  /** `callCustomLabelsApi`: pins the version and defaults the path. */
  function CallLabelsApi(api: Api, o: Options): (r: Result<Request>)
    ensures r.Ok? <==>
      && (Filled(Lookup(o.qs.GetOr(map[]), ACCESS_TOKEN)) || api.pageToken != "")
      && (Present(o.payload) ==> IsObjectType(o.payload.value))
      && (Present(o.formData) ==> IsObjectType(o.formData.value))
    ensures r.Ok? ==> r.value.uri == LabelsUri(if Filled(o.path) then o.path.value else LABELS_PATH)
  {
    var pinned := o.(apiVersion := Some(LABELS_VERSION));
    SendRequest(api, if Filled(o.path) then pinned else pinned.(path := Some(LABELS_PATH)))
  }

  function UserPayload(psid: string): Json {
    Object(map["user" := Str(psid)])
  }

  /** `createCustomLabel`: posts `{name}` to the labels collection. */
  function CreateCustomLabel(api: Api, name: string): (r: Result<Request>)
    ensures r.Ok? <==> name != "" && api.pageToken != ""
    ensures r.Ok? ==>
      r.value.uri == LabelsUri(LABELS_PATH) && r.value.verb == "POST" &&
      r.value.body == JsonBody(Object(map["name" := Str(name)])) &&
      r.value.params == map[ACCESS_TOKEN := api.pageToken]
  {
    if name == "" then Err("name required")
    else CallLabelsApi(api, EmptyOptions().(payload := Some(Object(map["name" := Str(name)]))))
  }

  /** `getCustomLabelById`: reads the id and name of one label. */
  function GetCustomLabelById(api: Api, labelId: string): (r: Result<Request>)
    ensures r.Ok? <==> labelId != "" && api.pageToken != ""
    ensures r.Ok? ==>
      r.value.uri == LabelsUri("/" + labelId) && r.value.verb == "GET" &&
      r.value.body == NoBody &&
      r.value.params == map["fields" := "id,name", ACCESS_TOKEN := api.pageToken]
  {
    if labelId == "" then Err("label_id required")
    else CallLabelsApi(api, EmptyOptions().(path := Some("/" + labelId), qs := Some(map["fields" := "id,name"])))
  }

  /** `deleteCustomLabel`: a DELETE on the label. */
  function DeleteCustomLabel(api: Api, labelId: string): (r: Result<Request>)
    ensures r.Ok? <==> labelId != "" && api.pageToken != ""
    ensures r.Ok? ==>
      r.value.uri == LabelsUri("/" + labelId) && r.value.verb == "DELETE" && r.value.body == NoBody
  {
    if labelId == "" then Err("label_id required")
    else CallLabelsApi(api, EmptyOptions().(verb := Some("DELETE"), path := Some("/" + labelId)))
  }

  /** `addPsidtoCustomLabel`: posts `{user}` to the label's `/label` edge. */
  function AddPsidToCustomLabel(api: Api, psid: string, labelId: string): (r: Result<Request>)
    ensures r.Ok? <==> psid != "" && labelId != "" && api.pageToken != ""
    ensures r.Ok? ==>
      r.value.uri == LabelsUri("/" + labelId + "/label") && r.value.verb == "POST" &&
      r.value.body == JsonBody(UserPayload(psid))
  {
    if psid == "" || labelId == "" then Err("PSID and label_id required")
    else CallLabelsApi(api, EmptyOptions().(path := Some("/" + labelId + "/label"), payload := Some(UserPayload(psid))))
  }

  /** `removePsidfromCustomLabel`: the same request as adding, as a DELETE. */
  function RemovePsidFromCustomLabel(api: Api, psid: string, labelId: string): (r: Result<Request>)
    ensures r.Ok? <==> psid != "" && labelId != "" && api.pageToken != ""
    ensures r.Ok? ==>
      r.value.uri == LabelsUri("/" + labelId + "/label") && r.value.verb == "DELETE" &&
      r.value.body == JsonBody(UserPayload(psid))
  {
    if psid == "" || labelId == "" then Err("PSID and label_id required")
    else CallLabelsApi(api, EmptyOptions().(verb := Some("DELETE"), path := Some("/" + labelId + "/label"), payload := Some(UserPayload(psid))))
  }

  /** Adding and removing a PSID address the same resource with the same
      body and differ only in the verb. */
  lemma AddRemoveDifferOnlyInVerb(api: Api, psid: string, labelId: string)
    requires AddPsidToCustomLabel(api, psid, labelId).Ok?
    ensures RemovePsidFromCustomLabel(api, psid, labelId).Ok?
    ensures RemovePsidFromCustomLabel(api, psid, labelId).value ==
      AddPsidToCustomLabel(api, psid, labelId).value.(verb := "DELETE")
  {
  }

  /** The labels calls ignore the version the client is set to. */
  lemma LabelsIgnoreClientVersion(api: Api, v: string, o: Options)
    ensures CallLabelsApi(api, o) == CallLabelsApi(SetApiVersion(api, v).0, o)
  {
  }
}

/**
 * What every accessor shares: the client's base URL and default headers, the
 * request an accessor would send, the errors it can raise, and the
 * `Include-Source-Data` header.
 */
module Api {
  import opened Text

  const BaseUrl: string := "https://api.agaveapi.com"
  const ApiVersion: string := "2021-11-21"

  const ApiVersionHeader: string := "API-Version"
  const ClientIdHeader: string := "Client-Id"
  const ClientSecretHeader: string := "Client-Secret"
  const AccountTokenHeader: string := "Account-Token"
  const ProjectIdHeader: string := "Project-Id"
  const IncludeSourceDataHeader: string := "Include-Source-Data"

  const AccountTokenRequired: string := "Account token is required"
  const ProjectIdRequired: string := "Project ID is required"

  type Headers = map<string, string>

  /** The part of an `AgaveClient` the accessors read: where to send requests and the headers they start from. */
  datatype AgaveClient = AgaveClient(baseUrl: string, headers: Headers)

  /** A GET request: the URL and the headers as they stood when it was sent. */
  datatype Request = Request(url: string, headers: Headers)

  /** What a call can raise. */
  datatype Error =
    | ValueError(message: string)   // a required credential is missing
    | NotFound(resource: string)    // the remote holds no record for the requested path
    | TypeError                     // a fetched `folders` value is not a list of objects
    | KeyError(key: string)         // a folder stub lacks a key that is read

  /** A fresh client: the fixed base URL and the three default headers, and no credential header yet. */
  function NewAgaveClient(clientId: string, clientSecret: string): (c: AgaveClient)
    ensures c.baseUrl == BaseUrl
    ensures c.headers.Keys == {ApiVersionHeader, ClientIdHeader, ClientSecretHeader}
    ensures c.headers[ApiVersionHeader] == ApiVersion
    ensures c.headers[ClientIdHeader] == clientId && c.headers[ClientSecretHeader] == clientSecret
    ensures AccountTokenHeader !in c.headers && ProjectIdHeader !in c.headers
    ensures IncludeSourceDataHeader !in c.headers
  {
    AgaveClient(BaseUrl, map[ApiVersionHeader := ApiVersion,
                             ClientIdHeader := clientId,
                             ClientSecretHeader := clientSecret])
  }

  /**
   * The headers after `if include_source_fields: headers["Include-Source-Data"] = ",".join(...)`.
   * A Python `None` list and an empty list are both falsy, so both are the empty sequence here.
   */
  function WithSourceFields(h: Headers, fields: seq<string>): (r: Headers)
    ensures |fields| == 0 ==> r == h
    ensures |fields| > 0 ==> IncludeSourceDataHeader in r
    ensures r.Keys == h.Keys + (if |fields| > 0 then {IncludeSourceDataHeader} else {})
    ensures forall k :: k in h && k != IncludeSourceDataHeader ==> r[k] == h[k]
  {
    if |fields| > 0 then h[IncludeSourceDataHeader := Join(fields, ',')] else h
  }

  /**
   * The `Include-Source-Data` value names the requested fields again: splitting it at
   * the commas gives back the list, as long as no field name holds a comma.
   */
  lemma SourceFieldsRecoverable(h: Headers, fields: seq<string>)
    requires |fields| > 0
    requires forall i :: 0 <= i < |fields| ==> ',' !in fields[i]
    ensures Split(WithSourceFields(h, fields)[IncludeSourceDataHeader], ',') == fields
  {
    SplitJoin(fields, ',');
  }

  /** Setting the same field list twice is the same as setting it once. */
  lemma SourceFieldsIdempotent(h: Headers, fields: seq<string>)
    ensures WithSourceFields(WithSourceFields(h, fields), fields) == WithSourceFields(h, fields)
  {
  }
}

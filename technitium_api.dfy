/** The DNS server's HTTP management API, seen from the connector. The HTTP
    client, `io.ReadAll` and `json.Unmarshal` are not modelled; each request
    instead has an abstract outcome, chosen by a server oracle that the
    operations take as a parameter. */
module TechnitiumApi {

  /** `technitiumConnector`: a server base URL and an API token. Never changed
      after construction. */
  datatype Connector = Connector(serverUrl: string, authToken: string)

  /** `newTechnitiumConnector(serverURL, token)`. */
  function NewConnector(serverUrl: string, token: string): (c: Connector)
    ensures c.serverUrl == serverUrl && c.authToken == token
  {
    Connector(serverUrl, token)
  }

  /** What one zone-lookup GET (`/api/zones/records/get`) can come to: the
      request fails, the body cannot be read, the body is not JSON, or the JSON
      decodes to a status and the zone's `disabled` flag. */
  datatype LookupOutcome =
    | LookupTransportErr
    | LookupReadErr
    | LookupParseErr
    | Decoded(status: string, disabled: bool)

  /** Which record endpoint a form is posted to: `AddRecord` stands for
      `/api/zones/records/add`, `DeleteRecord` for `/api/zones/records/delete`. */
  datatype RecordOp = AddRecord | DeleteRecord

  /** `url.Values` as filled with `Set`: one value per field name. */
  type Form = map<string, string>

  /** What one record POST can come to: the request fails, the body cannot be
      read, the body is not JSON, or it decodes to a status and an error
      message (empty when the server sends none). */
  datatype PostOutcome =
    | PostTransportErr
    | PostReadErr
    | PostParseErr
    | Replied(status: string, errorMessage: string)
}

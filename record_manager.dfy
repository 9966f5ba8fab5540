/** TXT-record creation and deletion (`createTXTRecord`, `deleteTXTRecord`):
    both normalise the names, fill a form, post it, and classify the answer.
    Deletion also accepts the server's "not found" answer, so deleting an
    absent record succeeds. */
module RecordManager {
  import opened Outcomes
  import opened GoStrings
  import opened TechnitiumApi

  /** Why a record operation failed: the POST failed, the body could not be
      read, the body was not JSON, or the server answered with a status other
      than "ok" (carrying its `errorMessage`). */
  datatype RecordError =
    | RequestFailed
    | BodyUnreadable
    | ResponseUnparsable
    | ApiError(message: string)

  /** The form posted to `/api/zones/records/add`. */
  function AddForm(c: Connector, zone: string, fqdn: string, value: string, ttl: int): Form {
    map["token" := c.authToken,
        "domain" := TrimDot(fqdn),
        "zone" := TrimDot(zone),
        "type" := "TXT",
        "ttl" := FormatInt(ttl),
        "text" := value,
        "splitText" := "false"]
  }

  /** The form posted to `/api/zones/records/delete`. */
  function DeleteForm(c: Connector, zone: string, fqdn: string, value: string): Form {
    map["token" := c.authToken,
        "domain" := TrimDot(fqdn),
        "zone" := TrimDot(zone),
        "type" := "TXT",
        "text" := value,
        "splitText" := "false"]
  }

  /** The add form carries the token, the owner name and the zone without
      their trailing dot, type TXT, the unsplit value and the TTL as a decimal
      numeral that reads back as `ttl`; nothing else. */
  lemma AddFormFields(c: Connector, zone: string, fqdn: string, value: string, ttl: int)
    ensures var f := AddForm(c, zone, fqdn, value, ttl);
            && f.Keys == {"token", "domain", "zone", "type", "ttl", "text", "splitText"}
            && f["token"] == c.authToken
            && f["domain"] == TrimDot(fqdn) && (f["domain"] == fqdn || f["domain"] + "." == fqdn)
            && f["zone"] == TrimDot(zone) && (f["zone"] == zone || f["zone"] + "." == zone)
            && f["type"] == "TXT" && f["text"] == value && f["splitText"] == "false"
            && ParseInt(f["ttl"]) == ttl
  {
    ParseFormatInt(ttl);
  }

  /** The delete form identifies the record by the same fields as the add
      form, and carries no TTL. */
  lemma DeleteFormIsAddFormWithoutTtl(c: Connector, zone: string, fqdn: string, value: string, ttl: int)
    ensures DeleteForm(c, zone, fqdn, value) == AddForm(c, zone, fqdn, value, ttl) - {"ttl"}
    ensures "ttl" !in DeleteForm(c, zone, fqdn, value)
  {
  }

  /** The one place that decides that a failed delete means the record is
      already gone: the lower-cased server message contains "not found". */
  predicate IsNotFoundMessage(message: string)
    ensures IsNotFoundMessage(message) <==> exists i: nat :: OccursAt(ToLower(message), "not found", i)
  {
    ContainsIffOccurs(ToLower(message), "not found");
    Contains(ToLower(message), "not found")
  }

  /** The check is case-insensitive: any spelling of "not found" anywhere in
      the message ("Record Not Found", "NOT FOUND", ...) is recognised. */
  lemma NotFoundAnyCase(message: string, i: nat, j: nat)
    requires i <= j <= |message| && ToLower(message[i..j]) == "not found"
    ensures IsNotFoundMessage(message)
  {
    ToLowerSlice(message, i, j);
    assert OccursAt(ToLower(message), "not found", i);
    ContainsIffOccurs(ToLower(message), "not found");
  }

  /** How `createTXTRecord` reads the server's answer. */
  function ClassifyCreate(response: PostOutcome): (r: Outcome<RecordError>)
    ensures r.Pass? <==> response.Replied? && response.status == "ok"
    ensures response.PostTransportErr? ==> r == Fail(RequestFailed)
    ensures response.PostReadErr? ==> r == Fail(BodyUnreadable)
    ensures response.PostParseErr? ==> r == Fail(ResponseUnparsable)
    ensures response.Replied? && response.status != "ok" ==> r == Fail(ApiError(response.errorMessage))
  {
    match response
    case PostTransportErr => Fail(RequestFailed)
    case PostReadErr => Fail(BodyUnreadable)
    case PostParseErr => Fail(ResponseUnparsable)
    case Replied(status, message) =>
      if status != "ok" then Fail(ApiError(message)) else Pass
  }

  /** How `deleteTXTRecord` reads the server's answer. */
  function ClassifyDelete(response: PostOutcome): (r: Outcome<RecordError>)
    ensures r.Pass? <==> response.Replied? && (response.status == "ok" || IsNotFoundMessage(response.errorMessage))
    ensures response.PostTransportErr? ==> r == Fail(RequestFailed)
    ensures response.PostReadErr? ==> r == Fail(BodyUnreadable)
    ensures response.PostParseErr? ==> r == Fail(ResponseUnparsable)
    ensures response.Replied? && response.status != "ok" && !IsNotFoundMessage(response.errorMessage)
            ==> r == Fail(ApiError(response.errorMessage))
  {
    match response
    case PostTransportErr => Fail(RequestFailed)
    case PostReadErr => Fail(BodyUnreadable)
    case PostParseErr => Fail(ResponseUnparsable)
    case Replied(status, message) =>
      if status != "ok" then
        if IsNotFoundMessage(message) then Pass else Fail(ApiError(message))
      else Pass
  }

  /** Delete accepts every answer create accepts, and on any other answer the
      two agree unless the message says "not found". */
  lemma DeleteIsCreateOrNotFound(response: PostOutcome)
    ensures ClassifyDelete(response) ==
              if response.Replied? && IsNotFoundMessage(response.errorMessage) then Pass
              else ClassifyCreate(response)
  {
  }

  /** What `createTXTRecord(zone, fqdn, value, ttl)` returns against the server `post`. */
  function CreateResult(c: Connector, zone: string, fqdn: string, value: string, ttl: int,
                        post: (Connector, RecordOp, Form) -> PostOutcome): (r: Outcome<RecordError>)
    ensures var response := post(c, AddRecord, AddForm(c, zone, fqdn, value, ttl));
            (r.Pass? <==> response.Replied? && response.status == "ok")
            && (response.Replied? && response.status != "ok" ==> r == Fail(ApiError(response.errorMessage)))
  {
    ClassifyCreate(post(c, AddRecord, AddForm(c, zone, fqdn, value, ttl)))
  }

  /** What `deleteTXTRecord(zone, fqdn, value)` returns against the server `post`. */
  function DeleteResult(c: Connector, zone: string, fqdn: string, value: string,
                        post: (Connector, RecordOp, Form) -> PostOutcome): (r: Outcome<RecordError>)
    ensures var response := post(c, DeleteRecord, DeleteForm(c, zone, fqdn, value));
            (r.Pass? <==> response.Replied? && (response.status == "ok" || IsNotFoundMessage(response.errorMessage)))
            && (response.Replied? && response.status != "ok" && !IsNotFoundMessage(response.errorMessage)
                ==> r == Fail(ApiError(response.errorMessage)))
  {
    ClassifyDelete(post(c, DeleteRecord, DeleteForm(c, zone, fqdn, value)))
  }

  /** `createTXTRecord`: fills the form field by field, posts it to the add
      endpoint and returns at the first failure. */
  method CreateTXTRecord(c: Connector, zone: string, fqdn: string, value: string, ttl: int,
                         post: (Connector, RecordOp, Form) -> PostOutcome)
    returns (r: Outcome<RecordError>)
    ensures r == ClassifyCreate(post(c, AddRecord, AddForm(c, zone, fqdn, value, ttl)))
    ensures var response := post(c, AddRecord, AddForm(c, zone, fqdn, value, ttl));
            r.Pass? <==> response.Replied? && response.status == "ok"
  {
    var domain := TrimDot(fqdn);
    var zoneName := TrimDot(zone);
    var data: Form := map[];
    data := data["token" := c.authToken];
    data := data["domain" := domain];
    data := data["zone" := zoneName];
    data := data["type" := "TXT"];
    data := data["ttl" := FormatInt(ttl)];
    data := data["text" := value];
    data := data["splitText" := "false"];
    assert data == AddForm(c, zone, fqdn, value, ttl);
    var response := post(c, AddRecord, data);
    if response.PostTransportErr? {
      return Fail(RequestFailed);
    }
    if response.PostReadErr? {
      return Fail(BodyUnreadable);
    }
    if response.PostParseErr? {
      return Fail(ResponseUnparsable);
    }
    if response.status != "ok" {
      return Fail(ApiError(response.errorMessage));
    }
    return Pass;
  }

  /** `deleteTXTRecord`: fills the form field by field (no TTL), posts it to
      the delete endpoint and returns at the first failure, except that a
      non-ok answer saying "not found" counts as success. */
  method DeleteTXTRecord(c: Connector, zone: string, fqdn: string, value: string,
                         post: (Connector, RecordOp, Form) -> PostOutcome)
    returns (r: Outcome<RecordError>)
    ensures r == ClassifyDelete(post(c, DeleteRecord, DeleteForm(c, zone, fqdn, value)))
    ensures var response := post(c, DeleteRecord, DeleteForm(c, zone, fqdn, value));
            r.Pass? <==> response.Replied? && (response.status == "ok" || IsNotFoundMessage(response.errorMessage))
  {
    var domain := TrimDot(fqdn);
    var zoneName := TrimDot(zone);
    var data: Form := map[];
    data := data["token" := c.authToken];
    data := data["domain" := domain];
    data := data["zone" := zoneName];
    data := data["type" := "TXT"];
    data := data["text" := value];
    data := data["splitText" := "false"];
    assert data == DeleteForm(c, zone, fqdn, value);
    var response := post(c, DeleteRecord, data);
    if response.PostTransportErr? {
      return Fail(RequestFailed);
    }
    if response.PostReadErr? {
      return Fail(BodyUnreadable);
    }
    if response.PostParseErr? {
      return Fail(ResponseUnparsable);
    }
    if response.status != "ok" {
      if IsNotFoundMessage(response.errorMessage) {
        return Pass;
      }
      return Fail(ApiError(response.errorMessage));
    }
    return Pass;
  }
}

/**
 * A partner target: one configured HTTP destination of the fanout, with its
 * authentication mode and credential, its validation rules and its
 * redacted view.
 */
module Partner {
  import opened Wrappers
  import opened JsonValue

  /** The text that stands in for the credential in every redacted view. */
  const Redaction: string := "***REDACTED***"

  datatype PartnerTarget = PartnerTarget(
    name: string,
    url: string,
    authType: string,
    apiKey: string,
    headerName: Option<string>)

  /** Why a target was refused. */
  datatype TargetError =
    | FieldInvalid(field: string)   // a field missing, of the wrong type, or violating its constraint
    | AuthTypeInvalid               // auth_type is neither "bearer" nor "header"
    | HeaderNameRequired            // auth_type "header" without a non-empty header_name

  /** Python truthiness of an optional string: present and non-empty. */
  predicate Truthy(h: Option<string>) {
    h.Some? && h.value != ""
  }

  /** The authentication rule: bearer always, header only with a header name. */
  predicate AuthRuleHolds(authType: string, headerName: Option<string>) {
    authType == "bearer" || (authType == "header" && Truthy(headerName))
  }

  /**
   * Everything the model of a target demands: non-empty name and key, a URL
   * the URL validator accepts, and the authentication rule.
   */
  predicate ValidTarget(t: PartnerTarget, urlOk: string -> bool) {
    |t.name| >= 1 && urlOk(t.url) && |t.apiKey| >= 1 && AuthRuleHolds(t.authType, t.headerName)
  }

  /** The after-validator: checks auth_type first, then the header name. */
  function ValidateAuth(t: PartnerTarget): (r: Result<PartnerTarget, TargetError>)
    ensures r.Ok? <==> AuthRuleHolds(t.authType, t.headerName)
    ensures r.Ok? ==> r.value == t
    ensures r == Err(AuthTypeInvalid) <==> t.authType != "bearer" && t.authType != "header"
    ensures r == Err(HeaderNameRequired) <==> t.authType == "header" && !Truthy(t.headerName)
  {
    if t.authType !in {"bearer", "header"} then Err(AuthTypeInvalid)
    else if t.authType == "header" && !Truthy(t.headerName) then Err(HeaderNameRequired)
    else Ok(t)
  }

  /** A required string field with a minimum length. */
  function RequiredString(fields: map<string, Json>, key: string, minLength: nat): (r: Result<string, TargetError>)
    ensures r.Ok? <==> key in fields && fields[key].JString? && |fields[key].s| >= minLength
    ensures r.Ok? ==> fields[key] == JString(r.value)
  {
    if key in fields && fields[key].JString? && |fields[key].s| >= minLength then Ok(fields[key].s)
    else Err(FieldInvalid(key))
  }

  /** An optional string field: absent or null is None, a string is Some. */
  function OptionalString(fields: map<string, Json>, key: string): (r: Result<Option<string>, TargetError>)
    ensures r.Ok? <==> key !in fields || fields[key].JNull? || fields[key].JString?
    ensures r == Ok(None) <==> key !in fields || fields[key].JNull?
    ensures r.Ok? && r.value.Some? ==> fields[key] == JString(r.value.value)
  {
    if key !in fields || fields[key].JNull? then Ok(None)
    else if fields[key].JString? then Ok(Some(fields[key].s))
    else Err(FieldInvalid(key))
  }

  /** True when the JSON object `item` spells out exactly the fields of `t`. */
  predicate Describes(item: Json, t: PartnerTarget) {
    && item.JObject?
    && "name" in item.fields && item.fields["name"] == JString(t.name)
    && "url" in item.fields && item.fields["url"] == JString(t.url)
    && "auth_type" in item.fields && item.fields["auth_type"] == JString(t.authType)
    && "api_key" in item.fields && item.fields["api_key"] == JString(t.apiKey)
    && (if t.headerName.None?
        then "header_name" !in item.fields || item.fields["header_name"].JNull?
        else "header_name" in item.fields && item.fields["header_name"] == JString(t.headerName.value))
  }

  /**
   * `PartnerTarget.model_validate(item)`: field validation first, then the
   * authentication rule.  Keys other than the five fields are ignored.
   */
  function ValidateTarget(item: Json, urlOk: string -> bool): (r: Result<PartnerTarget, TargetError>)
    ensures forall t :: r == Ok(t) <==> Describes(item, t) && ValidTarget(t, urlOk)
  {
    if !item.JObject? then Err(FieldInvalid("__root__"))
    else
      var f := item.fields;
      var name := RequiredString(f, "name", 1);
      var url := RequiredString(f, "url", 0);
      var authType := RequiredString(f, "auth_type", 0);
      var apiKey := RequiredString(f, "api_key", 1);
      var headerName := OptionalString(f, "header_name");
      if name.Err? then Err(name.error)
      else if url.Err? then Err(url.error)
      else if !urlOk(url.value) then Err(FieldInvalid("url"))
      else if authType.Err? then Err(authType.error)
      else if apiKey.Err? then Err(apiKey.error)
      else if headerName.Err? then Err(headerName.error)
      else ValidateAuth(PartnerTarget(name.value, url.value, authType.value, apiKey.value, headerName.value))
  }

  /** The display form of a target: the credential is replaced. */
  datatype RedactedTarget = RedactedTarget(
    name: string,
    url: string,
    authType: string,
    headerName: Option<string>,
    apiKey: string)

  function Redacted(t: PartnerTarget): (r: RedactedTarget)
    ensures r.apiKey == Redaction
    ensures r.name == t.name && r.url == t.url && r.authType == t.authType && r.headerName == t.headerName
  {
    RedactedTarget(t.name, t.url, t.authType, t.headerName, Redaction)
  }

  /**
   * The redacted view carries no information about the credential: two
   * targets that differ only in their keys look the same, and the view's
   * key field holds the real key only if that key is the redaction text.
   */
  lemma RedactedHidesKey(t: PartnerTarget, otherKey: string)
    ensures Redacted(t) == Redacted(t.(apiKey := otherKey))
    ensures Redacted(t).apiKey == t.apiKey ==> t.apiKey == Redaction
  {
  }

  /** A header target whose header name is missing, null or empty never validates. */
  lemma RejectedHeaderTarget(item: Json, urlOk: string -> bool)
    requires item.JObject? && "auth_type" in item.fields
    requires item.fields["auth_type"] == JString("header")
    requires "header_name" !in item.fields || item.fields["header_name"] in {JNull, JString("")}
    ensures ValidateTarget(item, urlOk).Err?
  {
  }
}

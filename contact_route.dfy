/** The contact route: the body is checked against the contact schema (four strings with
    length bounds, the email through an email validator) and, when valid, stored once as a
    contact message. Schema failures give 400 with the issues; any other failure gives 500. */
module ContactRoute {
  import opened Values

  /** The four schema fields, in schema order. */
  const Fields: seq<string> := ["name", "email", "subject", "message"]

  /** A schema issue: the path of the offending value and the message reported. */
  datatype Issue = Issue(path: seq<string>, message: string)

  /** A stored contact message. */
  datatype ContactMessage = ContactMessage(name: string, email: string, subject: string, message: string)

  datatype Response = Sent | Invalid(errors: seq<Issue>) | SendFailed

  function Status(r: Response): (code: int)
    ensures code == 200 <==> r.Sent?
    ensures code == 400 <==> r.Invalid?
    ensures code == 500 <==> r.SendFailed?
  {
    match r
    case Sent => 200
    case Invalid(_) => 400
    case SendFailed => 500
  }

  /** The JSON type name used in "Expected string, received ..." messages. */
  function TypeName(v: Json): string {
    match v
    case JNull => "null"
    case JBool(_) => "boolean"
    case JNum(_) => "number"
    case JStr(_) => "string"
    case JArray(_) => "array"
    case JObject(_) => "object"
  }

  /** The length bounds of the string fields; the email has no length bound. */
  function MinLength(field: string): nat {
    match field
    case "name" => 2
    case "subject" => 3
    case "message" => 10
    case _ => 0
  }

  function MaxLength(field: string): nat {
    match field
    case "name" => 100
    case "subject" => 200
    case "message" => 2000
    case _ => 0
  }

  /** The message of a too-short value. */
  function TooShortMessage(field: string): string {
    match field
    case "name" => "Nome deve ter pelo menos 2 caracteres"
    case "subject" => "Assunto deve ter pelo menos 3 caracteres"
    case _ => "Mensagem deve ter pelo menos 10 caracteres"
  }

  /** The issue one field raises, if any. */
  function FieldIssue(field: string, v: Option<Json>, isEmail: string -> bool): (r: Option<Issue>)
    requires field in Fields
    ensures r.Some? ==> r.value.path == [field]
    ensures r.None? <==> (v.Some? && v.value.JStr? &&
      (if field == "email" then isEmail(v.value.s)
       else MinLength(field) <= |v.value.s| <= MaxLength(field)))
  {
    if v.None? then Some(Issue([field], "Required"))
    else if !v.value.JStr? then Some(Issue([field], "Expected string, received " + TypeName(v.value)))
    else
      var s := v.value.s;
      if field == "email" then
        if isEmail(s) then None else Some(Issue([field], "Email inválido"))
      else if |s| < MinLength(field) then Some(Issue([field], TooShortMessage(field)))
      else if |s| > MaxLength(field) then
        Some(Issue([field], "String must contain at most " + MaxText(field) + " character(s)"))
      else None
  }

  function MaxText(field: string): string {
    match field
    case "name" => "100"
    case "subject" => "200"
    case _ => "2000"
  }

  /** The issues of the fields in `fields`, in order. */
  function Issues(fields: seq<string>, body: Object, isEmail: string -> bool): (r: seq<Issue>)
    requires forall i :: 0 <= i < |fields| ==> fields[i] in Fields
    ensures forall i :: 0 <= i < |r| ==> |r[i].path| == 1 && r[i].path[0] in fields
  {
    if fields == [] then []
    else
      var v := if fields[0] in body then Some(body[fields[0]]) else None;
      var rest := Issues(fields[1..], body, isEmail);
      match FieldIssue(fields[0], v, isEmail)
      case Some(issue) => [issue] + rest
      case None => rest
  }

  /** Whether a field is valid in `body`. */
  predicate FieldValid(field: string, body: Object, isEmail: string -> bool)
    requires field in Fields
  {
    FieldIssue(field, if field in body then Some(body[field]) else None, isEmail).None?
  }

  /** Some issue has path `[k]` exactly when `k` is one of `fields` and invalid. */
  lemma {:induction false} IssuesExact(fields: seq<string>, body: Object, isEmail: string -> bool, k: string)
    requires forall i :: 0 <= i < |fields| ==> fields[i] in Fields
    ensures (exists i :: 0 <= i < |Issues(fields, body, isEmail)| && Issues(fields, body, isEmail)[i].path == [k])
      <==> k in fields && !FieldValid(k, body, isEmail)
  {
    if fields != [] {
      IssuesExact(fields[1..], body, isEmail, k);
      var f := fields[0];
      var r := Issues(fields, body, isEmail);
      var rest := Issues(fields[1..], body, isEmail);
      IssuesHead(fields, body, isEmail);
      if k in fields && k != f {
        assert k in fields[1..] by {
          var i :| 0 <= i < |fields| && fields[i] == k;
          assert fields[1..][i - 1] == k;
        }
      }
      if k in fields[1..] {
        assert k in fields;
      }
      if !FieldValid(f, body, isEmail) {
        assert forall i :: 1 <= i < |r| ==> r[i] == rest[i - 1];
        assert forall i :: 0 <= i < |rest| ==> rest[i] == r[i + 1];
      }
    }
  }

  /** The first field adds its issue in front of the others' when it is invalid, and nothing
      when it is valid. */
  lemma {:induction false} IssuesHead(fields: seq<string>, body: Object, isEmail: string -> bool)
    requires fields != [] && forall i :: 0 <= i < |fields| ==> fields[i] in Fields
    ensures var r := Issues(fields, body, isEmail);
      var rest := Issues(fields[1..], body, isEmail);
      && (FieldValid(fields[0], body, isEmail) ==> r == rest)
      && (!FieldValid(fields[0], body, isEmail) ==> |r| == |rest| + 1 && r[0].path == [fields[0]] && r[1..] == rest)
  {
  }

  /** What the POST does: its response and the message it stores, if any. */
  datatype Outcome = Outcome(response: Response, stored: Option<ContactMessage>)

  /** POST. `body` is `None` when the request body is not JSON; `isEmail` is the schema's email
      validator; `createOk` is the outcome of the database write. A body that is JSON but not
      an object fails the schema at the empty path. */
  function Post(body: Option<Json>, isEmail: string -> bool, createOk: bool): (o: Outcome)
    ensures o.stored.Some? <==> o.response.Sent?
    ensures body.None? ==> o.response == SendFailed
    ensures body.Some? && !body.value.JObject? ==> o.response.Invalid?
    ensures body.Some? && body.value.JObject? ==>
      var b := body.value.fields;
      && (o.response.Invalid? <==> exists k :: k in Fields && !FieldValid(k, b, isEmail))
      && (o.response.Sent? <==> createOk && forall k :: k in Fields ==> FieldValid(k, b, isEmail))
      && (o.response.Sent? ==>
            && "name" in b && b["name"] == JStr(o.stored.value.name)
            && "email" in b && b["email"] == JStr(o.stored.value.email)
            && "subject" in b && b["subject"] == JStr(o.stored.value.subject)
            && "message" in b && b["message"] == JStr(o.stored.value.message))
  {
    if body.None? then Outcome(SendFailed, None)
    else if !body.value.JObject? then
      Outcome(Invalid([Issue([], "Expected object, received " + TypeName(body.value))]), None)
    else
      var b := body.value.fields;
      var issues := Issues(Fields, b, isEmail);
      IssuesAllValid(b, isEmail);
      if issues != [] then Outcome(Invalid(issues), None)
      else
        var m := ContactMessage(b["name"].s, b["email"].s, b["subject"].s, b["message"].s);
        if createOk then Outcome(Sent, Some(m)) else Outcome(SendFailed, None)
  }

  /** The schema issue list is empty exactly when every field is valid. */
  lemma {:induction false} IssuesAllValid(body: Object, isEmail: string -> bool)
    ensures Issues(Fields, body, isEmail) == [] <==> forall k :: k in Fields ==> FieldValid(k, body, isEmail)
    ensures Issues(Fields, body, isEmail) == [] ==>
      && "name" in body && body["name"].JStr? && "email" in body && body["email"].JStr?
      && "subject" in body && body["subject"].JStr? && "message" in body && body["message"].JStr?
  {
    var r := Issues(Fields, body, isEmail);
    if r != [] {
      IssuesExact(Fields, body, isEmail, r[0].path[0]);
    } else {
      forall k | k in Fields
        ensures FieldValid(k, body, isEmail)
      {
        IssuesExact(Fields, body, isEmail, k);
      }
      assert FieldValid("name", body, isEmail);
      assert FieldValid("email", body, isEmail);
      assert FieldValid("subject", body, isEmail);
      assert FieldValid("message", body, isEmail);
    }
  }

  // -----------------------------------------------------------------------------------------
  // Properties

  /** The bounds of the three length-checked fields, inclusive on both sides. */
  lemma {:induction false} LengthBounds(s: string, isEmail: string -> bool)
    ensures FieldIssue("name", Some(JStr(s)), isEmail).None? <==> 2 <= |s| <= 100
    ensures FieldIssue("subject", Some(JStr(s)), isEmail).None? <==> 3 <= |s| <= 200
    ensures FieldIssue("message", Some(JStr(s)), isEmail).None? <==> 10 <= |s| <= 2000
  {
  }

  /** A valid body is stored exactly once, with the four fields as sent, when the write
      succeeds; nothing is stored otherwise. */
  lemma {:induction false} StoredOnlyWhenValid(b: Object, isEmail: string -> bool, createOk: bool)
    ensures var o := Post(Some(JObject(b)), isEmail, createOk);
      (o.stored.Some? <==> createOk && forall k :: k in Fields ==> FieldValid(k, b, isEmail))
  {
  }

  /** Every reported issue names one invalid field, and every invalid field is reported. */
  lemma {:induction false} IssuesNameInvalidFields(b: Object, isEmail: string -> bool, k: string)
    ensures (exists i :: 0 <= i < |Issues(Fields, b, isEmail)| && Issues(Fields, b, isEmail)[i].path == [k])
      <==> k in Fields && !FieldValid(k, b, isEmail)
  {
    IssuesExact(Fields, b, isEmail, k);
  }
}

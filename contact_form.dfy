/** The contact form component: client-side validation before sending (trimmed length
    checks and an email regular expression), and the state changes a submission makes. Error
    messages are represented by the keys of the translation table. */
module ContactForm {
  import Text
  import ContactRoute
  import opened Values

  // -----------------------------------------------------------------------------------------
  // The email expression ^[^\s@]+@[^\s@]+\.[^\s@]+$

  /** A character the class `[^\s@]` accepts. */
  predicate Plain(c: char) {
    !Text.IsWhitespace(c) && c != '@'
  }

  /** A non-empty run of characters accepted by `[^\s@]`, i.e. `[^\s@]+`. */
  predicate PlainRun(t: string) {
    |t| >= 1 && forall i :: 0 <= i < |t| ==> Plain(t[i])
  }

  /** `s` splits at an '@' (index `j`) and a later '.' (index `k`) into three non-empty
      plain runs. */
  predicate SplitsAt(s: string, j: int, k: int)
    requires 0 <= j < k < |s|
  {
    s[j] == '@' && s[k] == '.' && PlainRun(s[..j]) && PlainRun(s[j + 1..k]) && PlainRun(s[k + 1..])
  }

  /** The regular expression's meaning: some '@' and later '.' split `s` as above. */
  predicate EmailPattern(s: string) {
    exists j, k | 0 <= j < k < |s| :: SplitsAt(s, j, k)
  }

  /** The same language described by its shape: no whitespace anywhere, exactly one '@',
      not first, and after it a '.' that neither follows the '@' directly nor ends `s`. */
  predicate EmailShape(s: string) {
    && (forall i :: 0 <= i < |s| ==> !Text.IsWhitespace(s[i]))
    && exists j, k | 0 < j && j + 1 < k < |s| - 1 :: ShapedAt(s, j, k)
  }

  /** The only '@' of `s` is at `j`, and there is a '.' at `k`. */
  predicate ShapedAt(s: string, j: int, k: int)
    requires 0 <= j < k < |s|
  {
    s[j] == '@' && s[k] == '.' && forall i :: 0 <= i < |s| && i != j ==> s[i] != '@'
  }

  /** The regular expression and the shape describe the same strings. */
  lemma {:induction false} EmailPatternIff(s: string)
    ensures EmailPattern(s) <==> EmailShape(s)
  {
    if EmailPattern(s) {
      var j, k :| 0 <= j < k < |s| && SplitsAt(s, j, k);
      PatternHasShape(s, j, k);
    }
    if EmailShape(s) {
      var j, k :| 0 < j && j + 1 < k < |s| - 1 && ShapedAt(s, j, k);
      ShapeHasPattern(s, j, k);
    }
  }

  lemma {:induction false} PatternHasShape(s: string, j: int, k: int)
    requires 0 <= j < k < |s| && SplitsAt(s, j, k)
    ensures 0 < j && j + 1 < k < |s| - 1 && ShapedAt(s, j, k)
    ensures forall i :: 0 <= i < |s| ==> !Text.IsWhitespace(s[i])
  {
    forall i | 0 <= i < |s| && i != j
      ensures Plain(s[i])
    {
      if i < j {
        assert s[..j][i] == s[i];
      } else if j < i < k {
        assert s[j + 1..k][i - j - 1] == s[i];
      } else if k < i {
        assert s[k + 1..][i - k - 1] == s[i];
      }
    }
  }

  lemma {:induction false} ShapeHasPattern(s: string, j: int, k: int)
    requires 0 < j && j + 1 < k < |s| - 1 && ShapedAt(s, j, k)
    requires forall i :: 0 <= i < |s| ==> !Text.IsWhitespace(s[i])
    ensures SplitsAt(s, j, k)
  {
    assert forall i :: 0 <= i < |s| && i != j ==> Plain(s[i]);
    var before, middle, after := s[..j], s[j + 1..k], s[k + 1..];
    assert forall i :: 0 <= i < |before| ==> before[i] == s[i];
    assert forall i :: 0 <= i < |middle| ==> middle[i] == s[j + 1 + i];
    assert forall i :: 0 <= i < |after| ==> after[i] == s[k + 1 + i];
  }

  /** An address without a '.' never matches. */
  lemma {:induction false} NeedsDot(s: string)
    requires '.' !in s
    ensures !EmailPattern(s)
  {
    EmailPatternIff(s);
  }

  /** An address with two '@' never matches. */
  lemma {:induction false} NeedsSingleAt(s: string, a: int, b: int)
    requires 0 <= a < b < |s| && s[a] == '@' && s[b] == '@'
    ensures !EmailPattern(s)
  {
    EmailPatternIff(s);
  }

  /** An address with whitespace anywhere, even at an end, never matches: the expression is
      tested on the untrimmed text. */
  lemma {:induction false} NeedsNoWhitespace(s: string, i: int)
    requires 0 <= i < |s| && Text.IsWhitespace(s[i])
    ensures !EmailPattern(s)
  {
    EmailPatternIff(s);
  }

  /** Examples: one '@', a dotted domain, no spaces. */
  lemma {:induction false} EmailExamples()
    ensures EmailPattern("ana@site.com")
    ensures !EmailPattern("ana@site") && !EmailPattern("a@b@c.d") && !EmailPattern(" ana@site.com")
  {
    ShapeHasPattern("ana@site.com", 3, 8);
    NeedsDot("ana@site");
    NeedsSingleAt("a@b@c.d", 1, 3);
    NeedsNoWhitespace(" ana@site.com", 0);
  }

  // -----------------------------------------------------------------------------------------
  // Validation

  /** The form's fields. */
  datatype FormState = FormState(name: string, email: string, subject: string, message: string)

  const Empty: FormState := FormState("", "", "", "")

  /** The errors `validateForm` records, by field, as translation keys. The length checks
      are on trimmed text; the regular expression is tested on the untrimmed email. */
  function ErrorsFor(f: FormState): map<string, string>
  {
    Errors(|Text.Trim(f.name)| < 2, Text.Trim(f.email) == "", EmailPattern(f.email),
           |Text.Trim(f.subject)| < 3, |Text.Trim(f.message)| < 10)
  }

  /** The errors from the outcomes of the five checks, in the order they are made. */
  function Errors(nameShort: bool, emailBlank: bool, emailMatches: bool, subjectShort: bool,
                  messageShort: bool): map<string, string>
  {
    var e0: map<string, string> := map[];
    var e1 := if nameShort then e0["name" := "errors.name"] else e0;
    var e2 :=
      if emailBlank then e1["email" := "errors.email"]
      else if !emailMatches then e1["email" := "errors.emailInvalid"]
      else e1;
    var e3 := if subjectShort then e2["subject" := "errors.subject"] else e2;
    if messageShort then e3["message" := "errors.message"] else e3
  }

  /** Each failed check marks its own field and no other, with its own message; a blank
      email is reported as missing rather than malformed. */
  lemma {:induction false} ErrorsMarkFailedChecks(nameShort: bool, emailBlank: bool, emailMatches: bool,
                               subjectShort: bool, messageShort: bool)
    ensures var e := Errors(nameShort, emailBlank, emailMatches, subjectShort, messageShort);
      && ("name" in e <==> nameShort)
      && ("email" in e <==> emailBlank || !emailMatches)
      && ("subject" in e <==> subjectShort)
      && ("message" in e <==> messageShort)
      && (forall k :: k in e ==> k in ContactRoute.Fields)
      && ("email" in e ==> e["email"] == (if emailBlank then "errors.email" else "errors.emailInvalid"))
  {
  }

  /** A field has an error exactly when its check fails, and only the four form fields
      can have one. */
  lemma {:induction false} ErrorsForMeaning(f: FormState)
    ensures var e := ErrorsFor(f);
      && ("name" in e <==> |Text.Trim(f.name)| < 2)
      && ("email" in e <==> !EmailPattern(f.email))
      && ("subject" in e <==> |Text.Trim(f.subject)| < 3)
      && ("message" in e <==> |Text.Trim(f.message)| < 10)
      && (forall k :: k in e ==> k in ContactRoute.Fields)
  {
    var nameShort, emailBlank, emailMatches, subjectShort, messageShort :=
      |Text.Trim(f.name)| < 2, Text.Trim(f.email) == "", EmailPattern(f.email),
      |Text.Trim(f.subject)| < 3, |Text.Trim(f.message)| < 10;
    ErrorsMarkFailedChecks(nameShort, emailBlank, emailMatches, subjectShort, messageShort);
    BlankEmailFailsPattern(f.email);
  }

  /** A blank email fails the regular expression too, so it always has an error; the
      "required" message is reported for it. */
  lemma {:induction false} BlankEmailFailsPattern(email: string)
    ensures Text.Trim(email) == "" ==> !EmailPattern(email)
  {
    if Text.Trim(email) == "" && EmailPattern(email) {
      var j, k :| 0 <= j < k < |email| && SplitsAt(email, j, k);
      assert email[..j][0] == email[0];
      Text.TrimEmptyIff(email);
    }
  }

  /** One server error: its path and its message. */
  datatype ServerError = ServerError(path: seq<string>, message: string)

  /** The field errors built from the server's list: each error with a non-empty first path
      element sets that field, later errors overwriting earlier ones. */
  function FieldErrors(errs: seq<ServerError>): (m: map<string, string>)
    ensures "" !in m
  {
    if errs == [] then map[]
    else
      var m := FieldErrors(errs[..|errs| - 1]);
      var last := errs[|errs| - 1];
      if |last.path| > 0 && last.path[0] != "" then m[last.path[0] := last.message] else m
  }

  predicate Names(err: ServerError, k: string) {
    |err.path| > 0 && err.path[0] == k && k != ""
  }

  /** A field gets an error exactly when some server error names it, and the message is the
      one of the last error that does. */
  lemma {:induction false} FieldErrorsMeaning(errs: seq<ServerError>, k: string)
    ensures k in FieldErrors(errs) <==> exists i :: 0 <= i < |errs| && Names(errs[i], k)
    ensures k in FieldErrors(errs) ==>
      exists i :: 0 <= i < |errs| && Names(errs[i], k) && FieldErrors(errs)[k] == errs[i].message
        && (forall j :: i < j < |errs| ==> !Names(errs[j], k))
  {
    if errs != [] {
      var n := |errs| - 1;
      var init, last := errs[..n], errs[n];
      FieldErrorsMeaning(init, k);
      var m := FieldErrors(init);
      assert forall i :: 0 <= i < |init| ==> init[i] == errs[i];
      if Names(last, k) {
        assert FieldErrors(errs) == m[k := last.message];
      } else {
        assert k in FieldErrors(errs) <==> k in m;
        assert k in m ==> FieldErrors(errs)[k] == m[k];
        if i :| 0 <= i < |errs| && Names(errs[i], k) {
          assert i < n && Names(init[i], k);
        }
        if k in m {
          var i :| 0 <= i < |init| && Names(init[i], k) && m[k] == init[i].message
                   && (forall j :: i < j < |init| ==> !Names(init[j], k));
          assert Names(errs[i], k) && FieldErrors(errs)[k] == errs[i].message;
        }
      }
    }
  }

  /** The route's issues as the client receives them. */
  function AsServerErrors(issues: seq<ContactRoute.Issue>): (errs: seq<ServerError>)
    ensures |errs| == |issues|
    ensures forall i :: 0 <= i < |issues| ==>
      errs[i].path == issues[i].path && errs[i].message == issues[i].message
  {
    seq(|issues|, i requires 0 <= i < |issues| => ServerError(issues[i].path, issues[i].message))
  }

  /** Received issues, each with a one-element path, mark exactly the fields they name. */
  lemma {:induction false} ReceivedIssuesMarkFields(issues: seq<ContactRoute.Issue>, k: string)
    requires forall i :: 0 <= i < |issues| ==> |issues[i].path| == 1
    ensures k in FieldErrors(AsServerErrors(issues))
      <==> k != "" && exists i :: 0 <= i < |issues| && issues[i].path == [k]
  {
    var errs := AsServerErrors(issues);
    FieldErrorsMeaning(errs, k);
    if k in FieldErrors(errs) {
      var i :| 0 <= i < |errs| && Names(errs[i], k);
      assert issues[i].path == [k];
    }
    if k != "" && exists i :: 0 <= i < |issues| && issues[i].path == [k] {
      var i :| 0 <= i < |issues| && issues[i].path == [k];
      assert Names(errs[i], k);
    }
  }

  /** The server's schema issues for a contact body mark exactly the invalid fields. */
  lemma {:induction false} ServerIssuesMarkInvalidFields(b: Object, isEmail: string -> bool, k: string)
    ensures k in FieldErrors(AsServerErrors(ContactRoute.Issues(ContactRoute.Fields, b, isEmail)))
      <==> k in ContactRoute.Fields && !ContactRoute.FieldValid(k, b, isEmail)
  {
    var issues := ContactRoute.Issues(ContactRoute.Fields, b, isEmail);
    ReceivedIssuesMarkFields(issues, k);
    ContactRoute.IssuesNameInvalidFields(b, isEmail, k);
  }

  // -----------------------------------------------------------------------------------------
  // The component

  /** What the request to the contact route gives: a network or parse failure, or a
      response with its `ok` flag, the body's `success` flag and its `errors` list if any. */
  datatype Reply = Unreachable | Reply(ok: bool, success: bool, errors: Option<seq<ServerError>>)
  {
    /** The server answered with an OK status and `success: true`. */
    predicate Succeeded() {
      Reply? && ok && success
    }
  }

  class Contact {
    var form: FormState
    var errors: map<string, string>
    var isLoading: bool
    var isSuccess: bool
    /** The five-second timers a successful send has started that have not fired yet. */
    var pendingResets: nat

    constructor()
      ensures form == Empty && errors == map[] && !isLoading && !isSuccess && pendingResets == 0
    {
      form := Empty;
      errors := map[];
      isLoading := false;
      isSuccess := false;
      pendingResets := 0;
    }

    /** `validateForm`: records the errors of the current fields and reports whether there
        are none. */
    method ValidateForm() returns (valid: bool)
      modifies this`errors
      ensures errors == ErrorsFor(form) && valid == (errors == map[])
    {
      var newErrors := RecordErrors(|Text.Trim(form.name)| < 2, Text.Trim(form.email) == "",
        EmailPattern(form.email), |Text.Trim(form.subject)| < 3, |Text.Trim(form.message)| < 10);
      errors := newErrors;
      valid := errors == map[];
    }

    /** `handleSubmit`, with the reply to the request as a parameter. `sent` says whether the
        request was made; an invalid form makes none. */
    method HandleSubmit(reply: Reply) returns (sent: bool)
      modifies this
      ensures sent <==> ErrorsFor(old(form)) == map[]
      ensures !sent ==> (errors == ErrorsFor(old(form)) && form == old(form)
        && isLoading == old(isLoading) && isSuccess == old(isSuccess)
        && pendingResets == old(pendingResets))
      ensures sent ==> !isLoading
      ensures sent && reply.Succeeded() ==>
        isSuccess && form == Empty && errors == map[] && pendingResets == old(pendingResets) + 1
      ensures sent && !reply.Succeeded() ==>
        (!isSuccess && form == old(form) && pendingResets == old(pendingResets)
         && errors == (if reply.Reply? && reply.errors.Some? then FieldErrors(reply.errors.value) else map[]))
    {
      var valid := ValidateForm();
      assert form == old(form) && pendingResets == old(pendingResets);
      if !valid {
        return false;
      }
      Send(reply);
      sent := true;
    }

    /** The part of `handleSubmit` after a successful validation: the request is in flight
        while loading; a successful reply clears the form, a failed one keeps it and shows the
        server's field errors. A success also starts the timer that clears the success
        flag five seconds later. */
    method Send(reply: Reply)
      modifies this
      ensures !isLoading
      ensures reply.Succeeded() ==>
        isSuccess && form == Empty && errors == map[] && pendingResets == old(pendingResets) + 1
      ensures !reply.Succeeded() ==>
        (!isSuccess && form == old(form) && pendingResets == old(pendingResets)
         && errors == (if reply.Reply? && reply.errors.Some? then FieldErrors(reply.errors.value) else map[]))
    {
      isLoading := true;
      isSuccess := false;
      errors := map[];
      if reply.Reply? {
        if reply.ok && reply.success {
          isSuccess := true;
          form := Empty;
          pendingResets := pendingResets + 1;
        } else if reply.errors.Some? {
          var fieldErrors := CollectFieldErrors(reply.errors.value);
          errors := fieldErrors;
        }
      }
      isLoading := false;
    }

    /** One of the started timers fires: the success flag is cleared and nothing else
        changes. A timer started by an earlier success clears the flag a later success set,
        however recent that success is. */
    method SuccessTimeout()
      requires pendingResets > 0
      modifies this`isSuccess, this`pendingResets
      ensures !isSuccess && pendingResets == old(pendingResets) - 1
    {
      isSuccess := false;
      pendingResets := pendingResets - 1;
    }
  }

  /** The error recording of `validateForm`: given the outcomes of its checks, in order,
      each failed check adds its field's message. */
  method RecordErrors(nameShort: bool, emailBlank: bool, emailMatches: bool, subjectShort: bool,
                      messageShort: bool)
    returns (newErrors: map<string, string>)
    ensures newErrors == Errors(nameShort, emailBlank, emailMatches, subjectShort, messageShort)
  {
    newErrors := map[];
    if nameShort {
      newErrors := newErrors["name" := "errors.name"];
    }
    if emailBlank {
      newErrors := newErrors["email" := "errors.email"];
    } else if !emailMatches {
      newErrors := newErrors["email" := "errors.emailInvalid"];
    }
    if subjectShort {
      newErrors := newErrors["subject" := "errors.subject"];
    }
    if messageShort {
      newErrors := newErrors["message" := "errors.message"];
    }
  }

  /** The `forEach` that builds the field errors. */
  method CollectFieldErrors(errs: seq<ServerError>) returns (fieldErrors: map<string, string>)
    ensures fieldErrors == FieldErrors(errs)
  {
    fieldErrors := map[];
    for i := 0 to |errs|
      invariant fieldErrors == FieldErrors(errs[..i])
    {
      assert errs[..i + 1][..i] == errs[..i];
      var err := errs[i];
      if |err.path| > 0 && err.path[0] != "" {
        fieldErrors := fieldErrors[err.path[0] := err.message];
      }
    }
    assert errs[..|errs|] == errs;
  }

  // -----------------------------------------------------------------------------------------
  // Properties

  /** The client's length checks are on trimmed text: a single character padded with
      whitespace is too short for a name, whatever the length of the padding. */
  lemma {:induction false} NameCheckedAfterTrim(f: FormState, p: string, c: char, q: string)
    requires forall i :: 0 <= i < |p| ==> Text.IsWhitespace(p[i])
    requires forall i :: 0 <= i < |q| ==> Text.IsWhitespace(q[i])
    requires !Text.IsWhitespace(c) && f.name == p + [c] + q
    ensures "name" in ErrorsFor(f)
  {
    Text.TrimPadded(p, [c], q);
    ErrorsForMeaning(f);
  }

  /** A form valid on the client has, untrimmed, at least the lengths the server demands
      at the lower bound, because trimming only shortens the text. */
  lemma {:induction false} ClientValidMeetsServerMinimum(f: FormState)
    requires ErrorsFor(f) == map[]
    ensures |f.name| >= 2 && |f.subject| >= 3 && |f.message| >= 10
  {
    assert "name" !in ErrorsFor(f) && "subject" !in ErrorsFor(f) && "message" !in ErrorsFor(f);
  }
}

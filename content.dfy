/** Page-content analysis: password and sensitive-information fields in the page's
    forms. The page fetch and HTML parsing are given as their outcome: the forms of
    the page, each as its `<input>` elements in document order. */
module Content {
  import opened Wrappers
  import Text

  /** An `<input>` element: its `type` and `name` attributes when present. */
  datatype Input = Input(inputType: Option<string>, name: Option<string>)

  type Form = seq<Input>

  /** What `_fetch_content` produced. */
  datatype Fetch = Fetched(forms: seq<Form>) | FetchFailed(error: string)

  datatype ContentResult = ContentResult(
    isSuspicious: Option<bool>,
    reasons: Option<seq<string>>,
    suspiciousForms: seq<string>,
    suspiciousText: Option<seq<string>>)

  const LegitimateDomains: set<string> := {
    "google.com", "accounts.google.com", "gmail.com",
    "microsoft.com", "outlook.com", "hotmail.com",
    "apple.com", "icloud.com",
    "amazon.com", "amazon.com.br",
    "facebook.com", "fb.com",
    "netflix.com",
    "spotify.com",
    "nubank.com.br",
    "itau.com.br",
    "bradesco.com.br",
    "santander.com.br",
    "bb.com.br",
    "caixa.gov.br"
  }

  const IgnoredDomains: set<string> := {
    "example.com", "example.org", "example.net",
    "test.com", "test.org", "test.net",
    "localhost", "127.0.0.1"
  }

  const SensitiveFields: set<string> := {
    "credit", "cartão", "card", "cc", "cvv", "cvc",
    "cpf", "cnpj", "document", "documento", "id", "identity",
    "bank", "banco", "account", "conta", "agency", "agência",
    "mother", "mãe", "father", "pai", "birth", "nascimento",
    "social", "social security", "security", "segurança"
  }

  const PasswordReason := "Form contains password field"
  const SensitivePrefix := "Form requests sensitive information: "

  /** `_is_legitimate_domain`: exact membership of the lower-cased netloc. */
  predicate IsLegitimate(netloc: string) {
    Text.Lower(netloc) in LegitimateDomains
  }

  /** `_should_ignore_domain`: exact membership of the lower-cased netloc. */
  predicate ShouldIgnore(netloc: string) {
    Text.Lower(netloc) in IgnoredDomains
  }

  /** `input_field.get('name', '').lower()`. */
  function FieldName(input: Input): string {
    Text.Lower(input.name.GetOr(""))
  }

  predicate IsSensitive(input: Input) {
    FieldName(input) in SensitiveFields
  }

  /** `form.find_all('input', {'type': 'password'})` is non-empty. */
  predicate HasPassword(form: Form) {
    exists k :: 0 <= k < |form| && form[k].inputType == Some("password")
  }

  /** One reason per sensitive input of a form, in input order. */
  function SensitiveReasons(inputs: seq<Input>): seq<string>
    decreases |inputs|
  {
    if inputs == [] then []
    else
      var last := inputs[|inputs| - 1];
      SensitiveReasons(inputs[..|inputs| - 1]) + (if IsSensitive(last) then [SensitivePrefix + FieldName(last)] else [])
  }

  /** The reasons of one form: the password reason (off legitimate domains) first,
      then its sensitive inputs. */
  function FormReasons(form: Form, legitimate: bool): seq<string> {
    (if !legitimate && HasPassword(form) then [PasswordReason] else []) + SensitiveReasons(form)
  }

  /** The reasons of all forms, in form order. */
  function AllReasons(forms: seq<Form>, legitimate: bool): seq<string>
    decreases |forms|
  {
    if forms == [] then []
    else AllReasons(forms[..|forms| - 1], legitimate) + FormReasons(forms[|forms| - 1], legitimate)
  }

  /** `_check_forms`. */
  method CheckForms(forms: seq<Form>, netloc: string) returns (reasons: seq<string>)
    ensures reasons == AllReasons(forms, IsLegitimate(netloc))
  {
    reasons := [];
    var legitimate := IsLegitimate(netloc);
    var i := 0;
    while i < |forms|
      invariant 0 <= i <= |forms|
      invariant reasons == AllReasons(forms[..i], legitimate)
    {
      var form := forms[i];
      ghost var before := reasons;
      if !legitimate {
        if HasPassword(form) {
          reasons := reasons + [PasswordReason];
        }
      }
      reasons := InputReasons(form, reasons);
      assert reasons == before + FormReasons(form, legitimate);
      assert forms[..i + 1][..i] == forms[..i];
      i := i + 1;
    }
    assert forms[..i] == forms;
  }

  /** The inner loop of `_check_forms`: the sensitive inputs of one form, appended. */
  method InputReasons(form: Form, head: seq<string>) returns (reasons: seq<string>)
    ensures reasons == head + SensitiveReasons(form)
  {
    reasons := head;
    var j := 0;
    while j < |form|
      invariant 0 <= j <= |form|
      invariant reasons == head + SensitiveReasons(form[..j])
    {
      var fieldName := FieldName(form[j]);
      if fieldName in SensitiveFields {
        reasons := reasons + [SensitivePrefix + fieldName];
      }
      assert form[..j + 1][..j] == form[..j];
      j := j + 1;
    }
    assert form[..j] == form;
  }

  /** `analyze_content` for a URL with netloc `netloc` whose page fetch gave `fetch`. */
  method AnalyzeContent(netloc: string, fetch: Fetch) returns (r: ContentResult)
    ensures ShouldIgnore(netloc) ==> r == ContentResult(Some(false), Some([]), [], None)
    ensures !ShouldIgnore(netloc) && fetch.FetchFailed? ==>
      r == ContentResult(Some(true), Some(["Error analyzing content: " + fetch.error]), [], None)
    ensures !ShouldIgnore(netloc) && fetch.Fetched? ==>
      var reasons := AllReasons(fetch.forms, IsLegitimate(netloc));
      r == ContentResult(Some(|reasons| > 0), Some(reasons), reasons, Some([]))
    ensures Truthy(r.isSuspicious) ==> r.reasons.Some? && r.reasons.value != []
  {
    if ShouldIgnore(netloc) {
      return ContentResult(Some(false), Some([]), [], None);
    }
    match fetch
    case FetchFailed(e) =>
      r := ContentResult(Some(true), Some(["Error analyzing content: " + e]), [], None);
    case Fetched(forms) =>
      var reasons := CheckForms(forms, netloc);
      r := ContentResult(Some(|reasons| > 0), Some(reasons), reasons, Some([]));
  }

  /** Number of forms that have a password input. */
  function PasswordForms(forms: seq<Form>): nat
    decreases |forms|
  {
    if forms == [] then 0
    else PasswordForms(forms[..|forms| - 1]) + (if HasPassword(forms[|forms| - 1]) then 1 else 0)
  }

  lemma {:induction false} NoPasswordReasonAmongSensitive(inputs: seq<Input>)
    ensures Text.Occurrences(SensitiveReasons(inputs), PasswordReason) == 0
    decreases |inputs|
  {
    if inputs != [] {
      var init := inputs[..|inputs| - 1];
      var last := inputs[|inputs| - 1];
      NoPasswordReasonAmongSensitive(init);
      var tail := if IsSensitive(last) then [SensitivePrefix + FieldName(last)] else [];
      Text.OccurrencesAppend(SensitiveReasons(init), tail, PasswordReason);
      if IsSensitive(last) {
        Text.NotPrefixAt(PasswordReason, SensitivePrefix, 5);
        assert (SensitivePrefix + FieldName(last))[5] == 'r';
      }
    }
  }

  /** "Form contains password field" appears once per form with a password input,
      and never on a legitimate domain. */
  lemma {:induction false} PasswordReasonCount(forms: seq<Form>, legitimate: bool)
    ensures Text.Occurrences(AllReasons(forms, legitimate), PasswordReason) ==
      if legitimate then 0 else PasswordForms(forms)
    decreases |forms|
  {
    if forms != [] {
      var init := forms[..|forms| - 1];
      var last := forms[|forms| - 1];
      PasswordReasonCount(init, legitimate);
      Text.OccurrencesAppend(AllReasons(init, legitimate), FormReasons(last, legitimate), PasswordReason);
      var head := if !legitimate && HasPassword(last) then [PasswordReason] else [];
      Text.OccurrencesAppend(head, SensitiveReasons(last), PasswordReason);
      NoPasswordReasonAmongSensitive(last);
      assert Text.Occurrences([PasswordReason], PasswordReason) == 1 by {
        assert [PasswordReason][..0] == [];
      }
    }
  }

  /** Sensitive inputs of a form, counted. */
  function SensitiveInputs(inputs: seq<Input>): nat
    decreases |inputs|
  {
    if inputs == [] then 0
    else SensitiveInputs(inputs[..|inputs| - 1]) + (if IsSensitive(inputs[|inputs| - 1]) then 1 else 0)
  }

  function AllSensitiveInputs(forms: seq<Form>): nat
    decreases |forms|
  {
    if forms == [] then 0 else AllSensitiveInputs(forms[..|forms| - 1]) + SensitiveInputs(forms[|forms| - 1])
  }

  /** The reasons are one password reason per password form (off legitimate domains)
      plus one sensitive-information reason per sensitive input, on any domain. */
  lemma {:induction false} ReasonTally(forms: seq<Form>, legitimate: bool)
    ensures |AllReasons(forms, legitimate)| ==
      (if legitimate then 0 else PasswordForms(forms)) + AllSensitiveInputs(forms)
    decreases |forms|
  {
    if forms != [] {
      ReasonTally(forms[..|forms| - 1], legitimate);
      SensitiveTally(forms[|forms| - 1]);
    }
  }

  lemma {:induction false} SensitiveTally(inputs: seq<Input>)
    ensures |SensitiveReasons(inputs)| == SensitiveInputs(inputs)
    decreases |inputs|
  {
    if inputs != [] {
      SensitiveTally(inputs[..|inputs| - 1]);
    }
  }
}

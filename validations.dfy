/**
 * The form validation rules. Each schema is a function from the form's fields to the list of
 * issues zod reports for them, in the order zod reports them: every check of a field's chain
 * runs and each failing one adds an issue, fields in declaration order, and an object-level
 * refinement after its fields, even when a field failed (the behaviour of zod 3). A form is
 * accepted exactly when the list is empty. The e-mail and UUID format checks are zod
 * internals and are passed in as predicates.
 */
module Validations {
  import opened Outcomes
  import opened JsText
  import opened Entities

  /** One step of an issue's path: an object key or an array index. */
  datatype PathKey = Key(name: string) | Index(i: nat)

  datatype Issue = Issue(path: seq<PathKey>, message: string)

  /** One check of a chain: no issue when `ok` holds, otherwise one issue at `path`. */
  function Check(ok: bool, path: seq<PathKey>, message: string): seq<Issue>
  {
    if ok then [] else [Issue(path, message)]
  }

  // ------------------------------------------------------------------ shared field rules

  /** A string drawn from a class of Basic Multilingual Plane characters has `length` `|s|`. */
  lemma CharsLength(s: string, inClass: char -> bool)
    requires forall c :: inClass(c) ==> c as int < 0x1_0000
    ensures (forall i :: 0 <= i < |s| ==> inClass(s[i])) ==> JsLength(s) == |s|
  {
    if forall i :: 0 <= i < |s| ==> inClass(s[i]) {
      BmpLength(s);
    }
  }

  /** `email`: required, the e-mail format, at most 255 code units. */
  function EmailIssues(email: string, isEmail: string -> bool): (r: seq<Issue>)
    ensures r == [] <==> email != "" && isEmail(email) && JsLength(email) <= 255
    ensures forall k :: 0 <= k < |r| ==> r[k].path == [Key("email")]
  {
    var p := [Key("email")];
    Check(JsLength(email) >= 1, p, "Email é obrigatório")
    + Check(isEmail(email), p, "Formato de email inválido")
    + Check(JsLength(email) <= 255, p, "Email muito longo")
  }

  /**
   * The first line of the password has a lower-case letter, an upper-case letter and a digit:
   * what `/^(?=.*[a-z])(?=.*[A-Z])(?=.*\d)/` accepts. A password it accepts has all three, and
   * for a single-line password the converse holds too.
   */
  function StrongPattern(pw: string): (b: bool)
    ensures b ==> HasLower(pw) && HasUpper(pw) && HasDigit(pw)
    ensures (forall i :: 0 <= i < |pw| ==> !IsLineTerminator(pw[i])) ==>
      (b <==> HasLower(pw) && HasUpper(pw) && HasDigit(pw))
  {
    FirstLineClasses(pw);
    var line := FirstLine(pw);
    HasLower(line) && HasUpper(line) && HasDigit(line)
  }

  /** The characters of `/^[a-zA-ZÀ-ÿ\s]+$/`: ASCII letters, U+00C0 to U+00FF, and whitespace. */
  predicate NameChar(c: char)
  {
    IsLower(c) || IsUpper(c) || ('\U{00C0}' <= c <= '\U{00FF}') || IsJsSpace(c)
  }

  /** `name`: 2 to 100 code units, only letters and whitespace. */
  function NameIssues(name: string): (r: seq<Issue>)
    ensures r == [] <==> 2 <= |name| <= 100 && forall i :: 0 <= i < |name| ==> NameChar(name[i])
    ensures forall k :: 0 <= k < |r| ==> r[k].path == [Key("name")]
  {
    CharsLength(name, NameChar);
    var p := [Key("name")];
    var allowed := |name| > 0 && forall i :: 0 <= i < |name| ==> NameChar(name[i]);
    Check(JsLength(name) >= 1, p, "Nome é obrigatório")
    + Check(JsLength(name) >= 2, p, "Nome deve ter pelo menos 2 caracteres")
    + Check(JsLength(name) <= 100, p, "Nome muito longo")
    + Check(allowed, p, "Nome deve conter apenas letras e espaços")
  }

  /** `country`: two or three upper-case ASCII letters. */
  predicate CountryCode(s: string)
  {
    2 <= |s| <= 3 && forall i :: 0 <= i < |s| ==> IsUpper(s[i])
  }

  /** `phone.country`: required, at most 3 code units, two or three upper-case letters. */
  function CountryIssues(c: string): (r: seq<Issue>)
    ensures r == [] <==> CountryCode(c)
    ensures forall k :: 0 <= k < |r| ==> r[k].path == [Key("phone"), Key("country")]
  {
    CharsLength(c, IsUpper);
    var p := [Key("phone"), Key("country")];
    Check(JsLength(c) >= 1, p, "País é obrigatório")
    + Check(JsLength(c) <= 3, p, "Código do país muito longo")
    + Check(CountryCode(c), p, "Código do país deve ter 2-3 letras maiúsculas")
  }

  /** `phone.ddd`: 2 or 3 digits. */
  function DddIssues(d: string): (r: seq<Issue>)
    ensures r == [] <==> AllDigits(d) && 2 <= |d| <= 3
    ensures forall k :: 0 <= k < |r| ==> r[k].path == [Key("phone"), Key("ddd")]
  {
    CharsLength(d, IsDigit);
    var p := [Key("phone"), Key("ddd")];
    Check(JsLength(d) >= 1, p, "DDD é obrigatório")
    + Check(JsLength(d) >= 2, p, "DDD deve ter pelo menos 2 dígitos")
    + Check(JsLength(d) <= 3, p, "DDD deve ter no máximo 3 dígitos")
    + Check(AllDigits(d), p, "DDD deve conter apenas números")
  }

  /** `phone.number`: 8 or 9 digits. */
  function NumberIssues(n: string): (r: seq<Issue>)
    ensures r == [] <==> AllDigits(n) && 8 <= |n| <= 9
    ensures forall k :: 0 <= k < |r| ==> r[k].path == [Key("phone"), Key("number")]
  {
    CharsLength(n, IsDigit);
    var p := [Key("phone"), Key("number")];
    Check(JsLength(n) >= 1, p, "Número é obrigatório")
    + Check(JsLength(n) >= 8, p, "Número deve ter pelo menos 8 dígitos")
    + Check(JsLength(n) <= 9, p, "Número deve ter no máximo 9 dígitos")
    + Check(AllDigits(n), p, "Número deve conter apenas dígitos")
  }

  /** `phone`: country code, a DDD of 2 or 3 digits and a number of 8 or 9 digits. */
  function PhoneIssues(ph: Phone): (r: seq<Issue>)
    ensures r == [] <==>
      && CountryCode(ph.country)
      && AllDigits(ph.ddd) && 2 <= |ph.ddd| <= 3
      && AllDigits(ph.number) && 8 <= |ph.number| <= 9
    ensures forall k :: 0 <= k < |r| ==> |r[k].path| == 2 && r[k].path[0] == Key("phone")
  {
    CountryIssues(ph.country) + DddIssues(ph.ddd) + NumberIssues(ph.number)
  }

  // ------------------------------------------------------------------ loginSchema

  datatype LoginForm = LoginForm(email: string, password: string)

  /** The login `password`: required, 6 to 100 code units. */
  function LoginPasswordIssues(pw: string): (r: seq<Issue>)
    ensures r == [] <==> 6 <= JsLength(pw) <= 100
  {
    var p := [Key("password")];
    Check(JsLength(pw) >= 1, p, "Senha é obrigatória")
    + Check(JsLength(pw) >= 6, p, "Senha deve ter pelo menos 6 caracteres")
    + Check(JsLength(pw) <= 100, p, "Senha muito longa")
  }

  function LoginIssues(d: LoginForm, isEmail: string -> bool): (r: seq<Issue>)
    ensures r == [] <==> d.email != "" && isEmail(d.email) && JsLength(d.email) <= 255 && 6 <= JsLength(d.password) <= 100
  {
    EmailIssues(d.email, isEmail) + LoginPasswordIssues(d.password)
  }

  /** `validateEmail`: the login e-mail field alone. */
  function ValidateEmail(email: string, isEmail: string -> bool): (ok: bool)
    ensures ok <==> email != "" && isEmail(email) && JsLength(email) <= 255
  {
    EmailIssues(email, isEmail) == []
  }

  /** `validatePassword`: the login password field alone. */
  function ValidatePassword(pw: string): (ok: bool)
    ensures ok <==> 6 <= JsLength(pw) <= 100
  {
    LoginPasswordIssues(pw) == []
  }

  // ------------------------------------------------------------------ registerSchema

  datatype RegisterForm = RegisterForm(name: string, email: string, password: string, verifyPassword: string, phone: Phone)

  /** The register `password`: required, 6 to 100 code units, and the strength pattern. */
  function RegisterPasswordIssues(pw: string): (r: seq<Issue>)
    ensures r == [] <==> 6 <= JsLength(pw) <= 100 && StrongPattern(pw)
    ensures forall k :: 0 <= k < |r| ==> r[k].path == [Key("password")]
  {
    var p := [Key("password")];
    Check(JsLength(pw) >= 1, p, "Senha é obrigatória")
    + Check(JsLength(pw) >= 6, p, "Senha deve ter pelo menos 6 caracteres")
    + Check(JsLength(pw) <= 100, p, "Senha muito longa")
    + Check(StrongPattern(pw), p, "Senha deve conter pelo menos uma letra minúscula, uma maiúscula e um número")
  }

  const PasswordsDiffer := "Senhas não coincidem"

  /** The issue the refinement adds when the confirmation differs from the password. */
  const VerifyMismatch := Issue([Key("verifyPassword")], PasswordsDiffer)

  function RegisterIssues(d: RegisterForm, isEmail: string -> bool): (r: seq<Issue>)
    ensures r == [] <==>
      && NameIssues(d.name) == [] && EmailIssues(d.email, isEmail) == []
      && 6 <= JsLength(d.password) <= 100 && StrongPattern(d.password)
      && PhoneIssues(d.phone) == [] && d.password == d.verifyPassword
    ensures VerifyMismatch in r <==> d.password != d.verifyPassword
  {
    var fields :=
      NameIssues(d.name) + EmailIssues(d.email, isEmail) + RegisterPasswordIssues(d.password)
      + Check(JsLength(d.verifyPassword) >= 1, [Key("verifyPassword")], "Confirmação de senha é obrigatória")
      + PhoneIssues(d.phone);
    FieldIssuesNotMismatch(d, isEmail, fields);
    fields + Check(d.password == d.verifyPassword, [Key("verifyPassword")], PasswordsDiffer)
  }

  /** No field-level check of the register form reports the mismatch issue. */
  lemma FieldIssuesNotMismatch(d: RegisterForm, isEmail: string -> bool, fields: seq<Issue>)
    requires fields ==
      NameIssues(d.name) + EmailIssues(d.email, isEmail) + RegisterPasswordIssues(d.password)
      + Check(JsLength(d.verifyPassword) >= 1, [Key("verifyPassword")], "Confirmação de senha é obrigatória")
      + PhoneIssues(d.phone)
    ensures VerifyMismatch !in fields
  {
    assert VerifyMismatch !in NameIssues(d.name);
    assert VerifyMismatch !in EmailIssues(d.email, isEmail);
    assert VerifyMismatch !in RegisterPasswordIssues(d.password);
    assert VerifyMismatch !in PhoneIssues(d.phone);
  }

  /**
   * What `validatePhone` evidently means: the phone object of the register form, checked
   * on its own.
   */
  function ValidatePhoneIntended(ph: Phone): (ok: bool)
    ensures ok <==>
      CountryCode(ph.country) && AllDigits(ph.ddd) && 2 <= |ph.ddd| <= 3 && AllDigits(ph.number) && 8 <= |ph.number| <= 9
  {
    PhoneIssues(ph) == []
  }

  /** The error a property read on `undefined` raises: here, `phone` of `registerSchema.shape`. */
  const ShapeUndefined := "TypeError: Cannot read properties of undefined (reading 'phone')"

  /**
   * `validatePhone` as written. The register schema ends in `.refine`, which in zod 3 wraps
   * the object schema in an effects schema that has no `shape`, so reading `shape.phone`
   * throws before any check runs, whatever the phone.
   */
  function ValidatePhone(ph: Phone): (r: Result<bool, string>)
    ensures r.Failure? && r.error == ShapeUndefined
  {
    Failure(ShapeUndefined)
  }

  /** A phone the intended rule accepts makes the call as written throw. */
  lemma ValidatePhoneThrowsOnValidPhone(c1: char, c2: char, d: char, n: char)
    requires IsUpper(c1) && IsUpper(c2) && IsDigit(d) && IsDigit(n)
    ensures var ph := Phone([c1, c2], [d, d], [n, n, n, n, n, n, n, n, n]);
      ValidatePhoneIntended(ph) && ValidatePhone(ph).Failure?
  {
    var ph := Phone([c1, c2], [d, d], [n, n, n, n, n, n, n, n, n]);
    assert CountryCode(ph.country);
    assert AllDigits(ph.ddd) && AllDigits(ph.number);
  }

  // ------------------------------------------------------------------ productSchema

  /** The product form as submitted; `status` and `idThumbnail` may be omitted. */
  datatype ProductInput = ProductInput(title: string, description: string, status: Option<bool>, idThumbnail: Option<string>)

  /** The product form after parsing: texts trimmed, `status` defaulted. */
  datatype ProductFormData = ProductFormData(title: string, description: string, status: bool, idThumbnail: Option<string>)

  /** The product form's length checks, on the title and the description as typed. */
  function ProductIssues(input: ProductInput): (r: seq<Issue>)
    ensures r == [] <==> 3 <= JsLength(input.title) <= 100 && 10 <= JsLength(input.description) <= 1000
    ensures forall k :: 0 <= k < |r| ==> r[k].path == [Key("title")] || r[k].path == [Key("description")]
  {
    var t, d := input.title, input.description;
    Check(JsLength(t) >= 1, [Key("title")], "Título é obrigatório")
    + Check(JsLength(t) >= 3, [Key("title")], "Título deve ter pelo menos 3 caracteres")
    + Check(JsLength(t) <= 100, [Key("title")], "Título muito longo")
    + Check(JsLength(d) >= 1, [Key("description")], "Descrição é obrigatória")
    + Check(JsLength(d) >= 10, [Key("description")], "Descrição deve ter pelo menos 10 caracteres")
    + Check(JsLength(d) <= 1000, [Key("description")], "Descrição muito longa")
  }

  /**
   * `productSchema.parse`: the length checks look at the text as typed, and only then is it
   * trimmed, so the parsed title or description may be shorter than the minimum.
   */
  function ParseProduct(input: ProductInput): (r: Result<ProductFormData, seq<Issue>>)
    ensures r.Success? <==> 3 <= JsLength(input.title) <= 100 && 10 <= JsLength(input.description) <= 1000
    ensures r.Success? ==> r.value == ProductFormData(Trim(input.title), Trim(input.description), input.status.GetOr(true), input.idThumbnail)
    ensures r.Failure? ==> r.error != [] && r.error == ProductIssues(input)
  {
    var issues := ProductIssues(input);
    if issues == [] then
      Success(ProductFormData(Trim(input.title), Trim(input.description), input.status.GetOr(true), input.idThumbnail))
    else Failure(issues)
  }

  /**
   * A title of two spaces and one other character passes the three-character minimum, and is
   * stored as that one character.
   */
  lemma TrimAfterLengthCheck(c: char, description: string)
    requires !IsJsSpace(c) && c as int < 0x1_0000
    requires 10 <= JsLength(description) <= 1000
    ensures var r := ParseProduct(ProductInput([' ', ' ', c], description, None, None));
      r.Success? && r.value.title == [c] && JsLength(r.value.title) < 3 && r.value.status
  {
    var t := [' ', ' ', c];
    assert JsLength(t) == 3 by { BmpLength(t); }
    assert JsLength([c]) == 1 by { BmpLength([c]); }
    assert Trim(t) == [c] by {
      assert t[1..] == [' ', c] && t[1..][1..] == [c];
      assert LeadingSpaces([c]) == 0;
      assert LeadingSpaces(t) == 2;
      assert t[2..] == [c];
      TrimUntouched([c]);
    }
  }

  // ------------------------------------------------------------------ changePasswordSchema

  datatype ChangePasswordForm = ChangePasswordForm(currentPassword: string, newPassword: string, confirmPassword: string)

  const ConfirmMismatch := Issue([Key("confirmPassword")], PasswordsDiffer)
  const PasswordUnchanged := Issue([Key("newPassword")], "A nova senha deve ser diferente da senha atual")

  function ChangePasswordIssues(d: ChangePasswordForm): (r: seq<Issue>)
    ensures r == [] <==>
      && d.currentPassword != "" && 6 <= JsLength(d.newPassword) <= 100 && StrongPattern(d.newPassword)
      && d.confirmPassword == d.newPassword && d.newPassword != d.currentPassword
    ensures ConfirmMismatch in r <==> d.newPassword != d.confirmPassword
    ensures PasswordUnchanged in r <==> d.currentPassword == d.newPassword
  {
    var np := [Key("newPassword")];
    var fields :=
      Check(JsLength(d.currentPassword) >= 1, [Key("currentPassword")], "Senha atual é obrigatória")
      + Check(JsLength(d.newPassword) >= 1, np, "Nova senha é obrigatória")
      + Check(JsLength(d.newPassword) >= 6, np, "Nova senha deve ter pelo menos 6 caracteres")
      + Check(JsLength(d.newPassword) <= 100, np, "Nova senha muito longa")
      + Check(StrongPattern(d.newPassword), np, "Nova senha deve conter pelo menos uma letra minúscula, uma maiúscula e um número")
      + Check(JsLength(d.confirmPassword) >= 1, [Key("confirmPassword")], "Confirmação de senha é obrigatória");
    fields
    + Check(d.newPassword == d.confirmPassword, [Key("confirmPassword")], PasswordsDiffer)
    + Check(d.currentPassword != d.newPassword, np, "A nova senha deve ser diferente da senha atual")
  }

  // ------------------------------------------------------------------ fileUploadSchema

  const MaxUploadBytes := 10 * 1024 * 1024

  const ImageTypes := ["image/jpeg", "image/png", "image/gif", "image/webp"]

  function FileUploadIssues(f: FileInfo): (r: seq<Issue>)
    ensures r == [] <==> f.size <= MaxUploadBytes && f.mimeType in ImageTypes
  {
    Check(f.size <= MaxUploadBytes, [Key("file")], "Arquivo deve ter no máximo 10MB")
    + Check(f.mimeType in ImageTypes, [Key("file")], "Apenas arquivos de imagem são permitidos (JPEG, PNG, GIF, WebP)")
  }

  // ------------------------------------------------------------------ bulk schemas

  /** The issues of the elements `ids`, which sit at positions `start..` of the array. */
  function ItemIssues(ids: seq<string>, isUuid: string -> bool, start: nat): (r: seq<Issue>)
    ensures r == [] <==> forall i :: 0 <= i < |ids| ==> isUuid(ids[i])
    ensures forall k :: 0 <= k < |r| ==> r[k].message == "ID inválido"
  {
    if ids == [] then []
    else Check(isUuid(ids[0]), [Key("ids"), Index(start)], "ID inválido") + ItemIssues(ids[1..], isUuid, start + 1)
  }

  /** `ids`: 1 to 50 elements, each a UUID. */
  function IdsIssues(ids: seq<string>, isUuid: string -> bool): (r: seq<Issue>)
    ensures r == [] <==> 1 <= |ids| <= 50 && forall i :: 0 <= i < |ids| ==> isUuid(ids[i])
  {
    Check(|ids| >= 1, [Key("ids")], "Selecione pelo menos um item")
    + Check(|ids| <= 50, [Key("ids")], "Máximo de 50 itens por operação")
    + ItemIssues(ids, isUuid, 0)
  }

  datatype BulkStatusForm = BulkStatusForm(ids: seq<string>, status: bool)

  function BulkDeleteIssues(ids: seq<string>, isUuid: string -> bool): (r: seq<Issue>)
    ensures r == [] <==> 1 <= |ids| <= 50 && forall i :: 0 <= i < |ids| ==> isUuid(ids[i])
  {
    IdsIssues(ids, isUuid)
  }

  function BulkUpdateStatusIssues(d: BulkStatusForm, isUuid: string -> bool): (r: seq<Issue>)
    ensures r == [] <==> 1 <= |d.ids| <= 50 && forall i :: 0 <= i < |d.ids| ==> isUuid(d.ids[i])
  {
    IdsIssues(d.ids, isUuid)
  }

  // ------------------------------------------------------------------ error helpers

  const DefaultErrorMessage := "Dados inválidos"

  /** `getValidationErrorMessage`: the first issue's message, or the default when there is none or it is empty. */
  function FirstErrorMessage(issues: seq<Issue>): (r: string)
    ensures r != ""
    ensures issues != [] && issues[0].message != "" ==> r == issues[0].message
    ensures issues == [] || issues[0].message == "" ==> r == DefaultErrorMessage
  {
    if issues != [] && issues[0].message != "" then issues[0].message else DefaultErrorMessage
  }

  /** `String(k)` for one path step. */
  function KeyText(k: PathKey): string
  {
    match k
    case Key(name) => name
    case Index(i) => DecimalString(i)
  }

  /** `path.join(".")` */
  function JoinPath(path: seq<PathKey>): (r: string)
    ensures |path| == 1 ==> r == KeyText(path[0])
  {
    if path == [] then ""
    else if |path| == 1 then KeyText(path[0])
    else KeyText(path[0]) + "." + JoinPath(path[1..])
  }

  /** `join(".")` works left to right: appending a step appends a dot and that step's text. */
  lemma {:induction false} JoinPathAppend(path: seq<PathKey>, k: PathKey)
    requires path != []
    ensures JoinPath(path + [k]) == JoinPath(path) + "." + KeyText(k)
  {
    if |path| > 1 {
      assert (path + [k])[1..] == path[1..] + [k];
      JoinPathAppend(path[1..], k);
    }
  }

  /** No later issue of `issues[..n]` has the same joined path as issue `i`. */
  ghost predicate LastWithPath(issues: seq<Issue>, i: nat, n: nat)
    requires i < n <= |issues|
  {
    forall j :: i < j < n ==> JoinPath(issues[j].path) != JoinPath(issues[i].path)
  }

  /**
   * The map built by writing each issue's message under its joined path, in order: its keys
   * are exactly the joined paths of the issues.
   */
  function Formatted(issues: seq<Issue>): (m: map<string, string>)
    ensures forall k :: k in m <==> exists i :: 0 <= i < |issues| && JoinPath(issues[i].path) == k
  {
    if issues == [] then map[]
    else
      var init, last := issues[..|issues| - 1], issues[|issues| - 1];
      assert forall i :: 0 <= i < |init| ==> init[i] == issues[i];
      Formatted(init)[JoinPath(last.path) := last.message]
  }

  /** The message kept for a path is the one of the last issue with that path. */
  lemma {:induction false} FormattedLastWins(issues: seq<Issue>, i: nat)
    requires i < |issues| && LastWithPath(issues, i, |issues|)
    ensures JoinPath(issues[i].path) in Formatted(issues)
    ensures Formatted(issues)[JoinPath(issues[i].path)] == issues[i].message
  {
    if i < |issues| - 1 {
      var init := issues[..|issues| - 1];
      assert init[i] == issues[i];
      assert LastWithPath(init, i, |init|) by {
        forall j | i < j < |init| ensures JoinPath(init[j].path) != JoinPath(init[i].path) {
          assert init[j] == issues[j];
        }
      }
      FormattedLastWins(init, i);
      assert JoinPath(issues[|issues| - 1].path) != JoinPath(issues[i].path);
    }
  }

  /**
   * `formatValidationErrors`: one entry per joined path that some issue has, holding the
   * message of the last issue with that path.
   */
  method FormatValidationErrors(issues: seq<Issue>) returns (errors: map<string, string>)
    ensures errors == Formatted(issues)
    ensures forall k :: k in errors <==> exists i :: 0 <= i < |issues| && JoinPath(issues[i].path) == k
    ensures forall i :: 0 <= i < |issues| && LastWithPath(issues, i, |issues|) ==>
      JoinPath(issues[i].path) in errors && errors[JoinPath(issues[i].path)] == issues[i].message
  {
    errors := map[];
    for n := 0 to |issues|
      invariant errors == Formatted(issues[..n])
    {
      assert issues[..n + 1][..n] == issues[..n];
      var path := JoinPath(issues[n].path);
      errors := errors[path := issues[n].message];
    }
    assert issues[..|issues|] == issues;
    forall i | 0 <= i < |issues| && LastWithPath(issues, i, |issues|)
      ensures JoinPath(issues[i].path) in errors && errors[JoinPath(issues[i].path)] == issues[i].message
    {
      FormattedLastWins(issues, i);
    }
  }
}

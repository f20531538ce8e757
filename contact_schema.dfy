/**
 * The validation rules of the contact form: the `contactFormSchema` zod object.
 * Parsing a form value against the schema either succeeds or yields a list of
 * issues, one per failing field, each carrying the field's path and the rule's
 * message, in the order the fields are declared.
 */
module ContactSchema {
  import opened Wrappers

  /** The four named inputs of the form, in schema order. */
  datatype Field = FirstName | Email | Phone | Message

  const AllFields: set<Field> := {FirstName, Email, Phone, Message}

  /** Position of a field in the schema declaration (zod reports issues in this order). */
  function Rank(f: Field): nat
  {
    match f
    case FirstName => 0
    case Email => 1
    case Phone => 2
    case Message => 3
  }

  /**
   * The object handed to the schema. `phone` is declared optional, so it is
   * the one field that may be absent (`None`); the other three are strings.
   * Lengths are counted in elements of the string, as zod's `.min` counts them.
   */
  datatype FormData = FormData(firstName: string, email: string, phone: Option<string>, message: string)

  /**
   * zod's e-mail syntax check. Its definition is internal to the zod library,
   * so the model takes it as a parameter and assumes nothing about it.
   */
  type EmailCheck = string -> bool

  const MinNameLength := 2
  const MinPhoneLength := 11
  const MinMessageLength := 10

  const NameMessage := "Nome deve ter pelo menos 2 caracteres"
  const EmailMessage := "Por favor, insira um e-mail válido"
  const PhoneMessage := "Telefone deve ter pelo menos 11 dígitos"
  const MessageMessage := "Mensagem deve ter pelo menos 10 caracteres"

  /** The message each field's rule attaches to its issue. */
  function RuleMessage(f: Field): string
  {
    match f
    case FirstName => NameMessage
    case Email => EmailMessage
    case Phone => PhoneMessage
    case Message => MessageMessage
  }

  /** The value held for field `f`; `None` only for an absent phone. */
  function Value(data: FormData, f: Field): Option<string>
  {
    match f
    case FirstName => Some(data.firstName)
    case Email => Some(data.email)
    case Phone => data.phone
    case Message => Some(data.message)
  }

  /**
   * The rule of field `f`. There is no trimming: whitespace counts toward a
   * length. The phone rule is skipped only when the phone is absent; a present
   * phone, the empty string included, must have at least 11 characters of any kind.
   */
  predicate Passes(data: FormData, f: Field, isEmail: EmailCheck)
  {
    match f
    case FirstName => |data.firstName| >= MinNameLength
    case Email => isEmail(data.email)
    case Phone => data.phone.None? || |data.phone.value| >= MinPhoneLength
    case Message => |data.message| >= MinMessageLength
  }

  /**
   * The three length rules only ever ask for more characters: a value at least
   * as long as a passing one passes too (an absent phone stays exempt), and
   * whether it passes does not depend on the e-mail check.
   */
  lemma LengthRulesAreMonotone(d1: FormData, d2: FormData, f: Field, isEmail: EmailCheck, otherCheck: EmailCheck)
    requires f != Email
    requires Value(d1, f).None? == Value(d2, f).None?
    requires Value(d1, f).Some? ==> |Value(d1, f).value| <= |Value(d2, f).value|
    ensures Passes(d1, f, isEmail) ==> Passes(d2, f, otherCheck)
  {
  }

  /** One entry of a `ZodError`'s `errors` list. */
  datatype Issue = Issue(path: Field, message: string)

  /** The field declared at position `n` of the schema. */
  function FieldAt(n: nat): (f: Field)
    requires n < 4
    ensures Rank(f) == n
  {
    if n == 0 then FirstName else if n == 1 then Email else if n == 2 then Phone else Message
  }

  /**
   * The issues for the fields declared from position `n` on: one per failing
   * field, in declaration order.
   */
  function IssuesFrom(data: FormData, isEmail: EmailCheck, n: nat): (r: seq<Issue>)
    decreases 4 - n
    ensures forall i | 0 <= i < |r| :: !Passes(data, r[i].path, isEmail) && r[i].message == RuleMessage(r[i].path)
    ensures forall i | 0 <= i < |r| :: n <= Rank(r[i].path)
    ensures forall f | n <= Rank(f) && !Passes(data, f, isEmail) :: exists i | 0 <= i < |r| :: r[i].path == f
    ensures forall i, j | 0 <= i < j < |r| :: Rank(r[i].path) < Rank(r[j].path)
  {
    if n >= 4 then []
    else
      var rest := IssuesFrom(data, isEmail, n + 1);
      if Passes(data, FieldAt(n), isEmail) then
        SkippedField(data, isEmail, n, rest);
        rest
      else
        var r := [Issue(FieldAt(n), RuleMessage(FieldAt(n)))] + rest;
        ConsedIssue(data, isEmail, n, rest, r);
        r
  }

  /** The only field at schema position `n` is `FieldAt(n)`. */
  lemma RankIdentifies(f: Field, n: nat)
    requires n < 4 && Rank(f) == n
    ensures f == FieldAt(n)
  {
  }

  /** When the field at position `n` passes, the issues of the later fields are already the issues from `n` on. */
  lemma SkippedField(data: FormData, isEmail: EmailCheck, n: nat, rest: seq<Issue>)
    requires n < 4 && Passes(data, FieldAt(n), isEmail)
    requires forall i | 0 <= i < |rest| :: n + 1 <= Rank(rest[i].path)
    requires forall f | n + 1 <= Rank(f) && !Passes(data, f, isEmail) :: exists i | 0 <= i < |rest| :: rest[i].path == f
    ensures forall i | 0 <= i < |rest| :: n <= Rank(rest[i].path)
    ensures forall f | n <= Rank(f) && !Passes(data, f, isEmail) :: exists i | 0 <= i < |rest| :: rest[i].path == f
  {
    forall f | n <= Rank(f) && !Passes(data, f, isEmail) ensures exists i | 0 <= i < |rest| :: rest[i].path == f {
      if Rank(f) == n {
        RankIdentifies(f, n);
        assert false;
      }
    }
  }

  /** Consing the issue of the failing field at position `n` onto the issues of the later fields gives the issues from `n` on. */
  lemma ConsedIssue(data: FormData, isEmail: EmailCheck, n: nat, rest: seq<Issue>, r: seq<Issue>)
    requires n < 4 && !Passes(data, FieldAt(n), isEmail)
    requires r == [Issue(FieldAt(n), RuleMessage(FieldAt(n)))] + rest
    requires forall i | 0 <= i < |rest| :: !Passes(data, rest[i].path, isEmail) && rest[i].message == RuleMessage(rest[i].path)
    requires forall i | 0 <= i < |rest| :: n + 1 <= Rank(rest[i].path)
    requires forall f | n + 1 <= Rank(f) && !Passes(data, f, isEmail) :: exists i | 0 <= i < |rest| :: rest[i].path == f
    requires forall i, j | 0 <= i < j < |rest| :: Rank(rest[i].path) < Rank(rest[j].path)
    ensures forall i | 0 <= i < |r| :: !Passes(data, r[i].path, isEmail) && r[i].message == RuleMessage(r[i].path)
    ensures forall i | 0 <= i < |r| :: n <= Rank(r[i].path)
    ensures forall f | n <= Rank(f) && !Passes(data, f, isEmail) :: exists i | 0 <= i < |r| :: r[i].path == f
    ensures forall i, j | 0 <= i < j < |r| :: Rank(r[i].path) < Rank(r[j].path)
  {
    forall i | 0 < i < |r| ensures r[i] == rest[i - 1] {
    }
    forall i, j | 0 <= i < j < |r| ensures Rank(r[i].path) < Rank(r[j].path) {
      if 0 < i {
        assert Rank(rest[i - 1].path) < Rank(rest[j - 1].path);
      }
    }
    forall f | n <= Rank(f) && !Passes(data, f, isEmail) ensures exists i | 0 <= i < |r| :: r[i].path == f {
      if Rank(f) == n {
        RankIdentifies(f, n);
        assert r[0].path == f;
      } else {
        var i :| 0 <= i < |rest| && rest[i].path == f;
        assert r[i + 1] == rest[i];
      }
    }
  }

  /**
   * The issues `contactFormSchema.parse` reports for `data`; parsing succeeds
   * exactly when the list is empty.
   */
  function Issues(data: FormData, isEmail: EmailCheck): (r: seq<Issue>)
    // every issue is about a failing field and carries that rule's message
    ensures forall i | 0 <= i < |r| :: !Passes(data, r[i].path, isEmail) && r[i].message == RuleMessage(r[i].path)
    // every failing field is reported
    ensures forall f :: !Passes(data, f, isEmail) ==> exists i | 0 <= i < |r| :: r[i].path == f
    // in schema order, hence at most once per field
    ensures forall i, j | 0 <= i < j < |r| :: Rank(r[i].path) < Rank(r[j].path)
  {
    IssuesFrom(data, isEmail, 0)
  }

  /** When every field from position `n` on fails, each of them is reported: `4 - n` issues. */
  lemma {:induction false} AllFailingFrom(data: FormData, isEmail: EmailCheck, n: nat)
    requires n <= 4
    requires forall k | n <= k < 4 :: !Passes(data, FieldAt(k), isEmail)
    ensures |IssuesFrom(data, isEmail, n)| == 4 - n
    decreases 4 - n
  {
    if n < 4 {
      AllFailingFrom(data, isEmail, n + 1);
    }
  }

  /** The error map the form should display for `data`: the failing fields, each with its rule's message. */
  function ErrorsFor(data: FormData, isEmail: EmailCheck): map<Field, string>
  {
    map f | f in AllFields && !Passes(data, f, isEmail) :: RuleMessage(f)
  }

  /** Parsing succeeds exactly when every field passes its rule, that is, when there is nothing to display. */
  lemma ParseSucceedsIff(data: FormData, isEmail: EmailCheck)
    ensures Issues(data, isEmail) == [] <==> forall f :: Passes(data, f, isEmail)
    ensures Issues(data, isEmail) == [] <==> ErrorsFor(data, isEmail) == map[]
  {
    if ErrorsFor(data, isEmail) == map[] {
      forall f ensures Passes(data, f, isEmail) {
        assert f.FirstName? || f.Email? || f.Phone? || f.Message?;
        assert f !in ErrorsFor(data, isEmail);
      }
    }
  }

  /** A name error appears exactly when the name is shorter than two characters. */
  lemma NameRule(data: FormData, isEmail: EmailCheck)
    ensures FirstName in ErrorsFor(data, isEmail) <==> |data.firstName| < MinNameLength
    ensures |data.firstName| < MinNameLength ==> ErrorsFor(data, isEmail)[FirstName] == NameMessage
    ensures FirstName !in ErrorsFor(data.(firstName := "  "), isEmail)
  {
  }

  /** A message error appears exactly when the message is shorter than ten characters. */
  lemma MessageRule(data: FormData, isEmail: EmailCheck)
    ensures Message in ErrorsFor(data, isEmail) <==> |data.message| < MinMessageLength
    ensures |data.message| < MinMessageLength ==> ErrorsFor(data, isEmail)[Message] == MessageMessage
  {
  }

  /**
   * The phone is checked only when present: an absent phone passes, a present
   * one shorter than 11 characters fails (the empty string included), and any
   * 11 characters pass, digits or not.
   */
  lemma PhoneRule(data: FormData, isEmail: EmailCheck)
    ensures data.phone.None? ==> Phone !in ErrorsFor(data, isEmail)
    ensures data.phone.Some? ==> (Phone in ErrorsFor(data, isEmail) <==> |data.phone.value| < MinPhoneLength)
    ensures Phone in ErrorsFor(data.(phone := Some("")), isEmail)
    ensures Phone !in ErrorsFor(data.(phone := Some("abcdefghijk")), isEmail)
  {
  }

  /** Whether one field passes depends on that field's value alone. */
  lemma PassesIsLocal(d1: FormData, d2: FormData, f: Field, isEmail: EmailCheck)
    requires Value(d1, f) == Value(d2, f)
    ensures Passes(d1, f, isEmail) == Passes(d2, f, isEmail)
  {
  }
}

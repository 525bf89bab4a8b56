/** The contact form of src/pages/Contact.tsx, through its event handlers: a field
    edit, the submit (validation, error map, the simulated send) and the end of the
    particle effect. The submit handler awaits a one-second timer; the model splits
    it there into HandleSubmit and FinishSubmit. */
module Contact {
  import opened Json
  import opened Validation
  import opened Browser

  const SubmitSuccessText: string := "提交成功！我们会尽快回复您"
  const SubmitInvalidText: string := "请检查表单填写是否正确"

  datatype Field = NameField | EmailField | MessageField

  /** The `name` attribute of the input that raised the change event. */
  function FieldKey(f: Field): (k: string)
    ensures k in {"name", "email", "message"}
  {
    match f
    case NameField => "name"
    case EmailField => "email"
    case MessageField => "message"
  }

  lemma FieldKeyInjective(f: Field, g: Field)
    ensures FieldKey(f) == FieldKey(g) ==> f == g
  {
  }

  datatype FormData = FormData(name: string, email: string, message: string)

  const EmptyForm: FormData := FormData("", "", "")

  function FieldValue(form: FormData, f: Field): string {
    match f
    case NameField => form.name
    case EmailField => form.email
    case MessageField => form.message
  }

  /** `{ ...prev, [name]: value }`. */
  function WithField(form: FormData, f: Field, value: string): (r: FormData)
    ensures FieldValue(r, f) == value
    ensures forall g :: g != f ==> FieldValue(r, g) == FieldValue(form, g)
  {
    match f
    case NameField => form.(name := value)
    case EmailField => form.(email := value)
    case MessageField => form.(message := value)
  }

  /** `contactSchema.parse(formData)`'s issues, in field order. */
  function ContactIssues(form: FormData, isEmail: string -> bool): (issues: seq<Issue>)
    ensures issues == [] <==> |form.name| >= 2 && isEmail(form.email) && |form.message| >= 10
    ensures forall i :: 0 <= i < |issues| ==> |issues[i].path| == 1
  {
    MinLength("name", form.name, 2, "姓名至少需要2个字符")
    + EmailCheck("email", form.email, isEmail, "请输入有效的邮箱地址")
    + MinLength("message", form.message, 10, "消息内容至少需要10个字符")
  }

  /** The key an issue is filed under: its first path element, or "undefined"
      for an empty path, as a JavaScript object key would read it. */
  function IssueKey(issue: Issue): string {
    if |issue.path| > 0 then issue.path[0] else "undefined"
  }

  /** The issue at `i` is the last one filed under its key. */
  predicate LastForKey(issues: seq<Issue>, i: int) {
    0 <= i < |issues| && forall j :: i < j < |issues| ==> IssueKey(issues[j]) != IssueKey(issues[i])
  }

  /** The keys some issue is filed under. */
  function IssueKeys(issues: seq<Issue>): set<string> {
    set i | 0 <= i < |issues| :: IssueKey(issues[i])
  }

  /** The error map the `forEach` builds, entry by entry from the first issue on.
      Every entry is the message of some issue filed under that key. */
  function ErrorMapOf(issues: seq<Issue>): (errors: map<string, string>)
    ensures forall k :: k in errors ==> exists i :: 0 <= i < |issues| && IssueKey(issues[i]) == k && issues[i].message == errors[k]
    decreases |issues|
  {
    if issues == [] then map[]
    else
      var last := issues[|issues| - 1];
      ErrorMapOf(issues[..|issues| - 1])[IssueKey(last) := last.message]
  }

  /** Exactly the keys of the issues get an entry. */
  lemma {:induction false} ErrorMapKeys(issues: seq<Issue>)
    ensures ErrorMapOf(issues).Keys == IssueKeys(issues)
    decreases |issues|
  {
    if issues != [] {
      var init := issues[..|issues| - 1];
      ErrorMapKeys(init);
      assert IssueKeys(issues) == IssueKeys(init) + {IssueKey(issues[|issues| - 1])} by {
        forall k | k in IssueKeys(issues) ensures k in IssueKeys(init) + {IssueKey(issues[|issues| - 1])} {
          var i :| 0 <= i < |issues| && IssueKey(issues[i]) == k;
          if i < |issues| - 1 {
            assert init[i] == issues[i];
          }
        }
        forall k | k in IssueKeys(init) ensures k in IssueKeys(issues) {
          var i :| 0 <= i < |init| && IssueKey(init[i]) == k;
          assert issues[i] == init[i];
        }
      }
    }
  }

  /** A later issue for the same key overwrites an earlier one: each key holds the
      message of its last issue. */
  lemma {:induction false} ErrorMapLastWins(issues: seq<Issue>, i: int)
    requires LastForKey(issues, i)
    ensures IssueKey(issues[i]) in ErrorMapOf(issues)
    ensures ErrorMapOf(issues)[IssueKey(issues[i])] == issues[i].message
    decreases |issues|
  {
    if i < |issues| - 1 {
      var init := issues[..|issues| - 1];
      assert LastForKey(init, i) by {
        forall j | i < j < |init| ensures IssueKey(init[j]) != IssueKey(init[i]) {
          assert init[j] == issues[j];
        }
      }
      ErrorMapLastWins(init, i);
    }
  }

  /** The `forEach` that builds `newErrors`: each issue's message under its key, a
      later issue overwriting an earlier one for the same key. */
  method BuildErrorMap(issues: seq<Issue>) returns (errors: map<string, string>)
    ensures errors == ErrorMapOf(issues)
    ensures errors.Keys == IssueKeys(issues)
    ensures forall i :: LastForKey(issues, i) ==> IssueKey(issues[i]) in errors && errors[IssueKey(issues[i])] == issues[i].message
  {
    errors := map[];
    var n := 0;
    while n < |issues|
      invariant 0 <= n <= |issues|
      invariant errors == ErrorMapOf(issues[..n])
    {
      assert issues[..n + 1][..n] == issues[..n];
      errors := errors[IssueKey(issues[n]) := issues[n].message];
      n := n + 1;
    }
    assert issues[..n] == issues;
    ErrorMapKeys(issues);
    forall i | LastForKey(issues, i)
      ensures IssueKey(issues[i]) in errors && errors[IssueKey(issues[i])] == issues[i].message
    {
      ErrorMapLastWins(issues, i);
    }
  }

  /** The page's state. */
  class ContactPage {
    var formData: FormData
    var errors: map<string, string>
    var isSubmitting: bool
    var showParticles: bool

    constructor ()
      ensures formData == EmptyForm && errors == map[] && !isSubmitting && !showParticles
    {
      formData := EmptyForm;
      errors := map[];
      isSubmitting := false;
      showParticles := false;
    }

    /** `handleChange`: only the edited field changes; its error, when non-empty,
        is blanked, and no other error is touched. */
    method HandleChange(f: Field, value: string)
      modifies this
      ensures formData == WithField(old(formData), f, value)
      ensures var k := FieldKey(f);
              errors == if k in old(errors) && old(errors)[k] != "" then old(errors)[k := ""] else old(errors)
      ensures isSubmitting == old(isSubmitting) && showParticles == old(showParticles)
    {
      formData := WithField(formData, f, value);
      var k := FieldKey(f);
      if k in errors && errors[k] != "" {
        errors := errors[k := ""];
      }
    }

    /** `handleSubmit` up to its await. An invalid form sets the error map, keeps
        the form and leaves `isSubmitting` false; a valid one only sets
        `isSubmitting` and waits. `pending` says whether the send is under way. */
    method HandleSubmit(isEmail: string -> bool) returns (pending: bool, notice: Option<Toast>)
      modifies this
      ensures pending <==> ContactIssues(old(formData), isEmail) == []
      ensures isSubmitting == pending
      ensures formData == old(formData) && showParticles == old(showParticles)
      ensures pending ==> errors == old(errors) && notice.None?
      ensures !pending ==> notice == Some(ToastError(SubmitInvalidText))
      ensures !pending ==> errors == ErrorMapOf(ContactIssues(old(formData), isEmail))
      ensures !pending ==> errors.Keys == IssueKeys(ContactIssues(old(formData), isEmail))
      ensures !pending ==> var issues := ContactIssues(old(formData), isEmail);
              forall i :: LastForKey(issues, i) ==> errors[IssueKey(issues[i])] == issues[i].message
    {
      var issues := ContactIssues(formData, isEmail);
      if issues == [] {
        isSubmitting := true;
        pending, notice := true, None;
      } else {
        var newErrors := BuildErrorMap(issues);
        errors := newErrors;
        isSubmitting := false;
        pending, notice := false, Some(ToastError(SubmitInvalidText));
      }
    }

    /** The rest of `handleSubmit` once the timer fires: particles on, form reset,
        success toast, and `isSubmitting` back to false. The error map is left as it was. */
    method FinishSubmit() returns (notice: Toast)
      requires isSubmitting
      modifies this
      ensures formData == EmptyForm && showParticles && !isSubmitting
      ensures errors == old(errors)
      ensures notice == ToastSuccess(SubmitSuccessText)
    {
      showParticles := true;
      formData := EmptyForm;
      isSubmitting := false;
      notice := ToastSuccess(SubmitSuccessText);
    }

    /** The two-second timer that ends the particle effect. */
    method ParticlesTimeout()
      modifies this
      ensures !showParticles
      ensures formData == old(formData) && errors == old(errors) && isSubmitting == old(isSubmitting)
    {
      showParticles := false;
    }
  }

  /** On an invalid form every failing field, and only a failing field, gets an
      entry in the error map, with that field's message. */
  lemma InvalidFieldsAreExactlyTheErrorKeys(form: FormData, isEmail: string -> bool, k: string)
    ensures k in IssueKeys(ContactIssues(form, isEmail)) <==>
            || (k == "name" && |form.name| < 2)
            || (k == "email" && !isEmail(form.email))
            || (k == "message" && |form.message| < 10)
  {
    var issues := ContactIssues(form, isEmail);
    var a := MinLength("name", form.name, 2, "姓名至少需要2个字符");
    var b := EmailCheck("email", form.email, isEmail, "请输入有效的邮箱地址");
    var c := MinLength("message", form.message, 10, "消息内容至少需要10个字符");
    assert issues == a + b + c;
    if k in IssueKeys(issues) {
      var i :| 0 <= i < |issues| && IssueKey(issues[i]) == k;
      if i < |a| {
        assert issues[i] == a[i];
      } else if i < |a| + |b| {
        assert issues[i] == b[i - |a|];
      } else {
        assert issues[i] == c[i - |a| - |b|];
      }
    }
    if k == "name" && |form.name| < 2 {
      assert IssueKey(issues[0]) == k;
    } else if k == "email" && !isEmail(form.email) {
      assert IssueKey(issues[|a|]) == k;
    } else if k == "message" && |form.message| < 10 {
      assert IssueKey(issues[|a| + |b|]) == k;
    }
  }
}

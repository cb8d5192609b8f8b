/** The sign-in screen: a form with a name and a role, validated on
    submit. Success hands the user to the `onLogin` callback and shows a
    welcome toast; failure shows an error toast and calls nothing. */
module Auth {
  import opened Wrappers

  datatype Role = Grower | Technician

  /** The role as the form and the session store spell it. */
  function RoleName(r: Role): string {
    match r
    case Grower => "grower"
    case Technician => "technician"
  }

  /** The payload given to `onLogin`. */
  datatype User = User(name: string, role: Role)

  datatype Toast = Toast(title: string, description: Option<string>, destructive: bool)

  /** What one submit does: the `onLogin` call it makes, if any, and the
      toast it shows. */
  datatype SubmitResult = SubmitResult(login: Option<User>, toast: Toast)

  const MissingFieldsToast := Toast("Please fill in all fields", None, true)

  /** The check in `handleSubmit`: both fields non-empty. No trimming. */
  predicate IsComplete(name: string, role: string) {
    name != "" && role != ""
  }

  /** `formData`: name and role, both empty at first. */
  class LoginForm {
    var name: string
    var role: string

    /** The role is empty or one of the two the selector offers. */
    predicate Valid()
      reads this
    {
      role == "" || role == "grower" || role == "technician"
    }

    constructor ()
      ensures Valid() && name == "" && role == ""
    {
      name := "";
      role := "";
    }

    /** The name input's `onChange`. */
    method SetName(value: string)
      requires Valid()
      modifies this
      ensures Valid() && name == value && role == old(role)
    {
      name := value;
    }

    /** The role selector's `onValueChange`. */
    method SetRole(value: Role)
      modifies this
      ensures Valid() && role == RoleName(value) && name == old(name)
    {
      role := RoleName(value);
    }

    /** `handleSubmit`: an incomplete form is refused without calling
        `onLogin`; a complete one logs in with the form's values unchanged. */
    method HandleSubmit() returns (result: SubmitResult)
      requires Valid()
      ensures result.login.None? <==> !IsComplete(name, role)
      ensures result.login.None? ==> result.toast == MissingFieldsToast
      ensures result.login.Some? ==>
                result.login.value.name == name && RoleName(result.login.value.role) == role &&
                result.toast == Toast("Welcome to PoultryWatch!", Some("Logged in as " + role), false)
    {
      if !IsComplete(name, role) {
        return SubmitResult(None, MissingFieldsToast);
      }
      var r := if role == "grower" then Grower else Technician;
      result := SubmitResult(Some(User(name, r)),
                             Toast("Welcome to PoultryWatch!", Some("Logged in as " + role), false));
    }
  }

  /** Each role has its own spelling, so a logged-in user's role string
      identifies the role. */
  lemma RoleNamesDistinct(a: Role, b: Role)
    ensures RoleName(a) == RoleName(b) <==> a == b
    ensures RoleName(a) != ""
  {
  }

  /** A blank name is not an empty one: it passes the check. */
  lemma WhitespaceNamePasses()
    ensures IsComplete(" ", "grower")
    ensures !IsComplete("", "grower") && !IsComplete("Maria", "")
  {
  }

  /** A client scenario, checked statically: editing one field keeps the
      other, an empty role is refused, and a complete form logs in as
      exactly what was typed. */
  method SignInScenario(typed: string)
    requires typed != ""
  {
    var form := new LoginForm();
    form.SetName(typed);
    var refused := form.HandleSubmit();
    assert refused.login == None && refused.toast == MissingFieldsToast;
    form.SetRole(Technician);
    assert form.name == typed;
    var accepted := form.HandleSubmit();
    assert accepted.login == Some(User(typed, Technician));
    assert "Logged in as " + form.role == "Logged in as technician";
    assert accepted.toast.description == Some("Logged in as technician");
  }
}

/** The staff page: the user form for adding and editing staff, the save
    validation with its password rule, the activate/deactivate toggle, the
    search filter and the active/inactive counters. */
module Staff {
  import opened Seqs
  import opened Text
  import opened Types

  datatype UserForm = UserForm(username: string, password: string, full_name: string, role: UserRole)

  const BlankUserForm := UserForm("", "", "", Receptionist)

  /** What a save sends: a new user with the whole form, or an update of
      a user that carries the password only when one was typed. */
  datatype UserRequest =
    | CreateUser(form: UserForm)
    | UpdateUser(id: string, username: string, full_name: string, role: UserRole, password: Option<string>)

  datatype SaveError = MissingFields | PasswordRequired

  /** `handleSaveUser`: user name and full name are required; a password
      is required unless editing; an edit of a selected user is an update
      without an empty password, anything else is a create. */
  function SaveUserRequest(form: UserForm, isEditing: bool, selectedUser: Option<User>): (r: Result<UserRequest, SaveError>)
    ensures r == Err(MissingFields) <==> form.username == "" || form.full_name == ""
    ensures r == Err(PasswordRequired) <==> form.username != "" && form.full_name != "" && !isEditing && form.password == ""
    ensures r.Ok? && r.value.UpdateUser? ==> isEditing && selectedUser.Some? && r.value.id == selectedUser.value.id
    ensures r.Ok? && r.value.UpdateUser? ==>
      r.value.username == form.username && r.value.full_name == form.full_name && r.value.role == form.role
    ensures r.Ok? && r.value.UpdateUser? ==> (r.value.password.None? <==> form.password == "")
    ensures r.Ok? && r.value.UpdateUser? ==> r.value.password.GetOr("") == form.password
    ensures r.Ok? && r.value.CreateUser? ==> r.value.form == form && (isEditing ==> selectedUser.None?)
  {
    if form.username == "" || form.full_name == "" then Err(MissingFields)
    else if !isEditing && form.password == "" then Err(PasswordRequired)
    else if isEditing && selectedUser.Some? then
      Ok(UpdateUser(selectedUser.value.id, form.username, form.full_name, form.role,
                    if form.password == "" then None else Some(form.password)))
    else Ok(CreateUser(form))
  }

  /** While the page keeps its editing flag and selection together, a
      create always carries a password and an edit is always an update. */
  lemma CreateHasPassword(form: UserForm, isEditing: bool, selectedUser: Option<User>)
    requires isEditing ==> selectedUser.Some?
    requires SaveUserRequest(form, isEditing, selectedUser).Ok?
    ensures SaveUserRequest(form, isEditing, selectedUser).value.CreateUser? <==> !isEditing
    ensures SaveUserRequest(form, isEditing, selectedUser).value.CreateUser? ==> form.password != ""
  {
  }

  /** The update sent by `handleToggleActive`: the negation of the user's flag. */
  function ToggleActiveUpdate(user: User): (isActive: bool)
    ensures isActive != user.is_active
  {
    !user.is_active
  }

  /** Toggling a user twice gives back the user. */
  lemma ToggleTwiceRestores(user: User)
    ensures var once := user.(is_active := ToggleActiveUpdate(user));
      once.(is_active := ToggleActiveUpdate(once)) == user
  {
  }

  /** The staff search: full name or user name contains the term ignoring
      case, and the role filter (None is 'all') matches. */
  predicate UserMatches(user: User, searchTerm: string, roleFilter: Option<UserRole>) {
    && (ContainsIgnoreCase(user.full_name, searchTerm) || ContainsIgnoreCase(user.username, searchTerm))
    && (roleFilter.None? || user.role == roleFilter.value)
  }

  function FilteredUsers(users: seq<User>, searchTerm: string, roleFilter: Option<UserRole>): (r: seq<User>)
    ensures forall i :: 0 <= i < |r| ==> r[i] in users && UserMatches(r[i], searchTerm, roleFilter)
    ensures forall i :: 0 <= i < |users| && UserMatches(users[i], searchTerm, roleFilter) ==> users[i] in r
  {
    Filter(users, (user: User) => UserMatches(user, searchTerm, roleFilter))
  }

  /** An empty search lists exactly the users of the chosen role. */
  lemma EmptySearchListsRole(users: seq<User>, role: UserRole)
    ensures FilteredUsers(users, "", Some(role)) == Filter(users, (user: User) => user.role == role)
  {
    assert ToLower("") == "";
    forall i | 0 <= i < |users| ensures UserMatches(users[i], "", Some(role)) == (users[i].role == role) {
      ContainsEmpty(ToLower(users[i].full_name));
    }
    FilterCongruent(users, (user: User) => UserMatches(user, "", Some(role)), (user: User) => user.role == role);
  }

  function ActiveStaff(users: seq<User>): (n: nat)
    ensures n <= |users|
  {
    Count(users, (u: User) => u.is_active)
  }

  function InactiveStaff(users: seq<User>): (n: nat)
    ensures n <= |users|
  {
    Count(users, (u: User) => !u.is_active)
  }

  /** Active plus inactive staff is the whole staff. */
  lemma ActivePlusInactive(users: seq<User>)
    ensures ActiveStaff(users) + InactiveStaff(users) == |users|
  {
    CountComplement(users, (u: User) => u.is_active, (u: User) => !u.is_active);
  }

  class StaffPage {
    var formData: UserForm
    var isEditing: bool
    var selectedUser: Option<User>
    var showUserDialog: bool

    /** The editing flag never outlives the selection it edits. */
    predicate Valid()
      reads this
    {
      isEditing ==> selectedUser.Some?
    }

    constructor ()
      ensures formData == BlankUserForm && !isEditing && selectedUser == None && !showUserDialog
      ensures Valid()
    {
      formData, isEditing, selectedUser, showUserDialog := BlankUserForm, false, None, false;
    }

    /** `handleAddNew`: a blank receptionist form, not editing, dialog open. */
    method HandleAddNew()
      modifies this
      ensures formData == BlankUserForm && !isEditing && selectedUser == None && showUserDialog
      ensures Valid()
    {
      isEditing := false;
      selectedUser := None;
      formData := BlankUserForm;
      showUserDialog := true;
    }

    /** `handleEdit`: the form is filled from the user with a blank password. */
    method HandleEdit(user: User)
      modifies this
      ensures formData == UserForm(user.username, "", user.full_name, user.role)
      ensures isEditing && selectedUser == Some(user) && showUserDialog
      ensures Valid()
    {
      isEditing := true;
      selectedUser := Some(user);
      formData := UserForm(user.username, "", user.full_name, user.role);
      showUserDialog := true;
    }

    /** The operator types into the form. */
    method EditForm(form: UserForm)
      modifies this`formData
      ensures formData == form
    {
      formData := form;
    }

    /** `handleSaveUser`: returns what is sent, or the validation error;
        a successful save closes the dialog. */
    method HandleSaveUser(serverOk: bool) returns (r: Result<UserRequest, SaveError>)
      modifies this`showUserDialog
      ensures r == SaveUserRequest(formData, isEditing, selectedUser)
      ensures r.Ok? && serverOk ==> !showUserDialog
      ensures r.Err? || !serverOk ==> showUserDialog == old(showUserDialog)
      ensures Valid() && r.Ok? && r.value.CreateUser? ==> formData.password != ""
    {
      if formData.username == "" || formData.full_name == "" {
        return Err(MissingFields);
      }
      if !isEditing && formData.password == "" {
        return Err(PasswordRequired);
      }
      if isEditing && selectedUser.Some? {
        var password: Option<string> := Some(formData.password);
        if formData.password == "" {
          password := None;
        }
        r := Ok(UpdateUser(selectedUser.value.id, formData.username, formData.full_name, formData.role, password));
      } else {
        r := Ok(CreateUser(formData));
      }
      if serverOk {
        showUserDialog := false;
      }
    }
  }
}

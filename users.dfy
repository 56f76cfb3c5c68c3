/**
 * The user-management page: the user form's defaults, the coupling of the
 * role to the apartment, what the create and update requests carry, and which
 * users can be deleted.
 */
module Users {
  import opened Js
  import opened Records

  /** The user form. `apartmentId` holds whatever the user's apartment reference gave. */
  datatype UserForm = UserForm(
    username: string,
    email: string,
    password: string,
    firstName: string,
    lastName: string,
    phone: string,
    role: string,
    apartmentId: JsVal,
    isActive: JsVal)

  /** The form of a new user: every text empty, a caretaker, active. */
  function BlankForm(): UserForm {
    UserForm("", "", "", "", "", "", "caretaker", Str(""), Bool(true))
  }


  /** The form for editing a user: the user's own values, with no password typed yet. */
  function EditForm(u: User): (f: UserForm)
    ensures f.password == ""
    ensures f.role == (if u.role != "" then u.role else "caretaker")
    ensures f.isActive == (if u.isActive.Some? then Bool(u.isActive.value) else Bool(true))
    ensures f.apartmentId == IdOrEmpty(u.apartment)
    ensures f.username == u.username && f.email == u.email && f.firstName == u.firstName
    ensures f.lastName == u.lastName && f.phone == u.phone
  {
    UserForm(u.username, u.email, "", u.firstName, u.lastName, u.phone,
             if u.role != "" then u.role else "caretaker",
             IdOrEmpty(u.apartment),
             if u.isActive.Some? then Bool(u.isActive.value) else Bool(true))
  }

  /** `{ ...formData }` as the object sent to the server. */
  function Fields(f: UserForm): map<string, JsVal> {
    map["username" := Str(f.username), "email" := Str(f.email), "password" := Str(f.password),
        "firstName" := Str(f.firstName), "lastName" := Str(f.lastName), "phone" := Str(f.phone),
        "role" := Str(f.role), "apartmentId" := f.apartmentId, "isActive" := f.isActive]
  }

  /** A request to the user endpoints. */
  datatype UserCall =
    | UpdateUser(userId: string, payload: map<string, JsVal>)
    | Register(payload: map<string, JsVal>)

  /** The delete button is disabled for superadmins. */
  predicate CanDelete(u: User) {
    u.role != "superadmin"
  }

  /** Only the superadmin role protects an account from deletion. */
  lemma CanDeleteIff(u: User)
    ensures !CanDelete(u) <==> u.role == "superadmin"
    ensures u.role == "caretaker" ==> CanDelete(u)
  {
  }

  class UsersPage {
    var formData: UserForm
    var selectedUser: Option<User>
    var showModal: bool

    constructor()
      ensures formData == BlankForm() && selectedUser.None? && !showModal
    {
      formData := BlankForm();
      selectedUser := None;
      showModal := false;
    }

    /** `handleOpenModal(user)`: an existing user's values, or a blank form. */
    method HandleOpenModal(user: Option<User>)
      modifies this
      ensures user.Some? ==> formData == EditForm(user.value)
      ensures user.None? ==> formData == BlankForm()
      ensures selectedUser == user && showModal
    {
      if user.Some? {
        selectedUser := user;
        formData := EditForm(user.value);
      } else {
        selectedUser := None;
        formData := BlankForm();
      }
      showModal := true;
    }

    /** `handleCloseModal`: the form goes back to its defaults. */
    method HandleCloseModal()
      modifies this
      ensures formData == BlankForm() && selectedUser.None? && !showModal
    {
      showModal := false;
      selectedUser := None;
      formData := BlankForm();
    }

    /** Choosing a role: a superadmin is tied to no apartment, any other role keeps the chosen one. */
    method HandleRoleChange(role: string)
      modifies this
      ensures formData == old(formData).(role := role, apartmentId := if role == "superadmin" then Str("") else old(formData.apartmentId))
      ensures selectedUser == old(selectedUser) && showModal == old(showModal)
    {
      formData := formData.(role := role, apartmentId := if role == "superadmin" then Str("") else formData.apartmentId);
    }

    /**
     * `handleSubmit`: an update sends the form without the password when none
     * was typed; a new user without a password is refused before any call.
     * When the server accepts the request the modal closes and the form is reset.
     */
    method HandleSubmit(accepted: bool) returns (call: Option<UserCall>)
      modifies this
      ensures old(selectedUser).Some? ==>
                call.Some? && call.value.UpdateUser? && call.value.userId == old(selectedUser).value.id &&
                ("password" in call.value.payload <==> old(formData).password != "") &&
                (forall k :: k in call.value.payload <==> k in Fields(old(formData)) && (k != "password" || old(formData).password != "")) &&
                (forall k :: k in call.value.payload ==> call.value.payload[k] == Fields(old(formData))[k])
      ensures old(selectedUser).None? ==>
                (call.None? <==> old(formData).password == "") &&
                (call.Some? ==> call.value == Register(Fields(old(formData))))
      ensures call.Some? && accepted ==> formData == BlankForm() && selectedUser.None? && !showModal
      ensures call.None? || !accepted ==> formData == old(formData) && selectedUser == old(selectedUser) && showModal == old(showModal)
    {
      if selectedUser.Some? {
        var updateData := Fields(formData);
        if !Truthy(updateData["password"]) {
          updateData := updateData - {"password"};
        }
        call := Some(UpdateUser(selectedUser.value.id, updateData));
      } else {
        if formData.password == "" {
          return None;
        }
        call := Some(Register(Fields(formData)));
      }
      if accepted {
        HandleCloseModal();
      }
    }
  }

  /**
   * Opening an existing user and saving it untouched sends every field but
   * the password, so the stored password is kept.
   */
  lemma EditedUserKeepsPassword(u: User)
    ensures var f := EditForm(u);
            var sent := Fields(f) - {"password"};
            "password" !in sent && sent["role"] == Str(f.role) && sent["apartmentId"] == IdOrEmpty(u.apartment)
  {
  }
}

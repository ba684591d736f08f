/** The user administration page (src/pages/UserManagementPage.jsx): the
    create/edit form of `UserModal`, the payload each mode submits, the modal's
    open/close state, deletion behind a confirmation, and the role badge. */
module UserManagement {
  import opened Common

  const DefaultRole := "viewer"
  const SaveErrorFallback := "Error al guardar"
  const DeleteErrorFallback := "Error al eliminar"

  datatype User = User(id: int, name: string, email: string, role: string)

  /** The inputs of the form, by their `name` attribute. */
  datatype Field = Name | Email | Role | Password

  datatype FormData = FormData(name: string, email: string, role: string, password: string)

  /** The body of `PUT /users/{id}`: it has no password. */
  datatype UserBody = UserBody(name: string, email: string, role: string)

  /** The backend calls the page makes. */
  datatype ApiCall =
    | ListUsers
    | CreateUser(form: FormData)
    | UpdateUser(id: int, body: UserBody)
    | DeleteUser(id: int)

  /** What a handler does: the calls it makes, in order, the alert it raises,
      and whether it closes the modal. */
  datatype Effects = Effects(calls: seq<ApiCall>, alert: Option<string>, closes: bool)

  // ---------------------------------------------------------------- form

  function FieldValue(form: FormData, field: Field): string {
    match field
    case Name => form.name
    case Email => form.email
    case Role => form.role
    case Password => form.password
  }

  /** The form a new `UserModal` starts with: the user's data to edit, or a
      blank viewer to create; the password always starts empty. */
  function InitialForm(user: Option<User>): (form: FormData)
    ensures form.password == ""
    ensures user.Some? ==>
              form.name == user.value.name && form.email == user.value.email &&
              form.role == user.value.role
    ensures user.None? ==> form.name == "" && form.email == "" && form.role == DefaultRole
  {
    match user
    case Some(u) => FormData(u.name, u.email, u.role, "")
    case None => FormData("", "", DefaultRole, "")
  }

  /** `handleChange`: `{...prev, [name]: value}`. */
  function UpdateField(form: FormData, field: Field, value: string): (r: FormData)
    ensures FieldValue(r, field) == value
    ensures forall other :: other != field ==> FieldValue(r, other) == FieldValue(form, other)
  {
    match field
    case Name => form.(name := value)
    case Email => form.(email := value)
    case Role => form.(role := value)
    case Password => form.(password := value)
  }

  /** The last change to a field is the one that counts. */
  lemma UpdateFieldLastWins(form: FormData, field: Field, first: string, second: string)
    ensures UpdateField(UpdateField(form, field, first), field, second) == UpdateField(form, field, second)
  {
  }

  /** Changes to different fields can arrive in either order. */
  lemma UpdateFieldsCommute(form: FormData, f: Field, a: string, g: Field, b: string)
    requires f != g
    ensures UpdateField(UpdateField(form, f, a), g, b) == UpdateField(UpdateField(form, g, b), f, a)
  {
  }

  // ---------------------------------------------------------------- submit

  /** The call `handleSubmit` makes: an edit sends name, e-mail and role to
      the user's id; a create sends the whole form. */
  function SubmitCall(user: Option<User>, form: FormData): (c: ApiCall)
    ensures user.Some? ==> c == UpdateUser(user.value.id, UserBody(form.name, form.email, form.role))
    ensures user.None? ==> c == CreateUser(form)
  {
    match user
    case Some(u) => UpdateUser(u.id, UserBody(form.name, form.email, form.role))
    case None => CreateUser(form)
  }

  /** An edit never sends the password: changing it changes nothing sent. */
  lemma EditIgnoresPassword(u: User, form: FormData, password: string)
    ensures SubmitCall(Some(u), UpdateField(form, Password, password)) == SubmitCall(Some(u), form)
  {
  }

  /** A create sends the password exactly as typed. */
  lemma CreateSendsPassword(form: FormData, password: string)
    ensures SubmitCall(None, UpdateField(form, Password, password)).form.password == password
  {
  }

  /** Submitting the form: on success refresh the list, then close; on
      failure alert and stay open. */
  function SubmitEffects(user: Option<User>, form: FormData, response: Response<()>): (e: Effects)
    ensures e.calls == if response.Ok? then [SubmitCall(user, form), ListUsers] else [SubmitCall(user, form)]
    ensures e.closes <==> response.Ok?
    ensures ListUsers in e.calls <==> response.Ok?
    ensures e.alert.Some? <==> response.Failed?
    ensures response.Failed? ==> e.alert.value == DetailOr(response.detail, SaveErrorFallback)
  {
    match response
    case Ok(_) => Effects([SubmitCall(user, form), ListUsers], None, true)
    case Failed(detail) => Effects([SubmitCall(user, form)], Some(DetailOr(detail, SaveErrorFallback)), false)
  }

  /** `handleDelete(userId)`: nothing without confirmation; a confirmed delete
      refetches the list when it succeeds and alerts when it fails. */
  function DeleteEffects(userId: int, confirmed: bool, response: Response<()>): (e: Effects)
    ensures !e.closes
    ensures e.calls != [] <==> confirmed
    ensures e.calls == if !confirmed then [] else if response.Ok? then [DeleteUser(userId), ListUsers] else [DeleteUser(userId)]
    ensures ListUsers in e.calls <==> confirmed && response.Ok?
    ensures e.alert.Some? <==> confirmed && response.Failed?
    ensures e.alert.Some? ==> e.alert.value == DetailOr(response.detail, DeleteErrorFallback)
  {
    if !confirmed then Effects([], None, false)
    else match response
      case Ok(_) => Effects([DeleteUser(userId), ListUsers], None, false)
      case Failed(detail) => Effects([DeleteUser(userId)], Some(DetailOr(detail, DeleteErrorFallback)), false)
  }

  // ---------------------------------------------------------------- badge

  datatype BadgeColour = RedBadge | YellowBadge | GreenBadge

  /** The colour of the role badge in the users table. */
  function RoleBadge(role: string): (c: BadgeColour)
    ensures c == RedBadge <==> role == "admin"
    ensures c == YellowBadge <==> role == "editor"
    ensures c == GreenBadge <==> role != "admin" && role != "editor"
  {
    if role == "admin" then RedBadge
    else if role == "editor" then YellowBadge
    else GreenBadge
  }

  // ---------------------------------------------------------------- state

  /** A mounted `UserModal`: the user it edits (none to create) and its form. */
  class UserModal {
    const user: Option<User>
    var form: FormData

    constructor (user: Option<User>)
      ensures this.user == user && form == InitialForm(user)
    {
      this.user := user;
      form := InitialForm(user);
    }

    /** An input's `onChange`. */
    method HandleChange(field: Field, value: string)
      modifies this`form
      ensures form == UpdateField(old(form), field, value)
    {
      form := UpdateField(form, field, value);
    }

    function Request(): ApiCall
      reads this
    {
      SubmitCall(user, form)
    }
  }

  /** The state of the mounted `UserManagementPage`. */
  class UserManagementPage {
    var users: seq<User>
    var loading: bool
    var isModalOpen: bool
    var editingUser: Option<User>
    var modal: UserModal?

    /** The modal is mounted exactly while it is open, for the user being edited. */
    ghost predicate Valid()
      reads this
    {
      (modal != null <==> isModalOpen) && (modal != null ==> modal.user == editingUser)
    }

    constructor ()
      ensures Valid() && users == [] && loading
      ensures !isModalOpen && editingUser.None?
    {
      users := [];
      loading := true;
      isModalOpen := false;
      editingUser := None;
      modal := null;
    }

    /** The start of `fetchUsers`. */
    method StartFetchUsers() returns (call: ApiCall)
      requires Valid()
      modifies this`loading
      ensures Valid() && loading && call == ListUsers
    {
      loading := true;
      call := ListUsers;
    }

    /** The end of `fetchUsers`: a failure keeps the list shown. */
    method FinishFetchUsers(response: Response<seq<User>>)
      requires Valid()
      modifies this`users, this`loading
      ensures Valid() && !loading
      ensures response.Ok? ==> users == response.data
      ensures response.Failed? ==> users == old(users)
    {
      if response.Ok? {
        users := response.data;
      }
      loading := false;
    }

    /** `handleOpenModal(user)`; `None` opens the create form. */
    method OpenModal(user: Option<User>)
      requires Valid()
      modifies this`editingUser, this`isModalOpen, this`modal
      ensures Valid() && isModalOpen && editingUser == user
      ensures modal != null && fresh(modal) && modal.form == InitialForm(user)
    {
      editingUser := user;
      isModalOpen := true;
      modal := new UserModal(user);
    }

    /** `handleCloseModal`. */
    method CloseModal()
      requires Valid()
      modifies this`editingUser, this`isModalOpen, this`modal
      ensures Valid() && !isModalOpen && editingUser.None?
    {
      isModalOpen := false;
      editingUser := None;
      modal := null;
    }

    /** The modal's `handleSubmit` with the server's answer. */
    method Submit(response: Response<()>) returns (effects: Effects)
      requires Valid() && isModalOpen
      modifies this`editingUser, this`isModalOpen, this`modal, this`loading
      ensures Valid()
      ensures effects == SubmitEffects(old(editingUser), old(modal.form), response)
      ensures response.Ok? ==> !isModalOpen && editingUser.None? && loading
      ensures response.Failed? ==>
                isModalOpen && editingUser == old(editingUser) && modal == old(modal) &&
                loading == old(loading)
    {
      var call := modal.Request();
      match response {
        case Ok(_) =>
          var refresh := StartFetchUsers();
          CloseModal();
          effects := Effects([call, refresh], None, true);
        case Failed(detail) =>
          effects := Effects([call], Some(DetailOr(detail, SaveErrorFallback)), false);
      }
    }

    /** `handleDelete(userId)`, given the answer to the confirmation dialog. */
    method Delete(userId: int, confirmed: bool, response: Response<()>) returns (effects: Effects)
      requires Valid()
      modifies this`loading
      ensures Valid()
      ensures effects == DeleteEffects(userId, confirmed, response)
      ensures loading == (old(loading) || (confirmed && response.Ok?))
    {
      if !confirmed {
        effects := Effects([], None, false);
        return;
      }
      match response {
        case Ok(_) =>
          var refresh := StartFetchUsers();
          effects := Effects([DeleteUser(userId), refresh], None, false);
        case Failed(detail) =>
          effects := Effects([DeleteUser(userId)], Some(DetailOr(detail, DeleteErrorFallback)), false);
      }
    }
  }
}

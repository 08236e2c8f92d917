/** The admin's form for creating an account. */
module CreateUser {
  import opened Common

  datatype NewUserForm = NewUserForm(username: string, password: string, role: string)

  const InitialForm := NewUserForm("", "", "user")

  const CreatedMessage := "User created successfully!"
  const CreateFailedMessage := "Failed to create user"

  datatype Field = UsernameField | PasswordField | RoleField

  /** `handleChange`: only the named field takes the new value. */
  function WithField(form: NewUserForm, field: Field, value: string): (r: NewUserForm)
    ensures r.username == if field == UsernameField then value else form.username
    ensures r.password == if field == PasswordField then value else form.password
    ensures r.role == if field == RoleField then value else form.role
  {
    match field
    case UsernameField => form.(username := value)
    case PasswordField => form.(password := value)
    case RoleField => form.(role := value)
  }

  /** `POST /users` with the three form fields as its JSON body. */
  function CreateRequest(form: NewUserForm): (r: Request)
    ensures r.verb == Post && r.path == "/users" && r.body.Json?
    ensures r.body.fields.Keys == {"username", "password", "role"}
    ensures r.body.fields["username"] == form.username
    ensures r.body.fields["password"] == form.password
    ensures r.body.fields["role"] == form.role
  {
    Request(Post, "/users", Json(map["username" := form.username, "password" := form.password, "role" := form.role]))
  }

  class CreateUserForm {
    var formData: NewUserForm
    var loading: bool
    var error: string
    var successMsg: string

    constructor ()
      ensures formData == InitialForm && !loading && error == "" && successMsg == ""
    {
      formData, loading, error, successMsg := InitialForm, false, "", "";
    }

    /** The message line under the form: an error, when there is one, is
        shown instead of the success message. */
    function Banner(): (text: string)
      reads this
      ensures error != "" ==> text == error
      ensures error == "" ==> text == successMsg
    {
      if error != "" then error else successMsg
    }

    method HandleChange(field: Field, value: string)
      modifies this`formData
      ensures formData == WithField(old(formData), field, value)
    {
      formData := WithField(formData, field, value);
    }

    /** The part of `handleSubmit` before the request: `loading` is set
        and any earlier error is cleared. */
    method BeginSubmit() returns (req: Request)
      modifies this`loading, this`error
      ensures loading && error == ""
      ensures req == CreateRequest(formData)
    {
      loading := true;
      error := "";
      req := CreateRequest(formData);
    }

    /** The part after the request settles: success sets the message and
        resets the form; failure sets the error to the server's message or
        the fallback and keeps the form; `loading` ends false. */
    method Settle(resp: Response<Unit>)
      modifies this`formData, this`successMsg, this`error, this`loading
      ensures !loading
      ensures resp.Success? ==> successMsg == CreatedMessage && formData == InitialForm && error == old(error)
      ensures resp.Failure? ==>
                error == TruthyOr(resp.error.message, CreateFailedMessage) &&
                formData == old(formData) && successMsg == old(successMsg)
      ensures resp.Failure? ==> error != "" && Banner() == error
    {
      if resp.Success? {
        successMsg := CreatedMessage;
        formData := InitialForm;
      } else {
        error := TruthyOr(resp.error.message, CreateFailedMessage);
      }
      loading := false;
    }

    /** The whole `handleSubmit`: after a success the banner shows the
        success message, after a failure the error. */
    method HandleSubmit(resp: Response<Unit>) returns (req: Request)
      modifies this`formData, this`successMsg, this`error, this`loading
      ensures req == CreateRequest(old(formData)) && !loading
      ensures resp.Success? ==> formData == InitialForm && error == "" && Banner() == CreatedMessage
      ensures resp.Failure? ==>
                formData == old(formData) && error == TruthyOr(resp.error.message, CreateFailedMessage) &&
                Banner() == error
    {
      req := BeginSubmit();
      Settle(resp);
    }
  }
}

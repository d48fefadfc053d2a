/** The client's authentication slice: the signed-in account and the request
    flags. */
module AuthSlice {
  import opened Identity

  /** The account record the authentication routes return. Those routes are
      not part of this model; the fields are the ones the client reads. */
  datatype Account = Account(id: Id, name: string, email: string, token: Option<string>)

  class AuthState {
    var user: Option<Account>
    var isError: bool
    var isSuccess: bool
    var isLoading: bool
    var message: string

    /** The initial state: the account saved in local storage, if any. */
    constructor (stored: Option<Account>)
      ensures user == stored
      ensures !isError && !isSuccess && !isLoading && message == ""
    {
      user := stored;
      isError, isSuccess, isLoading := false, false, false;
      message := "";
    }

    /** `reset`: the flags and the message cleared, the account kept. */
    method Reset()
      modifies this`isLoading, this`isSuccess, this`isError, this`message
      ensures !isLoading && !isSuccess && !isError && message == ""
    {
      isLoading := false;
      isSuccess := false;
      isError := false;
      message := "";
    }

    /** `register.pending`, `login.pending`, `getMe.pending`. */
    method Pending()
      modifies this`isLoading
      ensures isLoading
    {
      isLoading := true;
    }

    /** `register.fulfilled`, `login.fulfilled`, `getMe.fulfilled`: the
        account becomes the response. */
    method Fulfilled(payload: Account)
      modifies this`isLoading, this`isSuccess, this`user
      ensures !isLoading && isSuccess && user == Some(payload)
    {
      isLoading := false;
      isSuccess := true;
      user := Some(payload);
    }

    /** `register.rejected`, `login.rejected`: the error recorded and the
        account dropped. */
    method SignInRejected(payload: string)
      modifies this`isLoading, this`isError, this`message, this`user
      ensures !isLoading && isError && message == payload && user == None
    {
      isLoading := false;
      isError := true;
      message := payload;
      user := None;
    }

    /** `getMe.rejected`: the error recorded, the account kept. */
    method GetMeRejected(payload: string)
      modifies this`isLoading, this`isError, this`message
      ensures !isLoading && isError && message == payload
    {
      isLoading := false;
      isError := true;
      message := payload;
    }

    /** `logout.fulfilled`: the account dropped, the flags untouched. */
    method LogoutFulfilled()
      modifies this`user
      ensures user == None
    {
      user := None;
    }
  }
}

/** The client's users slice: the profile being viewed and the request flags. */
module UserSlice {
  import opened Identity
  import opened UserRecord

  class UserState {
    var currentUser: Option<PublicUser>
    var isError: bool
    var isSuccess: bool
    var isLoading: bool
    var message: string

    /** The initial state: no profile, no flag set. */
    constructor ()
      ensures currentUser == None
      ensures !isError && !isSuccess && !isLoading && message == ""
    {
      currentUser := None;
      isError, isSuccess, isLoading := false, false, false;
      message := "";
    }

    /** `reset`: the flags and the message cleared, the profile kept. */
    method Reset()
      modifies this`isLoading, this`isSuccess, this`isError, this`message
      ensures !isLoading && !isSuccess && !isError && message == ""
    {
      isLoading := false;
      isSuccess := false;
      isError := false;
      message := "";
    }

    /** `clearCurrentUser`: the profile dropped, the flags untouched. */
    method ClearCurrentUser()
      modifies this`currentUser
      ensures currentUser == None
    {
      currentUser := None;
    }

    /** `getOtherUser.pending`, `updateProfile.pending`. */
    method Pending()
      modifies this`isLoading
      ensures isLoading
    {
      isLoading := true;
    }

    /** `getOtherUser.fulfilled`, `updateProfile.fulfilled`: the profile
        becomes the response. */
    method Fulfilled(payload: PublicUser)
      modifies this`isLoading, this`isSuccess, this`currentUser
      ensures !isLoading && isSuccess && currentUser == Some(payload)
    {
      isLoading := false;
      isSuccess := true;
      currentUser := Some(payload);
    }

    /** `getOtherUser.rejected`: the error recorded and the profile dropped. */
    method GetOtherUserRejected(payload: string)
      modifies this`isLoading, this`isError, this`message, this`currentUser
      ensures !isLoading && isError && message == payload && currentUser == None
    {
      isLoading := false;
      isError := true;
      message := payload;
      currentUser := None;
    }

    /** `updateProfile.rejected`: the error recorded, the profile kept. */
    method UpdateProfileRejected(payload: string)
      modifies this`isLoading, this`isError, this`message
      ensures !isLoading && isError && message == payload
    {
      isLoading := false;
      isError := true;
      message := payload;
    }
  }
}

/** The actions the client session store reacts to: each request, its
    success and its failure, plus initialisation and logout. */
module AuthActions {
  import opened Shared

  datatype Action =
    | InitializeAuth(token: string)
    | Login(credentials: LoginDto)
    | LoginSuccess(response: LoginResponse)
    | LoginFailure(error: string)
    | Logout
    | LoadProfile
    | LoadProfileSuccess(user: User)
    | LoadProfileFailure(error: string)
    | LoadUsers
    | LoadUsersSuccess(users: seq<User>)
    | LoadUsersFailure(error: string)
    | CreateUser(userData: CreateUserDto)
    | CreateUserSuccess(user: User)
    | CreateUserFailure(error: string)
    | UpdateUser(id: int, changes: UpdateUserDto)  // `userData` in the source
    | UpdateUserSuccess(user: User)
    | UpdateUserFailure(error: string)
    | DeleteUser(id: int)
    | DeleteUserSuccess(id: int)
    | DeleteUserFailure(error: string)
  {
    /** The six failure actions, which all carry an error message. */
    predicate IsFailure() {
      LoginFailure? || LoadProfileFailure? || LoadUsersFailure?
      || CreateUserFailure? || UpdateUserFailure? || DeleteUserFailure?
    }

    /** The request actions other than login, which only raise `loading`. */
    predicate IsPlainRequest() {
      LoadProfile? || LoadUsers? || CreateUser? || UpdateUser? || DeleteUser?
    }
  }
}

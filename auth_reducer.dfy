/** The client session store: the state record, its initial value and
    the reducer that maps a state and an action to the next state. Every
    transition builds a new record; nothing is updated in place. */
module AuthStore {
  import opened Wrappers
  import opened Shared
  import opened AuthActions

  datatype AuthState = AuthState(
    user: Option<User>,
    users: seq<User>,
    token: Option<string>,
    isAuthenticated: bool,
    loading: bool,
    error: Option<string>)

  const INITIAL_STATE: AuthState := AuthState(None, [], None, false, false, None)

  /** `users.map(u => u.id === user.id ? user : u)`: every entry with the
      updated user's id is replaced by it, every other entry is kept, in
      place. */
  function ReplaceById(users: seq<User>, user: User): (r: seq<User>)
    ensures |r| == |users|
    ensures forall i :: 0 <= i < |users| ==>
      r[i] == (if users[i].id == user.id then user else users[i])
  {
    if users == [] then []
    else [if users[0].id == user.id then user else users[0]] + ReplaceById(users[1..], user)
  }

  /** `users.filter(u => u.id !== id)`: every entry with that id is
      dropped and every other entry is kept. */
  function RemoveById(users: seq<User>, id: int): (r: seq<User>)
    ensures |r| <= |users|
    ensures forall u :: u in r <==> u in users && u.id != id
  {
    if users == [] then []
    else if users[0].id != id then
      [users[0]] + RemoveById(users[1..], id)
    else
      RemoveById(users[1..], id)
  }

  /** Filtering keeps every other entry as often as it occurred. */
  lemma {:induction false} RemoveByIdCounts(users: seq<User>, id: int, u: User)
    ensures multiset(RemoveById(users, id))[u] == if u.id == id then 0 else multiset(users)[u]
    decreases |users|
  {
    if users != [] {
      RemoveByIdCounts(users[1..], id, u);
      assert users == [users[0]] + users[1..];
      assert multiset(users) == multiset([users[0]]) + multiset(users[1..]);
      if users[0].id != id {
        var rest := RemoveById(users[1..], id);
        assert multiset([users[0]] + rest) == multiset([users[0]]) + multiset(rest);
      }
    }
  }

  /** The reducer. `initializeAuth` has no handler, so it returns the
      state unchanged. */
  function Reduce(s: AuthState, a: Action): AuthState {
    match a
    case InitializeAuth(_) => s
    case Login(_) => s.(loading := true, error := None)
    case LoginSuccess(response) =>
      s.(user := Some(response.user), token := Some(response.access_token),
         isAuthenticated := true, loading := false, error := None)
    case LoginFailure(e) => s.(loading := false, error := Some(e))
    case Logout => INITIAL_STATE
    case LoadProfile => s.(loading := true)
    case LoadProfileSuccess(u) => s.(user := Some(u), loading := false)
    case LoadProfileFailure(e) => s.(loading := false, error := Some(e))
    case LoadUsers => s.(loading := true)
    case LoadUsersSuccess(us) => s.(users := us, loading := false)
    case LoadUsersFailure(e) => s.(loading := false, error := Some(e))
    case CreateUser(_) => s.(loading := true)
    case CreateUserSuccess(u) => s.(users := s.users + [u], loading := false)
    case CreateUserFailure(e) => s.(loading := false, error := Some(e))
    case UpdateUser(_, _) => s.(loading := true)
    case UpdateUserSuccess(u) => s.(users := ReplaceById(s.users, u), loading := false)
    case UpdateUserFailure(e) => s.(loading := false, error := Some(e))
    case DeleteUser(_) => s.(loading := true)
    case DeleteUserSuccess(id) => s.(users := RemoveById(s.users, id), loading := false)
    case DeleteUserFailure(e) => s.(loading := false, error := Some(e))
  }

  /** The state after dispatching `actions` in order. */
  function Run(s: AuthState, actions: seq<Action>): AuthState
    decreases |actions|
  {
    if actions == [] then s else Run(Reduce(s, actions[0]), actions[1..])
  }

  // ---------------------------------------------------------------------
  // One transition at a time

  lemma InitializeAuthKeepsState(s: AuthState, token: string)
    ensures Reduce(s, InitializeAuth(token)) == s
  {
  }

  /** `login` raises `loading` and clears `error`; the session and the
      user list are untouched. */
  lemma LoginRequested(s: AuthState, c: LoginDto)
    ensures var r := Reduce(s, Login(c));
      r.loading && r.error == None
      && r.user == s.user && r.users == s.users && r.token == s.token
      && r.isAuthenticated == s.isAuthenticated
  {
  }

  lemma LoginSucceeded(s: AuthState, response: LoginResponse)
    ensures var r := Reduce(s, LoginSuccess(response));
      r.user == Some(response.user) && r.token == Some(response.access_token)
      && r.isAuthenticated && !r.loading && r.error == None
      && r.users == s.users
  {
  }

  /** Every failure action lowers `loading` and records its message;
      everything else, the session included, stays as it was. */
  lemma FailureRecordsError(s: AuthState, a: Action)
    requires a.IsFailure()
    ensures var r := Reduce(s, a);
      !r.loading && r.error == Some(a.error)
      && r.user == s.user && r.users == s.users && r.token == s.token
      && r.isAuthenticated == s.isAuthenticated
  {
  }

  /** The request actions other than login raise `loading` and leave
      even a previous `error` in place. */
  lemma PlainRequestRaisesLoading(s: AuthState, a: Action)
    requires a.IsPlainRequest()
    ensures Reduce(s, a) == s.(loading := true)
  {
  }

  /** Logout returns the initial state from any state, so a second logout
      changes nothing. */
  lemma LogoutResets(s: AuthState)
    ensures Reduce(s, Logout) == INITIAL_STATE
    ensures Reduce(Reduce(s, Logout), Logout) == Reduce(s, Logout)
  {
  }

  /** Loading the profile sets the user but neither authenticates nor
      touches the token. */
  lemma ProfileLoaded(s: AuthState, u: User)
    ensures var r := Reduce(s, LoadProfileSuccess(u));
      r.user == Some(u) && !r.loading
      && r.isAuthenticated == s.isAuthenticated && r.token == s.token
      && r.users == s.users && r.error == s.error
  {
  }

  lemma UsersLoaded(s: AuthState, us: seq<User>)
    ensures var r := Reduce(s, LoadUsersSuccess(us));
      r.users == us && !r.loading
      && r.user == s.user && r.token == s.token
      && r.isAuthenticated == s.isAuthenticated && r.error == s.error
  {
  }

  /** A created user is appended: the old list is a prefix and the list
      grows by one. */
  lemma UserCreated(s: AuthState, u: User)
    ensures var r := Reduce(s, CreateUserSuccess(u));
      |r.users| == |s.users| + 1 && r.users[..|s.users|] == s.users
      && r.users[|s.users|] == u && !r.loading
      && r.user == s.user && r.token == s.token
      && r.isAuthenticated == s.isAuthenticated && r.error == s.error
  {
  }

  /** An updated user replaces every entry with its id; length and order
      are kept and every other entry is unchanged. */
  lemma UserUpdated(s: AuthState, u: User)
    ensures var r := Reduce(s, UpdateUserSuccess(u));
      |r.users| == |s.users|
      && (forall i :: 0 <= i < |s.users| && s.users[i].id == u.id ==> r.users[i] == u)
      && (forall i :: 0 <= i < |s.users| && s.users[i].id != u.id ==> r.users[i] == s.users[i])
      && !r.loading && r.user == s.user && r.token == s.token
      && r.isAuthenticated == s.isAuthenticated && r.error == s.error
  {
  }

  /** A deleted id leaves no entry; survivors keep their order and the
      list does not grow. */
  lemma UserDeleted(s: AuthState, id: int)
    ensures var r := Reduce(s, DeleteUserSuccess(id));
      (forall u :: u in r.users ==> u.id != id)
      && (forall u :: u in s.users && u.id != id ==> u in r.users)
      && IsSubsequence(r.users, s.users) && |r.users| <= |s.users|
      && !r.loading && r.user == s.user && r.token == s.token
      && r.isAuthenticated == s.isAuthenticated && r.error == s.error
  {
    RemoveByIdIsSubsequence(s.users, id);
  }

  /** Only a login success and a logout change the token and the
      authentication flag. */
  lemma SessionChangesOnlyOnLoginOrLogout(s: AuthState, a: Action)
    requires !a.LoginSuccess? && !a.Logout?
    ensures Reduce(s, a).token == s.token
    ensures Reduce(s, a).isAuthenticated == s.isAuthenticated
  {
  }

  /** The user list changes only on a load, create, update or delete
      success, or on logout. */
  lemma UsersChangeOnlyOnUserSuccess(s: AuthState, a: Action)
    requires !a.LoadUsersSuccess? && !a.CreateUserSuccess? && !a.UpdateUserSuccess?
    requires !a.DeleteUserSuccess? && !a.Logout?
    ensures Reduce(s, a).users == s.users
  {
  }

  // ---------------------------------------------------------------------
  // The list updates

  /** `a` keeps a selection of `b`'s elements in `b`'s order. */
  ghost predicate IsSubsequence(a: seq<User>, b: seq<User>)
    decreases |b|
  {
    if a == [] then true
    else if b == [] then false
    else if a[0] == b[0] then IsSubsequence(a[1..], b[1..])
    else IsSubsequence(a, b[1..])
  }

  lemma {:induction false} RemoveByIdIsSubsequence(users: seq<User>, id: int)
    ensures IsSubsequence(RemoveById(users, id), users)
    decreases |users|
  {
    if users != [] {
      RemoveByIdIsSubsequence(users[1..], id);
      var rest := RemoveById(users[1..], id);
      if users[0].id != id {
        assert RemoveById(users, id) == [users[0]] + rest;
        assert ([users[0]] + rest)[1..] == rest;
      } else {
        assert RemoveById(users, id) == rest;
        if rest != [] {
          assert rest[0] in rest;
          assert rest[0].id != id;
        }
      }
    }
  }

  /** Filtering distributes over concatenation, which is how the survivors
      keep their relative order. */
  lemma {:induction false} RemoveByIdAppend(a: seq<User>, b: seq<User>, id: int)
    ensures RemoveById(a + b, id) == RemoveById(a, id) + RemoveById(b, id)
    decreases |a|
  {
    if a == [] {
      assert a + b == b;
    } else {
      var ab := a + b;
      assert ab[0] == a[0] && ab[1..] == a[1..] + b;
      RemoveByIdAppend(a[1..], b, id);
      var tail := RemoveById(a[1..], id);
      if a[0].id != id {
        calc {
          RemoveById(ab, id);
          [a[0]] + RemoveById(a[1..] + b, id);
          [a[0]] + (tail + RemoveById(b, id));
          ([a[0]] + tail) + RemoveById(b, id);
          RemoveById(a, id) + RemoveById(b, id);
        }
      } else {
        assert RemoveById(ab, id) == RemoveById(a[1..] + b, id);
        assert RemoveById(a, id) == tail;
      }
    }
  }

  /** Deleting twice is deleting once. */
  lemma {:induction false} RemoveByIdIdempotent(users: seq<User>, id: int)
    ensures RemoveById(RemoveById(users, id), id) == RemoveById(users, id)
    decreases |users|
  {
    if users != [] {
      RemoveByIdIdempotent(users[1..], id);
      var rest := RemoveById(users[1..], id);
      if users[0].id != id {
        assert RemoveById(users, id) == [users[0]] + rest;
        assert ([users[0]] + rest)[0] == users[0];
        assert ([users[0]] + rest)[1..] == rest;
      }
    }
  }

  /** Deleting the id of a user just created removes it again and leaves
      the rest of the list as deletion alone would. */
  lemma CreatedThenDeleted(s: AuthState, u: User)
    ensures Run(s, [CreateUserSuccess(u), DeleteUserSuccess(u.id)]).users
         == RemoveById(s.users, u.id)
  {
    RemoveByIdAppend(s.users, [u], u.id);
    assert RemoveById([u], u.id) == [];
    var r1 := Reduce(s, CreateUserSuccess(u));
    assert Run(s, [CreateUserSuccess(u), DeleteUserSuccess(u.id)])
        == Run(r1, [DeleteUserSuccess(u.id)]);
    assert [CreateUserSuccess(u), DeleteUserSuccess(u.id)][1..] == [DeleteUserSuccess(u.id)];
    assert [DeleteUserSuccess(u.id)][1..] == [];
  }

  /** Updating with the same user twice is updating once. */
  lemma ReplaceByIdIdempotent(users: seq<User>, u: User)
    ensures ReplaceById(ReplaceById(users, u), u) == ReplaceById(users, u)
  {
    var once := ReplaceById(users, u);
    var twice := ReplaceById(once, u);
    assert forall i :: 0 <= i < |users| ==> twice[i] == once[i];
  }

  /** An update for an id the list does not hold changes nothing. */
  lemma ReplaceByIdUnknownId(users: seq<User>, u: User)
    requires forall v :: v in users ==> v.id != u.id
    ensures ReplaceById(users, u) == users
  {
    var r := ReplaceById(users, u);
    assert forall i :: 0 <= i < |users| ==> users[i] in users && r[i] == users[i];
  }

  /** Deleting an id after updating it is the same as deleting it. */
  lemma {:induction false} RemoveAfterReplace(users: seq<User>, u: User)
    ensures RemoveById(ReplaceById(users, u), u.id) == RemoveById(users, u.id)
    decreases |users|
  {
    if users != [] {
      RemoveAfterReplace(users[1..], u);
      var head := if users[0].id == u.id then u else users[0];
      var tail := ReplaceById(users[1..], u);
      assert ReplaceById(users, u) == [head] + tail;
      assert ([head] + tail)[0] == head;
      assert ([head] + tail)[1..] == tail;
    }
  }

  // ---------------------------------------------------------------------
  // Sequences of actions

  lemma {:induction false} RunAppend(s: AuthState, a: seq<Action>, b: seq<Action>)
    ensures Run(s, a + b) == Run(Run(s, a), b)
    decreases |a|
  {
    if a != [] {
      assert (a + b)[0] == a[0];
      assert (a + b)[1..] == a[1..] + b;
      RunAppend(Reduce(s, a[0]), a[1..], b);
    } else {
      assert a + b == b;
    }
  }

  /** Whatever happened before, a final logout leaves the initial state. */
  lemma RunEndingInLogout(s: AuthState, actions: seq<Action>)
    ensures Run(s, actions + [Logout]) == INITIAL_STATE
  {
    RunAppend(s, actions, [Logout]);
    assert [Logout][1..] == [];
  }

  /** The session is consistent when the authentication flag and the
      token are set together, and an authenticated session has a user. */
  predicate SessionConsistent(s: AuthState) {
    (s.isAuthenticated <==> s.token.Some?) && (s.isAuthenticated ==> s.user.Some?)
  }

  lemma ReducePreservesSession(s: AuthState, a: Action)
    requires SessionConsistent(s)
    ensures SessionConsistent(Reduce(s, a))
  {
  }

  /** Every state reached from a consistent one, in particular from the
      initial state, is consistent. */
  lemma {:induction false} RunPreservesSession(s: AuthState, actions: seq<Action>)
    requires SessionConsistent(s)
    ensures SessionConsistent(Run(s, actions))
    decreases |actions|
  {
    if actions != [] {
      ReducePreservesSession(s, actions[0]);
      RunPreservesSession(Reduce(s, actions[0]), actions[1..]);
    }
  }

  /** A loaded profile alone does not authenticate: a user can be present
      in an unauthenticated state. */
  lemma ProfileWithoutAuthentication(u: User)
    ensures var r := Run(INITIAL_STATE, [LoadProfileSuccess(u)]);
      r.user == Some(u) && !r.isAuthenticated && r.token == None
  {
    assert [LoadProfileSuccess(u)][1..] == [];
  }
}

/** The part of the user service the login and refresh paths use: enabled-only lookups over
    the user table, the existence checks that turn a miss into `USER_NOT_FOUND`, the
    password check against the stored hash, and `validateUser`, which strips the password
    from the record it returns. The hash function and the e-mail test are parameters. */
module Users {
  import opened Common
  import opened Errors

  /** Status value of an enabled account ("1-enabled, 2-disabled"). */
  const StatusEnabled: int := 1

  /** A row of the user table (creation and update timestamps left out). */
  datatype UserEntity = UserEntity(
    id: int,
    username: string,
    password: string,
    nickname: string,
    email: string,
    avatar: Option<string>,
    phone: Option<string>,
    gender: int,
    status: int,
    remark: Option<string>,
    createBy: Option<int>,
    updateBy: Option<int>)

  /** The user record without its password. */
  datatype UserVo = UserVo(
    id: int,
    username: string,
    nickname: string,
    email: string,
    avatar: Option<string>,
    phone: Option<string>,
    gender: int,
    status: int,
    remark: Option<string>,
    createBy: Option<int>,
    updateBy: Option<int>)

  /** `const { password, ...result } = user`. */
  function WithoutPassword(u: UserEntity): (v: UserVo)
    ensures v.id == u.id && v.username == u.username && v.nickname == u.nickname
    ensures v.email == u.email && v.avatar == u.avatar && v.phone == u.phone
    ensures v.gender == u.gender && v.status == u.status && v.remark == u.remark
    ensures v.createBy == u.createBy && v.updateBy == u.updateBy
  {
    UserVo(u.id, u.username, u.nickname, u.email, u.avatar, u.phone, u.gender, u.status,
           u.remark, u.createBy, u.updateBy)
  }

  /** `findOne({ where })`: the first row, in table order, that satisfies the condition. */
  function FindFirst(table: seq<UserEntity>, where: UserEntity -> bool): (r: Option<UserEntity>)
    ensures r.Some? ==> r.value in table && where(r.value)
    ensures r.None? <==> forall i :: 0 <= i < |table| ==> !where(table[i])
    ensures r.Some? ==> exists i :: 0 <= i < |table| && table[i] == r.value
                                 && forall j :: 0 <= j < i ==> !where(table[j])
  {
    if |table| == 0 then None
    else if where(table[0]) then Some(table[0])
    else
      var r := FindFirst(table[1..], where);
      assert r.Some? ==> exists i :: 0 <= i < |table[1..]| && table[1..][i] == r.value
                                    && forall j :: 0 <= j < i ==> !where(table[1..][j]);
      if r.Some? then
        var i :| 0 <= i < |table[1..]| && table[1..][i] == r.value
                 && forall j :: 0 <= j < i ==> !where(table[1..][j]);
        assert table[i + 1] == r.value;
        assert forall j :: 0 <= j < i + 1 ==> !where(table[j]) by {
          forall j | 0 <= j < i + 1 ensures !where(table[j]) {
            if j > 0 { assert table[j] == table[1..][j - 1]; }
          }
        }
        r
      else
        assert forall i :: 0 <= i < |table| ==> !where(table[i]) by {
          forall i | 0 <= i < |table| ensures !where(table[i]) {
            if i > 0 { assert table[i] == table[1..][i - 1]; }
          }
        }
        r
  }

  /** The table with disabled accounts removed. */
  function EnabledRows(table: seq<UserEntity>): (r: seq<UserEntity>)
    ensures forall u :: u in r <==> u in table && u.status == StatusEnabled
  {
    if |table| == 0 then []
    else if table[0].status == StatusEnabled then [table[0]] + EnabledRows(table[1..])
    else EnabledRows(table[1..])
  }

  /** The three `where` conditions of the lookups: the field matches and the account is enabled. */
  function UsernameIs(username: string): UserEntity -> bool {
    (u: UserEntity) => u.username == username && u.status == StatusEnabled
  }

  function EmailIs(email: string): UserEntity -> bool {
    (u: UserEntity) => u.email == email && u.status == StatusEnabled
  }

  function IdIs(id: int): UserEntity -> bool {
    (u: UserEntity) => u.id == id && u.status == StatusEnabled
  }

  /** The user service: the user table and the two library functions it calls. */
  datatype UserService = UserService(
    table: seq<UserEntity>,
    md5: string -> string,
    isEmail: string -> bool)
  {
    /** `findUserByUsername`: an enabled user with that name, first in table order. */
    function FindUserByUsername(username: string): (r: Option<UserEntity>)
      ensures r.Some? ==> r.value in table && r.value.username == username && r.value.status == StatusEnabled
      ensures r.None? <==> forall u :: u in table ==> !(u.username == username && u.status == StatusEnabled)
    {
      FindFirst(table, UsernameIs(username))
    }

    /** `findUserByEmail`: an enabled user with that address, first in table order. */
    function FindUserByEmail(email: string): (r: Option<UserEntity>)
      ensures r.Some? ==> r.value in table && r.value.email == email && r.value.status == StatusEnabled
      ensures r.None? <==> forall u :: u in table ==> !(u.email == email && u.status == StatusEnabled)
    {
      FindFirst(table, EmailIs(email))
    }

    /** `findUserById`: an enabled user with that id, first in table order. */
    function FindUserById(id: int): (r: Option<UserEntity>)
      ensures r.Some? ==> r.value in table && r.value.id == id && r.value.status == StatusEnabled
      ensures r.None? <==> forall u :: u in table ==> !(u.id == id && u.status == StatusEnabled)
    {
      FindFirst(table, IdIs(id))
    }

    /** `validateUserExistByUsername`: the user, or `USER_NOT_FOUND` when the lookup is empty. */
    function ValidateUserExistByUsername(username: string): (r: Result<UserEntity, Failure>)
      ensures r.Failure? <==> FindUserByUsername(username).None?
      ensures r.Failure? ==> r.error == Business(UserNotFound)
      ensures r.Success? ==> r.value.username == username && r.value.status == StatusEnabled && r.value in table
      ensures r.Success? ==> FindUserByUsername(username) == Some(r.value)
    {
      match FindUserByUsername(username)
      case None => Failure(Business(UserNotFound))
      case Some(u) => Success(u)
    }

    /** `validateUserExistByEmail`: the user, or `USER_NOT_FOUND` when the lookup is empty. */
    function ValidateUserExistByEmail(email: string): (r: Result<UserEntity, Failure>)
      ensures r.Failure? <==> FindUserByEmail(email).None?
      ensures r.Failure? ==> r.error == Business(UserNotFound)
      ensures r.Success? ==> r.value.email == email && r.value.status == StatusEnabled && r.value in table
      ensures r.Success? ==> FindUserByEmail(email) == Some(r.value)
    {
      match FindUserByEmail(email)
      case None => Failure(Business(UserNotFound))
      case Some(u) => Success(u)
    }

    /** `validatePassword`: true exactly when the hash of the input is the stored hash,
        `INVALID_USERNAME_PASSWORD` otherwise. */
    function ValidatePassword(userPassword: string, inputPassword: string): (r: Result<bool, Failure>)
      ensures r.Success? <==> md5(inputPassword) == userPassword
      ensures r.Success? ==> r.value
      ensures r.Failure? ==> r.error == Business(InvalidUsernamePassword)
    {
      if userPassword != md5(inputPassword) then Failure(Business(InvalidUsernamePassword))
      else Success(true)
    }

    /** `validateUser`: look the account up by e-mail when it looks like one, by username
        otherwise; then check the password; then return the record without its password. */
    function ValidateUser(account: string, password: string): (r: Result<UserVo, Failure>)
      ensures r.Success? <==>
        var found := if isEmail(account) then FindUserByEmail(account) else FindUserByUsername(account);
        found.Some? && md5(password) == found.value.password
      ensures r.Success? ==>
        var found := if isEmail(account) then FindUserByEmail(account) else FindUserByUsername(account);
        r.value == WithoutPassword(found.value)
      ensures r.Failure? ==>
        var found := if isEmail(account) then FindUserByEmail(account) else FindUserByUsername(account);
        r.error == (if found.None? then Business(UserNotFound) else Business(InvalidUsernamePassword))
    {
      var user := if isEmail(account) then ValidateUserExistByEmail(account)
                  else ValidateUserExistByUsername(account);
      match user
      case Failure(e) => Failure(e)
      case Success(u) =>
        match ValidatePassword(u.password, password)
        case Failure(e) => Failure(e)
        case Success(_) => Success(WithoutPassword(u))
    }
  }

  /** `FindFirst` looks only at rows that satisfy the condition, so rows that cannot
      satisfy it may be dropped without changing the answer. */
  lemma {:induction false} FindFirstIgnoresDisabled(table: seq<UserEntity>, where: UserEntity -> bool)
    requires forall u :: where(u) ==> u.status == StatusEnabled
    ensures FindFirst(table, where) == FindFirst(EnabledRows(table), where)
    decreases |table|
  {
    if |table| > 0 {
      FindFirstIgnoresDisabled(table[1..], where);
      if table[0].status == StatusEnabled {
        var rows := [table[0]] + EnabledRows(table[1..]);
        assert rows[1..] == EnabledRows(table[1..]);
      }
    }
  }

  /** A disabled account is indistinguishable from a missing one: every lookup answers the
      same on the table with all disabled rows removed. */
  lemma DisabledUsersAreInvisible(svc: UserService, username: string, email: string, id: int)
    ensures svc.FindUserByUsername(username) == svc.(table := EnabledRows(svc.table)).FindUserByUsername(username)
    ensures svc.FindUserByEmail(email) == svc.(table := EnabledRows(svc.table)).FindUserByEmail(email)
    ensures svc.FindUserById(id) == svc.(table := EnabledRows(svc.table)).FindUserById(id)
  {
    FindFirstIgnoresDisabled(svc.table, UsernameIs(username));
    FindFirstIgnoresDisabled(svc.table, EmailIs(email));
    FindFirstIgnoresDisabled(svc.table, IdIs(id));
  }

  /** The user a login succeeds for is enabled and in the table, so the lookup by its
      username that refresh performs finds a user. */
  lemma ValidatedUserStaysFindable(svc: UserService, account: string, password: string)
    requires svc.ValidateUser(account, password).Success?
    ensures svc.FindUserByUsername(svc.ValidateUser(account, password).value.username).Some?
  {
    var found := if svc.isEmail(account) then svc.FindUserByEmail(account) else svc.FindUserByUsername(account);
    assert found.value in svc.table && found.value.status == StatusEnabled;
  }
}

/** The SSH user feature (features/ssh.py): argument guards that answer
    without a request, status checks, and the filtering of the user list.
    Every operation answers with a FeatureResponse; the ones that read the
    body can also raise, when the body is not shaped as the code expects.
    The source imports FeatureError from core/types.py, which only imports
    it; the model uses the FeatureError of utils/errors.py. */
module Ssh {
  import opened Values
  import opened Errors
  import opened Types
  import opened Transport

  const BasePath := "/config/rest/ssh/v2beta/users"

  /** SSHUser: the fields as read from the device, so JSON values. */
  datatype SshUser = SshUser(username: Json, comment: Json)

  function StatusMessage(action: string, status: int): string {
    "Failed to " + action + ": HTTP " + IntToString(status)
  }

  function UserPath(username: string): string {
    BasePath + "/" + username
  }

  // ----- add_user -----

  function AddCall(username: string, password: string, comment: Option<string>): Call {
    Call(Endpoint("POST", BasePath), RequestOptions(json := Some(JObject(map["data" := JObject(map[
      "username" := JString(username),
      "password" := JString(password),
      "comment" := OptionalText(comment)])]))))
  }

  /** add_user(username, password, comment). */
  function AddUser(username: string, password: string, comment: Option<string>, send: Send): (r: FeatureResponse<SshUser>)
    ensures username == "" || password == "" ==>
      r == CreateError(FeatureError("username_password_required", "Username and password are required"))
    ensures r.IsSuccess() <==> username != "" && password != "" && send(AddCall(username, password, comment)).status == 201
    ensures r.IsSuccess() ==> r.data == Some(SshUser(JString(username), OptionalText(comment)))
    ensures username != "" && password != "" && !r.IsSuccess() ==>
      r.error == Some(FeatureError("add_user_error", StatusMessage("add user", send(AddCall(username, password, comment)).status)))
  {
    if username == "" || password == "" then
      CreateError(FeatureError("username_password_required", "Username and password are required"))
    else
      var response := send(AddCall(username, password, comment));
      if response.status != 201 then
        CreateError(FeatureError("add_user_error", StatusMessage("add user", response.status)))
      else
        Ok(Some(SshUser(JString(username), OptionalText(comment))))
  }

  // ----- one entry of the user list -----

  /** One entry of "data": `"username" in entry`, then entry["username"] and
      entry.get("comment"). Only a dict has both; `in` on a str looks for a
      substring and on a list for an element, and indexing either by a str
      raises TypeError, as does `in` on None, a bool or an int. */
  function UserEntry(j: Json): (r: Outcome<Option<SshUser>>)
    ensures j.JObject? ==> r.Returns?
    ensures j.JObject? && "username" in j.members ==> r == Returns(Some(SshUser(j.members["username"], Get(j.members, "comment"))))
    ensures j.JObject? && "username" !in j.members ==> r == Returns(None)
    ensures r.Returns? && r.value.Some? ==> j.JObject?
  {
    match j
    case JObject(m) =>
      if "username" in m then Returns(Some(SshUser(m["username"], Get(m, "comment")))) else Returns(None)
    case JString(s) =>
      if Contains(s, "username") then Raises(BuiltinRaised(TypeError, "string indices must be integers, not 'str'"))
      else Returns(None)
    case JArray(xs) =>
      if JString("username") in xs then Raises(BuiltinRaised(TypeError, "list indices must be integers or slices, not str"))
      else Returns(None)
    case _ => Raises(BuiltinRaised(TypeError, "argument of type '" + TypeName(j) + "' is not iterable"))
  }

  /** The users the loop of get_users collects from a list, in order; the
      first entry that raises ends it. */
  function KeptUsers(items: seq<Json>): (r: Outcome<seq<SshUser>>)
    ensures r.Returns? ==> |r.value| <= |items|
    decreases |items|
  {
    if items == [] then Returns([])
    else
      var before :- KeptUsers(items[..|items| - 1]);
      var entry :- UserEntry(items[|items| - 1]);
      if entry.Some? then Returns(before + [entry.value]) else Returns(before)
  }

  /** Collecting over a concatenation collects over each part in turn. */
  lemma {:induction false} KeptUsersAppend(a: seq<Json>, b: seq<Json>)
    ensures KeptUsers(a).Raises? ==> KeptUsers(a + b) == KeptUsers(a)
    ensures KeptUsers(a).Returns? && KeptUsers(b).Returns? ==>
      KeptUsers(a + b) == Returns(KeptUsers(a).value + KeptUsers(b).value)
    decreases |b|
  {
    if b == [] {
      assert a + b == a;
      if KeptUsers(a).Returns? {
        assert KeptUsers(a).value + [] == KeptUsers(a).value;
      }
    } else {
      var ab := a + b;
      var b' := b[..|b| - 1];
      assert ab[..|ab| - 1] == a + b';
      assert ab[|ab| - 1] == b[|b| - 1];
      KeptUsersAppend(a, b');
      if KeptUsers(a).Returns? && KeptUsers(b).Returns? {
        assert KeptUsers(b').Returns?;
        var entry := UserEntry(b[|b| - 1]);
        assert entry.Returns?;
        if entry.value.Some? {
          assert KeptUsers(a).value + KeptUsers(b').value + [entry.value.value]
              == KeptUsers(a).value + (KeptUsers(b').value + [entry.value.value]);
        }
      }
    }
  }

  /** An entry with a "username" key is kept, and one without is skipped. */
  lemma KeptUsersSingle(m: map<string, Json>)
    ensures "username" in m ==> KeptUsers([JObject(m)]) == Returns([SshUser(m["username"], Get(m, "comment"))])
    ensures "username" !in m ==> KeptUsers([JObject(m)]) == Returns([])
  {
    assert [JObject(m)][..0] == [];
    assert KeptUsers([]) == Returns([]);
    if "username" in m {
      assert [] + [SshUser(m["username"], Get(m, "comment"))] == [SshUser(m["username"], Get(m, "comment"))];
    }
  }

  /** When every entry is a dict with a username, there is one user per entry, in order. */
  lemma {:induction false} KeptUsersAllNamed(items: seq<Json>)
    requires forall i :: 0 <= i < |items| ==> items[i].JObject? && "username" in items[i].members
    ensures KeptUsers(items).Returns?
    ensures |KeptUsers(items).value| == |items|
    ensures forall i :: 0 <= i < |items| ==>
      KeptUsers(items).value[i] == SshUser(items[i].members["username"], Get(items[i].members, "comment"))
    decreases |items|
  {
    if items != [] {
      KeptUsersAllNamed(items[..|items| - 1]);
    }
  }

  // ----- get_users -----

  const UsersCall := Call(Endpoint("GET", BasePath), RequestOptions())

  /** How get_users answers once the status is 200 and "data" is a list. */
  function UsersAnswer(kept: Outcome<seq<SshUser>>): Outcome<FeatureResponse<seq<SshUser>>> {
    match kept
    case Returns(users) => Returns(Ok(Some(users)))
    case Raises(x) => Raises(x)
  }

  /** get_users(): the loop over "data" appends one user per entry that has a username. */
  method GetUsers(send: Send) returns (r: Outcome<FeatureResponse<seq<SshUser>>>)
    ensures var response := send(UsersCall);
      && (response.status != 200 ==>
            r == Returns(CreateError(FeatureError("get_users_error", StatusMessage("get users", response.status)))))
      && (response.status == 200 && response.json.JsonFailed? ==>
            r == Returns(CreateError(FeatureError("failed_to_parse_response", "Failed to parse response: " + response.json.reason))))
      && (response.status == 200 && response.json.JsonOk? && !response.json.json.JObject? ==>
            r == Raises(BuiltinRaised(AttributeError, "'" + TypeName(response.json.json) + "' object has no attribute 'get'")))
      && (response.status == 200 && response.json.JsonOk? && response.json.json.JObject? ==>
            var data := Get(response.json.json.members, "data");
            && (!data.JArray? ==> r == Returns(CreateError(FeatureError("invalid_response_format", "Invalid response format"))))
            && (data.JArray? ==> r == UsersAnswer(KeptUsers(data.items))))
  {
    var response := send(UsersCall);
    if response.status != 200 {
      return Returns(CreateError(FeatureError("get_users_error", StatusMessage("get users", response.status))));
    }
    if response.json.JsonFailed? {
      return Returns(CreateError(FeatureError("failed_to_parse_response", "Failed to parse response: " + response.json.reason)));
    }
    var body := response.json.json;
    if !body.JObject? {
      return Raises(BuiltinRaised(AttributeError, "'" + TypeName(body) + "' object has no attribute 'get'"));
    }
    var data := Get(body.members, "data");
    if !data.JArray? {
      return Returns(CreateError(FeatureError("invalid_response_format", "Invalid response format")));
    }
    var kept := CollectUsers(data.items);
    r := UsersAnswer(kept);
  }

  /** The loop of get_users over the entries of "data". */
  method CollectUsers(items: seq<Json>) returns (r: Outcome<seq<SshUser>>)
    ensures r == KeptUsers(items)
  {
    var users: seq<SshUser> := [];
    var i := 0;
    while i < |items|
      invariant 0 <= i <= |items|
      invariant KeptUsers(items[..i]) == Returns(users)
    {
      assert items[..i + 1][..i] == items[..i];
      var entry := UserEntry(items[i]);
      if entry.Raises? {
        assert KeptUsers(items[..i + 1]) == Raises(entry.raised);
        KeptUsersAppend(items[..i + 1], items[i + 1..]);
        assert items[..i + 1] + items[i + 1..] == items;
        return Raises(entry.raised);
      }
      if entry.value.Some? {
        users := users + [entry.value.value];
      }
      i := i + 1;
    }
    assert items[..i] == items;
    r := Returns(users);
  }

  // ----- get_user -----

  function GetUserCall(username: string): Call {
    Call(Endpoint("GET", UserPath(username)), RequestOptions())
  }

  /** get_user(username): the same entry rules as the list, applied to "data";
      a missing "data" is None, on which `in` raises TypeError. */
  function GetUser(username: string, send: Send): (r: Outcome<FeatureResponse<SshUser>>)
    ensures username == "" ==> r == Returns(CreateError(FeatureError("username_required", "Username is required")))
    ensures var response := send(GetUserCall(username));
      username != "" ==>
      && (response.status != 200 ==>
            r == Returns(CreateError(FeatureError("get_user_error", StatusMessage("get user", response.status)))))
      && (response.status == 200 && response.json.JsonFailed? ==>
            r == Returns(CreateError(FeatureError("failed_to_parse_response", "Failed to parse response: " + response.json.reason))))
      && (response.status == 200 && response.json.JsonOk? && !response.json.json.JObject? ==>
            r == Raises(BuiltinRaised(AttributeError, "'" + TypeName(response.json.json) + "' object has no attribute 'get'")))
      && (response.status == 200 && response.json.JsonOk? && response.json.json.JObject? ==>
            var entry := UserEntry(Get(response.json.json.members, "data"));
            && (entry.Raises? ==> r == Raises(entry.raised))
            && (entry == Returns(None) ==> r == Returns(CreateError(FeatureError("invalid_response_format", "Invalid response format"))))
            && (entry.Returns? && entry.value.Some? ==> r == Returns(Ok(entry.value))))
    ensures r.Returns? && r.value.IsSuccess() ==>
      var response := send(GetUserCall(username));
      && username != "" && response.status == 200 && response.json.JsonOk? && response.json.json.JObject?
      && var data := Get(response.json.json.members, "data");
         data.JObject? && "username" in data.members
         && r.value.data == Some(SshUser(data.members["username"], Get(data.members, "comment")))
  {
    if username == "" then Returns(CreateError(FeatureError("username_required", "Username is required")))
    else
      var response := send(GetUserCall(username));
      if response.status != 200 then
        Returns(CreateError(FeatureError("get_user_error", StatusMessage("get user", response.status))))
      else if response.json.JsonFailed? then
        Returns(CreateError(FeatureError("failed_to_parse_response", "Failed to parse response: " + response.json.reason)))
      else if !response.json.json.JObject? then
        Raises(BuiltinRaised(AttributeError, "'" + TypeName(response.json.json) + "' object has no attribute 'get'"))
      else
        var entry :- UserEntry(Get(response.json.json.members, "data"));
        match entry
        case None => Returns(CreateError(FeatureError("invalid_response_format", "Invalid response format")))
        case Some(user) => Returns(Ok(Some(user)))
  }

  /** A body without "data" reads it as None, and `"username" in None` raises TypeError. */
  lemma GetUserMissingDataRaises(username: string, send: Send)
    requires username != "" && send(GetUserCall(username)).status == 200
    requires send(GetUserCall(username)).json.JsonOk? && send(GetUserCall(username)).json.json.JObject?
    requires "data" !in send(GetUserCall(username)).json.json.members
    ensures GetUser(username, send) == Raises(BuiltinRaised(TypeError, "argument of type 'NoneType' is not iterable"))
  {
    var data := Get(send(GetUserCall(username)).json.json.members, "data");
    assert data == JNull;
    assert "argument of type '" + TypeName(JNull) + "' is not iterable" == "argument of type 'NoneType' is not iterable";
    assert UserEntry(data) == Raises(BuiltinRaised(TypeError, "argument of type 'NoneType' is not iterable"));
  }

  // ----- modify_user -----

  /** The "data" of a PATCH: exactly the fields given. */
  function ModifyPayload(password: Option<string>, comment: Option<string>): (data: map<string, Json>)
    ensures "password" in data <==> password.Some?
    ensures "comment" in data <==> comment.Some?
    ensures data.Keys <= {"password", "comment"}
    ensures password.Some? ==> data["password"] == JString(password.value)
    ensures comment.Some? ==> data["comment"] == JString(comment.value)
  {
    var data: map<string, Json> := map[];
    var data := if password.Some? then data["password" := JString(password.value)] else data;
    if comment.Some? then data["comment" := JString(comment.value)] else data
  }

  function ModifyCall(username: string, password: Option<string>, comment: Option<string>): Call {
    Call(Endpoint("PATCH", UserPath(username)), RequestOptions(json := Some(JObject(map["data" := JObject(ModifyPayload(password, comment))]))))
  }

  /** modify_user(username, password, comment). */
  function ModifyUser(username: string, password: Option<string>, comment: Option<string>, send: Send): (r: FeatureResponse<SshUser>)
    ensures username == "" ==> r == CreateError(FeatureError("username_required", "Username is required"))
    ensures username != "" && password.None? && comment.None? ==>
      r == CreateError(FeatureError("at_least_one_of_password_or_comment_required", "At least one of password or comment must be specified"))
    ensures r.IsSuccess() <==>
      username != "" && (password.Some? || comment.Some?) && send(ModifyCall(username, password, comment)).status == 200
    ensures r.IsSuccess() ==> r.data == Some(SshUser(JString(username), OptionalText(comment)))
    ensures var status := send(ModifyCall(username, password, comment)).status;
      username != "" && (password.Some? || comment.Some?) && status != 200 ==>
        r == CreateError(FeatureError("modify_user_error", StatusMessage("modify user", status)))
  {
    if username == "" then CreateError(FeatureError("username_required", "Username is required"))
    else if password.None? && comment.None? then
      CreateError(FeatureError("at_least_one_of_password_or_comment_required", "At least one of password or comment must be specified"))
    else
      var response := send(ModifyCall(username, password, comment));
      if response.status != 200 then
        CreateError(FeatureError("modify_user_error", StatusMessage("modify user", response.status)))
      else
        Ok(Some(SshUser(JString(username), OptionalText(comment))))
  }

  // ----- remove_user -----

  /** remove_user(username): success carries no data. */
  function RemoveUser(username: string, send: Send): (r: FeatureResponse<()>)
    ensures username == "" ==> r == CreateError(FeatureError("username_required", "Username is required"))
    ensures r.IsSuccess() <==> username != "" && send(Call(Endpoint("DELETE", UserPath(username)), RequestOptions())).status == 200
    ensures r.IsSuccess() ==> r.data.None?
    ensures username != "" && !r.IsSuccess() ==>
      r == CreateError(FeatureError("remove_user_error",
                                    StatusMessage("remove user", send(Call(Endpoint("DELETE", UserPath(username)), RequestOptions())).status)))
  {
    if username == "" then CreateError(FeatureError("username_required", "Username is required"))
    else
      var response := send(Call(Endpoint("DELETE", UserPath(username)), RequestOptions()));
      if response.status != 200 then
        CreateError(FeatureError("remove_user_error", StatusMessage("remove user", response.status)))
      else
        Ok(None)
  }

  /** The guards answer without a request: the answer is the same whatever the device would say. */
  lemma GuardsSendNothing(password: string, comment: Option<string>, send1: Send, send2: Send)
    ensures AddUser("", password, comment, send1) == AddUser("", password, comment, send2)
    ensures GetUser("", send1) == GetUser("", send2)
    ensures ModifyUser("", Some(password), comment, send1) == ModifyUser("", Some(password), comment, send2)
    ensures RemoveUser("", send1) == RemoveUser("", send2)
  {
  }
}

/** The name under which a sender's events are logged (`get_user_identifier`). */
module Identity {
  import opened Wrappers
  import Decimal

  /** The sender as the transport describes them: a numeric id and two optional names. */
  datatype User = User(id: int, firstName: Option<string>, username: Option<string>)

  /** Python truthiness of an optional string: absent and empty are both false. */
  predicate Truthy(s: Option<string>) {
    s.Some? && s.value != ""
  }

  /** The identifier of a user with no usable name: `user_` and the decimal id. */
  function Synthetic(id: int): string {
    "user_" + Decimal.IntToString(id)
  }

  /** Username first, then first name, then `user_<id>` for a non-zero id, then `unknown_user`. */
  function GetUserIdentifier(u: User): (r: string)
    ensures r != ""
    ensures Truthy(u.username) ==> r == u.username.value
    ensures !Truthy(u.username) && Truthy(u.firstName) ==> r == u.firstName.value
    ensures !Truthy(u.username) && !Truthy(u.firstName) && u.id != 0 ==> r == Synthetic(u.id)
    ensures !Truthy(u.username) && !Truthy(u.firstName) && u.id == 0 ==> r == "unknown_user"
  {
    if Truthy(u.username) then u.username.value
    else if Truthy(u.firstName) then u.firstName.value
    else if u.id != 0 then Synthetic(u.id)
    else "unknown_user"
  }

  /** For a user with no usable name, the identifier tells whether the id was zero,
      and when it was not, the id reads back from the identifier's tail. */
  lemma SyntheticIdentifierKeepsId(u: User)
    requires !Truthy(u.username) && !Truthy(u.firstName)
    ensures var r := GetUserIdentifier(u);
      (u.id == 0 <==> r == "unknown_user") &&
      (u.id != 0 ==> |r| > 5 && r[..5] == "user_" && Decimal.ParseInt(r[5..]) == Some(u.id))
  {
    var r := GetUserIdentifier(u);
    if u.id != 0 {
      assert r[5..] == Decimal.IntToString(u.id);
      Decimal.IntToStringRoundTrip(u.id);
      assert r[..5] == "user_";
      assert r[0] == 'u' && r[1] == 's';
      assert "unknown_user"[1] == 'n';
    }
  }
}

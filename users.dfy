/** The user record the REST API returns (`User` in the client's model). */
module Users {
  import opened Wrappers

  datatype User = User(
    id: int,
    username: string,
    email: string,
    bio: Option<string>,
    avatar: Option<string>,     // stored avatar path, or an absolute URL
    avatarUrl: Option<string>,  // `avatar_url`, if the server supplies one
    isOnline: bool)

  /**
   * `users.filter(user => user.id !== id)`. `id` is `None` when it is NaN
   * (for instance `Number` of a non-numeric stored string): then nothing is dropped.
   */
  function FilterOutId(users: seq<User>, id: Option<int>): (r: seq<User>)
    ensures |r| <= |users|
    ensures forall u :: u in r <==> u in users && Some(u.id) != id
  {
    if users == [] then []
    else
      var rest := FilterOutId(users[1..], id);
      assert users == [users[0]] + users[1..];
      if Some(users[0].id) != id then [users[0]] + rest else rest
  }

  /** Filtering works element by element, so it keeps the relative order of what it keeps. */
  lemma {:induction false} FilterOutIdAppend(a: seq<User>, b: seq<User>, id: Option<int>)
    ensures FilterOutId(a + b, id) == FilterOutId(a, id) + FilterOutId(b, id)
  {
    if a == [] {
      assert a + b == b;
    } else {
      assert (a + b)[1..] == a[1..] + b;
      FilterOutIdAppend(a[1..], b, id);
    }
  }

  /** When no user carries the id, filtering returns the list unchanged. */
  lemma {:induction false} FilterOutIdNoMatch(users: seq<User>, id: Option<int>)
    requires forall u :: u in users ==> Some(u.id) != id
    ensures FilterOutId(users, id) == users
  {
    if users != [] {
      assert users == [users[0]] + users[1..];
      FilterOutIdNoMatch(users[1..], id);
    }
  }
}

/**
 * The identity store: a directory of accounts that registration grows in
 * place, the current user, and the copy of the current user kept in browser
 * storage under one key (modelled as an optional value, not as JSON text).
 */
module AuthContext {
  import opened Wrappers

  datatype Role = EndUser | Admin | Partner

  datatype User = User(id: string, name: string, email: string, phone: string, address: string, role: Role)

  /** A directory entry: a user together with their password. */
  datatype Account = Account(user: User, password: string)

  /** The three accounts the directory starts with, one per role. */
  const SeedDirectory: seq<Account> := [
    Account(User("1", "John Doe", "user@kostmate.com", "081234567890", "Jl. Sudirman No. 123, Jakarta", EndUser), "password123"),
    Account(User("2", "Admin Kostmate", "admin@kostmate.com", "081234567891", "Kantor Kostmate", Admin), "admin123"),
    Account(User("3", "Mitra Laundry", "partner@kostmate.com", "081234567892", "Laundry Express Jakarta", Partner), "partner123")
  ]

  /** `a` is an entry for exactly this email and this password. */
  predicate Matches(a: Account, email: string, password: string)
  {
    a.user.email == email && a.password == password
  }

  /** Some entry of `dir` matches the credentials. */
  predicate HasMatch(dir: seq<Account>, email: string, password: string)
  {
    exists i :: 0 <= i < |dir| && Matches(dir[i], email, password)
  }

  /** The credential lookup of `login`: `find` of an entry matching both email and password exactly. */
  function FindAccount(dir: seq<Account>, email: string, password: string): (r: Option<Account>)
    ensures r.None? <==> !HasMatch(dir, email, password)
    ensures r.Some? ==> Matches(r.value, email, password) && r.value in dir
  {
    if dir == [] then None
    else if Matches(dir[0], email, password) then Some(dir[0])
    else
      assert HasMatch(dir, email, password) ==> HasMatch(dir[1..], email, password) by {
        if HasMatch(dir, email, password) {
          var i :| 0 <= i < |dir| && Matches(dir[i], email, password);
          assert dir[1..][i - 1] == dir[i];
        }
      }
      FindAccount(dir[1..], email, password)
  }

  /** The lookup returns the FIRST matching entry: the one at `k` when none before `k` matches. */
  lemma {:induction false} FindAccountIsFirst(dir: seq<Account>, email: string, password: string, k: int)
    requires 0 <= k < |dir| && Matches(dir[k], email, password) && !HasMatch(dir[..k], email, password)
    ensures FindAccount(dir, email, password) == Some(dir[k])
  {
    if k > 0 {
      var prefix, rest := dir[..k], dir[1..][..k - 1];
      assert prefix[0] == dir[0];
      forall j | 0 <= j < k - 1
        ensures !Matches(rest[j], email, password)
      {
        assert rest[j] == prefix[j + 1];
      }
      FindAccountIsFirst(dir[1..], email, password, k - 1);
    }
  }

  /** A lookup after an append: an earlier match wins over the appended entry. */
  lemma {:induction false} FindAccountAppend(dir: seq<Account>, a: Account, email: string, password: string)
    ensures FindAccount(dir + [a], email, password) ==
      if FindAccount(dir, email, password).Some? then FindAccount(dir, email, password)
      else if Matches(a, email, password) then Some(a) else None
    decreases |dir|
  {
    if dir == [] {
      assert dir + [a] == [a];
    } else {
      assert (dir + [a])[1..] == dir[1..] + [a];
      FindAccountAppend(dir[1..], a, email, password);
    }
  }

  /**
   * After registering credentials (e, p), logging in with (e, p) succeeds and
   * yields the EARLIEST entry for (e, p): the new one only when none existed.
   */
  lemma RegisterThenLogin(dir: seq<Account>, a: Account)
    ensures FindAccount(dir + [a], a.user.email, a.password).Some?
    ensures FindAccount(dir + [a], a.user.email, a.password) ==
      if HasMatch(dir, a.user.email, a.password) then FindAccount(dir, a.user.email, a.password) else Some(a)
  {
    FindAccountAppend(dir, a, a.user.email, a.password);
  }

  /** The provider's state. `stored` is the copy under the storage key. */
  class IdentityStore {
    var directory: seq<Account>
    var current: Option<User>
    var stored: Option<User>

    /** A fresh session: the seeded directory, no current user, and whatever storage held from before. */
    constructor (persisted: Option<User>)
      ensures directory == SeedDirectory && current == None && stored == persisted
    {
      directory := SeedDirectory;
      current := None;
      stored := persisted;
    }

    /** `isAuthenticated`: a current user is present. */
    function IsAuthenticated(): (authed: bool)
      reads this
      ensures authed <==> current != None
    {
      current.Some?
    }

    /**
     * The startup effect: a stored user becomes current as it is, without any
     * check against the directory; with nothing stored nothing changes.
     */
    method Restore()
      modifies this
      ensures directory == old(directory) && stored == old(stored)
      ensures current == if stored.Some? then stored else old(current)
      ensures IsAuthenticated() <==> stored.Some? || old(IsAuthenticated())
    {
      if stored.Some? {
        current := stored;
      }
    }

    /**
     * `login`: succeeds iff some directory entry matches both email and
     * password; then the current and the stored user both become the first
     * matching entry without its password. A failure changes nothing.
     */
    method Login(email: string, password: string) returns (ok: bool)
      modifies this
      ensures directory == old(directory)
      ensures ok <==> HasMatch(directory, email, password)
      ensures ok ==> current == stored == Some(FindAccount(directory, email, password).value.user)
      ensures !ok ==> current == old(current) && stored == old(stored)
    {
      var found := FindAccount(directory, email, password);
      if found.Some? {
        current := Some(found.value.user);
        stored := Some(found.value.user);
        ok := true;
      } else {
        ok := false;
      }
    }

    /**
     * `register`: always succeeds; appends one entry with role `EndUser` and
     * the given profile and password (no check for a duplicate email) and
     * makes the new user current and stored. `id` is the clock-derived id.
     */
    method Register(id: string, name: string, email: string, phone: string, address: string, password: string)
      returns (ok: bool)
      modifies this
      ensures ok
      ensures directory == old(directory) + [Account(User(id, name, email, phone, address, EndUser), password)]
      ensures current == stored == Some(User(id, name, email, phone, address, EndUser))
    {
      var user := User(id, name, email, phone, address, EndUser);
      directory := directory + [Account(user, password)];
      current := Some(user);
      stored := Some(user);
      ok := true;
    }

    /** `logout`: no current user and nothing stored; the directory is kept. */
    method Logout()
      modifies this
      ensures directory == old(directory)
      ensures current == None && stored == None
      ensures !IsAuthenticated()
    {
      current := None;
      stored := None;
    }
  }

  /** Each seeded account logs in with its own credentials and has its own role. */
  lemma SeedLogins()
    ensures FindAccount(SeedDirectory, "user@kostmate.com", "password123") == Some(SeedDirectory[0])
    ensures FindAccount(SeedDirectory, "admin@kostmate.com", "admin123") == Some(SeedDirectory[1])
    ensures FindAccount(SeedDirectory, "partner@kostmate.com", "partner123") == Some(SeedDirectory[2])
    ensures SeedDirectory[0].user.role == EndUser && SeedDirectory[1].user.role == Admin
    ensures SeedDirectory[2].user.role == Partner
    ensures FindAccount(SeedDirectory, "user@kostmate.com", "admin123").None?
  {
    assert !Matches(SeedDirectory[0], "admin@kostmate.com", "admin123");
    assert !Matches(SeedDirectory[0], "partner@kostmate.com", "partner123");
    assert !Matches(SeedDirectory[1], "partner@kostmate.com", "partner123");
    assert !Matches(SeedDirectory[0], "user@kostmate.com", "admin123");
    assert !Matches(SeedDirectory[1], "user@kostmate.com", "admin123");
    assert !Matches(SeedDirectory[2], "user@kostmate.com", "admin123");
  }
}

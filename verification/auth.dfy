/** The two JavaScript string operations the mocked login relies on. */
module JsString {

  /** `sub` occurs in `s` starting at position `i`. */
  predicate OccursAt(s: string, sub: string, i: int)
  {
    0 <= i && i + |sub| <= |s| && s[i..i + |sub|] == sub
  }

  /** `s.includes(sub)`: tries every start position from the left. */
  function Includes(s: string, sub: string): bool
    decreases |s|
  {
    if |s| < |sub| then false
    else if s[..|sub|] == sub then true
    else Includes(s[1..], sub)
  }

  /** `includes` answers true exactly when the substring occurs somewhere. */
  lemma {:induction false} IncludesIffOccurs(s: string, sub: string)
    ensures Includes(s, sub) <==> exists i :: OccursAt(s, sub, i)
    decreases |s|
  {
    if |s| < |sub| {
      assert forall i :: !OccursAt(s, sub, i);
    } else if s[..|sub|] == sub {
      assert OccursAt(s, sub, 0);
    } else {
      IncludesIffOccurs(s[1..], sub);
      forall i | OccursAt(s, sub, i) ensures OccursAt(s[1..], sub, i - 1) {
        assert i != 0;
        assert s[1..][i - 1..i - 1 + |sub|] == s[i..i + |sub|];
      }
      forall i | OccursAt(s[1..], sub, i) ensures OccursAt(s, sub, i + 1) {
        assert s[1..][i..i + |sub|] == s[i + 1..i + 1 + |sub|];
      }
    }
  }

  /** `s.split(sep)[0]`: the longest prefix of `s` free of `sep`, which is all
      of `s` when `sep` does not occur. */
  function BeforeFirst(s: string, sep: char): (r: string)
    ensures |r| <= |s| && r == s[..|r|]
    ensures sep !in r
    ensures |r| < |s| ==> s[|r|] == sep
  {
    if |s| == 0 || s[0] == sep then "" else [s[0]] + BeforeFirst(s[1..], sep)
  }

  /** Those three facts pin the first piece down: any prefix free of `sep`
      that ends at the end of `s` or at a `sep` is that piece. */
  lemma BeforeFirstUnique(s: string, sep: char, piece: string)
    requires |piece| <= |s| && piece == s[..|piece|]
    requires sep !in piece
    requires |piece| < |s| ==> s[|piece|] == sep
    ensures piece == BeforeFirst(s, sep)
  {
  }
}

/** The mocked authentication store: the session is the current user profile
    or none, and each action replaces it. The clock reading that stamps a new
    profile is a parameter. */
module Auth {
  import opened Wrappers
  import opened Types
  import opened JsString

  type Session = Option<UserProfile>

  /** `email.includes('admin') ? 'admin' : 'user'` */
  function RoleFor(email: string): UserRole
  {
    if Includes(email, "admin") then Admin else User
  }

  /** `login(email, pass)`: always succeeds; the password is not looked at. */
  function Login(email: string, password: string, now: int): (s: Session)
    ensures s.Some? && s.value.email == email && s.value.createdAt == now
  {
    Some(UserProfile("123", email, BeforeFirst(email, '@'), RoleFor(email), now))
  }

  /** `loginWithGoogle()`: a fixed ordinary user. */
  function LoginWithGoogle(now: int): (s: Session)
    ensures s.Some? && s.value.role == User && s.value.createdAt == now
  {
    Some(UserProfile("g-123", "google@test.com", "Google User", User, now))
  }

  /** `register(name, email, pass)`: always an ordinary user, named as given. */
  function Register(name: string, email: string, password: string, now: int): (s: Session)
    ensures s.Some? && s.value.email == email && s.value.displayName == name
    ensures s.value.role == User && s.value.createdAt == now
  {
    Some(UserProfile("124", email, name, User, now))
  }

  /** `logout()`: ends the session whatever it was. */
  function Logout(s: Session): (r: Session)
    ensures r.None?
  {
    None
  }

  /** `user?.role === 'admin'`, comparing the role's spelling. */
  function IsAdmin(s: Session): (r: bool)
    ensures r <==> s.Some? && s.value.role == Admin
  {
    match s
    case None => false
    case Some(u) => RoleName(u.role) == "admin"
  }

  /** Logging in grants the admin role, and so `isAdmin`, exactly when the
      email contains "admin". */
  lemma LoginAdminIff(email: string, password: string, now: int)
    ensures Login(email, password, now).value.role == Admin
            <==> exists i :: OccursAt(email, "admin", i)
    ensures IsAdmin(Login(email, password, now)) <==> exists i :: OccursAt(email, "admin", i)
  {
    IncludesIffOccurs(email, "admin");
  }

  /** The display name after login is the part of the email before the first '@'. */
  lemma LoginDisplayName(email: string, password: string, now: int)
    ensures var d := Login(email, password, now).value.displayName;
            d == email[..|d|] && '@' !in d && (|d| < |email| ==> email[|d|] == '@')
  {
  }

  /** Neither Google login nor registration ever yields an admin, and after
      logout nobody is. */
  lemma OnlyLoginGrantsAdmin(s: Session, name: string, email: string, password: string, now: int)
    ensures !IsAdmin(LoginWithGoogle(now))
    ensures !IsAdmin(Register(name, email, password, now))
    ensures !IsAdmin(Logout(s))
  {
  }
}

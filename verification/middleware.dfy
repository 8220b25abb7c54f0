/** The Next.js edge `middleware(req)`: which requests pass, and where the
    others are redirected. The profile request it makes is an outcome
    parameter: `Fail` for a non-OK response or a thrown error, `Role(r)` for
    an OK response whose user has role `r`.
 */
module Middleware {
  import opened Wrappers
  import opened Text

  datatype ProfileOutcome = Fail | Role(role: string)

  datatype Decision = Next | Redirect(path: string)

  const SignInPath: string := "/auth/sign-in"

  /** The role string the admin check compares with, as written. */
  const AdminRoleChecked: string := "ROLE.ADMIN"

  /** The value of `Role.ADMIN` in the role enum. */
  const AdminRoleEnum: string := "ADMIN"

  /** The public routes: every path starting with /auth or /product (so
      also /products…), and every path starting with /auction except
      exactly /auction/create. */
  function IsPublic(path: string): (ok: bool)
    ensures StartsWith(path, "/admin") ==> !ok
    ensures path == "/auction/create" ==> !ok
  {
    ProtectedPrefixes(path);
    (|| StartsWith(path, "/auth")
     || StartsWith(path, "/product")
     || (StartsWith(path, "/auction") && path != "/auction/create"))
  }

  /** Neither an admin path nor /auction/create starts with /auth or
      /product, and no admin path starts with /auction. */
  lemma ProtectedPrefixes(path: string)
    ensures StartsWith(path, "/admin") ==>
      !StartsWith(path, "/auth") && !StartsWith(path, "/product") && !StartsWith(path, "/auction")
    ensures path == "/auction/create" ==> !StartsWith(path, "/auth") && !StartsWith(path, "/product")
  {
    if StartsWith(path, "/admin") {
      assert path[..6] == "/admin";
      assert path[1] == 'a' && path[2] == 'd';
    }
    if path == "/auction/create" {
      assert path[1] == 'a' && path[3] == 'c';
    }
  }

  /** `middleware(req)` for a request to `path`; `refreshToken` is the
      cookie's value, if the cookie is present. */
  function Decide(path: string, refreshToken: Option<string>, profile: ProfileOutcome): (r: Decision)
    ensures IsPublic(path) ==> r == Next
    ensures !IsPublic(path) && (refreshToken.None? || refreshToken.value == "") ==> r == Redirect(SignInPath)
    ensures !IsPublic(path) && profile.Fail? ==> r == Redirect(SignInPath)
    ensures (!IsPublic(path) && refreshToken.Some? && refreshToken.value != "" && profile.Role?
             && StartsWith(path, "/admin") && profile.role != AdminRoleChecked) ==> r == Redirect("/")
    ensures r == Next <==>
      IsPublic(path) ||
      (refreshToken.Some? && refreshToken.value != "" && profile.Role?
       && (!StartsWith(path, "/admin") || profile.role == AdminRoleChecked))
    ensures r.Redirect? ==> r.path == SignInPath || r.path == "/"
  {
    if IsPublic(path) then Next
    else if refreshToken.None? || refreshToken.value == "" then Redirect(SignInPath)
    else match profile
      case Fail => Redirect(SignInPath)
      case Role(role) =>
        if StartsWith(path, "/admin") && role != AdminRoleChecked then Redirect("/")
        else Next
  }

  /** Public routes never look at the cookie or the profile. */
  lemma PublicIgnoresSession(path: string, c1: Option<string>, c2: Option<string>, p1: ProfileOutcome, p2: ProfileOutcome)
    requires IsPublic(path)
    ensures Decide(path, c1, p1) == Decide(path, c2, p2)
  {
  }

  /** A user whose role is the enum's "ADMIN" is turned away from the admin
      pages, since the check compares with "ROLE.ADMIN". */
  lemma EnumAdminRefused(rest: string, token: string)
    requires token != ""
    ensures AdminRoleEnum != AdminRoleChecked
    ensures Decide("/admin" + rest, Some(token), Role(AdminRoleEnum)) == Redirect("/")
  {
    assert StartsWith("/admin" + rest, "/admin") by {
      assert ("/admin" + rest)[..6] == "/admin";
    }
    assert !StartsWith("/admin" + rest, "/auth") by {
      assert ("/admin" + rest)[2] == 'd';
    }
    assert !StartsWith("/admin" + rest, "/product") by {
      assert ("/admin" + rest)[1] == 'a';
    }
    assert !StartsWith("/admin" + rest, "/auction") by {
      assert ("/admin" + rest)[2] == 'd';
    }
  }

  /** The route patterns the middleware runs on (`config.matcher`): a
      pattern "/x/:path*" matches "/x" and everything below it. */
  predicate UnderSegment(path: string, base: string) {
    path == base || StartsWith(path, base + "/")
  }

  function Matched(path: string): (ok: bool)
    ensures UnderSegment(path, "/admin") || path == "/auction/create" ==> ok
    ensures ok ==> (|| StartsWith(path, "/admin") || StartsWith(path, "/auth")
                    || StartsWith(path, "/product") || StartsWith(path, "/auction"))
  {
    UnderIsPrefix(path, "/admin");
    UnderIsPrefix(path, "/auth");
    UnderIsPrefix(path, "/product");
    UnderIsPrefix(path, "/auction");
    (|| UnderSegment(path, "/admin")
     || path == "/auction/create"
     || UnderSegment(path, "/auth")
     || UnderSegment(path, "/product")
     || UnderSegment(path, "/auction"))
  }

  /** A request as the framework handles it: unmatched paths never reach
      the middleware. */
  function Handle(path: string, refreshToken: Option<string>, profile: ProfileOutcome): (r: Decision)
    ensures !Matched(path) ==> r == Next
    ensures Matched(path) ==> r == Decide(path, refreshToken, profile)
  {
    if Matched(path) then Decide(path, refreshToken, profile) else Next
  }

  /** Of the matched routes, only the admin pages and /auction/create are
      protected. */
  lemma ProtectedRoutes(path: string)
    requires Matched(path) && !IsPublic(path)
    ensures UnderSegment(path, "/admin") || path == "/auction/create"
  {
    UnderIsPrefix(path, "/auth");
    UnderIsPrefix(path, "/product");
    UnderIsPrefix(path, "/auction");
  }

  lemma UnderIsPrefix(path: string, base: string)
    ensures UnderSegment(path, base) ==> StartsWith(path, base)
  {
    if path != base && StartsWith(path, base + "/") {
      assert path[..|base|] == (base + "/")[..|base|];
    }
  }
}

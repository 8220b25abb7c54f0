/** `lib/authToken`: a module-level register holding the access token,
    `null` until set. */
module AuthToken {
  import opened Wrappers

  datatype Register = Register(token: Option<string>)

  const Initial: Register := Register(None)

  /** `setAccessToken(t)`. */
  function SetAccessToken(r: Register, t: string): (r': Register)
    ensures r'.token == Some(t)
  {
    Register(Some(t))
  }

  /** `getAccessToken()`: the value read and the register afterwards. */
  function GetAccessToken(r: Register): (res: (Option<string>, Register))
    ensures res.1 == r
    ensures res.0 == r.token
  {
    (r.token, r)
  }

  /** Nothing is stored before the first set. */
  lemma InitiallyNull()
    ensures GetAccessToken(Initial).0.None?
  {
  }

  /** A read after a set returns the value set; a later set overwrites an
      earlier one; reading twice reads the same. */
  lemma SetThenGet(r: Register, a: string, b: string)
    ensures GetAccessToken(SetAccessToken(r, a)).0 == Some(a)
    ensures SetAccessToken(SetAccessToken(r, a), b) == SetAccessToken(r, b)
    ensures GetAccessToken(GetAccessToken(r).1) == GetAccessToken(r)
  {
  }
}

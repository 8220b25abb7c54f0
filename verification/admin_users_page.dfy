/** The admin users page (`AdminUserPage`): its own delete handler, its own
    copy of `getPublicImageUrl`, and `truncateWords`, which shortens the
    address column.
 */
module AdminUsersPage {
  import opened Wrappers
  import opened Entities
  import opened Words
  import ImageUrl
  import UserActions

  /** `words.slice(0, maxWords)`: a negative end counts from the back. */
  function SliceTo(ws: seq<string>, end: int): (r: seq<string>)
    ensures 0 <= end ==> r == ws[..if end < |ws| then end else |ws|]
    ensures end < 0 ==> r == ws[..if |ws| + end > 0 then |ws| + end else 0]
  {
    var stop := if end >= 0 then end else |ws| + end;
    ws[..if stop < 0 then 0 else if stop > |ws| then |ws| else stop]
  }

  /** `truncateWords(text, maxWords)`. */
  function TruncateWords(text: Option<string>, maxWords: int): (r: string)
    ensures text.None? || text.value == "" ==> r == ""
    ensures text.Some? && text.value != "" && |SplitWords(text.value)| <= maxWords ==> r == text.value
    ensures text.Some? && text.value != "" && |SplitWords(text.value)| > maxWords ==>
      r == Join(SliceTo(SplitWords(text.value), maxWords)) + "..."
  {
    if text.None? || text.value == "" then ""
    else
      var ws := SplitWords(text.value);
      if |ws| <= maxWords then text.value
      else Join(SliceTo(ws, maxWords)) + "..."
  }

  /** Text longer than `maxWords` words (for `maxWords` at least 1) is cut
      to exactly its first `maxWords` words, joined by single spaces. */
  lemma TruncatedHasMaxWords(text: string, maxWords: int)
    requires maxWords >= 1
    requires text != "" && |SplitWords(text)| > maxWords
    ensures var r := TruncateWords(Some(text), maxWords);
      |r| >= 3 && r[|r| - 3..] == "..." &&
      Tokens(r[..|r| - 3]) == Tokens(text)[..maxWords] &&
      |Tokens(r[..|r| - 3])| == maxWords
  {
    var ws := SplitWords(text);
    assert Trim(text) != [];
    var kept := ws[..maxWords];
    assert forall i :: 0 <= i < |kept| ==> IsWord(kept[i]) by {
      forall i | 0 <= i < |kept| ensures IsWord(kept[i]) {
        assert kept[i] == ws[i];
      }
    }
    TokensJoin(kept);
    var r := TruncateWords(Some(text), maxWords);
    assert r == Join(kept) + "...";
    assert r[..|r| - 3] == Join(kept);
  }

  /** Text of at most `maxWords` words comes back untouched, untrimmed. */
  lemma ShortTextUnchanged(text: string, maxWords: int)
    requires text != "" && |SplitWords(text)| <= maxWords
    ensures TruncateWords(Some(text), maxWords) == text
  {
  }

  /** The page's own `getPublicImageUrl`. */
  function LocalPublicImageUrl(imgPath: Option<string>, env: Option<string>): (r: string)
    ensures imgPath.None? || imgPath.value == "" ==> r == ImageUrl.DefaultImage
  {
    var host := ImageUrl.PublicHost(env);
    if imgPath.None? || imgPath.value == "" then ImageUrl.DefaultImage
    else ImageUrl.ReplaceFirst(imgPath.value, ImageUrl.InternalHost, host)
  }

  /** The page's copy behaves exactly like the shared utility. */
  lemma LocalMatchesShared(imgPath: Option<string>, env: Option<string>)
    ensures LocalPublicImageUrl(imgPath, env) == ImageUrl.GetPublicImageUrl(imgPath, env)
  {
  }

  /** The page's `handleDelete(id)`: the same endpoint and list change as
      the users hook. */
  function HandleDelete(users: seq<User>, id: string, confirmed: bool, request: Net<()>): (r: (seq<string>, seq<User>))
    ensures !confirmed ==> r == ([], users)
    ensures request.Failed? ==> r.1 == users
    ensures confirmed && request.Ok? ==>
      (forall u :: u in r.1 ==> u in users && u.id != id) &&
      (forall u :: u in users && u.id != id ==> u in r.1)
  {
    var out := UserActions.HandleUserDelete(users, id, confirmed, request);
    (out.deleted, out.users)
  }
}

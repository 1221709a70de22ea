/** The pure parts of backend/src/controllers/auth.controller.js: its own
    organisation `slugify` (no length cap, "org" when empty) and `me`.
    `signup` has no body in the source, and `addDays`/`genId` depend on the
    clock and on randomness. */
module AuthController {
  import opened Common
  import opened Slugify
  import opened AuthMiddleware

  const FallbackSlug: string := "org"

  /** `.replace(/(^-|-$)/g, "")`: one leading and one trailing '-' go. */
  function DropEndDashes(s: string): (r: string)
    requires IsSlugText(s) && NoDoubleDash(s)
    ensures IsSlugText(r) && NoDoubleDash(r)
    ensures r == [] || (r[0] != '-' && r[|r| - 1] != '-')
    ensures AllSlugChars(s) ==> r == s
  {
    var a := if s != [] && s[0] == '-' then s[1..] else s;
    SliceKeepsSlugText(s, |s| - |a|, |s|);
    assert a != [] && s[0] == '-' ==> a[0] == s[1];
    var b := if a != [] && a[|a| - 1] == '-' then a[..|a| - 1] else a;
    SliceKeepsSlugText(a, 0, |b|);
    assert |b| > 1 && a[|a| - 1] == '-' ==> b[|b| - 1] == a[|a| - 2];
    b
  }

  /** Dropping the end dashes removes no letter or digit. */
  lemma DropEndDashesKeepsSlugChars(s: string)
    requires IsSlugText(s) && NoDoubleDash(s)
    ensures SlugChars(DropEndDashes(s)) == SlugChars(s)
  {
    var a := if s != [] && s[0] == '-' then s[1..] else s;
    assert a == s[|s| - |a|..|s|];
    forall k | 0 <= k < |s| && (k < |s| - |a| || |s| <= k) ensures !IsSlugChar(s[k]) {
      assert k == 0 && s[0] == '-';
    }
    SlugCharsOfSlice(s, |s| - |a|, |s|);
    var b := if a != [] && a[|a| - 1] == '-' then a[..|a| - 1] else a;
    forall k | |b| <= k < |a| ensures !IsSlugChar(a[k]) {
      assert k == |a| - 1 && a[k] == '-';
    }
    SlugCharsOfSlice(a, 0, |b|);
    assert a[0..|b|] == b;
  }

  /** `trim` removes white space only, never a letter or digit. */
  lemma TrimKeepsSlugChars(s: string)
    ensures SlugChars(Trim(s)) == SlugChars(s)
  {
    var lead, r := LeadingSpaces(s), Trim(s);
    TrimRemovesSpace(s);
    forall k | 0 <= k < |s| && (k < lead || lead + |r| <= k) ensures !IsSlugChar(s[k]) {
      assert IsJsSpace(s[k]);
    }
    SlugCharsOfSlice(s, lead, lead + |r|);
  }

  /** Slug text without a letter or digit and without a '-' at its ends is
      empty. */
  lemma NoSlugCharsIsEmpty(s: string)
    requires IsSlugText(s) && (s == [] || s[0] != '-')
    ensures SlugChars(s) == [] ==> s == []
  {
    if s != [] {
      assert s[0] in s;
    }
  }

  /** The organisation slug:
        String(text).toLowerCase().trim().replace(/[^a-z0-9]+/g, "-")
                    .replace(/(^-|-$)/g, "") || "org" */
  function OrgSlug(text: string): (r: string)
    ensures r != []
    ensures IsSlugText(r) && NoDoubleDash(r)
    ensures r[0] != '-' && r[|r| - 1] != '-'
    // every letter and digit of the lower-cased text stays, in order, and
    // only a text without any gets the fallback
    ensures SlugChars(Lower(text)) != [] ==> SlugChars(r) == SlugChars(Lower(text))
    ensures SlugChars(Lower(text)) == [] ==> r == FallbackSlug
  {
    var h := Hyphenate(Trim(Lower(text)));
    var s := DropEndDashes(h);
    TrimKeepsSlugChars(Lower(text));
    HyphenateKeepsSlugChars(Trim(Lower(text)));
    DropEndDashesKeepsSlugChars(h);
    NoSlugCharsIsEmpty(s);
    if s == [] then FallbackSlug else s
  }

  /** A text with no ASCII letter or digit gets the fallback slug. */
  lemma NoAlphanumericGivesFallback(text: string)
    requires forall i :: 0 <= i < |text| ==> !IsSlugChar(LowerChar(text[i]))
    ensures OrgSlug(text) == FallbackSlug
  {
    var lowered := Lower(text);
    var t := Trim(lowered);
    if t != [] {
      var i := LeadingSpaces(lowered);
      forall k | 0 <= k < |t| ensures !IsSlugChar(t[k]) {
        assert t[k] == lowered[i + k];
      }
      NoSlugCharsIsDash(t);
    }
  }

  /** A non-empty text with no slug characters hyphenates to a single '-'. */
  lemma NoSlugCharsIsDash(t: string)
    requires t != [] && forall k :: 0 <= k < |t| ==> !IsSlugChar(t[k])
    ensures Hyphenate(t) == "-"
  {
    assert RunLength(t) == |t|;
  }

  /** Unlike the 80-character utility slug, this one is never cut: any
      non-empty lower-case alphanumeric text is its own slug, however long. */
  lemma OrgSlugHasNoLengthCap(text: string)
    requires text != [] && AllSlugChars(text)
    ensures OrgSlug(text) == text
  {
    LowerKeepsSlugChars(text);
    assert LeadingSpaces(text) == 0;
    assert TrailingSpaces(text) == 0;
    assert Trim(text) == text;
    assert DropEndDashes(Hyphenate(text)) == text;
  }

  /** The public view of the signed-in user that `me` returns. */
  datatype UserView = UserView(id: Option<string>, org_id: Option<string>, role: Option<string>)

  datatype MeReply = MeUnauthorized | MeOk(user: UserView) {
    function Status(): nat { if MeUnauthorized? then 401 else 200 }
  }

  /** `me`: 401 without `req.user`; otherwise `{ ok: true, user: { id,
      org_id: orgId, role } }`. */
  function Me(user: Option<RequestUser>): (r: MeReply)
    ensures r.Status() == 401 <==> user.None?
    ensures user.Some? ==>
              r.MeOk? && r.user.id == user.value.id &&
              r.user.org_id == user.value.orgId && r.user.role == user.value.role
  {
    match user
    case None => MeUnauthorized
    case Some(u) => MeOk(UserView(u.id, u.orgId, u.role))
  }
}

/** The sign-up dialog of frontend/src/pages/signUpModal.jsx: the password
    strength score with its label and bar tables, and the submit handler with
    its terms-agreement guard. */
module SignupModal {
  import opened Common

  // ---------------------------------------------------------------------
  // Password strength

  /** `p.length >= 8`, counting UTF-16 code units. */
  predicate LongEnough(p: string) { Utf16Length(p) >= 8 }

  /** `/[A-Z]/.test(p)`. */
  predicate HasUpper(p: string) { exists i | 0 <= i < |p| :: IsAsciiUpper(p[i]) }

  /** `/[a-z]/.test(p)`. */
  predicate HasLower(p: string) { exists i | 0 <= i < |p| :: IsAsciiLower(p[i]) }

  /** `/\d/.test(p)`: `\d` is the ASCII digits only. */
  predicate HasDigit(p: string) { exists i | 0 <= i < |p| :: IsAsciiDigit(p[i]) }

  predicate IsAsciiAlnum(c: char) { IsAsciiUpper(c) || IsAsciiLower(c) || IsAsciiDigit(c) }

  /** `/[^A-Za-z0-9]/.test(p)`: any other character, non-ASCII included. */
  predicate HasSymbol(p: string) { exists i | 0 <= i < |p| :: !IsAsciiAlnum(p[i]) }

  /** The number of the five strength criteria `p` meets. */
  function CriteriaCount(p: string): (n: nat)
    ensures n <= 5
  {
    Bit(LongEnough(p)) + Bit(HasUpper(p)) + Bit(HasLower(p)) + Bit(HasDigit(p)) + Bit(HasSymbol(p))
  }

  /** `scorePassword(p)`: one point per criterion met. */
  method ScorePassword(p: string) returns (s: nat)
    ensures s == CriteriaCount(p)
    ensures 0 <= s <= 5
  {
    s := 0;
    if Utf16Length(p) >= 8 {
      s := s + 1;
    }
    if exists i | 0 <= i < |p| :: IsAsciiUpper(p[i]) {
      s := s + 1;
    }
    if exists i | 0 <= i < |p| :: IsAsciiLower(p[i]) {
      s := s + 1;
    }
    if exists i | 0 <= i < |p| :: IsAsciiDigit(p[i]) {
      s := s + 1;
    }
    if exists i | 0 <= i < |p| :: !IsAsciiAlnum(p[i]) {
      s := s + 1;
    }
  }

  /** The empty password scores 0. */
  lemma EmptyScoresZero()
    ensures CriteriaCount("") == 0
  {
  }

  /** Every score from 0 to 5 is reached. */
  lemma AllScoresReached()
    ensures CriteriaCount("") == 0
    ensures CriteriaCount("a") == 1
    ensures CriteriaCount("aA") == 2
    ensures CriteriaCount("aA1") == 3
    ensures CriteriaCount("aA1!") == 4
    ensures CriteriaCount("aA1!aaaa") == 5
  {
    assert "a"[0] == 'a';
    assert "aA"[0] == 'a' && "aA"[1] == 'A';
    assert "aA1"[0] == 'a' && "aA1"[1] == 'A' && "aA1"[2] == '1';
    assert "aA1!"[0] == 'a' && "aA1!"[1] == 'A' && "aA1!"[2] == '1' && "aA1!"[3] == '!';
    Utf16LengthBmp("aA1!");
    assert "aA1!aaaa"[0] == 'a' && "aA1!aaaa"[1] == 'A' && "aA1!aaaa"[2] == '1' && "aA1!aaaa"[3] == '!';
  }

  /** Appending characters never lowers the score. */
  lemma ScoreMonotone(p: string, q: string)
    ensures CriteriaCount(p) <= CriteriaCount(p + q)
  {
    Utf16LengthAppend(p, q);
    if HasUpper(p) {
      var i :| 0 <= i < |p| && IsAsciiUpper(p[i]);
      assert (p + q)[i] == p[i];
    }
    if HasLower(p) {
      var i :| 0 <= i < |p| && IsAsciiLower(p[i]);
      assert (p + q)[i] == p[i];
    }
    if HasDigit(p) {
      var i :| 0 <= i < |p| && IsAsciiDigit(p[i]);
      assert (p + q)[i] == p[i];
    }
    if HasSymbol(p) {
      var i :| 0 <= i < |p| && !IsAsciiAlnum(p[i]);
      assert (p + q)[i] == p[i];
    }
  }

  /** Eight characters from outside the Basic Multilingual Plane are only four
      characters but sixteen UTF-16 code units: the length criterion holds from
      the fourth such character on. */
  lemma AstralCharactersCountTwice()
    ensures LongEnough("\U{1F600}\U{1F600}\U{1F600}\U{1F600}")
  {
    Utf16LengthAstral("\U{1F600}\U{1F600}\U{1F600}\U{1F600}");
  }

  const StrengthLabel: seq<string> := ["", "Very weak", "Weak", "Okay", "Good", "Strong"]
  const StrengthBarClass: seq<string> := [
    "w-0",
    "w-1/5 bg-red-500",
    "w-2/5 bg-orange-500",
    "w-3/5 bg-yellow-500",
    "w-4/5 bg-lime-500",
    "w-full bg-green-600"
  ]

  /** The label shown for a password; the table covers every score. */
  function StrengthLabelOf(p: string): (l: string)
    ensures l == "" <==> CriteriaCount(p) == 0
  {
    StrengthLabel[CriteriaCount(p)]
  }

  /** The bar class shown for a password; the table covers every score. */
  function StrengthBarOf(p: string): (c: string)
    ensures c == "w-0" <==> CriteriaCount(p) == 0
    ensures c == "w-full bg-green-600" <==> CriteriaCount(p) == 5
  {
    StrengthBarClass[CriteriaCount(p)]
  }

  // ---------------------------------------------------------------------
  // Submit

  /** The JSON body of the sign-up reply, `{}` when it is not JSON. */
  datatype SignupData = SignupData(ok: Option<bool>, message: Option<string>, checkoutUrl: Option<string>)

  /** What `fetch` produced: a rejection with its message, or a response. */
  datatype SignupResponse = FetchThrew(errorMessage: string) | Responded(httpOk: bool, data: SignupData)

  const SignupFailed := "Signup failed"
  const NetworkError := "Network error"

  class SignupForm {
    var agree: bool
    var loading: bool
    var error: string

    constructor ()
      ensures !agree && !loading && error == ""
    {
      agree := false;
      loading := false;
      error := "";
    }

    /** `onSubmit`: nothing happens without agreement; otherwise the request
        is sent, a failure sets the error text, and a success navigates to
        the checkout URL or, without one, to "/admin". The returned value is
        the page navigated to. */
    method OnSubmit(response: SignupResponse) returns (navigateTo: Option<string>)
      modifies this`loading, this`error
      ensures !agree ==> navigateTo.None? && loading == old(loading) && error == old(error)
      ensures agree ==> !loading
      ensures agree && response.FetchThrew? ==>
                navigateTo.None? && error == (if response.errorMessage != "" then response.errorMessage else NetworkError)
      ensures agree && response.Responded? && (!response.httpOk || response.data.ok == Some(false)) ==>
                navigateTo.None? &&
                error == (if Truthy(response.data.message) then response.data.message.value else SignupFailed)
      ensures agree && response.Responded? && response.httpOk && response.data.ok != Some(false) ==>
                error == "" &&
                navigateTo == Some(if Truthy(response.data.checkoutUrl) then response.data.checkoutUrl.value else "/admin")
    {
      if !agree {
        return None;
      }
      error := "";
      loading := true;
      match response {
        case FetchThrew(m) =>
          error := if m != "" then m else NetworkError;
          navigateTo := None;
        case Responded(httpOk, data) =>
          if !httpOk || data.ok == Some(false) {
            // the thrown Error carries `data.message || "Signup failed"`, never empty
            error := if Truthy(data.message) then data.message.value else SignupFailed;
            navigateTo := None;
          } else if Truthy(data.checkoutUrl) {
            navigateTo := data.checkoutUrl;
          } else {
            navigateTo := Some("/admin");
          }
      }
      loading := false;
    }
  }
}

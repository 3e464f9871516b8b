/**
 * The password-reset request page: the e-mail pattern `^\S+@\S+$` (with
 * JavaScript's `\s` whitespace set), the submission, and the switch to the
 * "check your email" view once the request succeeds.
 */
module ResetRequest {
  import opened Wrappers

  const INVALID_EMAIL := "Invalid email"

  /** JavaScript's `\s`: ASCII whitespace plus the Unicode space separators and the byte-order mark. */
  predicate IsJsWhitespace(c: char) {
    c == ' ' || c == '\t' || c == '\n' || c == '\U{000B}' || c == '\U{000C}' || c == '\r'
    || c == '\U{00A0}' || c == '\U{1680}' || ('\U{2000}' <= c <= '\U{200A}')
    || c == '\U{2028}' || c == '\U{2029}' || c == '\U{202F}' || c == '\U{205F}'
    || c == '\U{3000}' || c == '\U{FEFF}'
  }

  /** A run of `\S`: non-empty and free of whitespace. */
  predicate NonSpaceRun(s: string) {
    s != [] && forall i :: 0 <= i < |s| ==> !IsJsWhitespace(s[i])
  }

  /**
   * What `^\S+@\S+$` matches, read off the pattern: the whole value splits as
   * `local + "@" + domain` with both parts non-empty runs of `\S`
   * (`\S` includes `@`, so either part may contain further `@`s).
   */
  ghost predicate MatchesByPattern(s: string) {
    exists i :: 0 < i < |s| - 1 && s[i] == '@' && NonSpaceRun(s[..i]) && NonSpaceRun(s[i + 1..])
  }

  /** The validator's test, computed: no whitespace anywhere and an `@` strictly inside. */
  predicate IsEmailLike(s: string) {
    (forall i :: 0 <= i < |s| ==> !IsJsWhitespace(s[i]))
    && exists i :: 0 < i < |s| - 1 && s[i] == '@'
  }

  /** The computed test agrees with the pattern on every input. */
  lemma IsEmailLikeIff(s: string)
    ensures IsEmailLike(s) <==> MatchesByPattern(s)
  {
    if IsEmailLike(s) {
      var i :| 0 < i < |s| - 1 && s[i] == '@';
      var domain := s[i + 1..];
      assert forall j :: 0 <= j < i ==> s[..i][j] == s[j];
      assert forall j :: 0 <= j < |domain| ==> domain[j] == s[i + 1 + j];
      assert NonSpaceRun(s[..i]) && NonSpaceRun(s[i + 1..]);
    }
    if MatchesByPattern(s) {
      var i :| 0 < i < |s| - 1 && s[i] == '@' && NonSpaceRun(s[..i]) && NonSpaceRun(s[i + 1..]);
      forall j | 0 <= j < |s|
        ensures !IsJsWhitespace(s[j])
      {
        if j < i {
          assert s[..i][j] == s[j];
        } else if j > i {
          assert s[i + 1..][j - i - 1] == s[j];
        }
      }
    }
  }

  function Validate(email: string): Option<string> {
    if IsEmailLike(email) then None else Some(INVALID_EMAIL)
  }

  /** Rejected: the empty value, a value without `@`, an `@` at either end, or any whitespace. */
  lemma ValidateRejects(email: string)
    ensures email == "" ==> Validate(email) == Some(INVALID_EMAIL)
    ensures (forall i :: 0 <= i < |email| ==> email[i] != '@') ==> Validate(email) == Some(INVALID_EMAIL)
    ensures (exists i :: 0 <= i < |email| && IsJsWhitespace(email[i])) ==> Validate(email) == Some(INVALID_EMAIL)
  {
  }

  /** Accepted examples: an ordinary address, and one with two `@`s that the pattern lets through. */
  lemma ValidateAccepts()
    ensures Validate("me@college.edu").None?
    ensures Validate("a@b@c").None?
  {
    assert "me@college.edu"[2] == '@';
    assert "a@b@c"[1] == '@';
  }

  /** The body of the reset-request call: the form values as they are. */
  datatype ResetRequestBody = ResetRequestBody(email: string)

  datatype RequestView = RequestForm | CheckEmail(email: string)

  class ResetRequestPage {
    var email: string
    var submitted: bool

    constructor ()
      ensures email == "" && !submitted
    {
      email := "";
      submitted := false;
    }

    method Edit(value: string)
      modifies this
      ensures email == value && submitted == old(submitted)
    {
      email := value;
    }

    /** A valid address is sent as `{ email }`; an invalid one sends nothing. */
    method Submit() returns (body: Option<ResetRequestBody>)
      ensures body.Some? <==> MatchesByPattern(email)
      ensures body.Some? ==> body.value.email == email
    {
      IsEmailLikeIff(email);
      if Validate(email).Some? {
        return None;
      }
      body := Some(ResetRequestBody(email));
    }

    /** A successful request switches the page to its confirmation view. */
    method OnSuccess()
      modifies this
      ensures submitted && email == old(email)
    {
      submitted := true;
    }

    /** The confirmation names the address the form still holds. */
    function View(): (view: RequestView)
      reads this
      ensures view.CheckEmail? <==> submitted
      ensures view.CheckEmail? ==> view.email == email
    {
      if submitted then CheckEmail(email) else RequestForm
    }
  }
}
